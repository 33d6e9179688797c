/** The expectations registered on a checker, how a call selects one of them,
    and what consuming one changes. */
module Registry {
  import opened Wrappers
  import opened Values
  import opened Binder
  import opened Matcher

  /** One registered call: the member it was registered on (None for a plain
      callable), its criteria, the bound response arguments, and whether a
      call has already used it. */
  datatype Expectation = Expectation(
    member: Option<string>,
    criteria: Mapping<Criterion>,
    response: Mapping<Value>,
    consumed: bool)

  /** A call on `target` with canonical arguments `actual` satisfies `e`. */
  predicate Accepts(e: Expectation, target: Option<string>, actual: Mapping<Value>) {
    e.member == target && Matches(e.criteria, actual)
  }

  /** The expectation a call selects, scanning from `from` in registration
      order: consumed entries are skipped; in ordered mode the first unconsumed
      entry is the only candidate, otherwise the first that accepts wins. */
  function Select(exps: seq<Expectation>, ordered: bool, target: Option<string>, actual: Mapping<Value>, from: nat): (r: Option<nat>)
    requires from <= |exps|
    decreases |exps| - from
    ensures r.Some? ==> from <= r.value < |exps| && !exps[r.value].consumed && Accepts(exps[r.value], target, actual)
    ensures r.Some? && ordered ==> forall j :: from <= j < r.value ==> exps[j].consumed
    ensures r.Some? && !ordered ==> forall j :: from <= j < r.value ==> exps[j].consumed || !Accepts(exps[j], target, actual)
    ensures r.None? && !ordered ==> forall j :: from <= j < |exps| && !exps[j].consumed ==> !Accepts(exps[j], target, actual)
    ensures r.None? && ordered ==> forall j :: from <= j < |exps| && !exps[j].consumed ==>
      !Accepts(exps[j], target, actual) || exists l :: from <= l < j && !exps[l].consumed
  {
    if from == |exps| then None
    else if exps[from].consumed then Select(exps, ordered, target, actual, from + 1)
    else if Accepts(exps[from], target, actual) then Some(from)
    else if ordered then None
    else Select(exps, ordered, target, actual, from + 1)
  }

  /** An unconsumed entry that accepts the call is selected when every entry
      before it (from `from` on) is out of the running: consumed, or in
      unordered mode not accepting. */
  lemma {:induction false} SelectFinds(exps: seq<Expectation>, ordered: bool, target: Option<string>,
                                       actual: Mapping<Value>, from: nat, k: nat)
    requires from <= k < |exps| && !exps[k].consumed && Accepts(exps[k], target, actual)
    requires forall j :: from <= j < k ==> exps[j].consumed || (!ordered && !Accepts(exps[j], target, actual))
    decreases k - from
    ensures Select(exps, ordered, target, actual, from) == Some(k)
  {
    if from < k {
      SelectFinds(exps, ordered, target, actual, from + 1, k);
    }
  }

  /** Marks entry `i` as used by a call. */
  function Consume(exps: seq<Expectation>, i: nat): seq<Expectation>
    requires i < |exps|
  {
    exps[i := exps[i].(consumed := true)]
  }

  /** The entries no call has used yet, in registration order. */
  function Unconsumed(exps: seq<Expectation>): seq<Expectation> {
    if |exps| == 0 then []
    else
      var last := exps[|exps| - 1];
      Unconsumed(exps[..|exps| - 1]) + (if last.consumed then [] else [last])
  }

  /** `after` is `before` with entries appended and some flags set: nothing is
      removed or reordered, criteria and responses never change, and a
      consumed entry stays consumed. */
  ghost predicate Grows(before: seq<Expectation>, after: seq<Expectation>) {
    && |before| <= |after|
    && forall i :: 0 <= i < |before| ==>
         && after[i] == before[i].(consumed := after[i].consumed)
         && (before[i].consumed ==> after[i].consumed)
  }

  lemma {:induction false} UnconsumedConcat(a: seq<Expectation>, b: seq<Expectation>)
    decreases |b|
    ensures Unconsumed(a + b) == Unconsumed(a) + Unconsumed(b)
  {
    if |b| > 0 {
      var ab := a + b;
      assert ab[..|ab| - 1] == a + b[..|b| - 1];
      UnconsumedConcat(a, b[..|b| - 1]);
    } else {
      assert a + b == a;
    }
  }

  lemma UnconsumedSplit(exps: seq<Expectation>, k: nat)
    requires k <= |exps|
    ensures Unconsumed(exps) == Unconsumed(exps[..k]) + Unconsumed(exps[k..])
  {
    assert exps == exps[..k] + exps[k..];
    UnconsumedConcat(exps[..k], exps[k..]);
  }

  /** The unconsumed entries before, at and after position `i`. */
  lemma UnconsumedAround(exps: seq<Expectation>, i: nat)
    requires i < |exps|
    ensures Unconsumed(exps) ==
      Unconsumed(exps[..i]) + (if exps[i].consumed then [] else [exps[i]]) + Unconsumed(exps[i + 1..])
  {
    UnconsumedSplit(exps, i + 1);
    var front := exps[..i + 1];
    assert front[..i] == exps[..i];
  }

  /** Consuming an unconsumed entry removes exactly that entry from the
      unconsumed ones and keeps the others in order. */
  lemma ConsumeRemovesOne(exps: seq<Expectation>, i: nat)
    requires i < |exps| && !exps[i].consumed
    ensures Unconsumed(exps) == Unconsumed(exps[..i]) + [exps[i]] + Unconsumed(exps[i + 1..])
    ensures Unconsumed(Consume(exps, i)) == Unconsumed(exps[..i]) + Unconsumed(exps[i + 1..])
    ensures |Unconsumed(Consume(exps, i))| == |Unconsumed(exps)| - 1
  {
    var c := Consume(exps, i);
    assert c[..i] == exps[..i] && c[i + 1..] == exps[i + 1..];
    assert c[i].consumed;
    UnconsumedAround(exps, i);
    UnconsumedAround(c, i);
    var before, after := Unconsumed(exps[..i]), Unconsumed(exps[i + 1..]);
    assert Unconsumed(c) == before + [] + after;
    assert |Unconsumed(exps)| == |before| + 1 + |after|;
  }

  /** Nothing is left unconsumed exactly when every entry was used. */
  lemma {:induction false} NoneLeftIffAllConsumed(exps: seq<Expectation>)
    decreases |exps|
    ensures Unconsumed(exps) == [] <==> forall i :: 0 <= i < |exps| ==> exps[i].consumed
  {
    if |exps| > 0 {
      var init := exps[..|exps| - 1];
      NoneLeftIffAllConsumed(init);
      assert forall i :: 0 <= i < |init| ==> init[i] == exps[i];
    }
  }

  /** The unconsumed entries are exactly the registered entries whose flag is
      still clear. */
  lemma {:induction false} UnconsumedMembers(exps: seq<Expectation>, e: Expectation)
    decreases |exps|
    ensures e in Unconsumed(exps) <==> !e.consumed && e in exps
  {
    if |exps| > 0 {
      var init := exps[..|exps| - 1];
      UnconsumedMembers(init, e);
      assert exps == init + [exps[|exps| - 1]];
    }
  }

  /** Registering appends to the unconsumed entries. */
  lemma UnconsumedAppend(exps: seq<Expectation>, e: Expectation)
    requires !e.consumed
    ensures Unconsumed(exps + [e]) == Unconsumed(exps) + [e]
  {
    assert (exps + [e])[..|exps|] == exps;
  }

  /** Whatever ordered mode accepts, unordered mode accepts too, and picks the
      same entry. */
  lemma {:induction false} OrderedChoiceIsUnorderedChoice(exps: seq<Expectation>, target: Option<string>, actual: Mapping<Value>, from: nat)
    requires from <= |exps| && Select(exps, true, target, actual, from).Some?
    decreases |exps| - from
    ensures Select(exps, false, target, actual, from) == Select(exps, true, target, actual, from)
  {
    if exps[from].consumed {
      OrderedChoiceIsUnorderedChoice(exps, target, actual, from + 1);
    }
  }

  lemma GrowsTransitive(a: seq<Expectation>, b: seq<Expectation>, c: seq<Expectation>)
    requires Grows(a, b) && Grows(b, c)
    ensures Grows(a, c)
  {
  }

  /** Consuming an entry only sets its flag: the length is kept, entry `i`
      becomes consumed with its member, criteria and response unchanged, and
      every other entry is left exactly as it was. */
  lemma ConsumeGrows(exps: seq<Expectation>, i: nat)
    requires i < |exps|
    ensures Grows(exps, Consume(exps, i))
    ensures |Consume(exps, i)| == |exps|
    ensures Consume(exps, i)[i] == exps[i].(consumed := true)
    ensures forall j :: 0 <= j < |exps| && j != i ==> Consume(exps, i)[j] == exps[j]
  {
  }
}
