/** Parameter schemas and the binder that turns an invocation's positional and
    keyword arguments into a canonical name-to-value mapping. */
module Binder {
  import opened Wrappers
  import opened Values

  /** One declared parameter: its name and, when it has one, its default. */
  datatype Param = Param(name: string, default: Option<Value>)

  /** The ordered parameter list of one callable. */
  type Schema = seq<Param>

  /** A canonical argument mapping: (name, value) pairs in schema order. */
  type Mapping<T> = seq<(string, T)>

  datatype BindError =
    | TooManyPositional(accepted: nat, given: nat)
    | UnexpectedKeyword(name: string)
    | MultipleValues(name: string)
    | MissingArgument(name: string)

  function Names(schema: Schema): (ns: seq<string>)
    ensures |ns| == |schema| && forall i :: 0 <= i < |schema| ==> ns[i] == schema[i].name
  {
    if |schema| == 0 then [] else [schema[0].name] + Names(schema[1..])
  }

  function Keys<T>(m: Mapping<T>): (ks: seq<string>)
    ensures |ks| == |m| && forall j :: 0 <= j < |m| ==> ks[j] == m[j].0
  {
    if |m| == 0 then [] else [m[0].0] + Keys(m[1..])
  }

  ghost predicate Distinct(keys: seq<string>) {
    forall i, j :: 0 <= i < j < |keys| ==> keys[i] != keys[j]
  }

  /** A declared parameter list never repeats a name. */
  ghost predicate WellFormed(schema: Schema) {
    Distinct(Names(schema))
  }

  /** The position of the first occurrence of `key`. */
  function Find(keys: seq<string>, key: string): (r: Option<nat>)
    ensures r.Some? ==> r.value < |keys| && keys[r.value] == key
    ensures r.Some? ==> forall i :: 0 <= i < r.value ==> keys[i] != key
    ensures r.None? <==> forall i :: 0 <= i < |keys| ==> keys[i] != key
  {
    if |keys| == 0 then None
    else if keys[0] == key then Some(0)
    else match Find(keys[1..], key)
      case None => None
      case Some(k) => Some(k + 1)
  }

  lemma FindDistinct(keys: seq<string>, i: nat)
    requires Distinct(keys) && i < |keys|
    ensures Find(keys, keys[i]) == Some(i)
  {
  }

  /** The value a mapping holds for `key`. */
  function Lookup<T>(m: Mapping<T>, key: string): Option<T> {
    match Find(Keys(m), key)
    case None => None
    case Some(j) => Some(m[j].1)
  }

  lemma LookupDistinct<T>(m: Mapping<T>, j: nat)
    requires Distinct(Keys(m)) && j < |m|
    ensures Lookup(m, m[j].0) == Some(m[j].1)
  {
    FindDistinct(Keys(m), j);
  }

  /** The schema position of `name`, or -1 when the schema does not declare it. */
  function Position(schema: Schema, name: string): int {
    match Find(Names(schema), name)
    case None => -1
    case Some(k) => k
  }

  /** What the invocation itself supplies for parameter `i`, by position or by keyword. */
  function Supplied<T>(schema: Schema, pos: seq<T>, kw: Mapping<T>, i: nat): Option<T>
    requires i < |schema|
  {
    if i < |pos| then Some(pos[i]) else Lookup(kw, schema[i].name)
  }

  /** What parameter `i` is bound to once defaults are applied. */
  function Effective(schema: Schema, pos: seq<Value>, kw: Mapping<Value>, i: nat): Option<Value>
    requires i < |schema|
  {
    match Supplied(schema, pos, kw, i)
    case Some(v) => Some(v)
    case None => schema[i].default
  }

  /** Keyword `k` names a declared parameter that no positional argument and no
      earlier keyword has already filled. */
  ghost predicate KeywordFits<T>(schema: Schema, pos: seq<T>, kw: Mapping<T>, k: nat)
    requires k < |kw|
  {
    && Position(schema, kw[k].0) >= |pos|
    && forall l :: 0 <= l < k ==> kw[l].0 != kw[k].0
  }

  ghost predicate KeywordsFit<T>(schema: Schema, pos: seq<T>, kw: Mapping<T>) {
    forall k :: 0 <= k < |kw| ==> KeywordFits(schema, pos, kw, k)
  }

  /** The invocation can be bound without filling defaults. */
  ghost predicate PartiallyBindable<T>(schema: Schema, pos: seq<T>, kw: Mapping<T>) {
    |pos| <= |schema| && KeywordsFit(schema, pos, kw)
  }

  /** The invocation can be bound, every parameter receiving a value. */
  ghost predicate Bindable(schema: Schema, pos: seq<Value>, kw: Mapping<Value>) {
    && PartiallyBindable(schema, pos, kw)
    && forall i :: 0 <= i < |schema| ==> Effective(schema, pos, kw, i).Some?
  }

  /** The first keyword, from `k` on, that does not fit, as its error. */
  function CheckKeywords<T>(schema: Schema, pos: seq<T>, kw: Mapping<T>, k: nat): (r: Option<BindError>)
    requires k <= |kw|
    decreases |kw| - k
    ensures r.None? <==> forall k' :: k <= k' < |kw| ==> KeywordFits(schema, pos, kw, k')
    ensures r.Some? ==> r.value.UnexpectedKeyword? || r.value.MultipleValues?
  {
    if k == |kw| then None
    else
      var name := kw[k].0;
      match Find(Names(schema), name)
      case None =>
        assert !KeywordFits(schema, pos, kw, k);
        Some(UnexpectedKeyword(name))
      case Some(i) =>
        if i < |pos| || Find(Keys(kw[..k]), name).Some? then
          assert !KeywordFits(schema, pos, kw, k);
          Some(MultipleValues(name))
        else
          assert KeywordFits(schema, pos, kw, k) by {
            forall l | 0 <= l < k ensures kw[l].0 != name {
              assert Keys(kw[..k])[l] == kw[l].0;
            }
          }
          CheckKeywords(schema, pos, kw, k + 1)
  }

  /** Parameters `i..` with defaults applied; the first one left without a value
      is reported as missing. */
  function Fill(schema: Schema, pos: seq<Value>, kw: Mapping<Value>, i: nat): (r: Result<Mapping<Value>, BindError>)
    requires i <= |schema|
    decreases |schema| - i
    ensures r.Ok? <==> forall k :: i <= k < |schema| ==> Effective(schema, pos, kw, k).Some?
    ensures r.Ok? ==> |r.value| == |schema| - i
    ensures r.Ok? ==> forall k :: i <= k < |schema| ==>
      r.value[k - i] == (schema[k].name, Effective(schema, pos, kw, k).value)
    ensures r.Err? ==> r.error.MissingArgument?
  {
    if i == |schema| then Ok([])
    else match Effective(schema, pos, kw, i)
      case None => Err(MissingArgument(schema[i].name))
      case Some(v) =>
        var rest :- Fill(schema, pos, kw, i + 1);
        Ok([(schema[i].name, v)] + rest)
  }

  /** The supplied parameters among `i..`, in schema order. */
  function Collect<T>(schema: Schema, pos: seq<T>, kw: Mapping<T>, i: nat): Mapping<T>
    requires i <= |schema|
    decreases |schema| - i
  {
    if i == |schema| then []
    else match Supplied(schema, pos, kw, i)
      case None => Collect(schema, pos, kw, i + 1)
      case Some(v) => [(schema[i].name, v)] + Collect(schema, pos, kw, i + 1)
  }

  lemma PositionOfName(schema: Schema, k: nat)
    requires WellFormed(schema) && k < |schema|
    ensures Position(schema, schema[k].name) == k
  {
    FindDistinct(Names(schema), k);
  }

  /** The collected names are declared at positions `i..`, in increasing order. */
  lemma {:induction false} CollectPositions<T>(schema: Schema, pos: seq<T>, kw: Mapping<T>, i: nat)
    requires WellFormed(schema) && i <= |schema|
    decreases |schema| - i
    ensures forall j :: 0 <= j < |Collect(schema, pos, kw, i)| ==> Position(schema, Collect(schema, pos, kw, i)[j].0) >= i
    ensures forall j, j' :: 0 <= j < j' < |Collect(schema, pos, kw, i)| ==>
      Position(schema, Collect(schema, pos, kw, i)[j].0) < Position(schema, Collect(schema, pos, kw, i)[j'].0)
  {
    if i < |schema| {
      CollectPositions(schema, pos, kw, i + 1);
      PositionOfName(schema, i);
    }
  }

  /** Each parameter from `i` on is collected with exactly what the call supplied. */
  lemma {:induction false} CollectLookup<T>(schema: Schema, pos: seq<T>, kw: Mapping<T>, i: nat)
    requires WellFormed(schema) && i <= |schema|
    decreases |schema| - i
    ensures forall k :: i <= k < |schema| ==> Lookup(Collect(schema, pos, kw, i), schema[k].name) == Supplied(schema, pos, kw, k)
  {
    if i < |schema| {
      var rest := Collect(schema, pos, kw, i + 1);
      var m := Collect(schema, pos, kw, i);
      CollectLookup(schema, pos, kw, i + 1);
      CollectPositions(schema, pos, kw, i + 1);
      PositionOfName(schema, i);
      assert Lookup(rest, schema[i].name) == None by {
        forall j | 0 <= j < |rest| ensures Keys(rest)[j] != schema[i].name {
        }
      }
      if Supplied(schema, pos, kw, i).Some? {
        assert Keys(m)[1..] == Keys(rest);
        forall k | i < k < |schema| ensures Lookup(m, schema[k].name) == Lookup(rest, schema[k].name) {
          PositionOfName(schema, k);
        }
      }
    }
  }

  lemma CollectSpec<T>(schema: Schema, pos: seq<T>, kw: Mapping<T>)
    ensures WellFormed(schema) ==> forall j :: 0 <= j < |Collect(schema, pos, kw, 0)| ==>
      Position(schema, Collect(schema, pos, kw, 0)[j].0) >= 0
    ensures WellFormed(schema) ==> forall j, j' :: 0 <= j < j' < |Collect(schema, pos, kw, 0)| ==>
      Position(schema, Collect(schema, pos, kw, 0)[j].0) < Position(schema, Collect(schema, pos, kw, 0)[j'].0)
    ensures WellFormed(schema) ==> forall i :: 0 <= i < |schema| ==>
      Lookup(Collect(schema, pos, kw, 0), schema[i].name) == Supplied(schema, pos, kw, i)
  {
    if WellFormed(schema) {
      CollectPositions(schema, pos, kw, 0);
      CollectLookup(schema, pos, kw, 0);
    }
  }

  /** Binds an invocation, applying defaults: every parameter of the schema gets
      a value, in schema order. */
  function Bind(schema: Schema, pos: seq<Value>, kw: Mapping<Value>): (r: Result<Mapping<Value>, BindError>)
    ensures r.Ok? <==> Bindable(schema, pos, kw)
    ensures r.Ok? ==> |r.value| == |schema|
    ensures r.Ok? ==> forall i :: 0 <= i < |schema| ==>
      r.value[i] == (schema[i].name, Effective(schema, pos, kw, i).value)
    ensures |pos| > |schema| ==> r == Err(TooManyPositional(|schema|, |pos|))
  {
    if |pos| > |schema| then Err(TooManyPositional(|schema|, |pos|))
    else match CheckKeywords(schema, pos, kw, 0)
      case Some(e) => Err(e)
      case None => Fill(schema, pos, kw, 0)
  }

  /** Binds an invocation without applying defaults: only the supplied
      parameters appear, in schema order. */
  function BindPartial<T>(schema: Schema, pos: seq<T>, kw: Mapping<T>): (r: Result<Mapping<T>, BindError>)
    ensures r.Ok? <==> PartiallyBindable(schema, pos, kw)
    ensures r.Ok? && WellFormed(schema) ==> forall j :: 0 <= j < |r.value| ==> Position(schema, r.value[j].0) >= 0
    ensures r.Ok? && WellFormed(schema) ==> forall j, j' :: 0 <= j < j' < |r.value| ==>
      Position(schema, r.value[j].0) < Position(schema, r.value[j'].0)
    ensures r.Ok? && WellFormed(schema) ==> forall i :: 0 <= i < |schema| ==>
      Lookup(r.value, schema[i].name) == Supplied(schema, pos, kw, i)
  {
    if |pos| > |schema| then Err(TooManyPositional(|schema|, |pos|))
    else match CheckKeywords(schema, pos, kw, 0)
      case Some(e) => Err(e)
      case None =>
        CollectSpec(schema, pos, kw);
        Ok(Collect(schema, pos, kw, 0))
  }

  /** Arguments `k..` of `vs` passed by keyword instead of by position. */
  function KeywordsFor<T>(schema: Schema, vs: seq<T>, k: nat): Mapping<T>
    requires k <= |vs| <= |schema|
  {
    seq(|vs| - k, j requires 0 <= j < |vs| - k => (schema[k + j].name, vs[k + j]))
  }

  /** Binding only depends on what each parameter is bound to. */
  lemma {:induction false} FillCongruent(schema: Schema, pos1: seq<Value>, kw1: Mapping<Value>,
                                         pos2: seq<Value>, kw2: Mapping<Value>, i: nat)
    requires i <= |schema|
    requires forall k :: i <= k < |schema| ==> Effective(schema, pos1, kw1, k) == Effective(schema, pos2, kw2, k)
    decreases |schema| - i
    ensures Fill(schema, pos1, kw1, i) == Fill(schema, pos2, kw2, i)
  {
    if i < |schema| {
      assert Effective(schema, pos1, kw1, i) == Effective(schema, pos2, kw2, i);
      FillCongruent(schema, pos1, kw1, pos2, kw2, i + 1);
    }
  }

  /** Collecting only depends on what each parameter was supplied with. */
  lemma {:induction false} CollectCongruent<T>(schema: Schema, pos1: seq<T>, kw1: Mapping<T>,
                                              pos2: seq<T>, kw2: Mapping<T>, i: nat)
    requires i <= |schema|
    requires forall k :: i <= k < |schema| ==> Supplied(schema, pos1, kw1, k) == Supplied(schema, pos2, kw2, k)
    decreases |schema| - i
    ensures Collect(schema, pos1, kw1, i) == Collect(schema, pos2, kw2, i)
  {
    if i < |schema| {
      assert Supplied(schema, pos1, kw1, i) == Supplied(schema, pos2, kw2, i);
      CollectCongruent(schema, pos1, kw1, pos2, kw2, i + 1);
    }
  }

  /** The keywords of `KeywordsFor` name parameters `k..`, in order, each once. */
  lemma KeywordsForPositions<T>(schema: Schema, vs: seq<T>, k: nat)
    requires WellFormed(schema) && k <= |vs| <= |schema|
    ensures forall j :: 0 <= j < |vs| - k ==> Position(schema, KeywordsFor(schema, vs, k)[j].0) == k + j
    ensures Distinct(Keys(KeywordsFor(schema, vs, k)))
  {
    var kw := KeywordsFor(schema, vs, k);
    forall j | 0 <= j < |kw| ensures Position(schema, kw[j].0) == k + j {
      PositionOfName(schema, k + j);
    }
    forall j, j' | 0 <= j < j' < |kw| ensures Keys(kw)[j] != Keys(kw)[j'] {
      assert Position(schema, kw[j].0) != Position(schema, kw[j'].0);
    }
  }

  /** Every keyword of `KeywordsFor` fits after the first `k` positionals. */
  lemma KeywordsForFit<T>(schema: Schema, vs: seq<T>, k: nat)
    requires WellFormed(schema) && k <= |vs| <= |schema|
    ensures KeywordsFit(schema, vs[..k], KeywordsFor(schema, vs, k))
  {
    var kw := KeywordsFor(schema, vs, k);
    KeywordsForPositions(schema, vs, k);
    forall j | 0 <= j < |kw| ensures KeywordFits(schema, vs[..k], kw, j) {
      forall l | 0 <= l < j ensures kw[l].0 != kw[j].0 {
        assert Keys(kw)[l] != Keys(kw)[j];
      }
    }
  }

  /** Each parameter receives the same value in both forms. */
  lemma KeywordsForSupplied<T>(schema: Schema, vs: seq<T>, k: nat, i: nat)
    requires WellFormed(schema) && k <= |vs| <= |schema| && i < |schema|
    ensures Supplied(schema, vs[..k], KeywordsFor(schema, vs, k), i) == Supplied(schema, vs, [], i)
  {
    var kw := KeywordsFor(schema, vs, k);
    if i < k {
      assert vs[..k][i] == vs[i];
    } else if i < |vs| {
      KeywordsForPositions(schema, vs, k);
      assert kw[i - k] == (schema[i].name, vs[i]);
      LookupDistinct(kw, i - k);
    } else {
      KeywordsForAbsent(schema, vs, k, i);
    }
  }

  /** A parameter past the arguments is not among the keywords. */
  lemma KeywordsForAbsent<T>(schema: Schema, vs: seq<T>, k: nat, i: nat)
    requires WellFormed(schema) && k <= |vs| <= i < |schema|
    ensures Lookup(KeywordsFor(schema, vs, k), schema[i].name) == None
  {
    var kw := KeywordsFor(schema, vs, k);
    KeywordsForPositions(schema, vs, k);
    PositionOfName(schema, i);
    forall j | 0 <= j < |kw| ensures Keys(kw)[j] != schema[i].name {
      assert Position(schema, kw[j].0) == k + j;
    }
    assert Find(Keys(kw), schema[i].name) == None;
  }

  /** Passing any suffix of the positional arguments by keyword instead binds
      to the same canonical mapping, or fails the same way. */
  lemma {:induction false} KeywordFormBindsLikePositional(schema: Schema, vs: seq<Value>, k: nat)
    requires WellFormed(schema) && k <= |vs| <= |schema|
    ensures Bind(schema, vs[..k], KeywordsFor(schema, vs, k)) == Bind(schema, vs, [])
  {
    var pos, kw := vs[..k], KeywordsFor(schema, vs, k);
    KeywordsForFit(schema, vs, k);
    assert CheckKeywords(schema, pos, kw, 0).None?;
    assert CheckKeywords(schema, vs, [], 0).None?;
    forall i | 0 <= i < |schema| ensures Effective(schema, pos, kw, i) == Effective(schema, vs, [], i) {
      KeywordsForSupplied(schema, vs, k, i);
    }
    FillCongruent(schema, pos, kw, vs, [], 0);
  }

  /** The same holds for registrations: passing any suffix of the positional
      criteria by keyword records the same criteria, or fails the same way. */
  lemma {:induction false} KeywordFormRegistersLikePositional<T>(schema: Schema, vs: seq<T>, k: nat)
    requires WellFormed(schema) && k <= |vs| <= |schema|
    ensures BindPartial(schema, vs[..k], KeywordsFor(schema, vs, k)) == BindPartial(schema, vs, [])
  {
    var pos, kw := vs[..k], KeywordsFor(schema, vs, k);
    KeywordsForFit(schema, vs, k);
    assert CheckKeywords(schema, pos, kw, 0).None?;
    assert CheckKeywords(schema, vs, [], 0).None?;
    forall i | 0 <= i < |schema| ensures Supplied(schema, pos, kw, i) == Supplied(schema, vs, [], i) {
      KeywordsForSupplied(schema, vs, k, i);
    }
    CollectCongruent(schema, pos, kw, vs, [], 0);
  }
}
