/** The checker: a stand-in for a callable or for an object's methods that
    answers calls from registered expectations and reports, at teardown, the
    expectations no call reached. */
module CallChecker {
  import opened Wrappers
  import opened Values
  import opened Binder
  import opened Matcher
  import opened Registry
  import opened Messages

  /** What the faked dependency exposes: one callable and its parameters, or a
      type whose declared methods each have their own parameters. */
  datatype Interface =
    | Callable(name: string, call: Schema)
    | Methods(typeName: string, methods: map<string, Schema>)
  {
    function TypeName(): string {
      match this
      case Callable(n, _) => n
      case Methods(t, _) => t
    }
  }

  ghost predicate WellFormedInterface(iface: Interface) {
    match iface
    case Callable(_, s) => WellFormed(s)
    case Methods(_, ms) => forall m :: m in ms ==> WellFormed(ms[m])
  }

  /** The parameters a registration or call on `target` binds against: the
      callable itself (no member), or a declared method. */
  function Resolve(iface: Interface, target: Option<string>): (r: Result<Schema, Error>)
    ensures r.Ok? <==> (iface.Callable? && target.None?) || (iface.Methods? && target.Some? && target.value in iface.methods)
    ensures r.Ok? && iface.Callable? ==> r.value == iface.call
    ensures r.Ok? && iface.Methods? ==> r.value == iface.methods[target.value]
    ensures r.Err? && target.Some? ==> r.error == UnknownMember(iface.TypeName(), target.value)
    ensures r.Ok? && WellFormedInterface(iface) ==> WellFormed(r.value)
  {
    match target
    case None => if iface.Callable? then Ok(iface.call) else Err(NotCallable(iface.TypeName()))
    case Some(m) =>
      if iface.Methods? && m in iface.methods then Ok(iface.methods[m])
      else Err(UnknownMember(iface.TypeName(), m))
  }

  /** The first phase of a registration: the member it is made on and its
      criteria, bound without defaults. */
  datatype Registration = Registration(member: Option<string>, criteria: Mapping<Criterion>)

  /** What one call does: its result and the expectations afterwards. The
      call binds its arguments with defaults, selects an expectation and
      consumes it; when nothing is selected it fails, listing every unconsumed
      expectation, and changes nothing. */
  function CallOutcome(iface: Interface, ordered: bool, exps: seq<Expectation>,
                       target: Option<string>, pos: seq<Value>, kw: Mapping<Value>): (Result<Mapping<Value>, Error>, seq<Expectation>)
  {
    match Resolve(iface, target)
    case Err(e) => (Err(e), exps)
    case Ok(schema) =>
      match Bind(schema, pos, kw)
      case Err(b) => (Err(BindFailure(b)), exps)
      case Ok(actual) =>
        match Select(exps, ordered, target, actual, 0)
        case Some(i) => (Ok(exps[i].response), Consume(exps, i))
        case None => (Err(NoMatch(actual, Unconsumed(exps))), exps)
  }

  /** A call either fails and changes nothing, or consumes exactly one
      unconsumed expectation that accepts it and answers with that
      expectation's response. */
  lemma CallConsumesAtMostOne(iface: Interface, ordered: bool, exps: seq<Expectation>,
                              target: Option<string>, pos: seq<Value>, kw: Mapping<Value>)
    ensures var (r, after) := CallOutcome(iface, ordered, exps, target, pos, kw);
      && Grows(exps, after)
      && (r.Err? ==> after == exps)
      && (r.Ok? ==> Resolve(iface, target).Ok? && Bind(Resolve(iface, target).value, pos, kw).Ok?)
      && (r.Ok? ==> exists i :: 0 <= i < |exps| && !exps[i].consumed
                     && Accepts(exps[i], target, Bind(Resolve(iface, target).value, pos, kw).value)
                     && after == Consume(exps, i) && r.value == exps[i].response)
      && (r.Ok? ==> |Unconsumed(after)| == |Unconsumed(exps)| - 1)
  {
    var (r, after) := CallOutcome(iface, ordered, exps, target, pos, kw);
    if r.Ok? {
      var schema := Resolve(iface, target).value;
      var actual := Bind(schema, pos, kw).value;
      var i := Select(exps, ordered, target, actual, 0).value;
      ConsumeRemovesOne(exps, i);
      ConsumeGrows(exps, i);
    }
  }

  /** A call is answered by the first expectation still in the running for
      it: every earlier one is consumed or, in unordered mode, rejects it. */
  lemma CallAnswers(iface: Interface, ordered: bool, exps: seq<Expectation>, k: nat,
                    target: Option<string>, pos: seq<Value>, kw: Mapping<Value>)
    requires Resolve(iface, target).Ok? && Bind(Resolve(iface, target).value, pos, kw).Ok?
    requires k < |exps| && !exps[k].consumed && Accepts(exps[k], target, Bind(Resolve(iface, target).value, pos, kw).value)
    requires forall j :: 0 <= j < k ==>
      exps[j].consumed || (!ordered && !Accepts(exps[j], target, Bind(Resolve(iface, target).value, pos, kw).value))
    ensures CallOutcome(iface, ordered, exps, target, pos, kw) == (Ok(exps[k].response), Consume(exps, k))
  {
    SelectFinds(exps, ordered, target, Bind(Resolve(iface, target).value, pos, kw).value, 0, k);
  }

  /** A call no pending expectation accepts fails, in either mode, listing
      every pending expectation, and changes nothing. */
  lemma CallUnanswered(iface: Interface, ordered: bool, exps: seq<Expectation>,
                       target: Option<string>, pos: seq<Value>, kw: Mapping<Value>)
    requires Resolve(iface, target).Ok? && Bind(Resolve(iface, target).value, pos, kw).Ok?
    requires forall j :: 0 <= j < |exps| && !exps[j].consumed ==>
      !Accepts(exps[j], target, Bind(Resolve(iface, target).value, pos, kw).value)
    ensures CallOutcome(iface, ordered, exps, target, pos, kw)
         == (Err(NoMatch(Bind(Resolve(iface, target).value, pos, kw).value, Unconsumed(exps))), exps)
  {
  }

  /** In ordered mode only the earliest unconsumed expectation can answer: when
      it does not accept the call, the call fails even if a later one would. */
  lemma OrderedRejectsOutOfTurn(iface: Interface, exps: seq<Expectation>, k: nat,
                                target: Option<string>, pos: seq<Value>, kw: Mapping<Value>)
    requires k < |exps| && !exps[k].consumed && forall j :: 0 <= j < k ==> exps[j].consumed
    requires Resolve(iface, target).Ok? && Bind(Resolve(iface, target).value, pos, kw).Ok?
    requires !Accepts(exps[k], target, Bind(Resolve(iface, target).value, pos, kw).value)
    ensures CallOutcome(iface, true, exps, target, pos, kw).0.Err?
    ensures CallOutcome(iface, true, exps, target, pos, kw).0.error.NoMatch?
    ensures CallOutcome(iface, true, exps, target, pos, kw).1 == exps
  {
  }

  /** A call with the arguments an expectation was registered with is answered
      by it, provided it is the only candidate left: in ordered mode every
      earlier expectation must already be consumed, in unordered mode it is
      enough that no earlier pending expectation accepts the call. */
  lemma {:induction false} RegisteredCallIsAnswered(iface: Interface, ordered: bool, exps: seq<Expectation>,
                                                    target: Option<string>, pos: seq<Value>, kw: Mapping<Value>,
                                                    response: Mapping<Value>)
    requires WellFormedInterface(iface) && Resolve(iface, target).Ok?
    requires Bind(Resolve(iface, target).value, pos, kw).Ok?
    requires ordered ==> forall i :: 0 <= i < |exps| ==> exps[i].consumed
    requires !ordered ==> forall i :: 0 <= i < |exps| && !exps[i].consumed ==>
      !Accepts(exps[i], target, Bind(Resolve(iface, target).value, pos, kw).value)
    ensures BindPartial(Resolve(iface, target).value, Lits(pos), LitMap(kw)).Ok?
    ensures var e := Expectation(target, BindPartial(Resolve(iface, target).value, Lits(pos), LitMap(kw)).value, response, false);
      CallOutcome(iface, ordered, exps + [e], target, pos, kw) == (Ok(response), exps + [e.(consumed := true)])
  {
    var schema := Resolve(iface, target).value;
    RegisteredArgumentsMatch(schema, pos, kw);
    var actual := Bind(schema, pos, kw).value;
    var e := Expectation(target, BindPartial(schema, Lits(pos), LitMap(kw)).value, response, false);
    var all := exps + [e];
    assert Accepts(all[|exps|], target, actual);
    assert forall l :: 0 <= l < |exps| ==> all[l] == exps[l];
    SelectFinds(all, ordered, target, actual, 0, |exps|);
    assert Consume(all, |exps|) == exps + [e.(consumed := true)];
  }

  class Checker {
    const iface: Interface
    const responseSchema: Schema
    const ordered: bool
    var expectations: seq<Expectation>

    constructor (iface: Interface, responseSchema: Schema, ordered: bool)
      ensures this.iface == iface && this.responseSchema == responseSchema && this.ordered == ordered
      ensures expectations == []
    {
      this.iface := iface;
      this.responseSchema := responseSchema;
      this.ordered := ordered;
      expectations := [];
    }

    /** First phase of `register(...)`: the member must be declared and the
        criteria are bound to its parameters without defaults, so a
        registration may leave parameters unconstrained. */
    function Register(target: Option<string>, pos: seq<Criterion>, kw: Mapping<Criterion>): (r: Result<Registration, Error>)
      ensures Resolve(iface, target).Err? ==> r.Err? && r.error == Resolve(iface, target).error
      ensures r.Ok? <==> Resolve(iface, target).Ok? && PartiallyBindable(Resolve(iface, target).value, pos, kw)
      ensures r.Ok? ==> r.value.member == target
      ensures r.Ok? && WellFormedInterface(iface) ==>
        var schema := Resolve(iface, target).value;
        forall i :: 0 <= i < |schema| ==> Lookup(r.value.criteria, schema[i].name) == Supplied(schema, pos, kw, i)
      ensures r.Ok? && WellFormedInterface(iface) ==>
        var schema := Resolve(iface, target).value;
        forall j :: 0 <= j < |r.value.criteria| ==> Position(schema, r.value.criteria[j].0) >= 0
      ensures r.Ok? && WellFormedInterface(iface) ==>
        var schema := Resolve(iface, target).value;
        forall j, j' :: 0 <= j < j' < |r.value.criteria| ==>
          Position(schema, r.value.criteria[j].0) < Position(schema, r.value.criteria[j'].0)
    {
      var schema :- Resolve(iface, target);
      match BindPartial(schema, pos, kw)
      case Err(b) => Err(BindFailure(b))
      case Ok(c) => Ok(Registration(target, c))
    }

    /** Second phase of `register(...)(...)`: binds the response arguments with
        defaults and appends a new unconsumed expectation. `reg` is what
        `Register` returned, so its member is one this interface declares. */
    method Respond(reg: Registration, pos: seq<Value>, kw: Mapping<Value>) returns (failure: Option<Error>)
      requires Resolve(iface, reg.member).Ok?
      modifies this
      ensures match Bind(responseSchema, pos, kw)
        case Err(b) => failure == Some(BindFailure(b)) && expectations == old(expectations)
        case Ok(resp) => failure == None && expectations == old(expectations) + [Expectation(reg.member, reg.criteria, resp, false)]
      ensures Grows(old(expectations), expectations)
    {
      var bound := Bind(responseSchema, pos, kw);
      if bound.Err? {
        failure := Some(BindFailure(bound.error));
      } else {
        expectations := expectations + [Expectation(reg.member, reg.criteria, bound.value, false)];
        failure := None;
      }
    }

    /** A call of the faked callable, or of its method `target`. */
    method Call(target: Option<string>, pos: seq<Value>, kw: Mapping<Value>) returns (r: Result<Mapping<Value>, Error>)
      modifies this
      ensures (r, expectations) == CallOutcome(iface, ordered, old(expectations), target, pos, kw)
      ensures Grows(old(expectations), expectations)
      ensures r.Err? ==> expectations == old(expectations)
    {
      CallConsumesAtMostOne(iface, ordered, expectations, target, pos, kw);
      var resolved := Resolve(iface, target);
      if resolved.Err? {
        r := Err(resolved.error);
        return;
      }
      var bound := Bind(resolved.value, pos, kw);
      if bound.Err? {
        r := Err(BindFailure(bound.error));
        return;
      }
      var actual := bound.value;
      var i := 0;
      while i < |expectations|
        invariant 0 <= i <= |expectations|
        invariant expectations == old(expectations)
        invariant Select(expectations, ordered, target, actual, i) == Select(expectations, ordered, target, actual, 0)
      {
        var e := expectations[i];
        if !e.consumed {
          if Accepts(e, target, actual) {
            expectations := expectations[i := e.(consumed := true)];
            r := Ok(e.response);
            return;
          }
          if ordered {
            break;
          }
        }
        i := i + 1;
      }
      var pending := Pending();
      r := Err(NoMatch(actual, pending));
    }

    /** The expectations no call has consumed, in registration order. */
    method Pending() returns (p: seq<Expectation>)
      ensures p == Unconsumed(expectations)
    {
      p := [];
      var i := 0;
      while i < |expectations|
        invariant 0 <= i <= |expectations|
        invariant p == Unconsumed(expectations[..i])
      {
        assert expectations[..i + 1][..i] == expectations[..i];
        if !expectations[i].consumed {
          p := p + [expectations[i]];
        }
        i := i + 1;
      }
      assert expectations[..i] == expectations;
    }

    /** The teardown check. When the test body raised, nothing is reported and
        the body's own error stays the outcome; otherwise it fails exactly when
        some expectation was not reached, listing those in registration order. */
    method Verify(bodyRaised: bool) returns (report: Option<Error>)
      ensures bodyRaised ==> report == None
      ensures !bodyRaised ==> (report.None? <==> forall i :: 0 <= i < |expectations| ==> expectations[i].consumed)
      ensures report.Some? ==> report.value == Unreached(Unconsumed(expectations))
    {
      if bodyRaised {
        return None;
      }
      var left := Pending();
      NoneLeftIffAllConsumed(expectations);
      report := if |left| == 0 then None else Some(Unreached(left));
    }
  }
}
