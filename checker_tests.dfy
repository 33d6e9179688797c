/** The tests of tests/test_checker.py as client programs: each method builds
    the fixture, performs the test's registrations and calls, and states their
    outcomes and, where the test pins it, the exact message. Each `...Calls`
    lemma states what the test's calls give on the expectations registered
    before them. */
module CheckerTests {
  import opened Wrappers
  import opened Values
  import opened Binder
  import opened Registry
  import opened Messages
  import opened CallChecker
  import opened Fixtures

  // Calls on a single pending expectation, for any fixture of shape `(foo, bar=d)`.

  /** The keyword call `foo=a, bar=b` is answered by the one expectation
      registered for exactly those values on the member called. */
  lemma KeywordCallAnswered(iface: Interface, target: Option<string>, d: Option<Value>, ordered: bool, e: Expectation, a: int, b: int)
    requires Resolve(iface, target) == Ok(FooBarSchema(d))
    requires e.member == target && e.criteria == FooBarLits(a, b) && !e.consumed
    ensures CallOutcome(iface, ordered, [e], target, [], FooBar(a, b)) == (Ok(e.response), [e.(consumed := true)])
  {
    BindsKeywords(d, a, b);
    MatchesFooBar(a, b, a, b);
    CallAnswers(iface, ordered, [e], 0, target, [], FooBar(a, b));
    assert Consume([e], 0) == [e.(consumed := true)];
  }

  /** The same for the positional call `(a, b)`. */
  lemma PositionalCallAnswered(iface: Interface, d: Option<Value>, e: Expectation, a: int, b: int)
    requires iface.Callable? && iface.call == FooBarSchema(d)
    requires e.member == None && e.criteria == FooBarLits(a, b) && !e.consumed
    ensures CallOutcome(iface, true, [e], None, [Int(a), Int(b)], []) == (Ok(e.response), [e.(consumed := true)])
  {
    BindsPositionals(d, a, b);
    MatchesFooBar(a, b, a, b);
    CallAnswers(iface, true, [e], 0, None, [Int(a), Int(b)], []);
    assert Consume([e], 0) == [e.(consumed := true)];
  }

  /** With nothing registered, a call fails with its bound arguments and an
      empty pending list. */
  lemma NothingPending(iface: Interface, target: Option<string>, d: Option<Value>, a: int, b: int)
    requires Resolve(iface, target) == Ok(FooBarSchema(d))
    ensures CallOutcome(iface, true, [], target, [], FooBar(a, b)) == (Err(NoMatch(FooBar(a, b), [])), [])
  {
    BindsKeywords(d, a, b);
    CallUnanswered(iface, true, [], target, [], FooBar(a, b));
  }

  // Calls on two expectations, for any fixture of shape `(foo, bar=d)`.

  /** The first of two expectations answers the call it was registered for. */
  lemma FirstOfTwoAnswered(iface: Interface, d: Option<Value>, ordered: bool, e0: Expectation, e1: Expectation, a: int, b: int)
    requires iface.Callable? && iface.call == FooBarSchema(d)
    requires e0.member == None && e0.criteria == FooBarLits(a, b) && !e0.consumed
    ensures CallOutcome(iface, ordered, [e0, e1], None, [], FooBar(a, b)) == (Ok(e0.response), [e0.(consumed := true), e1])
  {
    BindsKeywords(d, a, b);
    MatchesFooBar(a, b, a, b);
    CallAnswers(iface, ordered, [e0, e1], 0, None, [], FooBar(a, b));
    assert Consume([e0, e1], 0) == [e0.(consumed := true), e1];
  }

  /** Once the first is consumed, the second answers the call it was registered for. */
  lemma SecondOfTwoAnswered(iface: Interface, d: Option<Value>, ordered: bool, e0: Expectation, e1: Expectation, a: int, b: int)
    requires iface.Callable? && iface.call == FooBarSchema(d) && e0.consumed
    requires e1.member == None && e1.criteria == FooBarLits(a, b) && !e1.consumed
    ensures CallOutcome(iface, ordered, [e0, e1], None, [], FooBar(a, b)) == (Ok(e1.response), [e0, e1.(consumed := true)])
  {
    BindsKeywords(d, a, b);
    MatchesFooBar(a, b, a, b);
    CallAnswers(iface, ordered, [e0, e1], 1, None, [], FooBar(a, b));
    assert Consume([e0, e1], 1) == [e0, e1.(consumed := true)];
  }

  /** Unordered, the second answers its call while a first that rejects it is still pending. */
  lemma SecondOfTwoAnsweredUnordered(iface: Interface, d: Option<Value>, e0: Expectation, e1: Expectation, x: int, y: int, a: int, b: int)
    requires iface.Callable? && iface.call == FooBarSchema(d)
    requires e0.criteria == FooBarLits(x, y) && x != a
    requires e1.member == None && e1.criteria == FooBarLits(a, b) && !e1.consumed
    ensures CallOutcome(iface, false, [e0, e1], None, [], FooBar(a, b)) == (Ok(e1.response), [e0, e1.(consumed := true)])
  {
    BindsKeywords(d, a, b);
    MatchesFooBar(x, y, a, b);
    MatchesFooBar(a, b, a, b);
    CallAnswers(iface, false, [e0, e1], 1, None, [], FooBar(a, b));
    assert Consume([e0, e1], 1) == [e0, e1.(consumed := true)];
  }

  /** One consumed expectation leaves nothing for teardown. */
  lemma OneConsumed(e: Expectation)
    requires e.consumed
    ensures forall i :: 0 <= i < |[e]| ==> [e][i].consumed
  {
  }

  /** Two consumed expectations leave nothing for teardown. */
  lemma BothConsumed(e0: Expectation, e1: Expectation)
    requires e0.consumed && e1.consumed
    ensures forall i :: 0 <= i < |[e0, e1]| ==> [e0, e1][i].consumed
  {
  }

  // The subclassed fixture.

  method PassArgs() returns (r: Result<Mapping<Value>, Error>, report: Option<Error>)
    ensures r == Ok(BazQux(9, "yay"))
    ensures report == None
  {
    var c := new Checker(FakeSystem, FakeResponse, true);
    RegistersPositionals(Some(Int(4)), Lit(Int(1)), Lit(Int(7)));
    var reg := c.Register(None, [Lit(Int(1)), Lit(Int(7))], []);
    RespondsPositionals("something", 9, "yay");
    var _ := c.Respond(reg.value, [Int(9), Str("yay")], []);
    var e := Expectation(None, FooBarLits(1, 7), BazQux(9, "yay"), false);
    assert c.expectations == [e];
    PositionalCallAnswered(FakeSystem, Some(Int(4)), e, 1, 7);
    r := c.Call(None, [Int(1), Int(7)], []);
    assert c.expectations == [e.(consumed := true)];
    OneConsumed(e.(consumed := true));
    report := c.Verify(false);
  }

  method PassKwargs() returns (r: Result<Mapping<Value>, Error>, report: Option<Error>)
    ensures r == Ok(BazQux(9, "yay"))
    ensures report == None
  {
    var c := new Checker(FakeSystem, FakeResponse, true);
    RegistersKeywords(Some(Int(4)), Lit(Int(1)), Lit(Int(7)));
    var reg := c.Register(None, [], FooBarLits(1, 7));
    RespondsKeywords("something", 9, "yay");
    var _ := c.Respond(reg.value, [], BazQux(9, "yay"));
    var e := Expectation(None, FooBarLits(1, 7), BazQux(9, "yay"), false);
    assert c.expectations == [e];
    KeywordCallAnswered(FakeSystem, None, Some(Int(4)), true, e, 1, 7);
    r := c.Call(None, [], FooBar(1, 7));
    assert c.expectations == [e.(consumed := true)];
    OneConsumed(e.(consumed := true));
    report := c.Verify(false);
  }

  method FailNoRegister() returns (r: Result<Mapping<Value>, Error>, report: Option<Error>)
    ensures r == Err(NoMatch(FooBar(1, 2), []))
    ensures Message(r.error) == "No response found for arguments {'foo': 1, 'bar': 2}" + "\n" + "Expected argument set(s): nothing."
    ensures report == None
  {
    var c := new Checker(FakeSystem, FakeResponse, true);
    NothingPending(FakeSystem, None, Some(Int(4)), 1, 2);
    r := c.Call(None, [], FooBar(1, 2));
    NothingExpectedMessage();
    report := c.Verify(false);
  }

  lemma WrongRegisterCalls(e: Expectation)
    requires e == Expectation(None, FooBarLits(1, 2), BazQux(8, "something"), false)
    ensures CallOutcome(FakeSystem, true, [e], None, [], FooBar(1, 3)) == (Err(NoMatch(FooBar(1, 3), [e])), [e])
    ensures CallOutcome(FakeSystem, true, [e], None, [], FooBar(1, 2)) == (Ok(BazQux(8, "something")), [e.(consumed := true)])
  {
    BindsKeywords(Some(Int(4)), 1, 3);
    MatchesFooBar(1, 2, 1, 3);
    CallUnanswered(FakeSystem, true, [e], None, [], FooBar(1, 3));
    assert Unconsumed([e]) == [e];
    KeywordCallAnswered(FakeSystem, None, Some(Int(4)), true, e, 1, 2);
  }

  method FailWrongRegister() returns (first: Result<Mapping<Value>, Error>, second: Result<Mapping<Value>, Error>, report: Option<Error>)
    ensures first == Err(NoMatch(FooBar(1, 3), [Expectation(None, FooBarLits(1, 2), BazQux(8, "something"), false)]))
    ensures Message(first.error)
         == "No response found for arguments {'foo': 1, 'bar': 3}" + "\n" + "Expected argument set(s): (foo=1, bar=2)."
    ensures second == Ok(BazQux(8, "something"))
    ensures report == None
  {
    var c := new Checker(FakeSystem, FakeResponse, true);
    RegistersKeywords(Some(Int(4)), Lit(Int(1)), Lit(Int(2)));
    var reg := c.Register(None, [], FooBarLits(1, 2));
    RespondsBazOnly("something", 8);
    var _ := c.Respond(reg.value, [], [("baz", Int(8))]);
    var e := Expectation(None, FooBarLits(1, 2), BazQux(8, "something"), false);
    assert c.expectations == [e];
    WrongRegisterCalls(e);
    first := c.Call(None, [], FooBar(1, 3));
    WrongRegisterMessage(e);
    second := c.Call(None, [], FooBar(1, 2));
    assert c.expectations == [e.(consumed := true)];
    OneConsumed(e.(consumed := true));
    report := c.Verify(false);
  }

  /** Both calls are answered in registration order, and nothing is left for teardown. */
  method PassMultiple() returns (first: Result<Mapping<Value>, Error>, second: Result<Mapping<Value>, Error>, report: Option<Error>)
    ensures first == Ok(BazQux(9, "yay")) && second == Ok(BazQux(20, "yo"))
    ensures report == None
  {
    var c := new Checker(FakeSystem, FakeResponse, true);
    var e0 := Expectation(None, FooBarLits(1, 7), BazQux(9, "yay"), false);
    var e1 := Expectation(None, FooBarLits(2, 16), BazQux(20, "yo"), false);
    RegistersKeywords(Some(Int(4)), Lit(Int(1)), Lit(Int(7)));
    var reg := c.Register(None, [], FooBarLits(1, 7));
    RespondsKeywords("something", 9, "yay");
    var _ := c.Respond(reg.value, [], BazQux(9, "yay"));
    assert c.expectations == [e0];
    RegistersKeywords(Some(Int(4)), Lit(Int(2)), Lit(Int(16)));
    reg := c.Register(None, [], FooBarLits(2, 16));
    RespondsKeywords("something", 20, "yo");
    var _ := c.Respond(reg.value, [], BazQux(20, "yo"));
    assert c.expectations == [e0, e1];
    FirstOfTwoAnswered(FakeSystem, Some(Int(4)), true, e0, e1, 1, 7);
    first := c.Call(None, [], FooBar(1, 7));
    assert c.expectations == [e0.(consumed := true), e1];
    SecondOfTwoAnswered(FakeSystem, Some(Int(4)), true, e0.(consumed := true), e1, 2, 16);
    second := c.Call(None, [], FooBar(2, 16));
    assert c.expectations == [e0.(consumed := true), e1.(consumed := true)];
    BothConsumed(e0.(consumed := true), e1.(consumed := true));
    report := c.Verify(false);
  }

  lemma IncompleteCall(e: Expectation)
    requires e == Expectation(None, [("foo", Lit(Int(1)))], BazQux(9, "something"), false)
    ensures CallOutcome(FakeSystem, true, [e], None, [], [("foo", Int(1))]) == (Ok(BazQux(9, "something")), [e.(consumed := true)])
  {
    BindsFooOnly(4, 1);
    MatchesFooOnly(1, 1, 4);
    CallAnswers(FakeSystem, true, [e], 0, None, [], [("foo", Int(1))]);
    assert Consume([e], 0) == [e.(consumed := true)];
  }

  /** A registration that leaves `bar` out accepts a call that leaves it to its
      default, and the response's own default fills `qux`. */
  method PassIncomplete() returns (r: Result<Mapping<Value>, Error>, report: Option<Error>)
    ensures r == Ok(BazQux(9, "something"))
    ensures report == None
  {
    var c := new Checker(FakeSystem, FakeResponse, true);
    RegistersFooOnly(Some(Int(4)), Lit(Int(1)));
    var reg := c.Register(None, [], [("foo", Lit(Int(1)))]);
    RespondsBazOnly("something", 9);
    var _ := c.Respond(reg.value, [], [("baz", Int(9))]);
    var e := Expectation(None, [("foo", Lit(Int(1)))], BazQux(9, "something"), false);
    assert c.expectations == [e];
    IncompleteCall(e);
    r := c.Call(None, [], [("foo", Int(1))]);
    assert c.expectations == [e.(consumed := true)];
    OneConsumed(e.(consumed := true));
    report := c.Verify(false);
  }

  /** `foo=1, bar=<odd>` */
  function OddBar(): Mapping<Criterion> {
    [("foo", Lit(Int(1))), ("bar", Pred(IsOdd))]
  }

  /** The predicate rejects the even `bar=6`; nothing is consumed. */
  lemma OddBarRejectsEven(e: Expectation)
    requires e.member == None && e.criteria == OddBar() && !e.consumed
    ensures CallOutcome(FakeSystem, true, [e], None, [], FooBar(1, 6)).1 == [e]
    ensures var (r, _) := CallOutcome(FakeSystem, true, [e], None, [], FooBar(1, 6));
      r.Err? && r.error.NoMatch? && r.error.actual == FooBar(1, 6) && r.error.pending == [e]
  {
    BindsKeywords(Some(Int(4)), 1, 6);
    MatchesOddBar(1, 1, 6);
    CallUnanswered(FakeSystem, true, [e], None, [], FooBar(1, 6));
    assert Unconsumed([e]) == [e];
  }

  /** The predicate accepts the odd `bar=7`. */
  lemma OddBarAcceptsOdd(e: Expectation)
    requires e.member == None && e.criteria == OddBar() && !e.consumed
    ensures CallOutcome(FakeSystem, true, [e], None, [], FooBar(1, 7)) == (Ok(e.response), [e.(consumed := true)])
  {
    BindsKeywords(Some(Int(4)), 1, 7);
    MatchesOddBar(1, 1, 7);
    CallAnswers(FakeSystem, true, [e], 0, None, [], FooBar(1, 7));
    assert Consume([e], 0) == [e.(consumed := true)];
  }

  method PassCallable() returns (r: Result<Mapping<Value>, Error>, report: Option<Error>)
    ensures r == Ok(BazQux(9, "something"))
    ensures report == None
  {
    var c := new Checker(FakeSystem, FakeResponse, true);
    RegistersKeywords(Some(Int(4)), Lit(Int(1)), Pred(IsOdd));
    var reg := c.Register(None, [], OddBar());
    RespondsKeywords("something", 9, "something");
    var _ := c.Respond(reg.value, [], BazQux(9, "something"));
    var e := Expectation(None, OddBar(), BazQux(9, "something"), false);
    assert c.expectations == [e];
    OddBarAcceptsOdd(e);
    r := c.Call(None, [], FooBar(1, 7));
    assert c.expectations == [e.(consumed := true)];
    OneConsumed(e.(consumed := true));
    report := c.Verify(false);
  }

  /** The predicate rejects an even `bar`; the rejected call consumes nothing,
      so the odd one that follows is still answered. */
  method FailCallable() returns (first: Result<Mapping<Value>, Error>, second: Result<Mapping<Value>, Error>, report: Option<Error>)
    ensures first == Err(NoMatch(FooBar(1, 6), [Expectation(None, OddBar(), BazQux(9, "something"), false)]))
    ensures second == Ok(BazQux(9, "something"))
    ensures report == None
  {
    var c := new Checker(FakeSystem, FakeResponse, true);
    RegistersKeywords(Some(Int(4)), Lit(Int(1)), Pred(IsOdd));
    var reg := c.Register(None, [], OddBar());
    RespondsBazOnly("something", 9);
    var _ := c.Respond(reg.value, [], [("baz", Int(9))]);
    var e := Expectation(None, OddBar(), BazQux(9, "something"), false);
    assert c.expectations == [e];
    OddBarRejectsEven(e);
    first := c.Call(None, [], FooBar(1, 6));
    OddBarAcceptsOdd(e);
    second := c.Call(None, [], FooBar(1, 7));
    assert c.expectations == [e.(consumed := true)];
    OneConsumed(e.(consumed := true));
    report := c.Verify(false);
  }

  lemma WrongOrderRejected(e0: Expectation, e1: Expectation)
    requires e0 == Expectation(None, FooBarLits(2, 16), BazQux(20, "yo"), false)
    requires e1 == Expectation(None, FooBarLits(1, 7), BazQux(9, "yay"), false)
    ensures CallOutcome(FakeSystem, true, [e0, e1], None, [], FooBar(1, 7)) == (Err(NoMatch(FooBar(1, 7), [e0, e1])), [e0, e1])
  {
    BindsKeywords(Some(Int(4)), 1, 7);
    MatchesFooBar(2, 16, 1, 7);
    assert Select([e0, e1], true, None, FooBar(1, 7), 0) == None;
    assert [e0, e1][..1] == [e0];
    assert Unconsumed([e0]) == [e0];
    assert Unconsumed([e0, e1]) == [e0, e1];
  }

  /** In ordered mode the second registration cannot answer first: the call
      fails and consumes nothing, and the calls made in order then succeed. */
  method FailMultipleWrongOrder() returns (first: Result<Mapping<Value>, Error>, second: Result<Mapping<Value>, Error>,
                                          third: Result<Mapping<Value>, Error>, report: Option<Error>)
    ensures first == Err(NoMatch(FooBar(1, 7), [Expectation(None, FooBarLits(2, 16), BazQux(20, "yo"), false),
                                                Expectation(None, FooBarLits(1, 7), BazQux(9, "yay"), false)]))
    ensures second == Ok(BazQux(20, "yo")) && third == Ok(BazQux(9, "yay"))
    ensures report == None
  {
    var c := new Checker(FakeSystem, FakeResponse, true);
    var e0 := Expectation(None, FooBarLits(2, 16), BazQux(20, "yo"), false);
    var e1 := Expectation(None, FooBarLits(1, 7), BazQux(9, "yay"), false);
    RegistersKeywords(Some(Int(4)), Lit(Int(2)), Lit(Int(16)));
    var reg := c.Register(None, [], FooBarLits(2, 16));
    RespondsKeywords("something", 20, "yo");
    var _ := c.Respond(reg.value, [], BazQux(20, "yo"));
    assert c.expectations == [e0];
    RegistersKeywords(Some(Int(4)), Lit(Int(1)), Lit(Int(7)));
    reg := c.Register(None, [], FooBarLits(1, 7));
    RespondsKeywords("something", 9, "yay");
    var _ := c.Respond(reg.value, [], BazQux(9, "yay"));
    assert c.expectations == [e0, e1];
    WrongOrderRejected(e0, e1);
    first := c.Call(None, [], FooBar(1, 7));
    FirstOfTwoAnswered(FakeSystem, Some(Int(4)), true, e0, e1, 2, 16);
    second := c.Call(None, [], FooBar(2, 16));
    assert c.expectations == [e0.(consumed := true), e1];
    SecondOfTwoAnswered(FakeSystem, Some(Int(4)), true, e0.(consumed := true), e1, 1, 7);
    third := c.Call(None, [], FooBar(1, 7));
    assert c.expectations == [e0.(consumed := true), e1.(consumed := true)];
    BothConsumed(e0.(consumed := true), e1.(consumed := true));
    report := c.Verify(false);
  }

  /** The body raises before any call: the pending expectation is not reported. */
  method DontCallFinalizer() returns (report: Option<Error>)
    ensures report == None
  {
    var c := new Checker(FakeSystem, FakeResponse, true);
    RegistersKeywords(Some(Int(4)), Lit(Int(1)), Pred(IsOdd));
    var reg := c.Register(None, [], OddBar());
    RespondsBazOnly("something", 9);
    var _ := c.Respond(reg.value, [], [("baz", Int(9))]);
    report := c.Verify(true);
  }

  // The fixture built from a plain callable and a response type.

  method NoSubclassPassArgs() returns (r: Result<Mapping<Value>, Error>, report: Option<Error>)
    ensures r == Ok(BazQux(9, "yay"))
    ensures report == None
  {
    var c := new Checker(System2, PlainResponse, true);
    RegistersPositionals(Some(Int(3)), Lit(Int(1)), Lit(Int(7)));
    var reg := c.Register(None, [Lit(Int(1)), Lit(Int(7))], []);
    RespondsPositionals("nothing", 9, "yay");
    var _ := c.Respond(reg.value, [Int(9), Str("yay")], []);
    var e := Expectation(None, FooBarLits(1, 7), BazQux(9, "yay"), false);
    assert c.expectations == [e];
    PositionalCallAnswered(System2, Some(Int(3)), e, 1, 7);
    r := c.Call(None, [Int(1), Int(7)], []);
    assert c.expectations == [e.(consumed := true)];
    OneConsumed(e.(consumed := true));
    report := c.Verify(false);
  }

  method NoSubclassPassKwargs() returns (r: Result<Mapping<Value>, Error>, report: Option<Error>)
    ensures r == Ok(BazQux(9, "yay"))
    ensures report == None
  {
    var c := new Checker(System2, PlainResponse, true);
    RegistersKeywords(Some(Int(3)), Lit(Int(1)), Lit(Int(7)));
    var reg := c.Register(None, [], FooBarLits(1, 7));
    RespondsKeywords("nothing", 9, "yay");
    var _ := c.Respond(reg.value, [], BazQux(9, "yay"));
    var e := Expectation(None, FooBarLits(1, 7), BazQux(9, "yay"), false);
    assert c.expectations == [e];
    KeywordCallAnswered(System2, None, Some(Int(3)), true, e, 1, 7);
    r := c.Call(None, [], FooBar(1, 7));
    assert c.expectations == [e.(consumed := true)];
    OneConsumed(e.(consumed := true));
    report := c.Verify(false);
  }

  method NoSubclassFail() returns (r: Result<Mapping<Value>, Error>, report: Option<Error>)
    ensures r == Err(NoMatch(FooBar(1, 2), []))
    ensures Message(r.error) == "No response found for arguments {'foo': 1, 'bar': 2}" + "\n" + "Expected argument set(s): nothing."
    ensures report == None
  {
    var c := new Checker(System2, PlainResponse, true);
    NothingPending(System2, None, Some(Int(3)), 1, 2);
    r := c.Call(None, [], FooBar(1, 2));
    NothingExpectedMessage();
    report := c.Verify(false);
  }

  // The unordered fixture.

  method UnorderedPassMultiple() returns (first: Result<Mapping<Value>, Error>, second: Result<Mapping<Value>, Error>, report: Option<Error>)
    ensures first == Ok(BazQux(9, "yay")) && second == Ok(BazQux(20, "yo"))
    ensures report == None
  {
    var c := new Checker(System3, PlainResponse, false);
    var e0 := Expectation(None, FooBarLits(1, 7), BazQux(9, "yay"), false);
    var e1 := Expectation(None, FooBarLits(2, 16), BazQux(20, "yo"), false);
    RegistersKeywords(Some(Int(3)), Lit(Int(1)), Lit(Int(7)));
    var reg := c.Register(None, [], FooBarLits(1, 7));
    RespondsKeywords("nothing", 9, "yay");
    var _ := c.Respond(reg.value, [], BazQux(9, "yay"));
    assert c.expectations == [e0];
    RegistersKeywords(Some(Int(3)), Lit(Int(2)), Lit(Int(16)));
    reg := c.Register(None, [], FooBarLits(2, 16));
    RespondsKeywords("nothing", 20, "yo");
    var _ := c.Respond(reg.value, [], BazQux(20, "yo"));
    assert c.expectations == [e0, e1];
    FirstOfTwoAnswered(System3, Some(Int(3)), false, e0, e1, 1, 7);
    first := c.Call(None, [], FooBar(1, 7));
    assert c.expectations == [e0.(consumed := true), e1];
    SecondOfTwoAnswered(System3, Some(Int(3)), false, e0.(consumed := true), e1, 2, 16);
    second := c.Call(None, [], FooBar(2, 16));
    assert c.expectations == [e0.(consumed := true), e1.(consumed := true)];
    BothConsumed(e0.(consumed := true), e1.(consumed := true));
    report := c.Verify(false);
  }

  /** Unordered, the later registration answers the call it matches even
      though an earlier one is still pending. */
  method UnorderedPassMultipleWrongOrder() returns (first: Result<Mapping<Value>, Error>, second: Result<Mapping<Value>, Error>, report: Option<Error>)
    ensures first == Ok(BazQux(9, "yay")) && second == Ok(BazQux(20, "yo"))
    ensures report == None
  {
    var c := new Checker(System3, PlainResponse, false);
    var e0 := Expectation(None, FooBarLits(2, 16), BazQux(20, "yo"), false);
    var e1 := Expectation(None, FooBarLits(1, 7), BazQux(9, "yay"), false);
    RegistersKeywords(Some(Int(3)), Lit(Int(2)), Lit(Int(16)));
    var reg := c.Register(None, [], FooBarLits(2, 16));
    RespondsKeywords("nothing", 20, "yo");
    var _ := c.Respond(reg.value, [], BazQux(20, "yo"));
    assert c.expectations == [e0];
    RegistersKeywords(Some(Int(3)), Lit(Int(1)), Lit(Int(7)));
    reg := c.Register(None, [], FooBarLits(1, 7));
    RespondsKeywords("nothing", 9, "yay");
    var _ := c.Respond(reg.value, [], BazQux(9, "yay"));
    assert c.expectations == [e0, e1];
    SecondOfTwoAnsweredUnordered(System3, Some(Int(3)), e0, e1, 2, 16, 1, 7);
    first := c.Call(None, [], FooBar(1, 7));
    assert c.expectations == [e0, e1.(consumed := true)];
    assert [e0, e1.(consumed := true)][0] == e0;
    FirstOfTwoAnswered(System3, Some(Int(3)), false, e0, e1.(consumed := true), 2, 16);
    second := c.Call(None, [], FooBar(2, 16));
    assert c.expectations == [e0.(consumed := true), e1.(consumed := true)];
    BothConsumed(e0.(consumed := true), e1.(consumed := true));
    report := c.Verify(false);
  }

  // The fixture routed through the methods of System4.

  lemma PostUnanswered(e: Expectation)
    requires e.member == Some("get") && !e.consumed
    ensures CallOutcome(System4, true, [e], Some("post"), [], FooBar(1, 2)) == (Err(NoMatch(FooBar(1, 2), [e])), [e])
  {
    System4Resolves("post");
    BindsKeywords(Some(Int(3)), 1, 2);
    CallUnanswered(System4, true, [e], Some("post"), [], FooBar(1, 2));
    assert Unconsumed([e]) == [e];
  }

  lemma PutRejected(exps: seq<Expectation>)
    ensures CallOutcome(System4, true, exps, Some("put"), [], FooBar(1, 2)) == (Err(UnknownMember("System4", "put")), exps)
  {
    assert "put" !in System4.methods;
  }

  method MethodsPassKwargs() returns (r: Result<Mapping<Value>, Error>, report: Option<Error>)
    ensures r == Ok(BazQux(9, "yay"))
    ensures report == None
  {
    var c := new Checker(System4, PlainResponse, true);
    RegistersKeywords(Some(Int(3)), Lit(Int(1)), Lit(Int(7)));
    var reg := c.Register(Some("get"), [], FooBarLits(1, 7));
    RespondsKeywords("nothing", 9, "yay");
    var _ := c.Respond(reg.value, [], BazQux(9, "yay"));
    var e := Expectation(Some("get"), FooBarLits(1, 7), BazQux(9, "yay"), false);
    assert c.expectations == [e];
    System4Resolves("get");
    KeywordCallAnswered(System4, Some("get"), Some(Int(3)), true, e, 1, 7);
    r := c.Call(Some("get"), [], FooBar(1, 7));
    assert c.expectations == [e.(consumed := true)];
    OneConsumed(e.(consumed := true));
    report := c.Verify(false);
  }

  method MethodsFailNoRegister() returns (r: Result<Mapping<Value>, Error>, report: Option<Error>)
    ensures r == Err(NoMatch(FooBar(1, 2), []))
    ensures Message(r.error) == "No response found for arguments {'foo': 1, 'bar': 2}" + "\n" + "Expected argument set(s): nothing."
    ensures report == None
  {
    var c := new Checker(System4, PlainResponse, true);
    System4Resolves("get");
    NothingPending(System4, Some("get"), Some(Int(3)), 1, 2);
    r := c.Call(Some("get"), [], FooBar(1, 2));
    NothingExpectedMessage();
    report := c.Verify(false);
  }

  /** A call of `post` is not answered by an expectation registered on `get`,
      which is listed, with its member, and stays pending. */
  method MethodsFailWrongMethod() returns (first: Result<Mapping<Value>, Error>, second: Result<Mapping<Value>, Error>, report: Option<Error>)
    ensures first == Err(NoMatch(FooBar(1, 2), [Expectation(Some("get"), FooBarLits(1, 7), BazQux(9, "yay"), false)]))
    ensures Message(first.error)
         == "No response found for arguments {'foo': 1, 'bar': 2}" + "\n" + "Expected argument set(s): .get(foo=1, bar=7)."
    ensures second == Ok(BazQux(9, "yay"))
    ensures report == None
  {
    var c := new Checker(System4, PlainResponse, true);
    RegistersKeywords(Some(Int(3)), Lit(Int(1)), Lit(Int(7)));
    var reg := c.Register(Some("get"), [], FooBarLits(1, 7));
    RespondsKeywords("nothing", 9, "yay");
    var _ := c.Respond(reg.value, [], BazQux(9, "yay"));
    var e := Expectation(Some("get"), FooBarLits(1, 7), BazQux(9, "yay"), false);
    assert c.expectations == [e];
    PostUnanswered(e);
    first := c.Call(Some("post"), [], FooBar(1, 2));
    WrongMethodMessage(e);
    System4Resolves("get");
    KeywordCallAnswered(System4, Some("get"), Some(Int(3)), true, e, 1, 7);
    second := c.Call(Some("get"), [], FooBar(1, 7));
    assert c.expectations == [e.(consumed := true)];
    OneConsumed(e.(consumed := true));
    report := c.Verify(false);
  }

  /** Registering on a member System4 does not declare fails at once. */
  method MethodsFailRegisterUnknownMethod() returns (r: Result<Registration, Error>, report: Option<Error>)
    ensures r == Err(UnknownMember("System4", "put"))
    ensures Message(r.error) == "'System4' has no attribute 'put'"
    ensures report == None
  {
    var c := new Checker(System4, PlainResponse, true);
    r := c.Register(Some("put"), [], FooBarLits(1, 7));
    UnknownPutMessage();
    report := c.Verify(false);
  }

  /** Calling an undeclared member fails and consumes nothing. */
  method MethodsFailCallUnknownMethod() returns (first: Result<Mapping<Value>, Error>, second: Result<Mapping<Value>, Error>, report: Option<Error>)
    ensures first == Err(UnknownMember("System4", "put"))
    ensures Message(first.error) == "'System4' has no attribute 'put'"
    ensures second == Ok(BazQux(2, "yay"))
    ensures report == None
  {
    var c := new Checker(System4, PlainResponse, true);
    RegistersKeywords(Some(Int(3)), Lit(Int(1)), Lit(Int(7)));
    var reg := c.Register(Some("get"), [], FooBarLits(1, 7));
    RespondsKeywords("nothing", 2, "yay");
    var _ := c.Respond(reg.value, [], BazQux(2, "yay"));
    var e := Expectation(Some("get"), FooBarLits(1, 7), BazQux(2, "yay"), false);
    assert c.expectations == [e];
    PutRejected([e]);
    first := c.Call(Some("put"), [], FooBar(1, 2));
    UnknownPutMessage();
    System4Resolves("get");
    KeywordCallAnswered(System4, Some("get"), Some(Int(3)), true, e, 1, 7);
    second := c.Call(Some("get"), [], FooBar(1, 7));
    assert c.expectations == [e.(consumed := true)];
    OneConsumed(e.(consumed := true));
    report := c.Verify(false);
  }
}
