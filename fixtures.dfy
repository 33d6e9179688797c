/** The fixtures of the checker's own tests: the faked signatures, argument
    builders, and what binding, matching and rendering give on them. */
module Fixtures {
  import opened Wrappers
  import opened Values
  import opened Binder
  import opened Matcher
  import opened Registry
  import opened Messages
  import opened CallChecker

  /** `(foo, bar=default)`: the signature of every faked callable and method. */
  function FooBarSchema(default: Option<Value>): Schema {
    [Param("foo", None), Param("bar", default)]
  }

  /** `(baz, qux=default)`: the response of every fixture. */
  function BazQuxSchema(default: string): Schema {
    [Param("baz", None), Param("qux", Some(Str(default)))]
  }

  /** The subclassed fixture: `call(self, foo, bar=4)` answered by
      `response(self, baz, qux="something")`. */
  const FakeSystem: Interface := Callable("FakeSystem", FooBarSchema(Some(Int(4))))
  const FakeResponse: Schema := BazQuxSchema("something")

  /** `system2(foo, bar=3)` answered by the dataclass `(baz, qux="nothing")`;
      `system3` has the same shape and is used unordered. */
  const System2: Interface := Callable("system2", FooBarSchema(Some(Int(3))))
  const System3: Interface := Callable("system3", FooBarSchema(Some(Int(3))))
  const PlainResponse: Schema := BazQuxSchema("nothing")

  /** The class `System4` with methods `get(self, foo, bar=3)` and `post(self, foo, bar=3)`. */
  const System4: Interface := Methods("System4", map["get" := FooBarSchema(Some(Int(3))), "post" := FooBarSchema(Some(Int(3)))])

  /** Both methods of System4 take `(foo, bar=3)`. */
  lemma System4Resolves(m: string)
    requires m == "get" || m == "post"
    ensures Resolve(System4, Some(m)) == Ok(FooBarSchema(Some(Int(3))))
  {
  }

  /** Arguments `foo=a, bar=b`. */
  function FooBar(a: int, b: int): Mapping<Value> {
    [("foo", Int(a)), ("bar", Int(b))]
  }

  /** Criteria `foo=a, bar=b`. */
  function FooBarLits(a: int, b: int): Mapping<Criterion> {
    [("foo", Lit(Int(a))), ("bar", Lit(Int(b)))]
  }

  /** Response arguments `baz=z, qux=q`. */
  function BazQux(z: int, q: string): Mapping<Value> {
    [("baz", Int(z)), ("qux", Str(q))]
  }

  // Bindings on the fixtures' signatures.

  lemma BindsPositionals(d: Option<Value>, a: int, b: int)
    ensures var r := Bind(FooBarSchema(d), [Int(a), Int(b)], []); r.Ok? && r.value == FooBar(a, b)
  {
    var s, pos := FooBarSchema(d), [Int(a), Int(b)];
    assert CheckKeywords(s, pos, [], 0).None?;
    assert Effective(s, pos, [], 0) == Some(Int(a));
    assert Effective(s, pos, [], 1) == Some(Int(b));
    var r := Bind(s, pos, []);
    assert r.Ok?;
    assert r.value[0] == ("foo", Int(a)) && r.value[1] == ("bar", Int(b));
  }

  lemma BindsKeywords(d: Option<Value>, a: int, b: int)
    ensures var r := Bind(FooBarSchema(d), [], FooBar(a, b)); r.Ok? && r.value == FooBar(a, b)
  {
    var s, kw := FooBarSchema(d), FooBar(a, b);
    LookupFooBar(a, b);
    assert Names(s) == ["foo", "bar"];
    assert Find(Names(s), "bar") == Some(1);
    assert CheckKeywords(s, [], kw, 1).None?;
    assert CheckKeywords(s, [], kw, 0).None?;
    assert Effective(s, [], kw, 0) == Some(Int(a));
    assert Effective(s, [], kw, 1) == Some(Int(b));
    var r := Bind(s, [], kw);
    assert r.Ok?;
    assert r.value[0] == ("foo", Int(a)) && r.value[1] == ("bar", Int(b));
  }

  lemma BindsFooOnly(default: int, a: int)
    ensures var r := Bind(FooBarSchema(Some(Int(default))), [], [("foo", Int(a))]); r.Ok? && r.value == FooBar(a, default)
  {
    var s, kw := FooBarSchema(Some(Int(default))), [("foo", Int(a))];
    assert Keys(kw) == ["foo"];
    assert Find(Keys(kw), "bar") == None;
    assert Names(s) == ["foo", "bar"];
    assert CheckKeywords(s, [], kw, 0).None?;
    assert Effective(s, [], kw, 0) == Some(Int(a));
    assert Effective(s, [], kw, 1) == Some(Int(default));
    var r := Bind(s, [], kw);
    assert r.Ok?;
    assert r.value[0] == ("foo", Int(a)) && r.value[1] == ("bar", Int(default));
  }

  lemma RegistersPositionals(d: Option<Value>, c1: Criterion, c2: Criterion)
    ensures var r := BindPartial(FooBarSchema(d), [c1, c2], []); r.Ok? && r.value == [("foo", c1), ("bar", c2)]
  {
    assert Collect(FooBarSchema(d), [c1, c2], [], 1) == [("bar", c2)];
  }

  lemma RegistersKeywords(d: Option<Value>, c1: Criterion, c2: Criterion)
    ensures var r := BindPartial(FooBarSchema(d), [], [("foo", c1), ("bar", c2)]); r.Ok? && r.value == [("foo", c1), ("bar", c2)]
  {
    var s, kw := FooBarSchema(d), [("foo", c1), ("bar", c2)];
    assert Keys(kw) == ["foo", "bar"];
    assert Find(Keys(kw), "bar") == Some(1);
    assert Collect(s, [], kw, 1) == [("bar", c2)];
  }

  lemma RegistersFooOnly(d: Option<Value>, c1: Criterion)
    ensures var r := BindPartial(FooBarSchema(d), [], [("foo", c1)]); r.Ok? && r.value == [("foo", c1)]
  {
    var s, kw := FooBarSchema(d), [("foo", c1)];
    assert Keys(kw) == ["foo"];
    assert Find(Keys(kw), "bar") == None;
    assert Collect(s, [], kw, 1) == [];
  }

  lemma RespondsPositionals(default: string, z: int, q: string)
    ensures var r := Bind(BazQuxSchema(default), [Int(z), Str(q)], []); r.Ok? && r.value == BazQux(z, q)
  {
    var s, pos := BazQuxSchema(default), [Int(z), Str(q)];
    assert CheckKeywords(s, pos, [], 0).None?;
    assert Effective(s, pos, [], 0) == Some(Int(z));
    assert Effective(s, pos, [], 1) == Some(Str(q));
    var r := Bind(s, pos, []);
    assert r.Ok?;
    assert r.value[0] == ("baz", Int(z)) && r.value[1] == ("qux", Str(q));
  }

  lemma RespondsKeywords(default: string, z: int, q: string)
    ensures var r := Bind(BazQuxSchema(default), [], BazQux(z, q)); r.Ok? && r.value == BazQux(z, q)
  {
    var kw := BazQux(z, q);
    assert Keys(kw) == ["baz", "qux"];
    assert Find(Keys(kw), "qux") == Some(1);
    assert Lookup(kw, "qux") == Some(Str(q));
    assert Names(BazQuxSchema(default)) == ["baz", "qux"];
    assert CheckKeywords(BazQuxSchema(default), [], kw, 1).None?;
  }

  lemma RespondsBazOnly(default: string, z: int)
    ensures var r := Bind(BazQuxSchema(default), [], [("baz", Int(z))]); r.Ok? && r.value == BazQux(z, default)
  {
    var s, kw := BazQuxSchema(default), [("baz", Int(z))];
    assert Keys(kw) == ["baz"];
    assert Find(Keys(kw), "qux") == None;
    assert Names(s) == ["baz", "qux"];
    assert CheckKeywords(s, [], kw, 0).None?;
    assert Effective(s, [], kw, 0) == Some(Int(z));
    assert Effective(s, [], kw, 1) == Some(Str(default));
    var r := Bind(s, [], kw);
    assert r.Ok?;
    assert r.value[0] == ("baz", Int(z)) && r.value[1] == ("qux", Str(default));
  }

  // How the fixtures' criteria judge calls.

  lemma LookupFooBar(x: int, y: int)
    ensures Lookup(FooBar(x, y), "foo") == Some(Int(x)) && Lookup(FooBar(x, y), "bar") == Some(Int(y))
  {
    assert Keys(FooBar(x, y)) == ["foo", "bar"];
    assert Find(Keys(FooBar(x, y)), "bar") == Some(1);
  }

  lemma MatchesFooBar(a: int, b: int, x: int, y: int)
    ensures Matches(FooBarLits(a, b), FooBar(x, y)) <==> a == x && b == y
  {
    LookupFooBar(x, y);
    assert FooBarLits(a, b)[1..] == [("bar", Lit(Int(b)))];
  }

  lemma MatchesOddBar(a: int, x: int, y: int)
    ensures Matches([("foo", Lit(Int(a))), ("bar", Pred(IsOdd))], FooBar(x, y)) <==> a == x && y % 2 != 0
  {
    LookupFooBar(x, y);
    var c: Mapping<Criterion> := [("foo", Lit(Int(a))), ("bar", Pred(IsOdd))];
    assert c[1..] == [("bar", Pred(IsOdd))];
  }

  lemma MatchesFooOnly(a: int, x: int, y: int)
    ensures Matches([("foo", Lit(Int(a)))], FooBar(x, y)) <==> a == x
  {
    LookupFooBar(x, y);
  }

  // The texts the tests pin, each built from its lines.

  lemma NoMatchLines(actual: Mapping<Value>, pending: seq<Expectation>, first: string, second: string)
    requires ActualLine(actual) == first && ExpectedLine(pending) == second
    ensures Message(NoMatch(actual, pending)) == first + "\n" + second
  {
  }

  lemma ActualLine12()
    ensures ActualLine(FooBar(1, 2)) == "No response found for arguments {'foo': 1, 'bar': 2}"
  {
  }

  lemma ActualLine13()
    ensures ActualLine(FooBar(1, 3)) == "No response found for arguments {'foo': 1, 'bar': 3}"
  {
  }

  lemma ExpectedLine12(e: Expectation)
    requires e.member == None && e.criteria == FooBarLits(1, 2)
    ensures ExpectedLine([e]) == "Expected argument set(s): (foo=1, bar=2)."
  {
  }

  lemma ExpectedLineGet17(e: Expectation)
    requires e.member == Some("get") && e.criteria == FooBarLits(1, 7)
    ensures ExpectedLine([e]) == "Expected argument set(s): .get(foo=1, bar=7)."
  {
  }

  lemma NothingExpectedMessage()
    ensures Message(NoMatch(FooBar(1, 2), [])) == "No response found for arguments {'foo': 1, 'bar': 2}" + "\n" + "Expected argument set(s): nothing."
  {
    var first, second := "No response found for arguments {'foo': 1, 'bar': 2}", "Expected argument set(s): nothing.";
    ActualLine12();
    assert ExpectedLine([]) == second;
    NoMatchLines(FooBar(1, 2), [], first, second);
  }

  lemma WrongRegisterMessage(e: Expectation)
    requires e.member == None && e.criteria == FooBarLits(1, 2)
    ensures Message(NoMatch(FooBar(1, 3), [e]))
         == "No response found for arguments {'foo': 1, 'bar': 3}" + "\n" + "Expected argument set(s): (foo=1, bar=2)."
  {
    var first, second := "No response found for arguments {'foo': 1, 'bar': 3}", "Expected argument set(s): (foo=1, bar=2).";
    ActualLine13();
    ExpectedLine12(e);
    NoMatchLines(FooBar(1, 3), [e], first, second);
  }

  lemma WrongMethodMessage(e: Expectation)
    requires e.member == Some("get") && e.criteria == FooBarLits(1, 7)
    ensures Message(NoMatch(FooBar(1, 2), [e]))
         == "No response found for arguments {'foo': 1, 'bar': 2}" + "\n" + "Expected argument set(s): .get(foo=1, bar=7)."
  {
    var first, second := "No response found for arguments {'foo': 1, 'bar': 2}", "Expected argument set(s): .get(foo=1, bar=7).";
    ActualLine12();
    ExpectedLineGet17(e);
    NoMatchLines(FooBar(1, 2), [e], first, second);
  }

  lemma UnknownPutMessage()
    ensures Message(UnknownMember("System4", "put")) == "'System4' has no attribute 'put'"
  {
    UnknownMemberLines("System4", "put");
    UnknownPutJoined();
  }

  lemma UnknownMemberLines(t: string, m: string)
    ensures Message(UnknownMember(t, m)) == "'" + t + "' has no attribute '" + m + "'"
  {
  }

  lemma UnknownPutJoined()
    ensures "'" + "System4" + "' has no attribute '" + "put" + "'" == "'System4' has no attribute 'put'"
  {
  }

  lemma MissingCallMessage(e: Expectation)
    requires e.member == None && e.criteria == FooBarLits(3, 4)
    ensures Message(Unreached([e])) == "Some registered calls were not reached:\n(foo=3, bar=4)"
  {
  }
}
