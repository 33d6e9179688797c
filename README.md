# pytest-call-checker, modelled in Dafny

pytest-call-checker supplies a `checker` fixture. It wraps a stand-in for a
dependency, either a plain callable or an object whose methods are faked, and
the test registers the calls it expects together with the response each one
should produce. Each call made during the test is bound to the faked
signature, compared with the pending registrations and answered by one of
them. At teardown the checker fails if a registration was never reached.

This project models the behaviour that the repository's tests pin down, and
cites those tests.

- `Values` holds call values (integers and strings) and criteria. A criterion
  is a literal compared by equality, or a predicate applied to the value.
- `Binder` works like Python's `inspect.Signature.bind` on successful
  bindings; which error a failing binding reports can differ (see
  "## Left out"). It maps positional
  arguments onto an ordered schema of parameter names with optional
  defaults, merges keyword arguments and fills defaults, giving one canonical
  name-to-value mapping.
  - `Bind` fills defaults and is used for calls and responses.
  - `BindPartial` fills no defaults and is used for registrations, so a
    registration may leave a parameter unconstrained.
- `Matcher` decides whether an expectation's criteria accept a call's
  canonical arguments.
- `Registry` holds the expectations: member tag, criteria, bound response
  arguments and a consumed flag. `Accepts` is the call-time routing rule: an
  entry accepts a call only when it was registered on the member called and
  its criteria match. `Registry` also covers the selection rules of ordered
  and unordered mode and what consuming an entry changes.
- `Messages` holds the error variants and the exact texts the tests match.
- `CallChecker` holds the following:
  - `Resolve` routes a member name (`.get`, `.post`) to its schema and rejects
    undeclared members.
  - `CallOutcome` is the pure specification of one call.
  - The class `Checker` has the interface, the response schema and the
    `ordered` flag as constants, and the expectation sequence as its one
    mutable field. `Register` and `Respond` are the two phases of
    `register(...)(...)`, `Call` is a call of the stand-in, and `Verify` is the
    teardown check.
- `Fixtures`, `CheckerTests` and `MetaTests` replay every test of
  `tests/test_checker.py` and `tests/test_meta.py` as a client of the class.
  Each test method states the outcomes the test asserts, and the exact
  message wherever the test matches one.

Some behaviour is settled by assumption, because the tests do not fix it:

- **Binder failures.** There are four: too many positional arguments,
  unexpected keyword, multiple values, and missing argument. They are checked
  in that order: arity first, then each keyword in turn, then the parameters
  in schema order.
- **Ordered mode is global.** Ordered mode tries only the globally earliest
  unconsumed expectation, whatever member it was registered on.
- **The no-match message lists every pending expectation.** It includes
  those registered on other members, as tests/test_checker.py:248-258 shows
  for `.get` when `.post` is called.
- **A non-empty pending list ends with a period.** The tests match the
  no-match message by search only up to the closing parenthesis of the last
  pending entry (tests/test_checker.py:62 and 255). The model ends the line
  with `.`, as it does after `nothing`, so the tests' exact texts include it.
- **A raising test body gets no teardown report.** This follows
  tests/test_checker.py:110-115: the body's error stays the only outcome, and
  the pending registration is not reported on top of it.

## Model

| member | source | states |
|---|---|---|
| `Binder.Bind` | tests/test_checker.py:32-41 | Binding succeeds exactly when the arguments fit the schema and every parameter ends up with a value. The result lists every parameter in schema order, with the supplied value or else the default. Too many positionals is an error. |
| `Binder.BindPartial` | tests/test_checker.py:78-81 | A registration binds without defaults. It succeeds exactly when the arguments fit. It lists in schema order only the parameters the registration supplied, and looking up each parameter gives exactly what was supplied for it. |
| `Binder.KeywordFormBindsLikePositional` | tests/test_checker.py:32-41 | Passing any suffix of the positional arguments by keyword binds to the same mapping, or fails the same way. |
| `Binder.KeywordFormRegistersLikePositional` | tests/test_checker.py:32-41 | For registrations too: passing any suffix of the positional criteria by keyword records the same criteria, or fails the same way, for every well-formed schema. |
| `Binder.Fill` | tests/test_checker.py:78-81 | Succeeds exactly when every remaining parameter has a supplied value or a default, and lists them in order with those values. Otherwise it reports a missing argument. |
| `Matcher.Matches` | tests/test_checker.py:84-96 | Criteria accept a call exactly when each criterion holds of the value the call bound to that name. A literal must be equal to the value; a predicate must accept it. Names without a criterion are not looked at. |
| `Matcher.RegisteredArgumentsMatch` | tests/test_checker.py:38-41 | Registering a call's own arguments as literal criteria always binds, and the same call matches the resulting criteria. |
| `Registry.Accepts` | tests/test_checker.py:248-260 | The definition of the routing rule, with no contract of its own: an entry accepts a call only when its member tag equals the member called and its criteria match the bound arguments, so a `.post` call is never answered by a `.get` entry. `Select`, `CallAnswers` and `CallConsumesAtMostOne` state their properties through it. |
| `Registry.Select` | tests/test_checker.py:99-107 | Only an unconsumed, accepting entry is ever selected. In ordered mode every earlier entry is consumed. In unordered mode every earlier pending entry rejects. When nothing is selected in unordered mode, every pending entry rejects. |
| `Registry.SelectFinds` | tests/test_checker.py:196-201 | An accepting unconsumed entry is selected once every entry before it is consumed or, in unordered mode, rejects the call. |
| `Registry.OrderedChoiceIsUnorderedChoice` | tests/test_checker.py:188-193 | Whatever ordered mode selects, unordered mode selects too. |
| `Registry.ConsumeRemovesOne` | tests/test_meta.py:31-35 | Consuming a pending entry removes exactly that entry from the pending ones, keeps the rest in order, and lowers their number by one. |
| `Registry.UnconsumedMembers` | tests/test_meta.py:45-51 | The pending entries are exactly the registered entries whose flag is still clear. |
| `Registry.NoneLeftIffAllConsumed` | tests/test_meta.py:31-43 | Nothing is pending exactly when every entry was consumed. |
| `Registry.UnconsumedAppend` | tests/test_checker.py:70-72 | Appending a fresh registration appends it to the pending entries. |
| `Registry.ConsumeGrows` | tests/test_checker.py:67 | Consuming an entry keeps the length, sets that entry's flag with its member, criteria and response unchanged, and leaves every other entry exactly as it was. |
| `Registry.GrowsTransitive` | tests/test_checker.py:99-107 | Only-grows is preserved over a sequence of steps. |
| `Messages.Message` | tests/test_checker.py:44-62 | The definition of every error text, with no contract of its own. A no-match text is the actual-arguments line, a newline, then `Expected argument set(s): ` followed by the pending descriptions (`Describe`) or `nothing`, and a period (`ExpectedLine`). An unknown member is `'<type>' has no attribute '<member>'`, and a teardown report is its header line followed by one description per line. The `Fixtures.*Message` lemmas check it against the texts of this test and of tests/test_checker.py:255 and 266 and tests/test_meta.py:47-48. |
| `Messages.LeftoverRenderedLikePending` | tests/test_meta.py:48 | For any non-empty list of expectations, the no-match message and the teardown report show the same descriptions (`(name=value, ...)` with an optional `.member` prefix) in the same order; only the separator differs, a comma in the no-match line and a newline in the report. |
| `CallChecker.Resolve` | tests/test_checker.py:263-279 | The plain callable resolves without a member; a declared method resolves to its own schema. Any other member is `UnknownMember(type name, member)`. |
| `CallChecker.CallConsumesAtMostOne` | tests/test_checker.py:55-67 | A call only grows the expectations. A failed call changes nothing. A successful call resolves its member and binds its arguments, then consumes exactly one pending entry that accepts them, returns that entry's response, and lowers the pending count by one. |
| `CallChecker.CallAnswers` | tests/test_checker.py:70-75 | A call is answered by the first expectation still in the running, which is then consumed. |
| `CallChecker.CallUnanswered` | tests/test_checker.py:44-65 | A call no pending expectation accepts fails with its canonical arguments and every pending expectation, and changes nothing. |
| `CallChecker.OrderedRejectsOutOfTurn` | tests/test_checker.py:99-104 | In ordered mode, when the earliest pending expectation rejects a call, the call fails even if a later entry would accept it, and nothing changes. |
| `CallChecker.RegisteredCallIsAnswered` | tests/test_checker.py:32-41 | Registering a call and then making it returns the registered response and consumes that expectation. In ordered mode this needs nothing earlier to be pending; in unordered mode it needs nothing earlier to accept. |
| `CallChecker.Checker.constructor` | tests/test_checker.py:21-29 | A new checker has the given interface, response schema and mode, and no expectations. |
| `CallChecker.Checker.Register` | tests/test_checker.py:263-268 | An undeclared member fails with that member's error. Otherwise registration succeeds exactly when the criteria fit the member's schema without defaults, and it records the member and exactly the supplied criteria, each naming a declared parameter, in schema order. |
| `CallChecker.Checker.Respond` | tests/test_checker.py:78-81 | Takes a registration on a declared member, as `Register` returns. The response arguments are bound with the response schema's defaults. Success appends one unconsumed expectation; a bind failure changes nothing. |
| `CallChecker.Checker.Call` | tests/test_checker.py:55-67 | The result and the new expectations are exactly `CallOutcome` of the old ones. The expectations only grow, and a failed call leaves them unchanged. |
| `CallChecker.Checker.Pending` | tests/test_checker.py:58-63 | Returns the unconsumed expectations in registration order. |
| `CallChecker.Checker.Verify` | tests/test_meta.py:31-51 | After a raising body, nothing is reported. Otherwise teardown reports nothing exactly when every expectation was consumed. Any report is `Unreached` of exactly the unconsumed expectations. |
| `Fixtures.MatchesOddBar` | tests/test_checker.py:84-96 | `foo=1, bar=<odd>` accepts `(x, y)` exactly when `x == 1` and `y` is odd. |
| `Fixtures.NothingExpectedMessage` | tests/test_checker.py:44-52 | The no-register text `No response found for arguments {'foo': 1, 'bar': 2}`, a newline, then `Expected argument set(s): nothing.` |
| `Fixtures.WrongRegisterMessage` | tests/test_checker.py:58-65 | The text lists the pending `(foo=1, bar=2)` under the actual `{'foo': 1, 'bar': 3}`. |
| `Fixtures.WrongMethodMessage` | tests/test_checker.py:251-258 | The text lists the pending entry with its member, as `.get(foo=1, bar=7)`. |
| `Fixtures.UnknownPutMessage` | tests/test_checker.py:264-267 | The text is `'System4' has no attribute 'put'`. |
| `Fixtures.MissingCallMessage` | tests/test_meta.py:45-51 | The teardown text is the header line, then `(foo=3, bar=4)`. |
| `CheckerTests.PassArgs` | tests/test_checker.py:32-35 | The positional registration answers the positional call with `baz=9, qux='yay'`. Teardown then reports nothing. |
| `CheckerTests.PassKwargs` | tests/test_checker.py:38-41 | The keyword form gives the same answer. Teardown then reports nothing. |
| `CheckerTests.FailNoRegister` | tests/test_checker.py:44-52 | With nothing registered, the call fails with `NoMatch` on `{'foo': 1, 'bar': 2}` and an empty pending list, and with the exact message. Teardown then reports nothing. |
| `CheckerTests.FailWrongRegister` | tests/test_checker.py:55-67 | A call that does not match fails, listing the pending entry with the exact message. The registered call then still succeeds. Teardown then reports nothing. |
| `CheckerTests.PassMultiple` | tests/test_checker.py:70-75 | Two calls made in registration order are both answered, and teardown reports nothing. |
| `CheckerTests.PassIncomplete` | tests/test_checker.py:78-81 | `register(foo=1)(baz=9)` answers `(foo=1)` with `qux` taken from the response default `'something'`. Teardown then reports nothing. |
| `CheckerTests.PassCallable` | tests/test_checker.py:84-87 | The odd-`bar` predicate accepts `bar=7`. Teardown then reports nothing. |
| `CheckerTests.FailCallable` | tests/test_checker.py:90-96 | The predicate rejects `bar=6` with `NoMatch`, and the later `bar=7` call is still answered. Teardown then reports nothing. |
| `CheckerTests.FailMultipleWrongOrder` | tests/test_checker.py:99-107 | In ordered mode the second registration's call made first fails, listing both entries. Both calls then succeed in registration order. Teardown then reports nothing. |
| `CheckerTests.DontCallFinalizer` | tests/test_checker.py:110-115 | After a raising body, teardown reports nothing, although a registration is pending. |
| `CheckerTests.NoSubclassPassArgs` | tests/test_checker.py:141-144 | The plain-callable fixture answers the positional form. Teardown then reports nothing. |
| `CheckerTests.NoSubclassPassKwargs` | tests/test_checker.py:147-150 | The plain-callable fixture answers the keyword form. Teardown then reports nothing. |
| `CheckerTests.NoSubclassFail` | tests/test_checker.py:153-161 | The plain-callable fixture gives the no-register failure and its exact message. Teardown then reports nothing. |
| `CheckerTests.UnorderedPassMultiple` | tests/test_checker.py:188-193 | Unordered, calls made in registration order are answered. Teardown then reports nothing. |
| `CheckerTests.UnorderedPassMultipleWrongOrder` | tests/test_checker.py:196-201 | Unordered, calls made in the reverse order are answered as well. Teardown then reports nothing. |
| `CheckerTests.MethodsPassKwargs` | tests/test_checker.py:231-234 | A `.get` registration answers a `.get` call. Teardown then reports nothing. |
| `CheckerTests.MethodsFailNoRegister` | tests/test_checker.py:237-245 | A `.get` call with nothing registered fails with the exact message. Teardown then reports nothing. |
| `CheckerTests.MethodsFailWrongMethod` | tests/test_checker.py:248-260 | A `.post` call does not match the `.get` entry. The message shows that entry as `.get(foo=1, bar=7)`, and the `.get` call then still succeeds. Teardown then reports nothing. |
| `CheckerTests.MethodsFailRegisterUnknownMethod` | tests/test_checker.py:263-268 | Registering on `put` fails with `UnknownMember` and its exact message. Teardown then reports nothing. |
| `CheckerTests.MethodsFailCallUnknownMethod` | tests/test_checker.py:271-279 | Calling `put` fails with `UnknownMember` and consumes nothing, so the `.get` call still succeeds. Teardown then reports nothing. |
| `MetaTests.FailMissingCall` | tests/test_meta.py:31-51 | The body's call is answered, so the test passes. Teardown then reports exactly the unconsumed `(foo=3, bar=4)` under the header. |

## Left out

- tests/test_examples.py is not part of this model. It drives an HTTP client and a subprocess through library objects.
- The pytest plumbing is not modelled: the `checker` fixture, `pytest.raises`, `xfail` and `pytester` subprocess runs. Outcomes are result and error values instead; the "one passed, one error" outcome of tests/test_meta.py is a successful call plus a teardown report.
- Signature introspection is not modelled: subclass hooks, `system2`, the methods of `System4` and the dataclass responses. Each signature is an explicit schema of names with optional defaults.
- The response factory is not run. A successful call returns the bound response arguments rather than the object built from them, so dataclass equality becomes mapping equality.
- The `AssertionError` versus `AttributeError` classes are not modelled; they become the error variants `NoMatch`, `UnknownMember` and `Unreached`.
- Python `repr` is modelled only for integers and for strings without quotes or escapes. A predicate criterion renders as `<predicate>`.
- Python's `True == 1` equality between booleans and integers is not modelled; values are integers or strings.
- Calling a method-routed stand-in directly, without a member, gives a `NotCallable` error. This case is an assumption; no test exercises it.
- The binder's error texts are assumptions in Python's style. Their exact wording is not fixed by any test.
- CallChecker.Checker.Respond — the response arguments are bound and the expectation is appended in the second phase of `register(...)(...)`, rather than appended at the first phase with a response factory run at call time. So a response that does not bind (for instance one missing `baz`) is reported at registration and records nothing, instead of failing when a call matches it. No test pins either error path.
- Binder.Bind — on failure it reports the first problem in its own order: arity, then each keyword in turn, then missing parameters. `inspect.Signature.bind` can report a different one. For example, `bar=2, baz=3` gives an unexpected keyword here but a missing `foo` in Python, and `(1, 2, 3, foo=5)` gives too many positionals here but multiple values for `foo` in Python.
- A predicate criterion is a total function on values. A Python predicate that raises (such as `bar % 2` applied to a string) is not modelled.
