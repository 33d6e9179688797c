/** The checker's errors and the text each one is reported with. */
module Messages {
  import opened Values
  import opened Binder
  import opened Registry

  datatype Error =
    | BindFailure(cause: BindError)
      /** A call no pending expectation accepts: its canonical arguments and
          every unconsumed expectation, in registration order. */
    | NoMatch(actual: Mapping<Value>, pending: seq<Expectation>)
      /** Registration on, or a call of, a member the interface does not declare. */
    | UnknownMember(typeName: string, member: string)
      /** A call of a method-routed interface that names no member. */
    | NotCallable(typeName: string)
      /** Teardown: the expectations no call reached, in registration order. */
    | Unreached(leftover: seq<Expectation>)

  function DigitChar(d: nat): char
    requires d < 10
  {
    "0123456789"[d]
  }

  function NatToString(n: nat): string
    decreases n
  {
    if n < 10 then [DigitChar(n)] else NatToString(n / 10) + [DigitChar(n % 10)]
  }

  function IntToString(i: int): string {
    if i < 0 then "-" + NatToString(-i) else NatToString(i)
  }

  /** The repr of a value: decimal for integers, single-quoted for strings. */
  function Show(v: Value): string {
    match v
    case Int(n) => IntToString(n)
    case Str(s) => "'" + s + "'"
  }

  function ShowCriterion(c: Criterion): string {
    match c
    case Lit(v) => Show(v)
    case Pred(_) => "<predicate>"
  }

  function ShowEntry(p: (string, Value)): string {
    "'" + p.0 + "': " + Show(p.1)
  }

  function ShowEntries(m: Mapping<Value>): string
    decreases |m|
  {
    if |m| == 0 then ""
    else if |m| == 1 then ShowEntry(m[0])
    else ShowEntry(m[0]) + ", " + ShowEntries(m[1..])
  }

  /** A canonical mapping as a dictionary: `{'foo': 1, 'bar': 2}`. */
  function ShowArguments(m: Mapping<Value>): string {
    "{" + ShowEntries(m) + "}"
  }

  function ShowCriteria(c: Mapping<Criterion>): string
    decreases |c|
  {
    if |c| == 0 then ""
    else
      var first := c[0].0 + "=" + ShowCriterion(c[0].1);
      if |c| == 1 then first else first + ", " + ShowCriteria(c[1..])
  }

  /** An expectation's criteria as `(foo=1, bar=2)`, prefixed with `.member`
      when it was registered on a member. */
  function Describe(e: Expectation): string {
    (if e.member.Some? then "." + e.member.value else "") + "(" + ShowCriteria(e.criteria) + ")"
  }

  /** The descriptions of `es`, separated by `sep`. */
  function DescribeAll(es: seq<Expectation>, sep: string): string
    decreases |es|
  {
    if |es| == 0 then ""
    else if |es| == 1 then Describe(es[0])
    else Describe(es[0]) + sep + DescribeAll(es[1..], sep)
  }

  function BindMessage(b: BindError): string {
    match b
    case TooManyPositional(_, _) => "too many positional arguments"
    case UnexpectedKeyword(n) => "got an unexpected keyword argument '" + n + "'"
    case MultipleValues(n) => "multiple values for argument '" + n + "'"
    case MissingArgument(n) => "missing a required argument: '" + n + "'"
  }

  function ActualLine(actual: Mapping<Value>): string {
    "No response found for arguments " + ShowArguments(actual)
  }

  function ExpectedLine(pending: seq<Expectation>): string {
    "Expected argument set(s): " + (if |pending| == 0 then "nothing" else DescribeAll(pending, ", ")) + "."
  }

  function Message(e: Error): string {
    match e
    case BindFailure(b) => BindMessage(b)
    case NoMatch(actual, pending) => ActualLine(actual) + "\n" + ExpectedLine(pending)
    case UnknownMember(t, m) => "'" + t + "' has no attribute '" + m + "'"
    case NotCallable(t) => "'" + t + "' object is not callable"
    case Unreached(left) => "Some registered calls were not reached:\n" + DescribeAll(left, "\n")
  }

  /** The description of each expectation, in order. */
  function Descriptions(es: seq<Expectation>): (ds: seq<string>)
    decreases |es|
    ensures |ds| == |es|
    ensures forall i :: 0 <= i < |es| ==> ds[i] == Describe(es[i])
  {
    if |es| == 0 then [] else [Describe(es[0])] + Descriptions(es[1..])
  }

  /** `parts` separated by `sep`. */
  function Join(parts: seq<string>, sep: string): string
    decreases |parts|
  {
    if |parts| == 0 then ""
    else if |parts| == 1 then parts[0]
    else parts[0] + sep + Join(parts[1..], sep)
  }

  /** Listing expectations is joining their descriptions. */
  lemma {:induction false} DescribeAllJoins(es: seq<Expectation>, sep: string)
    decreases |es|
    ensures DescribeAll(es, sep) == Join(Descriptions(es), sep)
  {
    if |es| > 1 {
      DescribeAllJoins(es[1..], sep);
      assert Descriptions(es)[1..] == Descriptions(es[1..]);
    }
  }

  /** The no-match message lists the pending expectations' descriptions, separated by commas. */
  lemma PendingListed(es: seq<Expectation>)
    requires |es| > 0
    ensures ExpectedLine(es) == "Expected argument set(s): " + Join(Descriptions(es), ", ") + "."
  {
    DescribeAllJoins(es, ", ");
  }

  /** The teardown report lists the leftover expectations' descriptions, one per line. */
  lemma LeftoverListed(es: seq<Expectation>)
    ensures Message(Unreached(es)) == "Some registered calls were not reached:\n" + Join(Descriptions(es), "\n")
  {
    DescribeAllJoins(es, "\n");
  }

  /** Pending expectations are rendered the same way in a no-match message and
      leftover ones in the teardown report: the same descriptions in the same
      order, only the separator differs. */
  lemma LeftoverRenderedLikePending(actual: Mapping<Value>, es: seq<Expectation>)
    requires |es| > 0
    ensures Message(NoMatch(actual, es)) == ActualLine(actual) + "\n" + ExpectedLine(es)
    ensures ExpectedLine(es) == "Expected argument set(s): " + Join(Descriptions(es), ", ") + "."
    ensures Message(Unreached(es)) == "Some registered calls were not reached:\n" + Join(Descriptions(es), "\n")
  {
    PendingListed(es);
    LeftoverListed(es);
  }
}
