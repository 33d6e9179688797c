/** The values a faked callable receives and returns, and the criteria an
    expectation places on them. */
module Values {

  /** The argument values of the model: integers and strings. */
  datatype Value = Int(n: int) | Str(s: string)

  /** A per-parameter check: a literal compared by equality, or a predicate
      applied to the actual value. */
  datatype Criterion = Lit(expected: Value) | Pred(test: Value -> bool)

  predicate Satisfies(c: Criterion, v: Value) {
    match c
    case Lit(x) => x == v
    case Pred(f) => f(v)
  }

  /** Each value used as a literal criterion. */
  function Lits(vs: seq<Value>): seq<Criterion> {
    seq(|vs|, i requires 0 <= i < |vs| => Lit(vs[i]))
  }

  /** Python's `bool(x % 2)` for an integer `x`. */
  function IsOdd(v: Value): bool {
    v.Int? && v.n % 2 != 0
  }
}
