/** Comparing an expectation's criteria with a call's canonical arguments. */
module Matcher {
  import opened Wrappers
  import opened Values
  import opened Binder

  /** The criterion on one name holds of the value the call bound to that name. */
  predicate CriterionHolds(c: (string, Criterion), actual: Mapping<Value>) {
    match Lookup(actual, c.0)
    case None => false
    case Some(v) => Satisfies(c.1, v)
  }

  /** Every criterion holds; names that have no criterion are not looked at, so
      an empty criteria mapping accepts every call. */
  function Matches(criteria: Mapping<Criterion>, actual: Mapping<Value>): (r: bool)
    ensures r <==> forall j :: 0 <= j < |criteria| ==> CriterionHolds(criteria[j], actual)
  {
    |criteria| == 0 || (CriterionHolds(criteria[0], actual) && Matches(criteria[1..], actual))
  }

  /** Each keyword value used as a literal criterion. */
  function LitMap(kw: Mapping<Value>): Mapping<Criterion> {
    seq(|kw|, j requires 0 <= j < |kw| => (kw[j].0, Lit(kw[j].1)))
  }

  lemma SuppliedLits(schema: Schema, pos: seq<Value>, kw: Mapping<Value>, k: nat)
    requires k < |schema| && Supplied(schema, pos, kw, k).Some?
    ensures Supplied(schema, Lits(pos), LitMap(kw), k) == Some(Lit(Supplied(schema, pos, kw, k).value))
  {
    assert Keys(LitMap(kw)) == Keys(kw);
  }

  /** Registering a call's own arguments as literal criteria gives an
      expectation that the very same call matches, whatever it left to defaults. */
  lemma {:induction false} RegisteredArgumentsMatch(schema: Schema, pos: seq<Value>, kw: Mapping<Value>)
    requires WellFormed(schema) && Bind(schema, pos, kw).Ok?
    ensures BindPartial(schema, Lits(pos), LitMap(kw)).Ok?
    ensures Matches(BindPartial(schema, Lits(pos), LitMap(kw)).value, Bind(schema, pos, kw).value)
  {
    var cpos, ckw := Lits(pos), LitMap(kw);
    assert Keys(ckw) == Keys(kw);
    forall k | 0 <= k < |ckw| ensures KeywordFits(schema, cpos, ckw, k) {
      assert KeywordFits(schema, pos, kw, k);
    }
    var c := BindPartial(schema, cpos, ckw).value;
    var a := Bind(schema, pos, kw).value;
    assert Keys(a) == Names(schema);
    assert Distinct(Keys(c)) by {
      forall j, j' | 0 <= j < j' < |c| ensures Keys(c)[j] != Keys(c)[j'] {
        assert Position(schema, c[j].0) < Position(schema, c[j'].0);
      }
    }
    forall j | 0 <= j < |c| ensures CriterionHolds(c[j], a) {
      var k := Position(schema, c[j].0);
      assert 0 <= k < |schema| && schema[k].name == c[j].0;
      LookupDistinct(c, j);
      SuppliedLits(schema, pos, kw, k);
      LookupDistinct(a, k);
    }
  }
}
