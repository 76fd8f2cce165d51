// The outcome of one matching run: the pairs, the employees left without a
// partner, the algorithm tag and the statistics the three-argument
// constructor derives from them.
module MatchingResultModel {
  import opened Wrappers
  import opened JavaEmployee
  import opened JavaEmployeePair

  datatype MatchingResult = MatchingResult(
    pairs: Option<seq<EmployeePair>>,
    unmatched: Option<seq<Employee>>,
    algorithm: string,
    totalEmployees: int,
    totalPairs: int,
    successRate: real)
  {
    /** A run succeeded when it produced a non-empty pair list. */
    function IsSuccessful(): (b: bool)
      ensures b <==> pairs.Some? && |pairs.value| > 0
      ensures b ==> totalPairs > 0 || !Derived()
    {
      pairs.Some? && |pairs.value| != 0
    }

    /** Number of employees placed in a pair. */
    function MatchedCount(): (n: int)
      ensures Derived() ==> 0 <= n <= totalEmployees
      ensures Derived() ==> (n == 0 <==> !IsSuccessful())
    {
      totalPairs * 2
    }

    /** The statistics agree with the lists, as the three-argument constructor makes them. */
    predicate Derived()
    {
      && totalPairs == (if pairs.Some? then |pairs.value| else 0)
      && totalEmployees == totalPairs * 2 + (if unmatched.Some? then |unmatched.value| else 0)
      && successRate == SuccessRate(totalPairs, totalEmployees - totalPairs * 2)
    }
  }

  function Len<T>(xs: Option<seq<T>>): nat
  {
    if xs.Some? then |xs.value| else 0
  }

  /** Share of employees placed in a pair, in percent; zero when there are no employees. */
  function SuccessRate(totalPairs: nat, unmatchedCount: nat): (rate: real)
    ensures 0.0 <= rate <= 100.0
    ensures rate == 100.0 <==> totalPairs > 0 && unmatchedCount == 0
    ensures rate == 0.0 <==> totalPairs == 0
  {
    var te := totalPairs * 2 + unmatchedCount;
    if te > 0 then
      RatioFacts((totalPairs * 2) as real, te as real);
      (totalPairs * 2) as real / te as real * 100.0
    else 0.0
  }

  lemma RatioFacts(a: real, b: real)
    requires 0.0 <= a <= b && b > 0.0
    ensures 0.0 <= a / b * 100.0 <= 100.0
    ensures a / b * 100.0 == 100.0 <==> a == b
    ensures a / b * 100.0 == 0.0 <==> a == 0.0
  {
    var q := a / b;
    assert q * b == a;
    RatioAtMostOne(a, b, q);
    RatioNonNegative(a, b, q);
  }

  lemma RatioAtMostOne(a: real, b: real, q: real)
    requires 0.0 <= a <= b && b > 0.0 && q * b == a
    ensures q <= 1.0
  {
  }

  lemma RatioNonNegative(a: real, b: real, q: real)
    requires 0.0 <= a && b > 0.0 && q * b == a
    ensures q >= 0.0
  {
  }

  /**
   * The three-argument constructor: null lists count as empty, every paired
   * employee counts twice towards the total, and the success rate is the
   * share of employees placed in a pair, in percent.
   */
  function NewResult(pairs: Option<seq<EmployeePair>>, unmatched: Option<seq<Employee>>, algorithm: string): (r: MatchingResult)
    ensures r.pairs == pairs && r.unmatched == unmatched && r.algorithm == algorithm
    ensures r.Derived()
    ensures r.totalPairs == Len(pairs) && r.totalEmployees == 2 * Len(pairs) + Len(unmatched)
    ensures r.successRate == SuccessRate(Len(pairs), Len(unmatched))
  {
    var tp := if pairs.Some? then |pairs.value| else 0;
    var te := tp * 2 + (if unmatched.Some? then |unmatched.value| else 0);
    MatchingResult(pairs, unmatched, algorithm, te, tp, SuccessRate(Len(pairs), Len(unmatched)))
  }

  /** With the number of unmatched employees fixed, more pairs never lower the rate. */
  lemma {:induction false} RateMonotoneInPairs(tp1: nat, tp2: nat, um: nat)
    requires tp1 <= tp2
    ensures SuccessRate(tp1, um) <= SuccessRate(tp2, um)
  {
    if tp1 > 0 || um > 0 {
      var a, b := tp1 * 2 + um, tp2 * 2 + um;
      assert tp1 * um <= tp2 * um by { MulMonotone(tp1, tp2, um); }
      assert (tp1 * 2) * b <= (tp2 * 2) * a;
      DivCompare((tp1 * 2) as real, a as real, (tp2 * 2) as real, b as real);
    }
  }

  lemma MulMonotone(x: nat, y: nat, z: nat)
    requires x <= y
    ensures x * z <= y * z
  {
  }

  lemma DivCompare(p: real, a: real, q: real, b: real)
    requires a > 0.0 && b > 0.0 && p * b <= q * a
    ensures p / a * 100.0 <= q / b * 100.0
  {
    assert p / a == (p * b) / (a * b);
    assert q / b == (q * a) / (a * b);
  }
}
