/**
 Money is stored with two decimals, so a column value is a whole number of cents. The services
 compute in dollars and compare with a tolerance of a tenth of a cent; this module ties both to cents.
 */
module Money {
  /** `Math.round`: half rounds up. */
  function RoundHalfUp(x: real): int {
    (x + 0.5).Floor
  }

  function Dollars(cents: int): real {
    cents as real / 100.0
  }

  /** A dollar amount as a two-decimal column keeps it. */
  function ToColumn(dollars: real): int {
    RoundHalfUp(dollars * 100.0)
  }

  /** `a + 0.001 >= b` in dollars is an exact comparison on whole cents. */
  predicate Covers(a: int, b: int): (r: bool)
    ensures r <==> a >= b
  {
    Dollars(a) + 0.001 >= Dollars(b)
  }

  /** Adding whole cents commutes with rounding to cents. */
  lemma ToColumnShift(cents: int, dollars: real)
    ensures ToColumn(Dollars(cents) + dollars) == cents + ToColumn(dollars)
  {
    assert (Dollars(cents) + dollars) * 100.0 + 0.5 == cents as real + (dollars * 100.0 + 0.5);
  }

  /** A request that passes the `remaining + 0.001` guard never rounds to more than what remains,
      however many decimals it has. */
  lemma GuardedRequestFits(dollars: real, remaining: int)
    requires dollars <= Dollars(remaining) + 0.001
    ensures ToColumn(dollars) <= remaining
  {
    assert dollars * 100.0 + 0.5 <= remaining as real + 0.6;
  }

  /** For a whole number of cents the guard is exact. */
  lemma GuardExactOnCents(cents: int, remaining: int)
    ensures Dollars(cents) <= Dollars(remaining) + 0.001 <==> cents <= remaining
    ensures ToColumn(Dollars(cents)) == cents
  {
    assert Dollars(cents) * 100.0 == cents as real;
  }
}
