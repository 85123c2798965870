/** apps/api/src/tax/tax.service.ts. Amounts are cents, rates are ten-thousandths (Decimal(5,4)). */
module Tax {
  import opened Wrappers

  datatype Level = State | City | County

  datatype Jurisdiction = Jurisdiction(level: Level, rate: int, adminFeeRate: Option<int>, exemptThresholdNights: int)

  datatype Breakdown = Breakdown(
    subtotal: int, stateRate: int, cityRate: int, stateAmount: int, cityAmount: int,
    totalTax: int, totalWithTax: int, adminFeeRetained: int, exempt: bool)

  const DEFAULT_EXEMPT_THRESHOLD := 30

  /** `Math.floor(amount * 100 + 1e-9)`, the argument being in cents already. */
  function RoundDown(cents: real): int {
    (cents + 0.000000001).Floor
  }

  function Find(rows: seq<Jurisdiction>, level: Level): (r: Option<Jurisdiction>)
    ensures r.Some? ==> r.value in rows && r.value.level == level
    ensures r.None? ==> forall j :: j in rows ==> j.level != level
  {
    if rows == [] then None
    else if rows[0].level == level then Some(rows[0])
    else Find(rows[1..], level)
  }

  function Share(amount: int, rate: int): int {
    RoundDown(amount as real * rate as real / 10000.0)
  }

  function ExemptThreshold(rows: seq<Jurisdiction>): int {
    var state, city := Find(rows, State), Find(rows, City);
    if state.Some? then state.value.exemptThresholdNights
    else if city.Some? then city.value.exemptThresholdNights
    else DEFAULT_EXEMPT_THRESHOLD
  }

  function RateOf(row: Option<Jurisdiction>): int {
    if row.Some? then row.value.rate else 0
  }

  /** `rows` are the active jurisdictions of the property. */
  function CalculateTax(rows: seq<Jurisdiction>, subtotal: int, nights: int): Result<Breakdown> {
    if rows == [] then Failure(NotFound)
    else
      var state, city := Find(rows, State), Find(rows, City);
      var stateRate, cityRate := RateOf(state), RateOf(city);
      var feeRate := if state.Some? && state.value.adminFeeRate.Some? then state.value.adminFeeRate.value else 0;
      if nights >= ExemptThreshold(rows) then
        Success(Breakdown(subtotal, stateRate, cityRate, 0, 0, 0, subtotal, 0, true))
      else
        var stateAmount, cityAmount := Share(subtotal, stateRate), Share(subtotal, cityRate);
        var totalTax := RoundDown((stateAmount + cityAmount) as real);
        Success(Breakdown(
          subtotal, stateRate, cityRate, stateAmount, cityAmount, totalTax,
          RoundDown((subtotal + totalTax) as real), Share(stateAmount, feeRate), false))
  }

  /** The nudge of 1e-9 never changes the floor of a multiple of a ten-thousandth. */
  lemma NudgeIsHarmless(k: int)
    ensures RoundDown(k as real / 10000.0) == k / 10000
  {
    var q := k / 10000;
    assert 10000 * q <= k <= 10000 * q + 9999;
    assert q as real <= k as real / 10000.0 <= q as real + 0.9999;
  }

  ghost predicate Harmless(parts: nat, k: int)
    requires parts >= 1
  {
    RoundDown(k as real / parts as real) == k / parts
  }

  /** Which grids the nudge respects: it changes no floor of a multiple of 1 / parts exactly when there are
      fewer than a thousand million parts to the cent. */
  lemma NudgeIsHarmlessIff(parts: nat)
    requires parts >= 1
    ensures (forall k :: Harmless(parts, k)) <==> parts < 1000000000
  {
    var n := parts as real;
    if parts < 1000000000 {
      assert 1.0 / n > 0.000000001 by { ShareOfOne(n, 1000000000.0); }
      forall k ensures Harmless(parts, k) {
        GridFloor(parts, k);
      }
    } else {
      assert 1.0 / n <= 0.000000001 by { ShareOfOne(1000000000.0, n); }
      assert (parts - 1) as real / n == 1.0 - 1.0 / n;
      assert !Harmless(parts, parts - 1);
    }
  }

  lemma ShareOfOne(a: real, b: real)
    requires 0.0 < a && 0.0 < b
    ensures a < b ==> 1.0 / a > 1.0 / b
    ensures a <= b ==> 1.0 / a >= 1.0 / b
  {
    assert (1.0 / a - 1.0 / b) * (a * b) == b - a;
  }

  lemma GridFloor(parts: nat, k: int)
    requires parts >= 1 && 1.0 / parts as real > 0.000000001
    ensures Harmless(parts, k)
  {
    var q, r, n := k / parts, k % parts, parts as real;
    assert k == parts * q + r && 0 <= r <= parts - 1;
    assert k as real / n == q as real + r as real / n;
    assert 0.0 <= r as real / n <= (parts - 1) as real / n == 1.0 - 1.0 / n;
  }

  /** On a finer grid it does: this amount is just below one cent and is rounded up to it. */
  lemma NudgeNeedsTheGrid()
    ensures RoundDown(0.9999999995) == 1 && (0.9999999995).Floor == 0
  {
  }

  lemma WholeCentsAreKept(k: int)
    ensures RoundDown(k as real) == k
  {
  }

  lemma ShareIsFloor(amount: int, rate: int)
    ensures Share(amount, rate) == amount * rate / 10000
  {
    assert amount as real * rate as real == (amount * rate) as real;
    NudgeIsHarmless(amount * rate);
  }

  ghost predicate ValidRates(rows: seq<Jurisdiction>) {
    forall j :: j in rows ==> 0 <= j.rate
  }

  /** Each tax is the floor of its share, the outer roundings change nothing, and the total is
      less than two cents below the exact tax and never above it. */
  lemma TaxBounds(rows: seq<Jurisdiction>, subtotal: int, nights: int)
    requires rows != [] && nights < ExemptThreshold(rows)
    ensures var b := CalculateTax(rows, subtotal, nights).value;
            var exact := subtotal as real * (b.stateRate + b.cityRate) as real / 10000.0;
            && CalculateTax(rows, subtotal, nights).Success?
            && b.stateAmount == subtotal * b.stateRate / 10000
            && b.cityAmount == subtotal * b.cityRate / 10000
            && b.totalTax == b.stateAmount + b.cityAmount
            && b.totalWithTax == b.subtotal + b.totalTax
            && exact - 2.0 < b.totalTax as real <= exact
  {
    var b := CalculateTax(rows, subtotal, nights).value;
    ShareIsFloor(subtotal, b.stateRate);
    ShareIsFloor(subtotal, b.cityRate);
    WholeCentsAreKept(b.stateAmount + b.cityAmount);
    WholeCentsAreKept(subtotal + b.totalTax);
    var s, c := subtotal * b.stateRate, subtotal * b.cityRate;
    assert subtotal * (b.stateRate + b.cityRate) == s + c;
    assert subtotal as real * (b.stateRate + b.cityRate) as real == (s + c) as real;
    assert 10000 * b.totalTax <= s + c < 10000 * b.totalTax + 20000;
  }

  /** More to tax never lowers the tax. */
  lemma TaxMonotone(low: int, high: int, rate: int)
    requires low <= high && 0 <= rate
    ensures Share(low, rate) <= Share(high, rate)
  {
    ShareIsFloor(low, rate);
    ShareIsFloor(high, rate);
    assert low * rate <= high * rate;
  }

  /** The row that `find` picks: the first of its level. */
  ghost predicate FirstOf(rows: seq<Jurisdiction>, level: Level, row: Jurisdiction) {
    exists i :: 0 <= i < |rows| && rows[i] == row && row.level == level && forall k :: 0 <= k < i ==> rows[k].level != level
  }

  ghost predicate NoneOf(rows: seq<Jurisdiction>, level: Level) {
    forall k :: 0 <= k < |rows| ==> rows[k].level != level
  }

  lemma {:induction false} FindsFirst(rows: seq<Jurisdiction>, level: Level)
    ensures forall row :: FirstOf(rows, level, row) ==> Find(rows, level) == Some(row)
    ensures NoneOf(rows, level) ==> Find(rows, level) == None
    decreases |rows|
  {
    if rows != [] && rows[0].level != level {
      FindsFirst(rows[1..], level);
      forall row | FirstOf(rows, level, row) ensures FirstOf(rows[1..], level, row) {
        var i :| 0 <= i < |rows| && rows[i] == row && row.level == level && forall k :: 0 <= k < i ==> rows[k].level != level;
        assert rows[1..][i - 1] == row;
      }
    }
  }

  /** Which rows decide. State tax, admin fee and threshold come from the first state row, the city tax
      from the first city row; a missing row taxes nothing, and the threshold then comes from the city row
      or is 30. A stay from the threshold on pays nothing. */
  lemma RowsDecide(rows: seq<Jurisdiction>, subtotal: int, nights: int, state: Jurisdiction, city: Jurisdiction)
    requires rows != []
    ensures CalculateTax(rows, subtotal, nights).Success?
    ensures var b := CalculateTax(rows, subtotal, nights).value;
            && b.subtotal == subtotal
            && (FirstOf(rows, State, state) ==> b.stateRate == state.rate && (b.exempt <==> nights >= state.exemptThresholdNights))
            && (NoneOf(rows, State) ==> b.stateRate == 0)
            && (NoneOf(rows, State) && FirstOf(rows, City, city) ==> (b.exempt <==> nights >= city.exemptThresholdNights))
            && (NoneOf(rows, State) && NoneOf(rows, City) ==> (b.exempt <==> nights >= 30))
            && (FirstOf(rows, City, city) ==> b.cityRate == city.rate)
            && (NoneOf(rows, City) ==> b.cityRate == 0)
            && (b.exempt ==> b.stateAmount == 0 && b.cityAmount == 0 && b.totalTax == 0 && b.totalWithTax == subtotal && b.adminFeeRetained == 0)
            && (!b.exempt ==> b.stateAmount == subtotal * b.stateRate / 10000 && b.cityAmount == subtotal * b.cityRate / 10000)
            && (!b.exempt && FirstOf(rows, State, state) && state.adminFeeRate.Some? ==>
                  b.adminFeeRetained == b.stateAmount * state.adminFeeRate.value / 10000)
  {
    FindsFirst(rows, State);
    FindsFirst(rows, City);
    if nights < ExemptThreshold(rows) {
      TaxBounds(rows, subtotal, nights);
      if FirstOf(rows, State, state) && state.adminFeeRate.Some? {
        ShareIsFloor(CalculateTax(rows, subtotal, nights).value.stateAmount, state.adminFeeRate.value);
      }
    }
  }
}
