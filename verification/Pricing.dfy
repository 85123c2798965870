/** apps/api/src/pricing/pricing.service.ts. Amounts are cents, dates are day numbers. */
module Pricing {
  import opened Wrappers
  import Money
  import Tax
  import CancellationPolicy

  datatype Property = Property(
    baseNightlyRate: int, cleaningFee: int, minStay: int, tiers: Option<seq<CancellationPolicy.Tier>>)

  datatype Quote = Quote(
    nightlyRate: int, nights: int, subtotal: int, stateTax: int, cityTax: int, totalTax: int, total: int)

  /** The cleaning fee is spread over the nights and baked into the nightly rate. */
  function GuestNightlyRate(p: Property, nights: int): int
    requires nights >= 1
  {
    Money.RoundHalfUp(p.baseNightlyRate as real + p.cleaningFee as real / nights as real)
  }

  function GetQuote(property: Option<Property>, rows: seq<Tax.Jurisdiction>, checkIn: int, checkOut: int): Result<Quote> {
    var nights := checkOut - checkIn;
    if nights < 1 then Failure(ValidationFailed)
    else if property.None? then Failure(NotFound)
    else if nights < property.value.minStay then Failure(MinStayViolation)
    else
      QuoteAtRate(GuestNightlyRate(property.value, nights), rows, nights)
  }

  function QuoteAtRate(rate: int, rows: seq<Tax.Jurisdiction>, nights: int): Result<Quote> {
    var subtotal := Money.RoundHalfUp(rate as real * nights as real);
    match Tax.CalculateTax(rows, subtotal, nights)
    case Failure(e) => Failure(e)
    case Success(t) => Success(Quote(rate, nights, subtotal, t.stateAmount, t.cityAmount, t.totalTax, t.totalWithTax))
  }

  /** The arithmetic that every stored booking inherits from its quote. */
  lemma QuoteAddsUp(property: Option<Property>, rows: seq<Tax.Jurisdiction>, checkIn: int, checkOut: int)
    requires GetQuote(property, rows, checkIn, checkOut).Success?
    ensures var q := GetQuote(property, rows, checkIn, checkOut).value;
            && q.nights == checkOut - checkIn >= 1
            && q.subtotal == q.nightlyRate * q.nights
            && q.totalTax == q.stateTax + q.cityTax
            && q.total == q.subtotal + q.totalTax
  {
    var q := GetQuote(property, rows, checkIn, checkOut).value;
    SubtotalIsProduct(q.nightlyRate, q.nights);
    if q.nights < Tax.ExemptThreshold(rows) {
      Tax.TaxBounds(rows, q.subtotal, q.nights);
    }
  }

  lemma SubtotalIsProduct(rate: int, nights: int)
    ensures Money.RoundHalfUp(rate as real * nights as real) == rate * nights
  {
    assert rate as real * nights as real == (rate * nights) as real;
  }

  /** The subtotal is within half a cent per night of base * nights + cleaning. */
  lemma SubtotalBounds(p: Property, nights: int)
    requires nights >= 1
    ensures var exact := p.baseNightlyRate * nights + p.cleaningFee;
            var subtotal := GuestNightlyRate(p, nights) * nights;
            2 * exact - nights < 2 * subtotal <= 2 * exact + nights
  {
    RoundedRateScales(p.baseNightlyRate, p.cleaningFee, nights, GuestNightlyRate(p, nights));
  }

  lemma RoundedRateScales(base: int, fee: int, nights: int, rate: int)
    requires nights >= 1
    requires rate as real <= base as real + fee as real / nights as real + 0.5 < rate as real + 1.0
    ensures 2 * (base * nights + fee) - nights < 2 * (rate * nights) <= 2 * (base * nights + fee) + nights
  {
    var n, share := nights as real, fee as real / nights as real;
    assert share * n == fee as real;
    var above, below := base as real + share + 0.5 - rate as real, rate as real + 0.5 - base as real - share;
    ProductSign(above, n);
    ProductSign(below, n);
    var b, r := base as real * n, rate as real * n;
    assert above * n == b + fee as real + 0.5 * n - r;
    assert below * n == r + 0.5 * n - b - fee as real;
    assert b == (base * nights) as real && r == (rate * nights) as real;
  }

  lemma ProductSign(x: real, n: real)
    requires x >= 0.0 && n > 0.0
    ensures x * n >= 0.0
    ensures x > 0.0 ==> x * n > 0.0
  {
  }

  // ---- one more night ----

  /** What the guest pays of the cleaning fee once it is spread over the nights and rounded per night. */
  function Spread(fee: int, nights: int): int
    requires nights >= 1
  {
    nights * Money.RoundHalfUp(fee as real / nights as real)
  }

  lemma SubtotalSplits(p: Property, nights: int)
    requires nights >= 1
    ensures GuestNightlyRate(p, nights) * nights == p.baseNightlyRate * nights + Spread(p.cleaningFee, nights)
  {
    var share := p.cleaningFee as real / nights as real;
    assert p.baseNightlyRate as real + share + 0.5 == p.baseNightlyRate as real + (share + 0.5);
    assert GuestNightlyRate(p, nights) == p.baseNightlyRate + Money.RoundHalfUp(share);
  }

  /** What the guest loses by the rounding of the longer stay, and saves by its exemption. */
  function Drop(p: Property, rows: seq<Tax.Jurisdiction>, q: Quote): int
    requires q.nights >= 1
  {
    Spread(p.cleaningFee, q.nights) - Spread(p.cleaningFee, q.nights + 1)
    + if q.nights + 1 == Tax.ExemptThreshold(rows) then q.totalTax else 0
  }

  /** One more night costs no less exactly when the base rate covers what the rounded cleaning fee shrinks
      by, plus, where the stay becomes tax free with that night, the whole tax. */
  lemma OneMoreNightCostsNoLessIff(p: Property, rows: seq<Tax.Jurisdiction>, checkIn: int, checkOut: int)
    requires Tax.ValidRates(rows)
    requires GetQuote(Some(p), rows, checkIn, checkOut).Success?
    ensures var q := GetQuote(Some(p), rows, checkIn, checkOut).value;
            && q.nights == checkOut - checkIn >= 1
            && GetQuote(Some(p), rows, checkIn, checkOut + 1).Success?
            && (q.total <= GetQuote(Some(p), rows, checkIn, checkOut + 1).value.total <==> Drop(p, rows, q) <= p.baseNightlyRate)
  {
    hide GetQuote, GuestNightlyRate, Spread, Tax.CalculateTax, Tax.ExemptThreshold, Tax.ValidRates;
    QuotedTotal(p, rows, checkIn, checkOut);
    QuotedTotal(p, rows, checkIn, checkOut + 1);
    var nights := checkOut - checkIn;
    var low, high := GuestNightlyRate(p, nights) * nights, GuestNightlyRate(p, nights + 1) * (nights + 1);
    SubtotalsDiffer(p, nights);
    TotalGrowsIff(rows, low, high, nights);
  }

  lemma SubtotalsDiffer(p: Property, nights: int)
    requires nights >= 1
    ensures GuestNightlyRate(p, nights + 1) * (nights + 1) - GuestNightlyRate(p, nights) * nights
            == p.baseNightlyRate + Spread(p.cleaningFee, nights + 1) - Spread(p.cleaningFee, nights)
  {
    hide GuestNightlyRate, Spread;
    SubtotalSplits(p, nights);
    SubtotalSplits(p, nights + 1);
    assert p.baseNightlyRate * (nights + 1) == p.baseNightlyRate * nights + p.baseNightlyRate;
  }

  /** Below the threshold, and from it on, totals compare like subtotals; at it the tax is saved. */
  lemma TotalGrowsIff(rows: seq<Tax.Jurisdiction>, low: int, high: int, nights: int)
    requires rows != [] && Tax.ValidRates(rows)
    ensures Tax.CalculateTax(rows, low, nights).Success? && Tax.CalculateTax(rows, high, nights + 1).Success?
    ensures var tax := Tax.CalculateTax(rows, low, nights).value.totalTax;
            Tax.CalculateTax(rows, low, nights).value.totalWithTax <= Tax.CalculateTax(rows, high, nights + 1).value.totalWithTax
            <==> low + (if nights + 1 == Tax.ExemptThreshold(rows) then tax else 0) <= high
  {
    if nights < Tax.ExemptThreshold(rows) {
      Tax.TaxBounds(rows, low, nights);
      if nights + 1 < Tax.ExemptThreshold(rows) {
        Tax.TaxBounds(rows, high, nights + 1);
        if low <= high { TaxGrows(rows, low, high); } else { TaxGrows(rows, high, low); }
      }
    }
  }

  lemma TaxGrows(rows: seq<Tax.Jurisdiction>, low: int, high: int)
    requires Tax.ValidRates(rows) && low <= high
    ensures var state, city := Tax.RateOf(Tax.Find(rows, Tax.State)), Tax.RateOf(Tax.Find(rows, Tax.City));
            low * state / 10000 + low * city / 10000 <= high * state / 10000 + high * city / 10000
  {
    var state, city := Tax.RateOf(Tax.Find(rows, Tax.State)), Tax.RateOf(Tax.Find(rows, Tax.City));
    Tax.TaxMonotone(low, high, state);
    Tax.TaxMonotone(low, high, city);
    Tax.ShareIsFloor(low, state);
    Tax.ShareIsFloor(high, state);
    Tax.ShareIsFloor(low, city);
    Tax.ShareIsFloor(high, city);
  }

  /** So one more night never lowers the total if the base rate in cents is at least the number of nights
      and that night does not make the stay tax free. */
  lemma OneMoreNightCostsNoLess(p: Property, rows: seq<Tax.Jurisdiction>, checkIn: int, checkOut: int)
    requires Tax.ValidRates(rows)
    requires p.baseNightlyRate >= checkOut - checkIn
    requires checkOut + 1 - checkIn != Tax.ExemptThreshold(rows)
    requires GetQuote(Some(p), rows, checkIn, checkOut).Success?
    ensures GetQuote(Some(p), rows, checkIn, checkOut + 1).Success?
    ensures GetQuote(Some(p), rows, checkIn, checkOut).value.total
            <= GetQuote(Some(p), rows, checkIn, checkOut + 1).value.total
  {
    OneMoreNightCostsNoLessIff(p, rows, checkIn, checkOut);
    SpreadShrinks(p, checkOut - checkIn);
  }

  /** Rounding moves the cleaning fee by at most half a cent per night of either stay. */
  lemma SpreadShrinks(p: Property, nights: int)
    requires nights >= 1
    ensures Spread(p.cleaningFee, nights) - Spread(p.cleaningFee, nights + 1) <= nights
  {
    SubtotalBounds(p, nights);
    SubtotalBounds(p, nights + 1);
    SubtotalSplits(p, nights);
    SubtotalSplits(p, nights + 1);
    hide Spread, GuestNightlyRate;
  }

  /** One cent less is too little: at one cent a night and one cent of cleaning, the third night makes
      the stay cheaper. */
  lemma OneCentLessIsTooLittle()
    ensures var p := Some(Property(1, 1, 1, None));
            var rows := [Tax.Jurisdiction(Tax.City, 0, None, 30)];
            && GetQuote(p, rows, 0, 2).Success? && GetQuote(p, rows, 0, 3).Success?
            && GetQuote(p, rows, 0, 3).value.total < GetQuote(p, rows, 0, 2).value.total
  {
    var p := Property(1, 1, 1, None);
    var rows := [Tax.Jurisdiction(Tax.City, 0, None, 30)];
    QuotedTotal(p, rows, 0, 2);
    OneMoreNightCostsNoLessIff(p, rows, 0, 2);
    assert Tax.ExemptThreshold(rows) == 30;
    hide GetQuote, Spread, Tax.ExemptThreshold, Tax.ValidRates;
    OneCentSpread();
  }

  lemma OneCentSpread()
    ensures Spread(1, 2) == 2 && Spread(1, 3) == 0
  {
    assert 1.0 / 2.0 + 0.5 == 1.0;
    assert 0.0 <= 1.0 / 3.0 + 0.5 < 1.0;
  }

  /** When a quote is given, and the amounts it carries. */
  lemma QuotedTotal(p: Property, rows: seq<Tax.Jurisdiction>, checkIn: int, checkOut: int)
    ensures GetQuote(Some(p), rows, checkIn, checkOut).Success?
            <==> checkOut > checkIn && checkOut - checkIn >= p.minStay && rows != []
    ensures GetQuote(Some(p), rows, checkIn, checkOut).Success? ==>
              var nights := checkOut - checkIn;
              var q := GetQuote(Some(p), rows, checkIn, checkOut).value;
              var tax := Tax.CalculateTax(rows, GuestNightlyRate(p, nights) * nights, nights).value;
              && q.nights == nights && q.nightlyRate == GuestNightlyRate(p, nights) && q.subtotal == q.nightlyRate * nights
              && q.stateTax == tax.stateAmount && q.cityTax == tax.cityAmount
              && q.total == tax.totalWithTax && q.totalTax == tax.totalTax
  {
    var nights := checkOut - checkIn;
    if nights >= 1 {
      TotalAtRate(GuestNightlyRate(p, nights), rows, nights);
    }
  }

  lemma TotalAtRate(rate: int, rows: seq<Tax.Jurisdiction>, nights: int)
    ensures QuoteAtRate(rate, rows, nights).Success? <==> rows != []
    ensures rows != [] ==>
              var q := QuoteAtRate(rate, rows, nights).value;
              var tax := Tax.CalculateTax(rows, rate * nights, nights).value;
              && q.nights == nights && q.nightlyRate == rate && q.subtotal == rate * nights
              && q.stateTax == tax.stateAmount && q.cityTax == tax.cityAmount
              && q.total == tax.totalWithTax && q.totalTax == tax.totalTax
  {
    SubtotalIsProduct(rate, nights);
  }

  /** At the threshold the last night makes the stay tax free and the total drops. */
  lemma ExemptionLowersTotal()
    ensures var rows := [Tax.Jurisdiction(Tax.City, 900, None, 30)];
            var p := Some(Property(10000, 0, 2, None));
            && GetQuote(p, rows, 0, 29).Success? && GetQuote(p, rows, 0, 30).Success?
            && GetQuote(p, rows, 0, 30).value.total < GetQuote(p, rows, 0, 29).value.total
  {
    var rows := [Tax.Jurisdiction(Tax.City, 900, None, 30)];
    var p := Property(10000, 0, 2, None);
    assert Tax.Find(rows, Tax.State).None?;
    assert Tax.Find(rows, Tax.City) == Some(rows[0]);
    QuoteAddsUp(Some(p), rows, 0, 29);
    QuoteAddsUp(Some(p), rows, 0, 30);
    assert GuestNightlyRate(p, 29) == 10000;
    assert GuestNightlyRate(p, 30) == 10000;
    Tax.TaxBounds(rows, 290000, 29);
  }
}
