/** What a quote charges, row by row of the tax table, and that bookings store exactly that. */
module BookedPrices {
  import opened Wrappers
  import opened Schema
  import opened Operations
  import Money
  import Pricing
  import Stripe
  import Tax

  /** The rate of the first row of this level; nothing where there is none. */
  ghost predicate RateIs(rows: seq<Tax.Jurisdiction>, level: Tax.Level, rate: int) {
    || (exists row :: Tax.FirstOf(rows, level, row) && row.rate == rate)
    || (Tax.NoneOf(rows, level) && rate == 0)
  }

  /** The exemption threshold: that of the first state row, else of the first city row, else 30 nights. */
  ghost predicate ThresholdIs(rows: seq<Tax.Jurisdiction>, nights: int) {
    || (exists row :: Tax.FirstOf(rows, Tax.State, row) && row.exemptThresholdNights == nights)
    || (Tax.NoneOf(rows, Tax.State) && exists row :: Tax.FirstOf(rows, Tax.City, row) && row.exemptThresholdNights == nights)
    || (Tax.NoneOf(rows, Tax.State) && Tax.NoneOf(rows, Tax.City) && nights == 30)
  }

  datatype Rates = Rates(state: int, city: int, threshold: int)

  ghost predicate RatesOf(rows: seq<Tax.Jurisdiction>, r: Rates) {
    RateIs(rows, Tax.State, r.state) && RateIs(rows, Tax.City, r.city) && ThresholdIs(rows, r.threshold)
  }

  /** The nightly rate is base + fee / nights to the nearest cent. */
  predicate NearestRate(p: Pricing.Property, nights: int, rate: int) {
    2 * (p.baseNightlyRate * nights + p.cleaningFee) - nights < 2 * rate * nights <= 2 * (p.baseNightlyRate * nights + p.cleaningFee) + nights
  }

  predicate TaxedAt(r: Rates, nights: int, subtotal: int, stateTax: int, cityTax: int, totalTax: int) {
    && stateTax == (if nights >= r.threshold then 0 else subtotal * r.state / 10000)
    && cityTax == (if nights >= r.threshold then 0 else subtotal * r.city / 10000)
    && totalTax == stateTax + cityTax
  }

  lemma FoundRates(rows: seq<Tax.Jurisdiction>, r: Rates)
    requires RatesOf(rows, r)
    ensures r.state == Tax.RateOf(Tax.Find(rows, Tax.State)) && r.city == Tax.RateOf(Tax.Find(rows, Tax.City))
    ensures r.threshold == Tax.ExemptThreshold(rows)
  {
    Tax.FindsFirst(rows, Tax.State);
    Tax.FindsFirst(rows, Tax.City);
    hide Tax.FirstOf, Tax.NoneOf, Tax.Find;
  }

  /** Every quote has the nearest nightly rate, and each tax column is the floor of its own level's share,
      or nothing from the threshold on. */
  lemma QuoteCharges(p: Pricing.Property, rows: seq<Tax.Jurisdiction>, checkIn: int, checkOut: int, r: Rates)
    requires RatesOf(rows, r) && Pricing.GetQuote(Some(p), rows, checkIn, checkOut).Success?
    ensures var q := Pricing.GetQuote(Some(p), rows, checkIn, checkOut).value;
            && q.nights == checkOut - checkIn >= 1
            && NearestRate(p, q.nights, q.nightlyRate)
            && q.subtotal == q.nightlyRate * q.nights
            && TaxedAt(r, q.nights, q.subtotal, q.stateTax, q.cityTax, q.totalTax)
            && q.total == q.subtotal + q.totalTax
  {
    hide Pricing.GetQuote, Pricing.GuestNightlyRate, Tax.CalculateTax, RatesOf;
    var nights := checkOut - checkIn;
    Pricing.QuotedTotal(p, rows, checkIn, checkOut);
    Pricing.SubtotalBounds(p, nights);
    TaxColumns(rows, r, Pricing.GuestNightlyRate(p, nights) * nights, nights);
  }

  lemma TaxColumns(rows: seq<Tax.Jurisdiction>, r: Rates, subtotal: int, nights: int)
    requires RatesOf(rows, r) && rows != []
    ensures Tax.CalculateTax(rows, subtotal, nights).Success?
    ensures var tax := Tax.CalculateTax(rows, subtotal, nights).value;
            && TaxedAt(r, nights, subtotal, tax.stateAmount, tax.cityAmount, tax.totalTax)
            && tax.totalWithTax == subtotal + tax.totalTax
  {
    FoundRates(rows, r);
    hide RatesOf, Tax.Find, Tax.RateOf, Tax.ExemptThreshold;
    if nights < r.threshold {
      Tax.TaxBounds(rows, subtotal, nights);
    }
  }

  /** When a quote is refused, and why. */
  lemma QuoteRefuses(property: Option<Pricing.Property>, rows: seq<Tax.Jurisdiction>, checkIn: int, checkOut: int)
    ensures var r := Pricing.GetQuote(property, rows, checkIn, checkOut);
            && (r == Failure(ValidationFailed) <==> checkOut <= checkIn)
            && (r == Failure(MinStayViolation) <==> checkIn < checkOut && property.Some? && checkOut - checkIn < property.value.minStay)
            && (r == Failure(NotFound) <==>
                  checkIn < checkOut && (property.None? || (checkOut - checkIn >= property.value.minStay && rows == [])))
            && (r.Success? <==> checkIn < checkOut && property.Some? && checkOut - checkIn >= property.value.minStay && rows != [])
  {
    hide Pricing.GuestNightlyRate, Tax.Find, Tax.Share;
  }

  // ---- stored bookings ----

  /** The booking's columns are what these nights cost. */
  predicate PricedFor(b: Booking, p: Pricing.Property, r: Rates, checkIn: int, checkOut: int) {
    && b.checkIn == checkIn && b.checkOut == checkOut
    && b.numNights == checkOut - checkIn >= 1
    && NearestRate(p, b.numNights, b.nightlyRate)
    && b.subtotal == b.nightlyRate * b.numNights
    && TaxedAt(r, b.numNights, b.subtotal, b.stateTax, b.cityTax, b.totalTax)
  }

  /** Converting an inquiry: exactly for open inquiries with a quote, and then one pending booking with
      these prices and the inquiry's guest and nights, to which the inquiry points. */
  lemma ConvertBooksQuote(w: World, id: nat, r: Rates)
    requires RatesOf(w.jurisdictions, r)
    ensures var (w', result) := ConvertInquiry(w, id);
            && (result.Success? <==>
                  && id < |w.inquiries| && (w.inquiries[id].status == New || w.inquiries[id].status == Responded)
                  && Pricing.GetQuote(w.property, w.jurisdictions, w.inquiries[id].checkIn, w.inquiries[id].checkOut).Success?)
            && (result.Failure? ==> w' == w)
            && (result.Success? ==>
                  var b := |w.bookings|;
                  && result.value == b && |w'.bookings| == b + 1 && w.property.Some?
                  && PricedFor(w'.bookings[b], w.property.value, r, w.inquiries[id].checkIn, w.inquiries[id].checkOut)
                  && w'.bookings[b].status == PendingApproval && w'.bookings[b].guest == Some(w.inquiries[id].email)
                  && w'.bookings[b].tierApplied == None && w'.bookings[b].refundAmount == None
                  && w' == w.(bookings := w.bookings + [w'.bookings[b]],
                              inquiries := w.inquiries[id := w.inquiries[id].(status := Converted, convertedBookingId := Some(b))]))
  {
    if ConvertInquiry(w, id).1.Success? {
      QuoteCharges(w.property.value, w.jurisdictions, w.inquiries[id].checkIn, w.inquiries[id].checkOut, r);
    }
    hide Pricing.GetQuote, RatesOf, NearestRate;
  }

  /** Why a conversion is refused: an unknown or ended inquiry first, then whatever the quote says. */
  lemma ConvertRefuses(w: World, id: nat)
    ensures var r := ConvertInquiry(w, id).1;
            && (id >= |w.inquiries| ==> r == Failure(NotFound))
            && (id < |w.inquiries| && w.inquiries[id].status == Converted ==> r == Failure(Conflict))
            && (id < |w.inquiries| && w.inquiries[id].status == Closed ==> r == Failure(ValidationFailed))
            && (id < |w.inquiries| && (w.inquiries[id].status == New || w.inquiries[id].status == Responded) && r.Failure? ==>
                  r.error == if w.property.None? then NotFound
                             else Pricing.GetQuote(w.property, w.jurisdictions, w.inquiries[id].checkIn, w.inquiries[id].checkOut).error)
  {
    hide Pricing.GetQuote;
  }

  /** A date change stores the new nights at their price and keeps everything else of the booking. */
  lemma ModifyBooksQuote(w: World, id: nat, checkIn: int, checkOut: int, timestamp: int, r: Rates)
    requires RatesOf(w.jurisdictions, r) && ModifyDates(w, id, checkIn, checkOut, timestamp).1.Success?
    ensures var (w', result) := ModifyDates(w, id, checkIn, checkOut, timestamp);
            && id < |w.bookings| == |w'.bookings| && w.property.Some?
            && PricedFor(w'.bookings[id], w.property.value, r, checkIn, checkOut)
            && w'.bookings[id].guest == w.bookings[id].guest && w'.bookings[id].status == w.bookings[id].status
            && w'.bookings[id].tierApplied == w.bookings[id].tierApplied && w'.bookings[id].refundAmount == w.bookings[id].refundAmount
            && result.value == w'.bookings[id].Total() - w.bookings[id].Total()
            && w'.bookings == w.bookings[id := w'.bookings[id]]
  {
    QuoteCharges(w.property.value, w.jurisdictions, checkIn, checkOut, r);
    NewRow(w, id, checkIn, checkOut, timestamp);
    hide Pricing.GetQuote, RatesOf, NearestRate, ModifyDates;
  }

  lemma NewRow(w: World, id: nat, checkIn: int, checkOut: int, timestamp: int)
    requires ModifyDates(w, id, checkIn, checkOut, timestamp).1.Success?
    ensures var (w', result) := ModifyDates(w, id, checkIn, checkOut, timestamp);
            && id < |w.bookings| && w.property.Some? && Pricing.GetQuote(w.property, w.jurisdictions, checkIn, checkOut).Success?
            && var q := Pricing.GetQuote(w.property, w.jurisdictions, checkIn, checkOut).value;
            && w'.bookings == w.bookings[id := Requoted(w.bookings[id], checkIn, checkOut, q)]
            && result.value == q.subtotal + q.totalTax - w.bookings[id].Total()
  {
    QuoteRefuses(w.property, w.jurisdictions, checkIn, checkOut);
    hide Pricing.GetQuote, HasRealConflict, FindInitial, CanEnqueue, Stripe.CreateRefund;
  }
}
