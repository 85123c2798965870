/** apps/api/src/booking/cancellation-policy.ts */
module CancellationPolicy {
  import opened Wrappers
  import Money

  datatype Tier = Tier(daysBeforeCheckin: int, refundPercent: int)

  const MS_PER_DAY := 24 * 60 * 60 * 1000

  /** What the API accepts: percentages are whole numbers from 0 to 100. */
  ghost predicate ValidTiers(tiers: seq<Tier>) {
    forall t :: t in tiers ==> 0 <= t.refundPercent <= 100
  }

  // ---- sorting ----

  /** Stable insertion into a list that descends by threshold. */
  function InsertDescending(t: Tier, sorted: seq<Tier>): (r: seq<Tier>)
    ensures multiset(r) == multiset{t} + multiset(sorted)
  {
    if sorted == [] then [t]
    else if t.daysBeforeCheckin >= sorted[0].daysBeforeCheckin then
      assert [t] + sorted == [t] + sorted;
      [t] + sorted
    else
      assert sorted == [sorted[0]] + sorted[1..];
      [sorted[0]] + InsertDescending(t, sorted[1..])
  }

  /** `[...tiers].sort((a, b) => b.days - a.days)` */
  function SortDescending(tiers: seq<Tier>): (r: seq<Tier>)
    ensures multiset(r) == multiset(tiers)
    ensures |r| == |tiers|
    decreases |tiers|
  {
    if tiers == [] then []
    else
      assert tiers == [tiers[0]] + tiers[1..];
      var r := InsertDescending(tiers[0], SortDescending(tiers[1..]));
      assert |multiset(r)| == |multiset(tiers)|;
      r
  }

  ghost predicate Descending(tiers: seq<Tier>) {
    forall i, j :: 0 <= i < j < |tiers| ==> tiers[i].daysBeforeCheckin >= tiers[j].daysBeforeCheckin
  }

  lemma {:induction false} InsertKeepsDescending(t: Tier, sorted: seq<Tier>)
    requires Descending(sorted)
    ensures Descending(InsertDescending(t, sorted))
  {
    if sorted == [] || t.daysBeforeCheckin >= sorted[0].daysBeforeCheckin {
    } else {
      var rest := InsertDescending(t, sorted[1..]);
      InsertKeepsDescending(t, sorted[1..]);
      forall k | 0 <= k < |rest| ensures sorted[0].daysBeforeCheckin >= rest[k].daysBeforeCheckin {
        assert rest[k] in multiset(rest);
        assert rest[k] == t || rest[k] in sorted[1..];
      }
    }
  }

  lemma {:induction false} SortDescends(tiers: seq<Tier>)
    ensures Descending(SortDescending(tiers))
    decreases |tiers|
  {
    if tiers != [] {
      SortDescends(tiers[1..]);
      InsertKeepsDescending(tiers[0], SortDescending(tiers[1..]));
    }
  }

  // ---- resolving ----

  /** `sorted.find(t => days >= t.days) ?? sorted.last` */
  function FirstMet(sorted: seq<Tier>, days: int): (r: Tier)
    requires sorted != []
    ensures r in sorted
  {
    if days >= sorted[0].daysBeforeCheckin || |sorted| == 1 then sorted[0]
    else FirstMet(sorted[1..], days)
  }

  function DaysRemaining(checkInDay: int, nowMs: int): int {
    // Dafny's division by a positive number floors, as Math.floor does
    (checkInDay * MS_PER_DAY - nowMs) / MS_PER_DAY
  }

  /** Whole days from now to check-in, rounded down; negative once check-in has passed. */
  lemma DaysRemainingIsFloor(checkInDay: int, nowMs: int)
    ensures var d := DaysRemaining(checkInDay, nowMs);
            nowMs + d * MS_PER_DAY <= checkInDay * MS_PER_DAY < nowMs + (d + 1) * MS_PER_DAY
  {
  }

  /** An empty policy makes the source throw a plain Error. */
  function ResolveCancellation(tiers: seq<Tier>, checkInDay: int, nowMs: int): Result<Tier> {
    if tiers == [] then Failure(ValidationFailed)
    else Success(ResolveForDays(tiers, DaysRemaining(checkInDay, nowMs)))
  }

  function ResolveForDays(tiers: seq<Tier>, days: int): (r: Tier)
    requires tiers != []
    ensures r in tiers
  {
    var sorted := SortDescending(tiers);
    var r := FirstMet(sorted, days);
    assert r in multiset(sorted);
    r
  }

  /** Which tier is right, said without sorting: the greatest threshold that is met, and
      the smallest threshold of all when none is met. */
  ghost predicate IsRightTier(tiers: seq<Tier>, days: int, t: Tier) {
    && t in tiers
    && if exists u :: u in tiers && u.daysBeforeCheckin <= days then
         && t.daysBeforeCheckin <= days
         && forall u :: u in tiers && u.daysBeforeCheckin <= days ==> u.daysBeforeCheckin <= t.daysBeforeCheckin
       else
         forall u :: u in tiers ==> t.daysBeforeCheckin <= u.daysBeforeCheckin
  }

  lemma {:induction false} FirstMetIsRight(sorted: seq<Tier>, days: int)
    requires sorted != [] && Descending(sorted)
    ensures IsRightTier(sorted, days, FirstMet(sorted, days))
  {
    if days >= sorted[0].daysBeforeCheckin || |sorted| == 1 {
      assert sorted[0] in sorted;
    } else {
      var rest := sorted[1..];
      FirstMetIsRight(rest, days);
      assert forall u :: u in sorted <==> u == sorted[0] || u in rest;
    }
  }

  lemma ResolvesRightTier(tiers: seq<Tier>, days: int)
    requires tiers != []
    ensures IsRightTier(tiers, days, ResolveForDays(tiers, days))
  {
    var sorted := SortDescending(tiers);
    SortDescends(tiers);
    FirstMetIsRight(sorted, days);
    assert forall u :: u in sorted <==> u in multiset(sorted);
    assert forall u :: u in tiers <==> u in multiset(tiers);
    assert forall u :: u in sorted <==> u in tiers;
  }

  // ---- ties ----

  /** The tiers with this threshold, as listed. */
  function OnThreshold(tiers: seq<Tier>, days: int): seq<Tier> {
    if tiers == [] then []
    else (if tiers[0].daysBeforeCheckin == days then [tiers[0]] else []) + OnThreshold(tiers[1..], days)
  }

  lemma OnThresholdPrepended(t: Tier, rest: seq<Tier>, days: int)
    ensures OnThreshold([t] + rest, days)
         == (if t.daysBeforeCheckin == days then [t] else []) + OnThreshold(rest, days)
  {
    assert ([t] + rest)[1..] == rest;
  }

  lemma {:induction false} InsertIsStable(t: Tier, sorted: seq<Tier>, days: int)
    ensures OnThreshold(InsertDescending(t, sorted), days)
         == (if t.daysBeforeCheckin == days then [t] else []) + OnThreshold(sorted, days)
    decreases |sorted|
  {
    if sorted == [] || t.daysBeforeCheckin >= sorted[0].daysBeforeCheckin {
      OnThresholdPrepended(t, sorted, days);
      assert [t] + sorted == InsertDescending(t, sorted);
    } else {
      var rest := InsertDescending(t, sorted[1..]);
      assert [sorted[0]] + rest == InsertDescending(t, sorted);
      hide InsertDescending;
      InsertIsStable(t, sorted[1..], days);
      OnThresholdPrepended(sorted[0], rest, days);
    }
  }

  lemma {:induction false} SortIsStable(tiers: seq<Tier>, days: int)
    ensures OnThreshold(SortDescending(tiers), days) == OnThreshold(tiers, days)
    decreases |tiers|
  {
    if tiers != [] {
      SortIsStable(tiers[1..], days);
      InsertIsStable(tiers[0], SortDescending(tiers[1..]), days);
    }
  }

  lemma {:induction false} FirstMetOnTies(sorted: seq<Tier>, days: int)
    requires sorted != [] && Descending(sorted)
    ensures var r := FirstMet(sorted, days);
            var same := OnThreshold(sorted, r.daysBeforeCheckin);
            same != [] && r == if r.daysBeforeCheckin <= days then same[0] else same[|same| - 1]
    decreases |sorted|
  {
    if days < sorted[0].daysBeforeCheckin && |sorted| > 1 {
      FirstMetOnTies(sorted[1..], days);
    } else if |sorted| == 1 {
      assert sorted[1..] == [];
    }
  }

  /** Among tiers of one threshold the first listed applies, or the last one when no threshold is met. */
  lemma TiesResolve(tiers: seq<Tier>, days: int)
    requires tiers != []
    ensures var r := ResolveForDays(tiers, days);
            var same := OnThreshold(tiers, r.daysBeforeCheckin);
            same != [] && r == if r.daysBeforeCheckin <= days then same[0] else same[|same| - 1]
  {
    SortDescends(tiers);
    FirstMetOnTies(SortDescending(tiers), days);
    SortIsStable(tiers, ResolveForDays(tiers, days).daysBeforeCheckin);
  }

  ghost predicate DistinctThresholds(tiers: seq<Tier>) {
    forall t, u :: t in tiers && u in tiers && t.daysBeforeCheckin == u.daysBeforeCheckin ==> t == u
  }

  /** The order in which the property lists its tiers does not matter. */
  lemma OrderOfTiersIsIrrelevant(tiers: seq<Tier>, other: seq<Tier>, days: int)
    requires tiers != [] && multiset(tiers) == multiset(other)
    requires DistinctThresholds(tiers)
    ensures other != [] && ResolveForDays(other, days) == ResolveForDays(tiers, days)
  {
    assert tiers[0] in multiset(other);
    ResolvesRightTier(tiers, days);
    ResolvesRightTier(other, days);
    assert forall u :: u in tiers <==> u in multiset(tiers);
    assert forall u :: u in other <==> u in multiset(other);
    assert forall u :: u in tiers <==> u in other;
    var t, u := ResolveForDays(tiers, days), ResolveForDays(other, days);
    assert t in tiers && u in tiers;
    assert t.daysBeforeCheckin == u.daysBeforeCheckin;
  }

  /** With two tiers on one threshold the order does decide, so the hypothesis is needed. */
  lemma OrderMattersOnTies()
    ensures ResolveForDays([Tier(7, 100), Tier(7, 50)], 10) != ResolveForDays([Tier(7, 50), Tier(7, 100)], 10)
  {
    var a, b := Tier(7, 100), Tier(7, 50);
    assert [a, b][1..] == [b] && [b, a][1..] == [a];
    assert [b][1..] == [] && [a][1..] == [];
    assert SortDescending([b]) == [b] && SortDescending([a]) == [a];
    assert SortDescending([a, b]) == [a, b];
    assert SortDescending([b, a]) == [b, a];
  }

  /** The listed order decides nothing: every permutation resolves alike at every distance. */
  ghost predicate OrderIrrelevant(tiers: seq<Tier>) {
    forall other, days :: other != [] && tiers != [] && multiset(other) == multiset(tiers) ==>
      ResolveForDays(other, days) == ResolveForDays(tiers, days)
  }

  /** A tier inserted before the others is found first at its own threshold. */
  lemma {:induction false} InsertedFirstWins(t: Tier, sorted: seq<Tier>)
    ensures FirstMet(InsertDescending(t, sorted), t.daysBeforeCheckin) == t
    decreases |sorted|
  {
    if sorted != [] && t.daysBeforeCheckin < sorted[0].daysBeforeCheckin {
      InsertedFirstWins(t, sorted[1..]);
      var rest := InsertDescending(t, sorted[1..]);
      assert multiset(rest) == multiset{t} + multiset(sorted[1..]);
      assert rest != [] && ([sorted[0]] + rest)[1..] == rest;
    }
  }

  lemma ListedFirstWins(t: Tier, rest: seq<Tier>)
    ensures ResolveForDays([t] + rest, t.daysBeforeCheckin) == t
  {
    assert ([t] + rest)[0] == t && ([t] + rest)[1..] == rest;
    InsertedFirstWins(t, SortDescending(rest));
  }

  /** Some permutation resolves to t at t's own threshold. */
  lemma OrderFor(tiers: seq<Tier>, t: Tier) returns (other: seq<Tier>)
    requires t in tiers
    ensures other != [] && multiset(other) == multiset(tiers) && ResolveForDays(other, t.daysBeforeCheckin) == t
  {
    var i :| 0 <= i < |tiers| && tiers[i] == t;
    other := [t] + (tiers[..i] + tiers[i + 1..]);
    ListedFirstWins(t, tiers[..i] + tiers[i + 1..]);
    assert tiers == tiers[..i] + [t] + tiers[i + 1..];
  }

  /** The order of the tiers is irrelevant exactly if no two different tiers share a threshold. */
  lemma OrderIrrelevantIff(tiers: seq<Tier>)
    requires tiers != []
    ensures OrderIrrelevant(tiers) <==> DistinctThresholds(tiers)
  {
    if OrderIrrelevant(tiers) {
      forall t, u | t in tiers && u in tiers && t.daysBeforeCheckin == u.daysBeforeCheckin ensures t == u {
        var first := OrderFor(tiers, t);
        var second := OrderFor(tiers, u);
        var d := t.daysBeforeCheckin;
        assert ResolveForDays(first, d) == ResolveForDays(tiers, d) && ResolveForDays(second, d) == ResolveForDays(tiers, d);
      }
    }
    if DistinctThresholds(tiers) {
      forall other, days | other != [] && multiset(other) == multiset(tiers)
        ensures ResolveForDays(other, days) == ResolveForDays(tiers, days) {
        OrderOfTiersIsIrrelevant(tiers, other, days);
      }
    }
  }

  // ---- refunds ----

  /** `Math.floor(Math.max(0, charge - already) * 100 * (percent / 100))`, amounts in cents. */
  function CalculateRefundCents(charge: int, already: int, percent: int): int {
    var refundable := if charge - already > 0 then Money.Dollars(charge - already) else 0.0;
    (refundable * 100.0 * (percent as real / 100.0)).Floor
  }

  lemma RefundAsIntegers(charge: int, already: int, percent: int)
    requires already <= charge
    ensures CalculateRefundCents(charge, already, percent) == (charge - already) * percent / 100
  {
    var rest := charge - already;
    var exact := Money.Dollars(rest) * 100.0 * (percent as real / 100.0);
    assert Money.Dollars(rest) * 100.0 == rest as real;
    assert exact * 100.0 == rest as real * percent as real == (rest * percent) as real;
    var q := rest * percent / 100;
    assert 100 * q <= rest * percent < 100 * q + 100;
    assert q as real <= exact < q as real + 1.0;
  }

  /** What was refunded before plus the cancellation refund never exceeds the charge,
      and reaches it exactly at 100 percent (or when nothing was left). */
  lemma RefundsNeverExceedCharge(charge: int, already: int, percent: int)
    requires 0 <= already <= charge && 0 <= percent <= 100
    ensures 0 <= CalculateRefundCents(charge, already, percent)
    ensures already + CalculateRefundCents(charge, already, percent) <= charge
    ensures already + CalculateRefundCents(charge, already, percent) == charge <==> percent == 100 || already == charge
  {
    RefundAsIntegers(charge, already, percent);
    ShareOfRest(charge - already, percent);
  }

  lemma Hundredth(rest: nat, product: nat, missing: nat)
    requires product == 100 * rest - missing
    ensures 0 <= product / 100 <= rest
    ensures product / 100 == rest <==> missing == 0
  {
  }

  lemma Distribute(rest: nat, percent: nat)
    ensures rest * percent == 100 * rest - (100 - percent) * rest
  {
  }

  lemma NoFactor(a: nat, b: nat)
    ensures a * b >= 0 && (a * b == 0 <==> a == 0 || b == 0)
  {
    if a > 0 && b > 0 {
      assert (a - 1) * b >= 0;
    }
  }

  lemma ShareOfRest(rest: nat, percent: nat)
    requires percent <= 100
    ensures 0 <= rest * percent / 100 <= rest
    ensures rest * percent / 100 == rest <==> percent == 100 || rest == 0
  {
    Distribute(rest, percent);
    NoFactor(100 - percent, rest);
    Hundredth(rest, rest * percent, (100 - percent) * rest);
  }

  /** Whatever was refunded before, the refund is within what is left, if anything is. */
  lemma RefundNeverExceedsRest(charge: int, already: int, percent: int)
    requires 0 <= percent <= 100
    ensures 0 <= CalculateRefundCents(charge, already, percent)
    ensures CalculateRefundCents(charge, already, percent) <= if charge > already then charge - already else 0
  {
    if charge > already {
      RefundAsIntegers(charge, already, percent);
      ShareOfRest(charge - already, percent);
    } else {
      assert 0.0 * 100.0 * (percent as real / 100.0) == 0.0;
    }
  }

  lemma RefundMonotone(charge: int, already: int, low: int, high: int)
    requires 0 <= already <= charge && 0 <= low <= high
    ensures CalculateRefundCents(charge, already, low) <= CalculateRefundCents(charge, already, high)
  {
    RefundAsIntegers(charge, already, low);
    RefundAsIntegers(charge, already, high);
    assert (charge - already) * low <= (charge - already) * high;
  }

  ghost predicate PercentsRiseWithThresholds(tiers: seq<Tier>) {
    forall t, u :: t in tiers && u in tiers && t.daysBeforeCheckin <= u.daysBeforeCheckin ==> t.refundPercent <= u.refundPercent
  }

  /** Cancelling later never refunds more. */
  lemma LaterNeverRefundsMore(tiers: seq<Tier>, checkInDay: int, early: int, late: int, charge: int, already: int)
    requires tiers != [] && ValidTiers(tiers) && PercentsRiseWithThresholds(tiers)
    requires early <= late && 0 <= already <= charge
    ensures var first := ResolveCancellation(tiers, checkInDay, early);
            var second := ResolveCancellation(tiers, checkInDay, late);
            && first.Success? && second.Success?
            && CalculateRefundCents(charge, already, second.value.refundPercent)
               <= CalculateRefundCents(charge, already, first.value.refundPercent)
  {
    var d1, d2 := DaysRemaining(checkInDay, early), DaysRemaining(checkInDay, late);
    assert d2 <= d1;
    ResolvesRightTier(tiers, d1);
    ResolvesRightTier(tiers, d2);
    var t1, t2 := ResolveForDays(tiers, d1), ResolveForDays(tiers, d2);
    assert t2.daysBeforeCheckin <= t1.daysBeforeCheckin by {
      if t2.daysBeforeCheckin <= d1 {
        assert exists u :: u in tiers && u.daysBeforeCheckin <= d1;
      }
    }
    RefundMonotone(charge, already, t2.refundPercent, t1.refundPercent);
  }
}
