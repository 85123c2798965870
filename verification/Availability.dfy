/** apps/api/src/calendar/availability.service.ts */
module Availability {
  import opened Schema
  import opened Database
  import Operations

  datatype Range = Range(startDate: int, endDate: int)

  function BookingRanges(bookings: seq<Booking>, from: int, to: int): (r: seq<Range>)
    ensures forall x :: x in r <==>
              exists b :: 0 <= b < |bookings| && Operations.Blocking(bookings[b].status)
                          && Operations.Overlaps(bookings[b].checkIn, bookings[b].checkOut, from, to)
                          && x == Range(bookings[b].checkIn, bookings[b].checkOut)
    decreases |bookings|
  {
    if bookings == [] then []
    else
      var n := |bookings| - 1;
      var b := bookings[n];
      var rest := BookingRanges(bookings[..n], from, to);
      if Operations.Blocking(b.status) && Operations.Overlaps(b.checkIn, b.checkOut, from, to) then
        assert bookings[n] == b;
        rest + [Range(b.checkIn, b.checkOut)]
      else rest
  }

  function BlockRanges(blocks: seq<Block>, from: int, to: int): (r: seq<Range>)
    ensures forall x :: x in r <==>
              exists k :: 0 <= k < |blocks| && Operations.Overlaps(blocks[k].startDate, blocks[k].endDate, from, to)
                          && x == Range(blocks[k].startDate, blocks[k].endDate)
    decreases |blocks|
  {
    if blocks == [] then []
    else
      var n := |blocks| - 1;
      var b := blocks[n];
      var rest := BlockRanges(blocks[..n], from, to);
      if Operations.Overlaps(b.startDate, b.endDate, from, to) then
        assert blocks[n] == b;
        rest + [Range(b.startDate, b.endDate)]
      else rest
  }

  function Unavailable(bookings: seq<Booking>, blocks: seq<Block>, from: int, to: int): seq<Range> {
    if to <= from then [] else BookingRanges(bookings, from, to) + BlockRanges(blocks, from, to)
  }

  predicate Night(start: int, end: int, n: int) {
    start <= n < end
  }

  /** The two ranges share a night, or the first is empty and lies where the comparison still catches it. */
  ghost predicate Meets(x: Range, from: int, to: int) {
    || (exists n :: Night(x.startDate, x.endDate, n) && Night(from, to, n))
    || (x.endDate <= x.startDate && from < x.endDate && x.startDate < to)
  }

  /** The range of a block, or of a booking that is neither a mere inquiry nor cancelled. */
  ghost predicate RangeOfRow(bookings: seq<Booking>, blocks: seq<Block>, x: Range) {
    || (exists b :: 0 <= b < |bookings| && bookings[b].status != Inquired && bookings[b].status != Cancelled
                    && bookings[b].checkIn == x.startDate && bookings[b].checkOut == x.endDate)
    || (exists k :: 0 <= k < |blocks| && blocks[k].startDate == x.startDate && blocks[k].endDate == x.endDate)
  }

  lemma MeetsIff(x: Range, from: int, to: int)
    requires from < to
    ensures Meets(x, from, to) <==> Operations.Overlaps(x.startDate, x.endDate, from, to)
  {
    if x.startDate < x.endDate && Operations.Overlaps(x.startDate, x.endDate, from, to) {
      var n := if x.startDate <= from then from else x.startDate;
      assert Night(x.startDate, x.endDate, n) && Night(from, to, n);
    }
  }

  /** What is unavailable, in terms of rows and nights. */
  lemma UnavailableIff(bookings: seq<Booking>, blocks: seq<Block>, from: int, to: int, x: Range)
    ensures x in Unavailable(bookings, blocks, from, to) <==> from < to && RangeOfRow(bookings, blocks, x) && Meets(x, from, to)
  {
    if from < to {
      MeetsIff(x, from, to);
      hide Meets;
      assert x in Unavailable(bookings, blocks, from, to) <==> x in BookingRanges(bookings, from, to) || x in BlockRanges(blocks, from, to);
    }
  }

  /** The ranges that start on this day, in order. */
  function StartingOn(ranges: seq<Range>, day: int): seq<Range> {
    if ranges == [] then []
    else
      var last := ranges[|ranges| - 1];
      StartingOn(ranges[..|ranges| - 1], day) + if last.startDate == day then [last] else []
  }

  ghost predicate Sorted(ranges: seq<Range>) {
    forall i, j :: 0 <= i < j < |ranges| ==> ranges[i].startDate <= ranges[j].startDate
  }

  /** conflicts.filter(...): what is left when ranges with exactly the own dates are dropped. */
  function RealConflicts(ranges: seq<Range>, own: Range): (r: seq<Range>)
    ensures forall x :: x in r <==> x in ranges && x != own
  {
    if ranges == [] then []
    else if ranges[0] == own then RealConflicts(ranges[1..], own)
    else [ranges[0]] + RealConflicts(ranges[1..], own)
  }

  /** The list that the service returns decides the conflict exactly as the row-level condition does. */
  lemma ConflictsAgree(w: World, ranges: seq<Range>, from: int, to: int, ownIn: int, ownOut: int)
    requires multiset(ranges) == multiset(Unavailable(w.bookings, w.blocks, from, to))
    ensures RealConflicts(ranges, Range(ownIn, ownOut)) != [] <==> Operations.HasRealConflict(w, from, to, ownIn, ownOut)
  {
    var all := Unavailable(w.bookings, w.blocks, from, to);
    var own := Range(ownIn, ownOut);
    var left := RealConflicts(ranges, own);
    assert forall x :: x in ranges <==> x in multiset(ranges);
    assert forall x :: x in all <==> x in multiset(all);
    if left != [] {
      assert left[0] in left;
      assert left[0] in all;
    }
    if Operations.HasRealConflict(w, from, to, ownIn, ownOut) {
      if b :| 0 <= b < |w.bookings| && Operations.Blocking(w.bookings[b].status)
              && Operations.Overlaps(w.bookings[b].checkIn, w.bookings[b].checkOut, from, to)
              && !(w.bookings[b].checkIn == ownIn && w.bookings[b].checkOut == ownOut) {
        assert Range(w.bookings[b].checkIn, w.bookings[b].checkOut) in BookingRanges(w.bookings, from, to);
        assert Range(w.bookings[b].checkIn, w.bookings[b].checkOut) in left;
      } else {
        var k :| 0 <= k < |w.blocks| && Operations.Overlaps(w.blocks[k].startDate, w.blocks[k].endDate, from, to)
                 && !(w.blocks[k].startDate == ownIn && w.blocks[k].endDate == ownOut);
        assert Range(w.blocks[k].startDate, w.blocks[k].endDate) in BlockRanges(w.blocks, from, to);
        assert Range(w.blocks[k].startDate, w.blocks[k].endDate) in left;
      }
    }
  }

  class AvailabilityService {
    const db: Tables

    constructor (db: Tables)
      ensures this.db == db
    {
      this.db := db;
    }

    /** Sorted by start; ranges that start on the same day keep their order, bookings before blocks. */
    method ListUnavailableInRange(from: int, to: int) returns (ranges: seq<Range>)
      ensures multiset(ranges) == multiset(Unavailable(db.bookings, db.blocks, from, to))
      ensures forall x :: x in ranges <==> from < to && RangeOfRow(db.bookings, db.blocks, x) && Meets(x, from, to)
      ensures Sorted(ranges)
      ensures forall day :: StartingOn(ranges, day) == StartingOn(Unavailable(db.bookings, db.blocks, from, to), day)
    {
      forall x ensures x in Unavailable(db.bookings, db.blocks, from, to)
                       <==> from < to && RangeOfRow(db.bookings, db.blocks, x) && Meets(x, from, to) {
        UnavailableIff(db.bookings, db.blocks, from, to, x);
      }
      hide RangeOfRow, Meets;
      if to <= from {
        return [];
      }
      var found: seq<Range> := [];
      var n := 0;
      while n < |db.bookings|
        invariant 0 <= n <= |db.bookings|
        invariant found == BookingRanges(db.bookings[..n], from, to)
      {
        var b := db.bookings[n];
        assert db.bookings[..n + 1][..n] == db.bookings[..n];
        if Operations.Blocking(b.status) && Operations.Overlaps(b.checkIn, b.checkOut, from, to) {
          found := found + [Range(b.checkIn, b.checkOut)];
        }
        n := n + 1;
      }
      assert db.bookings[..n] == db.bookings;
      var blocked: seq<Range> := [];
      n := 0;
      while n < |db.blocks|
        invariant 0 <= n <= |db.blocks|
        invariant blocked == BlockRanges(db.blocks[..n], from, to)
      {
        var b := db.blocks[n];
        assert db.blocks[..n + 1][..n] == db.blocks[..n];
        if Operations.Overlaps(b.startDate, b.endDate, from, to) {
          blocked := blocked + [Range(b.startDate, b.endDate)];
        }
        n := n + 1;
      }
      assert db.blocks[..n] == db.blocks;
      ranges := SortByStart(found + blocked);
      SameMembers(ranges, Unavailable(db.bookings, db.blocks, from, to));
    }

    method CheckAvailability(checkIn: int, checkOut: int) returns (available: bool, conflicts: seq<Range>)
      ensures available <==> checkOut <= checkIn || forall x :: RangeOfRow(db.bookings, db.blocks, x) ==> !Meets(x, checkIn, checkOut)
      ensures forall x :: x in conflicts <==> checkIn < checkOut && RangeOfRow(db.bookings, db.blocks, x) && Meets(x, checkIn, checkOut)
      ensures multiset(conflicts) == multiset(Unavailable(db.bookings, db.blocks, checkIn, checkOut))
    {
      hide RangeOfRow, Meets;
      conflicts := ListUnavailableInRange(checkIn, checkOut);
      available := |conflicts| == 0;
      if |conflicts| > 0 {
        assert conflicts[0] in conflicts;
      }
    }
  }

  lemma SameMembers(a: seq<Range>, b: seq<Range>)
    requires multiset(a) == multiset(b)
    ensures forall x :: x in a <==> x in b
  {
    assert forall x :: x in a <==> x in multiset(a);
    assert forall x :: x in b <==> x in multiset(b);
  }

  method SortByStart(ranges: seq<Range>) returns (sorted: seq<Range>)
    ensures multiset(sorted) == multiset(ranges) && Sorted(sorted)
    ensures forall day :: StartingOn(sorted, day) == StartingOn(ranges, day)
  {
    sorted := [];
    var n := 0;
    while n < |ranges|
      invariant 0 <= n <= |ranges|
      invariant multiset(sorted) == multiset(ranges[..n]) && Sorted(sorted)
      invariant forall day :: StartingOn(sorted, day) == StartingOn(ranges[..n], day)
    {
      sorted := InsertByStart(sorted, ranges[n]);
      assert ranges[..n + 1] == ranges[..n] + [ranges[n]];
      assert (ranges[..n] + [ranges[n]])[..n] == ranges[..n];
      n := n + 1;
    }
    assert ranges[..n] == ranges;
  }

  method InsertByStart(sorted: seq<Range>, x: Range) returns (r: seq<Range>)
    requires Sorted(sorted)
    ensures multiset(r) == multiset(sorted) + multiset{x} && Sorted(r)
    ensures forall day :: StartingOn(r, day) == StartingOn(sorted, day) + if x.startDate == day then [x] else []
  {
    var k := |sorted|;
    while k > 0 && sorted[k - 1].startDate > x.startDate
      invariant 0 <= k <= |sorted|
      invariant forall i :: k <= i < |sorted| ==> sorted[i].startDate > x.startDate
    {
      k := k - 1;
    }
    r := sorted[..k] + [x] + sorted[k..];
    Spliced(sorted, k, x);
    forall day ensures StartingOn(r, day) == StartingOn(sorted, day) + if x.startDate == day then [x] else [] {
      SplicedLast(sorted, k, x, day);
    }
  }

  lemma {:induction false} StartingOnConcat(a: seq<Range>, b: seq<Range>, day: int)
    ensures StartingOn(a + b, day) == StartingOn(a, day) + StartingOn(b, day)
    decreases |b|
  {
    if b == [] {
      assert a + b == a;
    } else {
      StartingOnConcat(a, b[..|b| - 1], day);
      assert (a + b)[..|a + b| - 1] == a + b[..|b| - 1];
    }
  }

  lemma {:induction false} NoneStarting(ranges: seq<Range>, day: int)
    requires forall i :: 0 <= i < |ranges| ==> ranges[i].startDate != day
    ensures StartingOn(ranges, day) == []
    decreases |ranges|
  {
    if ranges != [] {
      NoneStarting(ranges[..|ranges| - 1], day);
    }
  }

  /** Everything behind the inserted range starts later, so it comes last on its day. */
  lemma SplicedLast(sorted: seq<Range>, k: nat, x: Range, day: int)
    requires k <= |sorted| && forall i :: k <= i < |sorted| ==> sorted[i].startDate > x.startDate
    ensures StartingOn(sorted[..k] + [x] + sorted[k..], day) == StartingOn(sorted, day) + if x.startDate == day then [x] else []
  {
    StartingOnConcat(sorted[..k] + [x], sorted[k..], day);
    StartingOnConcat(sorted[..k], [x], day);
    StartingOnConcat(sorted[..k], sorted[k..], day);
    assert sorted[..k] + sorted[k..] == sorted;
    assert [x][..0] == [];
    if x.startDate == day {
      NoneStarting(sorted[k..], day);
    }
  }

  lemma SplicedInOrder(sorted: seq<Range>, k: nat, x: Range)
    requires Sorted(sorted) && k <= |sorted|
    requires k > 0 ==> sorted[k - 1].startDate <= x.startDate
    requires forall i :: k <= i < |sorted| ==> sorted[i].startDate > x.startDate
    ensures Sorted(sorted[..k] + [x] + sorted[k..])
  {
    var r := sorted[..k] + [x] + sorted[k..];
    forall i, j | 0 <= i < j < |r| ensures r[i].startDate <= r[j].startDate {
      assert r[i] == if i < k then sorted[i] else if i == k then x else sorted[i - 1];
      assert r[j] == if j < k then sorted[j] else if j == k then x else sorted[j - 1];
      assert i < k ==> sorted[i].startDate <= sorted[k - 1].startDate;
    }
  }

  lemma SameElements(a: seq<Range>, x: Range, b: seq<Range>)
    ensures multiset(a + [x] + b) == multiset(a + b) + multiset{x}
  {
    assert multiset(a + [x] + b) == multiset(a) + multiset{x} + multiset(b);
    assert multiset(a + b) == multiset(a) + multiset(b);
  }

  lemma Spliced(sorted: seq<Range>, k: nat, x: Range)
    requires Sorted(sorted) && k <= |sorted|
    requires k > 0 ==> sorted[k - 1].startDate <= x.startDate
    requires forall i :: k <= i < |sorted| ==> sorted[i].startDate > x.startDate
    ensures var r := sorted[..k] + [x] + sorted[k..];
            Sorted(r) && multiset(r) == multiset(sorted) + multiset{x}
  {
    var r := sorted[..k] + [x] + sorted[k..];
    SplicedInOrder(sorted, k, x);
    SameElements(sorted[..k], x, sorted[k..]);
    assert sorted == sorted[..k] + sorted[k..];
    hide Sorted;
  }
}
