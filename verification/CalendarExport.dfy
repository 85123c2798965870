/** apps/api/src/calendar/calendar-export.service.ts */
module CalendarExport {
  import opened Wrappers
  import opened Text
  import opened CalendarDates
  import opened Escaping
  import opened Folding
  import opened Ical
  import opened IcalReader
  import opened Schema
  import Utf8

  datatype Source = Direct | OtherPlatform

  /** The columns that the feed selects. */
  datatype BookingRow = BookingRow(
    id: string, source: Source, status: BookingStatus, checkIn: Date, checkOut: Date,
    createdAt: Timestamp, updatedAt: Option<Timestamp>)

  datatype BlockRow = BlockRow(
    id: string, reason: BlockReason, startDate: Date, endDate: Date, sourceSummary: Option<string>,
    createdAt: Timestamp, updatedAt: Option<Timestamp>)

  predicate ExportsBooking(b: BookingRow) {
    b.source == Direct && b.status in {Approved, Confirmed, Completed}
  }

  predicate ExportsBlock(k: BlockRow) {
    k.reason in {ManualBlock, Maintenance}
  }

  /** The two findMany calls. */
  function SelectBookings(rows: seq<BookingRow>): (r: seq<BookingRow>)
    ensures forall b :: b in r <==> b in rows && ExportsBooking(b)
  {
    if rows == [] then [] else (if ExportsBooking(rows[0]) then [rows[0]] else []) + SelectBookings(rows[1..])
  }

  function SelectBlocks(rows: seq<BlockRow>): (r: seq<BlockRow>)
    ensures forall k :: k in r <==> k in rows && ExportsBlock(k)
  {
    if rows == [] then [] else (if ExportsBlock(rows[0]) then [rows[0]] else []) + SelectBlocks(rows[1..])
  }

  const EM_DASH: string := ['\U{E2}', '\U{80}', '\U{94}']   // U+2014 in UTF-8
  const DIRECT_BOOKING := "Direct booking " + EM_DASH + " The Owl's Nest"

  function BookingUid(id: string): string {
    "booking-" + id + "@owlsnest.com"
  }

  function BlockUid(id: string): string {
    "block-" + id + "@owlsnest.com"
  }

  function Stamp(updatedAt: Option<Timestamp>, createdAt: Timestamp): Timestamp {
    if updatedAt.Some? then updatedAt.value else createdAt
  }

  function BookingEvent(b: BookingRow): VEvent {
    VEvent(BookingUid(b.id), b.checkIn, b.checkOut, "Reserved", Some(DIRECT_BOOKING), Stamp(b.updatedAt, b.createdAt))
  }

  function BlockDescription(k: BlockRow): string {
    if k.reason == Maintenance then "Maintenance block"
    else if k.sourceSummary.Some? then k.sourceSummary.value else "Manually blocked"
  }

  function BlockEvent(k: BlockRow): VEvent {
    VEvent(BlockUid(k.id), k.startDate, k.endDate, "Not available", Some(BlockDescription(k)), Stamp(k.updatedAt, k.createdAt))
  }

  function BookingEvents(rows: seq<BookingRow>): (r: seq<VEvent>)
    ensures |r| == |rows| && forall i :: 0 <= i < |r| ==> r[i] == BookingEvent(rows[i])
  {
    seq(|rows|, i requires 0 <= i < |rows| => BookingEvent(rows[i]))
  }

  function BlockEvents(rows: seq<BlockRow>): (r: seq<VEvent>)
    ensures |r| == |rows| && forall i :: 0 <= i < |r| ==> r[i] == BlockEvent(rows[i])
  {
    seq(|rows|, i requires 0 <= i < |rows| => BlockEvent(rows[i]))
  }

  function Events(bookings: seq<BookingRow>, blocks: seq<BlockRow>): seq<VEvent> {
    BookingEvents(SelectBookings(bookings)) + BlockEvents(SelectBlocks(blocks))
  }

  function ExportFeed(bookings: seq<BookingRow>, blocks: seq<BlockRow>): string {
    BuildVCalendar(BuildAll(Events(bookings, blocks)))
  }

  /** The service with the two tables it queries. */
  class CalendarExportService {
    var bookings: seq<BookingRow>
    var blocks: seq<BlockRow>

    constructor (bookings: seq<BookingRow>, blocks: seq<BlockRow>)
      ensures this.bookings == bookings && this.blocks == blocks
    {
      this.bookings := bookings;
      this.blocks := blocks;
    }

    method GenerateExportFeed() returns (document: string)
      ensures document == ExportFeed(bookings, blocks)
    {
      hide BuildVEvent, BuildVCalendar, BookingUid, BlockUid, Stamp, DIRECT_BOOKING, SelectBookings, SelectBlocks;
      var bookingRows := SelectBookings(bookings);
      var blockRows := SelectBlocks(blocks);
      ghost var all := Events(bookings, blocks);
      var events: seq<string> := [];
      for i := 0 to |bookingRows|
        invariant |events| == i && forall j :: 0 <= j < i ==> events[j] == BuildVEvent(all[j])
      {
        var b := bookingRows[i];
        var event := PushVEvent(VEvent(
          BookingUid(b.id), b.checkIn, b.checkOut, "Reserved", Some(DIRECT_BOOKING), Stamp(b.updatedAt, b.createdAt)));
        assert all[i] == BookingEvent(b);
        events := events + [event];
      }
      for i := 0 to |blockRows|
        invariant |events| == |bookingRows| + i && forall j :: 0 <= j < |events| ==> events[j] == BuildVEvent(all[j])
      {
        var block := blockRows[i];
        var description :=
          if block.reason == Maintenance then "Maintenance block"
          else if block.sourceSummary.Some? then block.sourceSummary.value else "Manually blocked";
        var event := PushVEvent(VEvent(
          BlockUid(block.id), block.startDate, block.endDate, "Not available", Some(description),
          Stamp(block.updatedAt, block.createdAt)));
        assert all[|bookingRows| + i] == BlockEvent(block);
        events := events + [event];
      }
      BuiltOneByOne(all, events);
      document := BuildVCalendar(events);
    }
  }

  // ---- what a reader finds ----

  function BookingEntry(b: BookingRow): EventText {
    EventText(Some(BookingUid(b.id)), Some(b.checkIn), Some(b.checkOut),
              Some(FormatDateTime(Stamp(b.updatedAt, b.createdAt))), Some("Reserved"), Some(DIRECT_BOOKING))
  }

  function BlockEntry(k: BlockRow): EventText {
    EventText(Some(BlockUid(k.id)), Some(k.startDate), Some(k.endDate),
              Some(FormatDateTime(Stamp(k.updatedAt, k.createdAt))), Some("Not available"),
              Some(if k.reason == ManualBlock && k.sourceSummary.Some? then NormalizeNewlines(k.sourceSummary.value)
                   else BlockDescription(k)))
  }

  ghost predicate ValidDays(start: Date, end: Date, stamp: Timestamp) {
    && ValidDate(start) && FourDigitYear(start) && ValidDate(end) && FourDigitYear(end) && ValidStamp(stamp)
  }

  /** Ids are generated ASCII texts, dates have four-digit years. */
  ghost predicate ProperBooking(b: BookingRow) {
    Ascii(b.id) && LfFree(b.id) && ValidDays(b.checkIn, b.checkOut, Stamp(b.updatedAt, b.createdAt))
  }

  /** An imported summary may be any text whose line folds between characters; ASCII always does. */
  ghost predicate ProperBlock(k: BlockRow) {
    && Ascii(k.id) && LfFree(k.id) && ValidDays(k.startDate, k.endDate, Stamp(k.updatedAt, k.createdAt))
    && (k.reason == ManualBlock && k.sourceSummary.Some? ==> ContentLine("DESCRIPTION:" + EscapeText(k.sourceSummary.value)))
  }

  /** The stamp as it is printed: date, T, time, Z. */
  function StampText(t: Timestamp): string {
    FormatDate(t.date) + "T" + (Pad2(t.hours) + Pad2(t.minutes) + Pad2(t.seconds)) + "Z"
  }

  /** Column by column, what a reader sees of a booking: its last change, or its creation if it never changed. */
  lemma BookingColumns(b: BookingRow)
    requires ProperBooking(b)
    ensures var x := BookingEntry(b);
            && x.uid == Some("booking-" + b.id + "@owlsnest.com")
            && x.start == Some(b.checkIn) && x.end == Some(b.checkOut)
            && x.stamp == Some(StampText(if b.updatedAt.None? then b.createdAt else b.updatedAt.value))
            && x.summary == Some("Reserved")
            && x.description == Some("Direct booking " + ['\U{E2}', '\U{80}', '\U{94}'] + " The Owl's Nest")
  {
    StampShape(Stamp(b.updatedAt, b.createdAt));
    hide FormatDateTime, FormatDate, Pad2;
  }

  /** And of a block: an imported summary is shown of manual blocks only. */
  lemma BlockColumns(k: BlockRow)
    requires ProperBlock(k) && (k.reason == ManualBlock || k.reason == Maintenance)
    ensures var x := BlockEntry(k);
            && x.uid == Some("block-" + k.id + "@owlsnest.com")
            && x.start == Some(k.startDate) && x.end == Some(k.endDate)
            && x.stamp == Some(StampText(if k.updatedAt.None? then k.createdAt else k.updatedAt.value))
            && x.summary == Some("Not available")
            && x.description == Some(if k.reason == Maintenance then "Maintenance block"
                                     else if k.sourceSummary.None? then "Manually blocked"
                                     else NormalizeNewlines(k.sourceSummary.value))
  {
    StampShape(Stamp(k.updatedAt, k.createdAt));
    hide FormatDateTime, FormatDate, Pad2, NormalizeNewlines;
  }

  lemma BookingUidLine(id: string)
    requires Ascii(id) && LfFree(id)
    ensures ContentLine("UID:" + BookingUid(id))
  {
    hide ContentLine;
    AsciiContentLine("UID:", BookingUid(id));
  }

  lemma BlockUidLine(id: string)
    requires Ascii(id) && LfFree(id)
    ensures ContentLine("UID:" + BlockUid(id))
  {
    hide ContentLine;
    AsciiContentLine("UID:", BlockUid(id));
  }

  lemma DashIsWellFormed()
    ensures Utf8.WellFormed(EM_DASH)
  {
    var s := EM_DASH;
    assert Utf8.ContinuationRun(s[1..][1..], 1) == 1;
    assert Utf8.ContinuationRun(s[1..], 2) == 2;
    assert s[3..] == "";
  }

  lemma DirectBookingText()
    ensures NormalizeNewlines(DIRECT_BOOKING) == DIRECT_BOOKING
    ensures EscapeText(DIRECT_BOOKING) == DIRECT_BOOKING && LfFree(DIRECT_BOOKING) && |DIRECT_BOOKING| <= 40
  {
    hide EscapeText, NormalizeNewlines;
    PlainText(DIRECT_BOOKING);
  }

  lemma AsciiPieces()
    ensures Utf8.WellFormed("DESCRIPTION:" + "Direct booking ") && Utf8.WellFormed(" The Owl's Nest")
  {
    hide Utf8.WellFormed;
    Utf8.AsciiIsWellFormed("DESCRIPTION:" + "Direct booking ");
    Utf8.AsciiIsWellFormed(" The Owl's Nest");
  }

  lemma DirectBookingWellFormed()
    ensures Utf8.WellFormed("DESCRIPTION:" + DIRECT_BOOKING)
  {
    hide Utf8.WellFormed;
    AsciiPieces();
    DashIsWellFormed();
    Utf8.ConcatWellFormed("DESCRIPTION:" + "Direct booking ", EM_DASH);
    Utf8.ConcatWellFormed("DESCRIPTION:" + "Direct booking " + EM_DASH, " The Owl's Nest");
    assert "DESCRIPTION:" + "Direct booking " + EM_DASH + " The Owl's Nest" == "DESCRIPTION:" + DIRECT_BOOKING;
  }

  lemma DirectBookingLine()
    ensures ContentLine("DESCRIPTION:" + EscapeText(DIRECT_BOOKING))
  {
    hide EscapeText, Utf8.WellFormed;
    DirectBookingText();
    DirectBookingWellFormed();
  }

  lemma PlainAsciiLine(name: string, text: string)
    requires name != "" && Ascii(name) && LfFree(name) && name[0] != ' '
    requires Ascii(text) && forall i :: 0 <= i < |text| ==> Harmless(text[i])
    ensures ContentLine(name + EscapeText(text)) && NormalizeNewlines(text) == text
  {
    hide ContentLine, EscapeText, NormalizeNewlines;
    PlainText(text);
    AsciiContentLine(name, text);
  }

  lemma Reserved()
    ensures ContentLine("SUMMARY:" + EscapeText("Reserved")) && NormalizeNewlines("Reserved") == "Reserved"
  {
    hide ContentLine, EscapeText, NormalizeNewlines;
    PlainAsciiLine("SUMMARY:", "Reserved");
  }

  lemma NotAvailable()
    ensures ContentLine("SUMMARY:" + EscapeText("Not available")) && NormalizeNewlines("Not available") == "Not available"
  {
    hide ContentLine, EscapeText, NormalizeNewlines;
    PlainAsciiLine("SUMMARY:", "Not available");
  }

  lemma MaintenanceText()
    ensures ContentLine("DESCRIPTION:" + EscapeText("Maintenance block")) && NormalizeNewlines("Maintenance block") == "Maintenance block"
  {
    hide ContentLine, EscapeText, NormalizeNewlines;
    PlainAsciiLine("DESCRIPTION:", "Maintenance block");
  }

  lemma ManualText()
    ensures ContentLine("DESCRIPTION:" + EscapeText("Manually blocked")) && NormalizeNewlines("Manually blocked") == "Manually blocked"
  {
    hide ContentLine, EscapeText, NormalizeNewlines;
    PlainAsciiLine("DESCRIPTION:", "Manually blocked");
  }

  lemma BookingIsPrintable(b: BookingRow)
    requires ProperBooking(b)
    ensures Printable(BookingEvent(b)) && Meaning(BookingEvent(b)) == BookingEntry(b)
  {
    hide BookingUid, ValidStamp, ContentLine, EscapeText, NormalizeNewlines, FormatDateTime, DIRECT_BOOKING;
    BookingUidLine(b.id);
    Reserved();
    DirectBookingText();
    DirectBookingLine();
  }

  lemma BlockTexts(k: BlockRow)
    requires ProperBlock(k) && ExportsBlock(k)
    ensures ContentLine("DESCRIPTION:" + EscapeText(BlockDescription(k)))
    ensures k.reason == Maintenance || k.sourceSummary.None? ==> NormalizeNewlines(BlockDescription(k)) == BlockDescription(k)
    ensures k.reason == ManualBlock && k.sourceSummary.Some? ==> BlockDescription(k) == k.sourceSummary.value
  {
    hide ContentLine, EscapeText, NormalizeNewlines;
    MaintenanceText();
    ManualText();
  }

  lemma BlockIsPrintable(k: BlockRow)
    requires ProperBlock(k) && ExportsBlock(k)
    ensures Printable(BlockEvent(k)) && Meaning(BlockEvent(k)) == BlockEntry(k)
  {
    hide BlockUid, ValidStamp, ContentLine, EscapeText, NormalizeNewlines, FormatDateTime, BlockDescription;
    BlockUidLine(k.id);
    NotAvailable();
    BlockTexts(k);
  }

  function BookingEntries(rows: seq<BookingRow>): (r: seq<EventText>)
    ensures |r| == |rows| && forall i :: 0 <= i < |r| ==> r[i] == BookingEntry(rows[i])
  {
    seq(|rows|, i requires 0 <= i < |rows| => BookingEntry(rows[i]))
  }

  function BlockEntries(rows: seq<BlockRow>): (r: seq<EventText>)
    ensures |r| == |rows| && forall i :: 0 <= i < |r| ==> r[i] == BlockEntry(rows[i])
  {
    seq(|rows|, i requires 0 <= i < |rows| => BlockEntry(rows[i]))
  }

  function Entries(bookings: seq<BookingRow>, blocks: seq<BlockRow>): seq<EventText> {
    BookingEntries(SelectBookings(bookings)) + BlockEntries(SelectBlocks(blocks))
  }

  ghost predicate ProperTables(bookings: seq<BookingRow>, blocks: seq<BlockRow>) {
    (forall b :: b in bookings ==> ProperBooking(b)) && (forall k :: k in blocks ==> ProperBlock(k))
  }

  lemma EventsMeanEntries(bookings: seq<BookingRow>, blocks: seq<BlockRow>, i: nat)
    requires ProperTables(bookings, blocks) && i < |Events(bookings, blocks)|
    ensures i < |Entries(bookings, blocks)|
    ensures Printable(Events(bookings, blocks)[i]) && Meaning(Events(bookings, blocks)[i]) == Entries(bookings, blocks)[i]
  {
    hide Printable, Meaning, BookingEvent, BlockEvent, BookingEntry, BlockEntry, ProperBooking, ProperBlock;
    var b, k := SelectBookings(bookings), SelectBlocks(blocks);
    if i < |b| {
      assert b[i] in b;
      BookingIsPrintable(b[i]);
    } else {
      assert k[i - |b|] in k;
      BlockIsPrintable(k[i - |b|]);
    }
  }

  /** Reading the feed back gives one entry for every exported row and nothing else. */
  lemma FeedReadsBack(bookings: seq<BookingRow>, blocks: seq<BlockRow>)
    requires ProperTables(bookings, blocks)
    ensures ReadFeed(ExportFeed(bookings, blocks)) == Entries(bookings, blocks)
  {
    var events := Events(bookings, blocks);
    assert |events| == |Entries(bookings, blocks)|;
    hide Printable, Meaning, Events, Entries, ProperTables, ReadFeed, BuildVCalendar;
    forall i: nat | i < |events|
      ensures Printable(events[i]) && Meaning(events[i]) == Entries(bookings, blocks)[i]
    {
      EventsMeanEntries(bookings, blocks, i);
    }
    FeedRoundTrip(events);
  }

  /** Exactly the direct approved, confirmed or completed bookings and the manual or maintenance blocks. */
  lemma FeedListsExactly(bookings: seq<BookingRow>, blocks: seq<BlockRow>, x: EventText)
    requires ProperTables(bookings, blocks)
    ensures x in ReadFeed(ExportFeed(bookings, blocks)) <==>
            || (exists b :: b in bookings && b.source == Direct
                            && (b.status == Approved || b.status == Confirmed || b.status == Completed) && x == BookingEntry(b))
            || (exists k :: k in blocks && (k.reason == ManualBlock || k.reason == Maintenance) && x == BlockEntry(k))
  {
    hide BookingEntry, BlockEntry, BookingEntries, BlockEntries, ReadFeed, ExportFeed, ProperTables;
    FeedReadsBack(bookings, blocks);
    BookingEntryIn(SelectBookings(bookings), x);
    BlockEntryIn(SelectBlocks(blocks), x);
  }

  lemma BookingEntryIn(rows: seq<BookingRow>, x: EventText)
    ensures x in BookingEntries(rows) <==> exists b :: b in rows && x == BookingEntry(b)
  {
    hide BookingEntry;
    if x in BookingEntries(rows) {
      var i :| 0 <= i < |rows| && BookingEntries(rows)[i] == x;
      assert rows[i] in rows;
    }
  }

  lemma BlockEntryIn(rows: seq<BlockRow>, x: EventText)
    ensures x in BlockEntries(rows) <==> exists k :: k in rows && x == BlockEntry(k)
  {
    hide BlockEntry;
    if x in BlockEntries(rows) {
      var i :| 0 <= i < |rows| && BlockEntries(rows)[i] == x;
      assert rows[i] in rows;
    }
  }

  // ---- distinct UIDs ----

  ghost predicate DistinctBookings(rows: seq<BookingRow>) {
    forall i, j :: 0 <= i < j < |rows| ==> rows[i].id != rows[j].id
  }

  ghost predicate DistinctBlocks(rows: seq<BlockRow>) {
    forall i, j :: 0 <= i < j < |rows| ==> rows[i].id != rows[j].id
  }

  lemma {:induction false} SelectedBookings(rows: seq<BookingRow>)
    requires DistinctBookings(rows)
    ensures DistinctBookings(SelectBookings(rows))
    decreases |rows|
  {
    if rows != [] {
      SelectedBookings(rows[1..]);
      var r, rest := SelectBookings(rows), SelectBookings(rows[1..]);
      forall j | 0 <= j < |rest|
        ensures rest[j].id != rows[0].id
      {
        assert rest[j] in rows[1..];
        var m :| 0 <= m < |rows| - 1 && rows[1..][m] == rest[j];
        assert rows[m + 1] == rest[j];
      }
      assert r == rest || r == [rows[0]] + rest;
    }
  }

  lemma {:induction false} SelectedBlocks(rows: seq<BlockRow>)
    requires DistinctBlocks(rows)
    ensures DistinctBlocks(SelectBlocks(rows))
    decreases |rows|
  {
    if rows != [] {
      SelectedBlocks(rows[1..]);
      var r, rest := SelectBlocks(rows), SelectBlocks(rows[1..]);
      forall j | 0 <= j < |rest|
        ensures rest[j].id != rows[0].id
      {
        assert rest[j] in rows[1..];
        var m :| 0 <= m < |rows| - 1 && rows[1..][m] == rest[j];
        assert rows[m + 1] == rest[j];
      }
      assert r == rest || r == [rows[0]] + rest;
    }
  }

  lemma Injective(prefix: string, a: string, b: string, suffix: string)
    requires prefix + a + suffix == prefix + b + suffix
    ensures a == b
  {
    var s, t := prefix + a + suffix, prefix + b + suffix;
    assert |a| == |b|;
    assert s[|prefix|..|prefix| + |a|] == a && t[|prefix|..|prefix| + |b|] == b;
  }

  lemma UidsDiffer(a: string, b: string)
    ensures BookingUid(a) != BlockUid(b)
    ensures a != b ==> BookingUid(a) != BookingUid(b) && BlockUid(a) != BlockUid(b)
  {
    assert BookingUid(a)[1] == 'o' && BlockUid(b)[1] == 'l';
    if BookingUid(a) == BookingUid(b) {
      Injective("booking-", a, b, "@owlsnest.com");
    }
    if BlockUid(a) == BlockUid(b) {
      Injective("block-", a, b, "@owlsnest.com");
    }
  }

  ghost predicate DistinctUids(r: seq<EventText>) {
    && (forall i :: 0 <= i < |r| ==> r[i].uid.Some?)
    && (forall i, j :: 0 <= i < j < |r| ==> r[i].uid != r[j].uid)
  }

  lemma EntriesDistinct(b: seq<BookingRow>, k: seq<BlockRow>)
    requires DistinctBookings(b) && DistinctBlocks(k)
    ensures DistinctUids(BookingEntries(b) + BlockEntries(k))
  {
    hide BookingEntries, BlockEntries, BookingUid, BlockUid, FormatDateTime, NormalizeNewlines, BlockDescription, DIRECT_BOOKING;
    var r := BookingEntries(b) + BlockEntries(k);
    forall i, j | 0 <= i < j < |r|
      ensures r[i].uid != r[j].uid
    {
      if j < |b| {
        EntriesDiffer(b[i], b[j]);
      } else if i < |b| {
        KindsDiffer(b[i], k[j - |b|]);
      } else {
        BlocksDiffer(k[i - |b|], k[j - |b|]);
      }
    }
    forall i | 0 <= i < |r|
      ensures r[i].uid.Some?
    {
      if i < |b| {
        assert r[i] == BookingEntry(b[i]);
      } else {
        assert r[i] == BlockEntry(k[i - |b|]);
      }
    }
  }

  /** No two events of the feed carry the same UID. */
  lemma FeedUidsDistinct(bookings: seq<BookingRow>, blocks: seq<BlockRow>)
    requires ProperTables(bookings, blocks) && DistinctBookings(bookings) && DistinctBlocks(blocks)
    ensures DistinctUids(ReadFeed(ExportFeed(bookings, blocks)))
  {
    hide BookingEntries, BlockEntries, ReadFeed, ExportFeed, ProperTables, DistinctUids;
    FeedReadsBack(bookings, blocks);
    SelectedBookings(bookings);
    SelectedBlocks(blocks);
    EntriesDistinct(SelectBookings(bookings), SelectBlocks(blocks));
  }

  lemma EntriesDiffer(a: BookingRow, b: BookingRow)
    requires a.id != b.id
    ensures BookingEntry(a).uid != BookingEntry(b).uid
  {
    hide BookingUid, BlockUid, FormatDateTime;
    UidsDiffer(a.id, b.id);
  }

  lemma BlocksDiffer(a: BlockRow, b: BlockRow)
    requires a.id != b.id
    ensures BlockEntry(a).uid != BlockEntry(b).uid
  {
    hide BookingUid, BlockUid, FormatDateTime, NormalizeNewlines, BlockDescription;
    UidsDiffer(a.id, b.id);
  }

  lemma KindsDiffer(b: BookingRow, k: BlockRow)
    ensures BookingEntry(b).uid != BlockEntry(k).uid
  {
    hide BookingUid, BlockUid, FormatDateTime, NormalizeNewlines, BlockDescription;
    UidsDiffer(b.id, k.id);
  }
}
