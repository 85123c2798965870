/** A reader of the feed: unfold, split into content lines, take the VEVENT blocks apart. */
module IcalReader {
  import opened Wrappers
  import opened Text
  import opened CalendarDates
  import opened Escaping
  import opened Folding
  import opened Ical

  datatype EventText = EventText(
    uid: Option<string>, start: Option<Date>, end: Option<Date>, stamp: Option<string>,
    summary: Option<string>, description: Option<string>)

  /** The value of the first line with this name. */
  function Value(block: seq<string>, name: string): Option<string> {
    if block == [] then None
    else if name <= block[0] then Some(block[0][|name|..])
    else Value(block[1..], name)
  }

  function ReadText(s: Option<string>): Option<string> {
    if s.Some? then Some(Unescape(s.value)) else None
  }

  function ReadDay(s: Option<string>): Option<Date> {
    if s.Some? then ReadDate(s.value) else None
  }

  function ReadBlock(block: seq<string>): EventText {
    EventText(
      Value(block, "UID:"),
      ReadDay(Value(block, "DTSTART;VALUE=DATE:")),
      ReadDay(Value(block, "DTEND;VALUE=DATE:")),
      Value(block, "DTSTAMP:"),
      ReadText(Value(block, "SUMMARY:")),
      ReadText(Value(block, "DESCRIPTION:")))
  }

  /** Lines before the next END:VEVENT. */
  function BlockLength(lines: seq<string>): (n: nat)
    ensures n <= |lines|
  {
    if lines == [] || lines[0] == "END:VEVENT" then 0 else 1 + BlockLength(lines[1..])
  }

  function ReadEvents(lines: seq<string>): seq<EventText>
    decreases |lines|
  {
    if lines == [] then []
    else if lines[0] == "BEGIN:VEVENT" then
      var n := BlockLength(lines[1..]);
      [ReadBlock(lines[1..][..n])] + ReadEvents(lines[1..][n..])
    else ReadEvents(lines[1..])
  }

  function ReadFeed(document: string): seq<EventText> {
    ReadEvents(Lines(Unfold(document)))
  }

  /** What a reader should see of an event. */
  function Meaning(e: VEvent): EventText {
    EventText(Some(e.uid), Some(e.dtstart), Some(e.dtend), Some(FormatDateTime(e.dtstamp)),
              Some(NormalizeNewlines(e.summary)),
              if e.description.Some? then Some(NormalizeNewlines(e.description.value)) else None)
  }

  function Meanings(events: seq<VEvent>): (r: seq<EventText>)
    ensures |r| == |events| && forall i :: 0 <= i < |r| ==> r[i] == Meaning(events[i])
  {
    if events == [] then [] else [Meaning(events[0])] + Meanings(events[1..])
  }

  // ---- one block ----

  lemma Found(name: string, text: string, rest: seq<string>)
    ensures Value([name + text] + rest, name) == Some(text)
  {
    assert (name + text)[|name|..] == text;
  }

  /** A line that differs from the name at some position is passed over. */
  lemma Skipped(line: string, at: nat, rest: seq<string>, name: string)
    requires at < |line| && at < |name| && line[at] != name[at]
    ensures Value([line] + rest, name) == Value(rest, name)
  {
    assert ([line] + rest)[1..] == rest;
  }

  /** The lines from TRANSP on, from the description on, and so forth, as nested lists. */
  function Tail(e: VEvent, from: nat): seq<string>
    decreases if from < 6 then 6 - from else 0
  {
    if from >= 6 then ["TRANSP:OPAQUE"]
    else if from == 5 then
      if e.description.Some? then ["DESCRIPTION:" + EscapeText(e.description.value)] + Tail(e, 6) else Tail(e, 6)
    else [Line(e, from)] + Tail(e, from + 1)
  }

  function Line(e: VEvent, k: nat): string
    requires k < 5
  {
    if k == 0 then "UID:" + e.uid
    else if k == 1 then "DTSTART;VALUE=DATE:" + FormatDate(e.dtstart)
    else if k == 2 then "DTEND;VALUE=DATE:" + FormatDate(e.dtend)
    else if k == 3 then "DTSTAMP:" + FormatDateTime(e.dtstamp)
    else "SUMMARY:" + EscapeText(e.summary)
  }

  lemma BodyIsTail(e: VEvent)
    ensures BodyLines(e) == Tail(e, 0)
  {
    hide FormatDate, FormatDateTime, EscapeText;
    assert Tail(e, 4) == [Line(e, 4)] + Tail(e, 5);
    assert Tail(e, 3) == [Line(e, 3)] + Tail(e, 4);
    assert Tail(e, 2) == [Line(e, 2)] + Tail(e, 3);
    assert Tail(e, 1) == [Line(e, 1)] + Tail(e, 2);
    assert Tail(e, 0) == [Line(e, 0)] + Tail(e, 1);
  }

  lemma FoundAt(e: VEvent, k: nat, name: string, text: string)
    requires k < 5 && Line(e, k) == name + text
    ensures Value(Tail(e, k), name) == Some(text)
  {
    hide Line;
    Found(name, text, Tail(e, k + 1));
  }

  lemma Past(e: VEvent, k: nat, at: nat, name: string)
    requires k < 5 && at < |Line(e, k)| && at < |name| && Line(e, k)[at] != name[at]
    ensures Value(Tail(e, k), name) == Value(Tail(e, k + 1), name)
  {
    hide Line;
    Skipped(Line(e, k), at, Tail(e, k + 1), name);
  }

  /** The letters by which the names differ. */
  lemma Letters(e: VEvent)
    ensures |Line(e, 0)| > 2 && Line(e, 0)[0] == 'U'
    ensures |Line(e, 1)| > 5 && Line(e, 1)[..6] == "DTSTAR"
    ensures |Line(e, 2)| > 2 && Line(e, 2)[..3] == "DTE"
    ensures |Line(e, 3)| > 2 && Line(e, 3)[..3] == "DTS"
    ensures |Line(e, 4)| > 2 && Line(e, 4)[0] == 'S'
  {
    hide FormatDate, FormatDateTime, EscapeText;
  }

  lemma FoundStart(e: VEvent)
    ensures Value(Tail(e, 1), "DTSTART;VALUE=DATE:") == Some(FormatDate(e.dtstart))
  {
    hide FormatDate;
    FoundAt(e, 1, "DTSTART;VALUE=DATE:", FormatDate(e.dtstart));
  }

  lemma FoundStamp(e: VEvent)
    ensures Value(Tail(e, 3), "DTSTAMP:") == Some(FormatDateTime(e.dtstamp))
  {
    hide FormatDateTime;
    FoundAt(e, 3, "DTSTAMP:", FormatDateTime(e.dtstamp));
  }

  lemma FoundSummary(e: VEvent)
    ensures Value(Tail(e, 4), "SUMMARY:") == Some(EscapeText(e.summary))
  {
    hide EscapeText;
    FoundAt(e, 4, "SUMMARY:", EscapeText(e.summary));
  }

  lemma StartValue(e: VEvent)
    ensures Value(Tail(e, 0), "DTSTART;VALUE=DATE:") == Some(FormatDate(e.dtstart))
  {
    FoundStart(e);
    hide Line, Tail, Value, FormatDate;
    Letters(e);
    Past(e, 0, 0, "DTSTART;VALUE=DATE:");
  }

  lemma FoundEnd(e: VEvent)
    ensures Value(Tail(e, 2), "DTEND;VALUE=DATE:") == Some(FormatDate(e.dtend))
  {
    hide FormatDate;
    FoundAt(e, 2, "DTEND;VALUE=DATE:", FormatDate(e.dtend));
  }

  lemma EndValue(e: VEvent)
    ensures Value(Tail(e, 0), "DTEND;VALUE=DATE:") == Some(FormatDate(e.dtend))
  {
    FoundEnd(e);
    hide Line, Tail, Value, FormatDate;
    Letters(e);
    Past(e, 0, 0, "DTEND;VALUE=DATE:");
    assert Line(e, 1)[..6][2] == 'S';
    Past(e, 1, 2, "DTEND;VALUE=DATE:");
  }

  lemma StampValue(e: VEvent)
    ensures Value(Tail(e, 0), "DTSTAMP:") == Some(FormatDateTime(e.dtstamp))
  {
    FoundStamp(e);
    hide Line, Tail, Value, FormatDateTime;
    Letters(e);
    Past(e, 0, 0, "DTSTAMP:");
    assert Line(e, 1)[..6][5] == 'R' && Line(e, 2)[..3][2] == 'E';
    Past(e, 1, 5, "DTSTAMP:");
    Past(e, 2, 2, "DTSTAMP:");
  }

  lemma SkipDates(e: VEvent, name: string)
    requires |name| > 1 && name[0] != 'U' && name[1] != 'T'
    ensures Value(Tail(e, 0), name) == Value(Tail(e, 4), name)
  {
    hide Line, Tail, Value;
    Letters(e);
    assert Line(e, 1)[..6][1] == 'T' && Line(e, 2)[..3][1] == 'T' && Line(e, 3)[..3][1] == 'T';
    Past(e, 0, 0, name);
    Past(e, 1, 1, name);
    Past(e, 2, 1, name);
    Past(e, 3, 1, name);
  }

  lemma SummaryValue(e: VEvent)
    ensures Value(Tail(e, 0), "SUMMARY:") == Some(EscapeText(e.summary))
  {
    FoundSummary(e);
    hide Line, Tail, Value, EscapeText;
    SkipDates(e, "SUMMARY:");
  }

  lemma LastLines(e: VEvent)
    ensures Value(Tail(e, 5), "DESCRIPTION:") == if e.description.Some? then Some(EscapeText(e.description.value)) else None
  {
    hide EscapeText;
    if e.description.Some? {
      Found("DESCRIPTION:", EscapeText(e.description.value), Tail(e, 6));
    } else {
      Skipped("TRANSP:OPAQUE", 0, [], "DESCRIPTION:");
      assert ["TRANSP:OPAQUE"] + [] == Tail(e, 6);
    }
  }

  lemma DescriptionValue(e: VEvent)
    ensures Value(Tail(e, 0), "DESCRIPTION:") == if e.description.Some? then Some(EscapeText(e.description.value)) else None
  {
    hide Line, Tail, Value, EscapeText;
    SkipDates(e, "DESCRIPTION:");
    Letters(e);
    Past(e, 4, 0, "DESCRIPTION:");
    LastLines(e);
  }

  lemma BlockReads(e: VEvent)
    requires Printable(e)
    ensures ReadBlock(BodyLines(e)) == Meaning(e)
  {
    FoundAt(e, 0, "UID:", e.uid);
    hide BodyLines, Tail, Value, ReadDate, FormatDate, FormatDateTime, EscapeText, Unescape, ContentLine;
    BodyIsTail(e);
    StartValue(e);
    EndValue(e);
    StampValue(e);
    SummaryValue(e);
    DescriptionValue(e);
    DateRoundTripIff(e.dtstart);
    DateRoundTripIff(e.dtend);
    EscapingRoundTrip(e.summary);
    if e.description.Some? {
      EscapingRoundTrip(e.description.value);
    }
  }

  // ---- the document ----

  ghost predicate NoEnd(lines: seq<string>) {
    forall i :: 0 <= i < |lines| ==> lines[i] != "" && lines[i][0] != 'E'
  }

  lemma {:induction false} BlockEnds(block: seq<string>, rest: seq<string>)
    requires NoEnd(block)
    ensures BlockLength(block + (["END:VEVENT"] + rest)) == |block|
    decreases |block|
  {
    if block != [] {
      BlockEnds(block[1..], rest);
      assert (block + (["END:VEVENT"] + rest))[1..] == block[1..] + (["END:VEVENT"] + rest);
      assert block[0] != "END:VEVENT";
    }
  }

  lemma BodyHasNoEnd(e: VEvent)
    ensures NoEnd(BodyLines(e))
  {
    hide FormatDate, FormatDateTime, EscapeText;
    var lines := BodyLines(e);
    assert lines[0][0] == 'U' && lines[1][0] == 'D' && lines[2][0] == 'D' && lines[3][0] == 'D' && lines[4][0] == 'S';
    if e.description.Some? {
      assert lines[5][0] == 'D' && lines[6][0] == 'T';
    } else {
      assert lines[5][0] == 'T';
    }
  }

  lemma ReadOneBlock(body: seq<string>, rest: seq<string>)
    requires NoEnd(body)
    ensures ReadEvents(["BEGIN:VEVENT"] + body + ["END:VEVENT"] + rest) == [ReadBlock(body)] + ReadEvents(rest)
  {
    hide ReadBlock;
    var after := ["END:VEVENT"] + rest;
    var lines := ["BEGIN:VEVENT"] + body + ["END:VEVENT"] + rest;
    assert lines[0] == "BEGIN:VEVENT" && lines[1..] == body + after;
    BlockEnds(body, rest);
    assert (body + after)[..|body|] == body && (body + after)[|body|..] == after;
    assert after[1..] == rest;
    assert after[0][0] == 'E' && after[0] != "BEGIN:VEVENT";
  }

  lemma ReadOneEvent(e: VEvent, rest: seq<string>)
    requires Printable(e)
    ensures ReadEvents(EventLines(e) + rest) == [Meaning(e)] + ReadEvents(rest)
  {
    hide BodyLines, ReadBlock, ReadEvents, Printable, Meaning, NoEnd;
    BodyHasNoEnd(e);
    ReadOneBlock(BodyLines(e), rest);
    BlockReads(e);
  }

  lemma {:induction false} ReadAllEvents(events: seq<VEvent>, rest: seq<string>)
    requires forall i :: 0 <= i < |events| ==> Printable(events[i])
    ensures ReadEvents(AllEventLines(events) + rest) == Meanings(events) + ReadEvents(rest)
    decreases |events|
  {
    hide ReadEvents, Printable, EventLines, Meaning;
    if events == [] {
      assert AllEventLines(events) + rest == rest;
    } else {
      ReadAllEvents(events[1..], rest);
      ReadOneEvent(events[0], AllEventLines(events[1..]) + rest);
      assert AllEventLines(events) + rest == EventLines(events[0]) + (AllEventLines(events[1..]) + rest);
    }
  }

  lemma {:induction false} SkipHeader(header: seq<string>, rest: seq<string>)
    requires forall i :: 0 <= i < |header| ==> header[i] != "BEGIN:VEVENT"
    ensures ReadEvents(header + rest) == ReadEvents(rest)
    decreases |header|
  {
    if header == [] {
      assert header + rest == rest;
    } else {
      SkipHeader(header[1..], rest);
      assert (header + rest)[1..] == header[1..] + rest;
    }
  }

  lemma EndReadsNothing()
    ensures ReadEvents(["END:VCALENDAR"]) == []
  {
    var end := ["END:VCALENDAR"];
    assert end[0][0] == 'E' && end[1..] == [];
  }

  /** Reading the printed calendar gives exactly the events, newlines normalised. */
  lemma FeedRoundTrip(events: seq<VEvent>)
    requires forall i :: 0 <= i < |events| ==> Printable(events[i])
    ensures ReadFeed(BuildVCalendar(BuildAll(events))) == Meanings(events)
  {
    hide ReadEvents, BuildVCalendar, BuildAll, Printable, HeaderLines, AllEventLines, Lines, Unfold, ContentLine, Meanings, FoldAll;
    DocumentLinesComeBack(events);
    HeaderIsFolded();
    ReadAllEvents(events, ["END:VCALENDAR"]);
    SkipHeader(HeaderLines(), AllEventLines(events) + ["END:VCALENDAR"]);
    assert DocumentLines(events) == HeaderLines() + (AllEventLines(events) + ["END:VCALENDAR"]);
    EndReadsNothing();
  }

  ghost predicate AsciiEvent(e: VEvent) {
    && ValidDate(e.dtstart) && FourDigitYear(e.dtstart) && ValidDate(e.dtend) && FourDigitYear(e.dtend) && ValidStamp(e.dtstamp)
    && Ascii(e.uid) && LfFree(e.uid) && Ascii(e.summary) && (e.description.Some? ==> Ascii(e.description.value))
  }

  /** In particular for ASCII texts and the years 1000 to 9999. */
  lemma AsciiFeedRoundTrip(events: seq<VEvent>)
    requires forall i :: 0 <= i < |events| ==> AsciiEvent(events[i])
    ensures ReadFeed(BuildVCalendar(BuildAll(events))) == Meanings(events)
  {
    forall i | 0 <= i < |events| ensures Printable(events[i]) {
      AsciiIsPrintable(events[i]);
    }
    FeedRoundTrip(events);
  }
}
