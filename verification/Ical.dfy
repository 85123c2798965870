/** buildVEvent and buildVCalendar in apps/api/src/calendar/ical.ts. */
module Ical {
  import opened Wrappers
  import opened Text
  import opened CalendarDates
  import opened Escaping
  import opened Folding

  datatype VEvent = VEvent(uid: string, dtstart: Date, dtend: Date, summary: string, description: Option<string>, dtstamp: Timestamp)

  const PRODID := "-//The Owl's Nest//Booking Platform 1.0//EN"
  const CALENDAR_NAME := "The Owl's Nest Availability"

  function BuildVEvent(e: VEvent): string {
    Join(PrintedLines(e), CRLF)
  }

  /** The lines that are joined: only uid, summary and description are folded. */
  function PrintedLines(e: VEvent): seq<string> {
    ["BEGIN:VEVENT",
     FoldLine("UID:" + e.uid),
     "DTSTART;VALUE=DATE:" + FormatDate(e.dtstart),
     "DTEND;VALUE=DATE:" + FormatDate(e.dtend),
     "DTSTAMP:" + FormatDateTime(e.dtstamp),
     FoldLine("SUMMARY:" + EscapeText(e.summary))]
    + (if e.description.Some? then [FoldLine("DESCRIPTION:" + EscapeText(e.description.value))] else [])
    + ["TRANSP:OPAQUE", "END:VEVENT"]
  }

  /** As the source builds it, pushing lines one after the other. */
  method PushVEvent(e: VEvent) returns (block: string)
    ensures block == BuildVEvent(e)
  {
    var uid := FoldLineInPlace("UID:" + e.uid);
    var summary := FoldLineInPlace("SUMMARY:" + EscapeText(e.summary));
    var lines := [
      "BEGIN:VEVENT",
      uid,
      "DTSTART;VALUE=DATE:" + FormatDate(e.dtstart),
      "DTEND;VALUE=DATE:" + FormatDate(e.dtend),
      "DTSTAMP:" + FormatDateTime(e.dtstamp),
      summary];
    if e.description.Some? {
      var description := FoldLineInPlace("DESCRIPTION:" + EscapeText(e.description.value));
      lines := lines + [description];
    }
    lines := lines + ["TRANSP:OPAQUE", "END:VEVENT"];
    assert lines == PrintedLines(e);
    block := Join(lines, CRLF);
  }

  function HeaderLines(): (r: seq<string>)
    ensures r != []
  {
    ["BEGIN:VCALENDAR",
     "VERSION:2.0",
     "PRODID:" + PRODID,
     "CALSCALE:GREGORIAN",
     "METHOD:PUBLISH",
     "X-WR-CALNAME:" + EscapeText(CALENDAR_NAME)]
  }

  function BuildVCalendar(events: seq<string>): string {
    Join(HeaderLines() + events + ["END:VCALENDAR"], CRLF)
  }

  function BuildAll(events: seq<VEvent>): seq<string> {
    if events == [] then [] else [BuildVEvent(events[0])] + BuildAll(events[1..])
  }

  lemma {:induction false} BuiltOneByOne(events: seq<VEvent>, built: seq<string>)
    requires |built| == |events| && forall i :: 0 <= i < |built| ==> built[i] == BuildVEvent(events[i])
    ensures built == BuildAll(events)
    decreases |events|
  {
    if events != [] {
      BuiltOneByOne(events[1..], built[1..]);
    }
  }

  // ---- content lines ----

  function BodyLines(e: VEvent): seq<string> {
    ["UID:" + e.uid,
     "DTSTART;VALUE=DATE:" + FormatDate(e.dtstart),
     "DTEND;VALUE=DATE:" + FormatDate(e.dtend),
     "DTSTAMP:" + FormatDateTime(e.dtstamp),
     "SUMMARY:" + EscapeText(e.summary)]
    + (if e.description.Some? then ["DESCRIPTION:" + EscapeText(e.description.value)] else [])
    + ["TRANSP:OPAQUE"]
  }

  function EventLines(e: VEvent): seq<string> {
    ["BEGIN:VEVENT"] + BodyLines(e) + ["END:VEVENT"]
  }

  function AllEventLines(events: seq<VEvent>): seq<string> {
    if events == [] then [] else EventLines(events[0]) + AllEventLines(events[1..])
  }

  /** What the round trip needs of an event: four-digit years, an LF-free uid, and texts whose lines
      fold between characters. Every ASCII text qualifies, and every text of a short line. */
  ghost predicate Printable(e: VEvent) {
    && ValidDate(e.dtstart) && FourDigitYear(e.dtstart) && ValidDate(e.dtend) && FourDigitYear(e.dtend)
    && ValidStamp(e.dtstamp)
    && ContentLine("UID:" + e.uid)
    && ContentLine("SUMMARY:" + EscapeText(e.summary))
    && (e.description.Some? ==> ContentLine("DESCRIPTION:" + EscapeText(e.description.value)))
  }

  ghost predicate ValidStamp(t: Timestamp) {
    ValidDate(t.date) && FourDigitYear(t.date) && t.hours < 24 && t.minutes < 60 && t.seconds < 60 && t.millis < 1000
  }

  lemma AsciiContentLine(name: string, text: string)
    requires name != "" && Ascii(name) && LfFree(name) && name[0] != ' ' && Ascii(text) && LfFree(text)
    ensures ContentLine(name + text)
  {
    var line := name + text;
    assert line[0] == name[0];
    AsciiSurvives(line);
  }

  lemma AsciiIsPrintable(e: VEvent)
    requires ValidDate(e.dtstart) && FourDigitYear(e.dtstart) && ValidDate(e.dtend) && FourDigitYear(e.dtend) && ValidStamp(e.dtstamp)
    requires Ascii(e.uid) && LfFree(e.uid) && Ascii(e.summary) && (e.description.Some? ==> Ascii(e.description.value))
    ensures Printable(e)
  {
    AsciiContentLine("UID:", e.uid);
    EscapingRoundTrip(e.summary);
    AsciiContentLine("SUMMARY:", EscapeText(e.summary));
    if e.description.Some? {
      EscapingRoundTrip(e.description.value);
      AsciiContentLine("DESCRIPTION:", EscapeText(e.description.value));
    }
  }

  lemma DigitsAreAscii(s: string)
    requires AllDigits(s)
    ensures Ascii(s) && LfFree(s)
  {
  }

  lemma ShortLine(name: string, text: string)
    requires name != "" && Ascii(name) && LfFree(name) && name[0] != ' ' && Ascii(text) && LfFree(text) && |name| + |text| <= 75
    ensures ContentLine(name + text) && FoldLine(name + text) == name + text
  {
    AsciiContentLine(name, text);
  }

  lemma StampText(t: Timestamp)
    requires ValidStamp(t)
    ensures |FormatDateTime(t)| == 16 && Ascii(FormatDateTime(t)) && LfFree(FormatDateTime(t))
  {
    StampShape(t);
    DateRoundTripIff(t.date);
    Pad2Reads(t.hours);
    Pad2Reads(t.minutes);
    Pad2Reads(t.seconds);
  }

  ghost predicate ShortEnough(line: string) {
    ContentLine(line) && FoldLine(line) == line
  }

  lemma FixedLines()
    ensures ShortEnough("BEGIN:VEVENT") && ShortEnough("TRANSP:OPAQUE") && ShortEnough("END:VEVENT")
  {
    ShortLine("BEGIN:VEVENT", "");
    ShortLine("TRANSP:OPAQUE", "");
    ShortLine("END:VEVENT", "");
    hide ContentLine, FoldLine;
    assert "BEGIN:VEVENT" + "" == "BEGIN:VEVENT" && "TRANSP:OPAQUE" + "" == "TRANSP:OPAQUE" && "END:VEVENT" + "" == "END:VEVENT";
  }

  lemma DateLines(start: Date, end: Date, stamp: Timestamp)
    requires ValidDate(start) && FourDigitYear(start) && ValidDate(end) && FourDigitYear(end) && ValidStamp(stamp)
    ensures ShortEnough("DTSTART;VALUE=DATE:" + FormatDate(start))
    ensures ShortEnough("DTEND;VALUE=DATE:" + FormatDate(end))
    ensures ShortEnough("DTSTAMP:" + FormatDateTime(stamp))
  {
    hide FormatDate, FormatDateTime, ContentLine, FoldLine;
    DateRoundTripIff(start);
    DateRoundTripIff(end);
    DigitsAreAscii(FormatDate(start));
    DigitsAreAscii(FormatDate(end));
    StampText(stamp);
    ShortLine("DTSTART;VALUE=DATE:", FormatDate(start));
    ShortLine("DTEND;VALUE=DATE:", FormatDate(end));
    ShortLine("DTSTAMP:", FormatDateTime(stamp));
  }

  /** The lines that are not folded are too short to need it. */
  lemma EventIsFolded(e: VEvent)
    requires Printable(e)
    ensures PrintedLines(e) == FoldAll(EventLines(e)) && EventLines(e) != []
    ensures forall i :: 0 <= i < |EventLines(e)| ==> ContentLine(EventLines(e)[i])
  {
    hide FoldLine, ContentLine, EscapeText, FormatDate, FormatDateTime, ValidStamp;
    FixedLines();
    DateLines(e.dtstart, e.dtend, e.dtstamp);
    FoldedList(PrintedLines(e), EventLines(e));
  }

  lemma FoldedList(printed: seq<string>, lines: seq<string>)
    requires |printed| == |lines| && forall i :: 0 <= i < |lines| ==> printed[i] == FoldLine(lines[i])
    ensures printed == FoldAll(lines)
  {
  }

  predicate Harmless(c: char) {
    c == ' ' || c == '\'' || 'A' <= c <= 'Z' || 'a' <= c <= 'z' || c > '~'
  }

  /** A text without special characters stays as it is. */
  lemma PlainText(s: string)
    requires forall i :: 0 <= i < |s| ==> Harmless(s[i])
    ensures EscapeText(s) == s && NormalizeNewlines(s) == s && LfFree(s)
  {
    PassesAreOnePass(s);
    NothingToEscape(s);
    NothingToNormalize(s);
  }

  lemma {:induction false} NothingToEscape(s: string)
    requires forall i :: 0 <= i < |s| ==> Harmless(s[i])
    ensures EscapeOnce(s) == s
    decreases |s|
  {
    if s != "" {
      NothingToEscape(s[1..]);
      assert EscapeChar(s[0]) == [s[0]] && s[0] != '\r' by { assert Harmless(s[0]); }
      assert [s[0]] + s[1..] == s;
    }
  }

  ghost predicate PlainLine(line: string) {
    ContentLine(line) && FoldLine(line) == line && line != "BEGIN:VEVENT"
  }

  lemma HeaderLine(name: string, text: string)
    requires name != "" && Ascii(name) && LfFree(name) && name[0] != ' ' && Ascii(text) && LfFree(text)
    requires |name| + |text| <= 75 && |name| + |text| != 12
    ensures PlainLine(name + text) && (text == "" ==> PlainLine(name))
  {
    ShortLine(name, text);
    assert text == "" ==> name + text == name;
  }

  lemma StartOfHeader()
    ensures PlainLine("BEGIN:VCALENDAR") && PlainLine("VERSION:2.0")
  {
    hide PlainLine;
    HeaderLine("BEGIN:VCALENDAR", "");
    HeaderLine("VERSION:2.0", "");
  }

  lemma ProductLine()
    ensures PlainLine("PRODID:" + PRODID)
  {
    hide PlainLine;
    HeaderLine("PRODID:", PRODID);
  }

  lemma EndOfHeader()
    ensures PlainLine("CALSCALE:GREGORIAN") && PlainLine("METHOD:PUBLISH")
  {
    hide PlainLine;
    HeaderLine("CALSCALE:GREGORIAN", "");
    HeaderLine("METHOD:PUBLISH", "");
  }

  lemma NameIsAscii()
    ensures Ascii(CALENDAR_NAME)
  {
  }

  lemma NameLine()
    ensures PlainLine("X-WR-CALNAME:" + EscapeText(CALENDAR_NAME))
  {
    hide PlainLine, EscapeText, NormalizeNewlines;
    PlainText(CALENDAR_NAME);
    NameIsAscii();
    HeaderLine("X-WR-CALNAME:", CALENDAR_NAME);
  }

  lemma HeaderIsPlain()
    ensures forall i :: 0 <= i < |HeaderLines()| ==> PlainLine(HeaderLines()[i])
  {
    hide PlainLine, EscapeText;
    StartOfHeader();
    ProductLine();
    EndOfHeader();
    NameLine();
  }

  lemma HeaderIsFolded()
    ensures HeaderLines() == FoldAll(HeaderLines()) && HeaderLines() != []
    ensures forall i :: 0 <= i < |HeaderLines()| ==> ContentLine(HeaderLines()[i]) && HeaderLines()[i] != "BEGIN:VEVENT"
  {
    hide HeaderLines, ContentLine, FoldLine;
    HeaderIsPlain();
    FoldedList(HeaderLines(), HeaderLines());
  }

  function DocumentLines(events: seq<VEvent>): seq<string> {
    HeaderLines() + AllEventLines(events) + ["END:VCALENDAR"]
  }

  /** Joining blocks that were joined before is joining all their lines. */
  lemma {:induction false} BlocksAndEnd(events: seq<VEvent>, end: string)
    requires forall i :: 0 <= i < |events| ==> Printable(events[i])
    ensures Join(BuildAll(events) + [end], CRLF) == Join(FoldAll(AllEventLines(events)) + [end], CRLF)
    decreases |events|
  {
    hide PrintedLines, EventLines, FoldLine, ContentLine, Printable;
    if events == [] {
    } else {
      var rest := events[1..];
      EventIsFolded(events[0]);
      BlocksAndEnd(rest, end);
      var block, lines := PrintedLines(events[0]), FoldAll(AllEventLines(rest)) + [end];
      JoinOfJoins([BuildVEvent(events[0])], BuildAll(rest) + [end], CRLF);
      JoinOfJoins(block, lines, CRLF);
      assert BuildAll(events) + [end] == [BuildVEvent(events[0])] + (BuildAll(rest) + [end]);
      FoldAllAppends(EventLines(events[0]), AllEventLines(rest));
      assert FoldAll(AllEventLines(events)) + [end] == block + lines;
    }
  }

  lemma FoldAllAppends(a: seq<string>, b: seq<string>)
    ensures FoldAll(a + b) == FoldAll(a) + FoldAll(b)
  {
  }

  lemma SameTail(header: seq<string>, a: seq<string>, b: seq<string>)
    requires header != [] && a != [] && b != [] && Join(a, CRLF) == Join(b, CRLF)
    ensures Join(header + a, CRLF) == Join(header + b, CRLF)
  {
    hide Join;
    JoinOfJoins(header, a, CRLF);
    JoinOfJoins(header, b, CRLF);
  }

  lemma FoldedDocument(events: seq<VEvent>)
    ensures FoldAll(DocumentLines(events)) == HeaderLines() + (FoldAll(AllEventLines(events)) + ["END:VCALENDAR"])
  {
    hide HeaderLines, AllEventLines, FoldLine, FoldAll;
    EndIsContentLine();
    FoldedList(["END:VCALENDAR"], ["END:VCALENDAR"]);
    HeaderIsFolded();
    FoldAllAppends(HeaderLines() + AllEventLines(events), ["END:VCALENDAR"]);
    FoldAllAppends(HeaderLines(), AllEventLines(events));
    Associates(HeaderLines(), FoldAll(AllEventLines(events)), ["END:VCALENDAR"]);
  }

  lemma Associates(a: seq<string>, b: seq<string>, c: seq<string>)
    ensures a + b + c == a + (b + c)
  {
  }

  /** The whole document is its content lines, folded and joined. */
  lemma DocumentIsFolded(events: seq<VEvent>)
    requires forall i :: 0 <= i < |events| ==> Printable(events[i])
    ensures BuildVCalendar(BuildAll(events)) == Join(FoldAll(DocumentLines(events)), CRLF)
  {
    hide HeaderLines, Printable, BuildAll, AllEventLines, Join, FoldAll, DocumentLines;
    BlocksAndEnd(events, "END:VCALENDAR");
    var built, folded := BuildAll(events) + ["END:VCALENDAR"], FoldAll(AllEventLines(events)) + ["END:VCALENDAR"];
    SameTail(HeaderLines(), built, folded);
    Associates(HeaderLines(), BuildAll(events), ["END:VCALENDAR"]);
    FoldedDocument(events);
  }

  lemma {:induction false} AllContentLines(events: seq<VEvent>)
    requires forall i :: 0 <= i < |events| ==> Printable(events[i])
    ensures forall i :: 0 <= i < |AllEventLines(events)| ==> ContentLine(AllEventLines(events)[i])
    decreases |events|
  {
    hide EventLines, ContentLine, Printable;
    if events != [] {
      EventIsFolded(events[0]);
      AllContentLines(events[1..]);
    }
  }

  lemma EndIsContentLine()
    ensures ContentLine("END:VCALENDAR") && FoldLine("END:VCALENDAR") == "END:VCALENDAR"
  {
    HeaderLine("END:VCALENDAR", "");
  }

  lemma AllThree(a: seq<string>, b: seq<string>, c: seq<string>)
    requires forall i :: 0 <= i < |a| ==> ContentLine(a[i])
    requires forall i :: 0 <= i < |b| ==> ContentLine(b[i])
    requires forall i :: 0 <= i < |c| ==> ContentLine(c[i])
    ensures forall i :: 0 <= i < |a + b + c| ==> ContentLine((a + b + c)[i])
  {
    hide ContentLine;
  }

  lemma DocumentContentLines(events: seq<VEvent>)
    requires forall i :: 0 <= i < |events| ==> Printable(events[i])
    ensures DocumentLines(events) != []
    ensures forall i :: 0 <= i < |DocumentLines(events)| ==> ContentLine(DocumentLines(events)[i])
  {
    hide HeaderLines, AllEventLines, ContentLine, FoldLine, Printable, FoldAll;
    EndIsContentLine();
    HeaderIsFolded();
    AllContentLines(events);
    AllThree(HeaderLines(), AllEventLines(events), ["END:VCALENDAR"]);
  }

  /** Unfolding the document and splitting it at CRLF gives the content lines back. */
  lemma DocumentLinesComeBack(events: seq<VEvent>)
    requires forall i :: 0 <= i < |events| ==> Printable(events[i])
    ensures Lines(Unfold(BuildVCalendar(BuildAll(events)))) == DocumentLines(events)
  {
    hide *;
    DocumentIsFolded(events);
    DocumentContentLines(events);
    DocumentRoundTrip(DocumentLines(events));
  }
}
