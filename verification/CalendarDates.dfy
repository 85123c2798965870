/** formatDate and formatDateTime in apps/api/src/calendar/ical.ts, and reading dates back. */
module CalendarDates {
  import opened Wrappers
  import opened Text

  /** The UTC components of a Date, as the JavaScript library gives them. */
  datatype Date = Date(year: nat, month: nat, day: nat)

  datatype Timestamp = Timestamp(date: Date, hours: nat, minutes: nat, seconds: nat, millis: nat)

  predicate ValidDate(d: Date) {
    1 <= d.month <= 12 && 1 <= d.day <= 31
  }

  /** Four-digit years: what the round trip is promised for. */
  predicate FourDigitYear(d: Date) {
    1000 <= d.year <= 9999
  }

  function Digit(n: nat): char
    requires n < 10
  {
    '0' + n as char
  }

  function Decimal(n: nat): (s: string)
    ensures s != "" && AllDigits(s)
  {
    if n < 10 then [Digit(n)] else Decimal(n / 10) + [Digit(n % 10)]
  }

  predicate AllDigits(s: string) {
    forall i :: 0 <= i < |s| ==> '0' <= s[i] <= '9'
  }

  /** `String(n).padStart(2, '0')` */
  function Pad2(n: nat): (s: string)
    ensures AllDigits(s)
  {
    if n < 10 then "0" + Decimal(n) else Decimal(n)
  }

  function FormatDate(d: Date): string {
    Decimal(d.year) + Pad2(d.month) + Pad2(d.day)
  }

  // ---- reading ----

  function Number(s: string): nat
    requires AllDigits(s)
  {
    if s == "" then 0 else 10 * Number(s[..|s| - 1]) + (s[|s| - 1] as int - '0' as int)
  }

  function ReadDate(s: string): Option<Date> {
    if |s| == 8 && AllDigits(s) then Some(Date(Number(s[..4]), Number(s[4..6]), Number(s[6..]))) else None
  }

  lemma {:induction false} NumberOfDecimal(n: nat)
    ensures Number(Decimal(n)) == n
    decreases n
  {
    if n >= 10 {
      NumberOfDecimal(n / 10);
      assert (Decimal(n / 10) + [Digit(n % 10)])[..|Decimal(n / 10)|] == Decimal(n / 10);
    } else {
      assert [Digit(n)][..0] == "";
    }
  }

  lemma DecimalLength(n: nat)
    ensures |Decimal(n)| >= 1
    ensures n >= 10 ==> |Decimal(n)| == 1 + |Decimal(n / 10)|
    ensures n < 10 ==> |Decimal(n)| == 1
  {
  }

  lemma FourDigits(n: nat)
    ensures |Decimal(n)| == 4 <==> 1000 <= n <= 9999
  {
    DecimalLength(n);
    DecimalLength(n / 10);
    DecimalLength(n / 10 / 10);
    DecimalLength(n / 10 / 10 / 10);
    if n / 10 / 10 / 10 >= 10 {
      DecimalLength(n / 10 / 10 / 10 / 10);
    }
  }

  lemma Pad2Reads(n: nat)
    requires n < 100
    ensures |Pad2(n)| == 2 && Number(Pad2(n)) == n
  {
    DecimalLength(n);
    DecimalLength(n / 10);
    NumberOfDecimal(n);
    if n < 10 {
      var s := Pad2(n);
      assert s == ['0', Digit(n)];
      assert s[..1] == ['0'] && ['0'][..0] == "";
    }
  }

  /** A date is written in eight digits, and read back, exactly for the years 1000 to 9999. */
  lemma DateRoundTripIff(d: Date)
    requires ValidDate(d)
    ensures |FormatDate(d)| == 8 <==> FourDigitYear(d)
    ensures ReadDate(FormatDate(d)) == Some(d) <==> FourDigitYear(d)
    ensures AllDigits(FormatDate(d))
  {
    FourDigits(d.year);
    Pad2Reads(d.month);
    Pad2Reads(d.day);
    NumberOfDecimal(d.year);
    var s := FormatDate(d);
    if FourDigitYear(d) {
      assert s[..4] == Decimal(d.year) && s[4..6] == Pad2(d.month) && s[6..] == Pad2(d.day);
    }
  }

  // ---- DTSTAMP ----

  /** `toISOString()` for the years 0 to 9999. */
  function IsoString(t: Timestamp): string {
    IsoDate(t.date) + "T" + IsoTime(t) + "." + Pad(t.millis, 3) + "Z"
  }

  function IsoDate(d: Date): string {
    Pad(d.year, 4) + "-" + Pad2(d.month) + "-" + Pad2(d.day)
  }

  function IsoTime(t: Timestamp): string {
    Pad2(t.hours) + ":" + Pad2(t.minutes) + ":" + Pad2(t.seconds)
  }

  function Pad(n: nat, width: nat): (s: string)
    ensures AllDigits(s) && |s| >= width
    ensures |Decimal(n)| <= width ==> |s| == width
    ensures |Decimal(n)| >= width ==> s == Decimal(n)
  {
    var s := Decimal(n);
    if |s| >= width then s else seq(width - |s|, i => '0') + s
  }

  /** `.replace(/[-:]/g, '')` */
  function DropSeparators(s: string): string {
    if s == "" then "" else (if s[0] == '-' || s[0] == ':' then "" else [s[0]]) + DropSeparators(s[1..])
  }

  /** `.replace(/\.\d{3}/, '')`: the first point that three digits follow. */
  function DropMillis(s: string): string {
    if s == "" then ""
    else if s[0] == '.' && |s| >= 4 && AllDigits(s[1..4]) then s[4..]
    else [s[0]] + DropMillis(s[1..])
  }

  function FormatDateTime(t: Timestamp): string {
    DropMillis(DropSeparators(IsoString(t)))
  }

  lemma {:induction false} DropDistributes(a: string, b: string)
    ensures DropSeparators(a + b) == DropSeparators(a) + DropSeparators(b)
    decreases |a|
  {
    if a == "" {
      assert a + b == b;
    } else {
      DropDistributes(a[1..], b);
      assert (a + b)[1..] == a[1..] + b && (a + b)[0] == a[0];
    }
  }

  lemma {:induction false} DropKeepsDigits(s: string)
    requires forall i :: 0 <= i < |s| ==> s[i] != '-' && s[i] != ':'
    ensures DropSeparators(s) == s
    decreases |s|
  {
    if s != "" {
      DropKeepsDigits(s[1..]);
      assert [s[0]] + s[1..] == s;
    }
  }

  lemma DropMark(a: string, b: string, mark: string)
    requires mark == "-" || mark == ":"
    ensures DropSeparators(a + mark + b) == DropSeparators(a) + DropSeparators(b)
  {
    DropDistributes(a + mark, b);
    DropDistributes(a, mark);
    assert mark[1..] == "" && DropSeparators("") == "";
    assert DropSeparators(a) + "" == DropSeparators(a);
  }

  lemma DropThree(a: string, b: string, c: string, mark: string)
    requires AllDigits(a) && AllDigits(b) && AllDigits(c) && (mark == "-" || mark == ":")
    ensures DropSeparators(a + mark + b + mark + c) == a + b + c
  {
    DropMark(a + mark + b, c, mark);
    DropMark(a, b, mark);
    DropKeepsDigits(a);
    DropKeepsDigits(b);
    DropKeepsDigits(c);
  }

  lemma {:induction false} DropMillisAfter(a: string, digits: string, rest: string)
    requires '.' !in a && |digits| == 3 && AllDigits(digits)
    ensures DropMillis(a + "." + digits + rest) == a + rest
    decreases |a|
  {
    var s := a + "." + digits + rest;
    if a == "" {
      assert s[1..4] == digits && s[4..] == rest;
      assert a + rest == rest;
    } else {
      assert s[1..] == a[1..] + "." + digits + rest;
      DropMillisAfter(a[1..], digits, rest);
      assert [a[0]] + (a[1..] + rest) == a + rest;
    }
  }

  /** The stamp is the date, a T, the time and a Z. */
  lemma StampShape(t: Timestamp)
    requires FourDigitYear(t.date) && t.millis < 1000
    ensures FormatDateTime(t) == FormatDate(t.date) + "T" + (Pad2(t.hours) + Pad2(t.minutes) + Pad2(t.seconds)) + "Z"
  {
    FourDigits(t.date.year);
    ThreeDigits(t.millis);
    DropThree(Pad(t.date.year, 4), Pad2(t.date.month), Pad2(t.date.day), "-");
    DropThree(Pad2(t.hours), Pad2(t.minutes), Pad2(t.seconds), ":");
    var date, time, ms := IsoDate(t.date), IsoTime(t), Pad(t.millis, 3);
    DropParts(date, time, ms);
    var front := FormatDate(t.date) + "T" + (Pad2(t.hours) + Pad2(t.minutes) + Pad2(t.seconds));
    DropMillisAfter(front, ms, "Z");
  }

  lemma DropParts(date: string, time: string, ms: string)
    requires AllDigits(ms)
    ensures DropSeparators(date + "T" + time + "." + ms + "Z") == DropSeparators(date) + "T" + DropSeparators(time) + "." + ms + "Z"
  {
    DropDistributes(date + "T" + time + "." + ms, "Z");
    DropDistributes(date + "T" + time + ".", ms);
    DropDistributes(date + "T" + time, ".");
    DropDistributes(date + "T", time);
    DropDistributes(date, "T");
    DropKeepsDigits(ms);
    DropKeepsDigits("T");
    DropKeepsDigits(".");
    DropKeepsDigits("Z");
  }

  lemma ThreeDigits(n: nat)
    requires n < 1000
    ensures |Decimal(n)| <= 3
  {
    DecimalLength(n);
    DecimalLength(n / 10);
    DecimalLength(n / 10 / 10);
  }
}
