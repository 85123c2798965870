/** Strings of octets, one char per octet: a text stands for its UTF-8 encoding. */
module Text {
  ghost predicate LfFree(s: string) {
    '\n' !in s
  }

  ghost predicate Ascii(s: string) {
    forall i :: 0 <= i < |s| ==> s[i] as int < 128
  }

  function Join(parts: seq<string>, separator: string): string {
    if parts == [] then ""
    else if |parts| == 1 then parts[0]
    else parts[0] + separator + Join(parts[1..], separator)
  }

  function Concat(parts: seq<string>): string {
    if parts == [] then "" else parts[0] + Concat(parts[1..])
  }

  const CRLF := "\r\n"

  /** Split at CRLF. */
  function Lines(s: string): (r: seq<string>)
    ensures |r| >= 1
  {
    if s == "" then [""]
    else if |s| >= 2 && s[0] == '\r' && s[1] == '\n' then [""] + Lines(s[2..])
    else
      var rest := Lines(s[1..]);
      [[s[0]] + rest[0]] + rest[1..]
  }

  lemma {:induction false} LinesOfOne(a: string)
    requires LfFree(a)
    ensures Lines(a) == [a]
    decreases |a|
  {
    if a != "" {
      LinesOfOne(a[1..]);
      assert [a[0]] + a[1..] == a;
    }
  }

  lemma {:induction false} FirstLine(a: string, b: string)
    requires LfFree(a)
    ensures Lines(a + CRLF + b) == [a] + Lines(b)
    decreases |a|
  {
    var s := a + CRLF + b;
    if a == "" {
      assert s == CRLF + b && s[2..] == b;
    } else {
      assert s[1..] == a[1..] + CRLF + b;
      assert s[0] == a[0];
      assert |a| == 1 ==> s[1] == '\r';
      assert |a| > 1 ==> s[1] == a[1];
      FirstLine(a[1..], b);
      assert [a[0]] + a[1..] == a;
    }
  }

  ghost predicate AllLfFree(parts: seq<string>) {
    forall i :: 0 <= i < |parts| ==> LfFree(parts[i])
  }

  /** Splitting undoes joining. */
  lemma {:induction false} LinesOfJoin(parts: seq<string>)
    requires parts != [] && AllLfFree(parts)
    ensures Lines(Join(parts, CRLF)) == parts
    decreases |parts|
  {
    if |parts| == 1 {
      LinesOfOne(parts[0]);
    } else {
      FirstLine(parts[0], Join(parts[1..], CRLF));
      LinesOfJoin(parts[1..]);
      assert [parts[0]] + parts[1..] == parts;
    }
  }

  lemma Regrouped(a: string, s: string, j: string, k: string)
    ensures a + s + (j + s + k) == (a + s + j) + s + k
  {
    assert a + s + (j + s + k) == a + s + j + (s + k);
  }

  lemma {:induction false} JoinOfJoins(a: seq<string>, b: seq<string>, separator: string)
    requires a != [] && b != []
    ensures Join(a + b, separator) == Join(a, separator) + separator + Join(b, separator)
    decreases |a|
  {
    if |a| == 1 {
      assert (a + b)[1..] == b;
    } else {
      JoinOfJoins(a[1..], b, separator);
      assert (a + b)[1..] == a[1..] + b;
      Regrouped(a[0], separator, Join(a[1..], separator), Join(b, separator));
    }
  }
}
