/** escapeText in apps/api/src/calendar/ical.ts, and the reader's way back (RFC 5545, section 3.3.11). */
module Escaping {
  import opened Text

  /** `.replace(/c/g, with)` */
  function ReplaceAll(s: string, c: char, with: string): string {
    if s == "" then "" else (if s[0] == c then with else [s[0]]) + ReplaceAll(s[1..], c, with)
  }

  /** `.replace(/\r?\n/g, '\\n')` */
  function ReplaceNewlines(s: string): string {
    if s == "" then ""
    else if s[0] == '\n' then "\\n" + ReplaceNewlines(s[1..])
    else if s[0] == '\r' && |s| > 1 && s[1] == '\n' then "\\n" + ReplaceNewlines(s[2..])
    else [s[0]] + ReplaceNewlines(s[1..])
  }

  function EscapeText(text: string): string {
    ReplaceNewlines(ThreePasses(text))
  }

  function ThreePasses(text: string): string {
    ReplaceAll(ReplaceAll(ReplaceAll(text, '\\', "\\\\"), ';', "\\;"), ',', "\\,")
  }

  // ---- one pass ----

  function EscapeChar(c: char): string {
    if c == '\\' then "\\\\" else if c == ';' then "\\;" else if c == ',' then "\\," else if c == '\n' then "\\n" else [c]
  }

  /** The same in a single pass over the characters. */
  function EscapeOnce(s: string): string {
    if s == "" then ""
    else if s[0] == '\r' && |s| > 1 && s[1] == '\n' then "\\n" + EscapeOnce(s[2..])
    else EscapeChar(s[0]) + EscapeOnce(s[1..])
  }

  function PassChar(c: char): string {
    if c == '\n' then "\n" else EscapeChar(c)
  }

  lemma {:induction false} ReplaceDistributes(a: string, b: string, c: char, with: string)
    ensures ReplaceAll(a + b, c, with) == ReplaceAll(a, c, with) + ReplaceAll(b, c, with)
    decreases |a|
  {
    if a == "" {
      assert a + b == b;
    } else {
      ReplaceDistributes(a[1..], b, c, with);
      assert (a + b)[1..] == a[1..] + b;
    }
  }

  lemma ReplaceOne(x: char, c: char, with: string)
    ensures ReplaceAll([x], c, with) == if x == c then with else [x]
  {
    assert [x][1..] == "";
    assert ReplaceAll("", c, with) == "";
  }

  lemma ReplaceTwo(x: char, y: char, c: char, with: string)
    requires x != c && y != c
    ensures ReplaceAll([x, y], c, with) == [x, y]
  {
    ReplaceDistributes([x], [y], c, with);
    assert [x] + [y] == [x, y];
    ReplaceOne(x, c, with);
    ReplaceOne(y, c, with);
  }

  /** Backslash first, so later passes never see the backslashes that earlier ones put in. */
  lemma PassesOnChar(x: char)
    ensures ThreePasses([x]) == PassChar(x)
  {
    ReplaceOne(x, '\\', "\\\\");
    if x == '\\' {
      ReplaceTwo('\\', '\\', ';', "\\;");
      ReplaceTwo('\\', '\\', ',', "\\,");
    } else {
      ReplaceOne(x, ';', "\\;");
      if x == ';' {
        ReplaceTwo('\\', ';', ',', "\\,");
      } else {
        ReplaceOne(x, ',', "\\,");
      }
    }
  }

  lemma PassesDistribute(a: string, b: string)
    ensures ThreePasses(a + b) == ThreePasses(a) + ThreePasses(b)
  {
    ReplaceDistributes(a, b, '\\', "\\\\");
    var a1, b1 := ReplaceAll(a, '\\', "\\\\"), ReplaceAll(b, '\\', "\\\\");
    ReplaceDistributes(a1, b1, ';', "\\;");
    ReplaceDistributes(ReplaceAll(a1, ';', "\\;"), ReplaceAll(b1, ';', "\\;"), ',', "\\,");
  }

  lemma PassesStep(s: string)
    requires s != ""
    ensures ThreePasses(s) == PassChar(s[0]) + ThreePasses(s[1..])
  {
    PassesDistribute([s[0]], s[1..]);
    PassesOnChar(s[0]);
    assert [s[0]] + s[1..] == s;
  }

  lemma NewlinesSkipPlain(p: string, rest: string)
    requires |p| == 1 || (|p| == 2 && p[1] != '\n' && p[1] != '\r')
    requires p[0] != '\n' && p[0] != '\r'
    ensures ReplaceNewlines(p + rest) == p + ReplaceNewlines(rest)
  {
    var s := p + rest;
    assert s[1..] == p[1..] + rest;
    if |p| == 2 {
      assert s[1..][1..] == rest;
      assert s[1..][0] == p[1];
    } else {
      assert s[1..] == rest;
    }
  }

  /** The four replacement passes equal the single-pass character map, for every string. */
  lemma {:induction false} PassesAreOnePass(s: string)
    ensures EscapeText(s) == EscapeOnce(s)
    decreases |s|
  {
    if s != "" {
      PassesStep(s);
      PassesAreOnePass(s[1..]);
      var t := ThreePasses(s[1..]);
      if s[0] == '\n' {
        assert (['\n'] + t)[1..] == t;
      } else if s[0] == '\r' {
        assert (['\r'] + t)[1..] == t;
        if |s| > 1 {
          PassesStep(s[1..]);
          assert t[0] == '\n' <==> s[1] == '\n';
          if s[1] == '\n' {
            PassesAreOnePass(s[2..]);
            assert s[1..][1..] == s[2..];
            assert (['\r'] + t)[2..] == ThreePasses(s[2..]);
          }
        }
      } else {
        NewlinesSkipPlain(PassChar(s[0]), t);
      }
    }
  }

  lemma {:induction false} EscapedHasNoLf(s: string)
    ensures LfFree(EscapeOnce(s))
    decreases |s|
  {
    if s != "" {
      EscapedHasNoLf(s[1..]);
      if |s| > 1 {
        EscapedHasNoLf(s[2..]);
      }
    }
  }

  lemma {:induction false} EscapedIsAscii(s: string)
    requires Ascii(s)
    ensures Ascii(EscapeOnce(s))
    decreases |s|
  {
    if s != "" {
      EscapedIsAscii(s[1..]);
      if |s| > 1 {
        EscapedIsAscii(s[2..]);
      }
    }
  }

  // ---- the way back ----

  /** `\\`, `\;`, `\,` stand for the character, `\n` and `\N` for a newline. */
  function Unescape(s: string): string {
    if s == "" then ""
    else if s[0] == '\\' && |s| > 1 && s[1] in {'\\', ';', ','} then [s[1]] + Unescape(s[2..])
    else if s[0] == '\\' && |s| > 1 && s[1] in {'n', 'N'} then "\n" + Unescape(s[2..])
    else [s[0]] + Unescape(s[1..])
  }

  /** CRLF becomes LF; everything else stays. */
  function NormalizeNewlines(s: string): string {
    if s == "" then ""
    else if s[0] == '\r' && |s| > 1 && s[1] == '\n' then "\n" + NormalizeNewlines(s[2..])
    else [s[0]] + NormalizeNewlines(s[1..])
  }

  lemma UnescapePair(c: char, rest: string)
    requires c in {'\\', ';', ',', 'n'}
    ensures Unescape(['\\', c] + rest) == [if c == 'n' then '\n' else c] + Unescape(rest)
  {
    assert (['\\', c] + rest)[2..] == rest;
  }

  lemma UnescapePlain(c: char, rest: string)
    requires c != '\\'
    ensures Unescape([c] + rest) == [c] + Unescape(rest)
  {
    assert ([c] + rest)[1..] == rest;
  }

  lemma {:induction false} UnescapeUndoesOnePass(s: string)
    ensures Unescape(EscapeOnce(s)) == NormalizeNewlines(s)
    decreases |s|
  {
    if s == "" {
    } else if s[0] == '\r' && |s| > 1 && s[1] == '\n' {
      UnescapePair('n', EscapeOnce(s[2..]));
      UnescapeUndoesOnePass(s[2..]);
    } else {
      UnescapeUndoesOnePass(s[1..]);
      var rest := EscapeOnce(s[1..]);
      if s[0] in {'\\', ';', ','} {
        UnescapePair(s[0], rest);
      } else if s[0] == '\n' {
        UnescapePair('n', rest);
      } else {
        UnescapePlain(s[0], rest);
      }
    }
  }

  /** Escaping leaves no LF, and unescaping gives the text back with CRLF normalised to LF. */
  lemma EscapingRoundTrip(text: string)
    ensures LfFree(EscapeText(text))
    ensures Unescape(EscapeText(text)) == NormalizeNewlines(text)
    ensures Ascii(text) ==> Ascii(EscapeText(text))
  {
    PassesAreOnePass(text);
    EscapedHasNoLf(text);
    UnescapeUndoesOnePass(text);
    if Ascii(text) {
      EscapedIsAscii(text);
    }
  }

  /** Texts without CRLF come back unchanged. */
  lemma {:induction false} NothingToNormalize(text: string)
    requires forall i :: 0 <= i < |text| - 1 ==> !(text[i] == '\r' && text[i + 1] == '\n')
    ensures NormalizeNewlines(text) == text
    decreases |text|
  {
    if text != "" {
      NothingToNormalize(text[1..]);
      assert [text[0]] + text[1..] == text;
    }
  }

  /** What each special character becomes; every other character stays. */
  lemma SpecialCharacters(c: char)
    ensures EscapeText([c]) ==
            if c == ';' then ['\\', ';'] else if c == ',' then ['\\', ','] else if c == '\\' then ['\\', '\\']
            else if c == '\n' then ['\\', 'n'] else [c]
    ensures EscapeText(['\r', '\n']) == ['\\', 'n']
  {
    PassesAreOnePass([c]);
    PassesAreOnePass(['\r', '\n']);
    assert [c][1..] == "" && ['\r', '\n'][2..] == "";
    assert EscapeOnce("") == "";
    hide EscapeText;
  }
}
