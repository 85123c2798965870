/** What Buffer.toString('utf-8') followed by encoding again does to a run of octets. */
module Utf8 {
  import opened Text

  predicate Continuation(c: char) {
    0x80 <= c as int < 0xC0
  }

  /** Length that a lead octet announces; 0 for an octet that cannot lead. */
  function LeadLength(c: char): nat {
    var n := c as int;
    if n < 0x80 then 1
    else if 0xC2 <= n < 0xE0 then 2
    else if 0xE0 <= n < 0xF0 then 3
    else if 0xF0 <= n < 0xF5 then 4
    else 0
  }

  /** How many of the first `limit` octets are continuations in a row. */
  function ContinuationRun(s: string, limit: nat): (n: nat)
    ensures n <= limit && n <= |s|
    ensures forall i :: 0 <= i < n ==> Continuation(s[i])
    ensures n < limit && n < |s| ==> !Continuation(s[n])
  {
    if limit == 0 || s == "" || !Continuation(s[0]) then 0 else 1 + ContinuationRun(s[1..], limit - 1)
  }

  /** Octets of the first character, if it is well formed. */
  predicate StartsWell(s: string)
    requires s != ""
  {
    LeadLength(s[0]) > 0 && ContinuationRun(s[1..], LeadLength(s[0]) - 1) == LeadLength(s[0]) - 1
  }

  /** Octets consumed for one replacement character. */
  function MalformedLength(s: string): (n: nat)
    requires s != "" && !StartsWell(s)
    ensures 1 <= n <= 3 && n <= |s|
    ensures Continuation(s[0]) ==> n == 1
  {
    if LeadLength(s[0]) == 0 then 1 else 1 + ContinuationRun(s[1..], LeadLength(s[0]) - 1)
  }

  const REPLACEMENT: string := ['\U{EF}', '\U{BF}', '\U{BD}']

  /** Decode and encode: well-formed characters stay, each malformed piece becomes U+FFFD. */
  function Recode(s: string): string
    decreases |s|
  {
    if s == "" then ""
    else if StartsWell(s) then s[..LeadLength(s[0])] + Recode(s[LeadLength(s[0])..])
    else REPLACEMENT + Recode(s[MalformedLength(s)..])
  }

  predicate WellFormed(s: string)
    decreases |s|
  {
    s == "" || (StartsWell(s) && WellFormed(s[LeadLength(s[0])..]))
  }

  lemma {:induction false} RecodeKeepsWellFormed(s: string)
    requires WellFormed(s)
    ensures Recode(s) == s
    decreases |s|
  {
    if s != "" {
      RecodeKeepsWellFormed(s[LeadLength(s[0])..]);
    }
  }

  /** Recoding never shortens, and lengthens what starts in the middle of a character. */
  lemma {:induction false} RecodeGrows(s: string)
    ensures |Recode(s)| >= |s|
    ensures s != "" && Continuation(s[0]) ==> |Recode(s)| > |s|
    decreases |s|
  {
    if s != "" {
      if StartsWell(s) {
        RecodeGrows(s[LeadLength(s[0])..]);
      } else {
        RecodeGrows(s[MalformedLength(s)..]);
      }
    }
  }

  lemma {:induction false} RecodeLfFree(s: string)
    requires LfFree(s)
    ensures LfFree(Recode(s))
    decreases |s|
  {
    if s != "" {
      if StartsWell(s) {
        RecodeLfFree(s[LeadLength(s[0])..]);
      } else {
        RecodeLfFree(s[MalformedLength(s)..]);
      }
    }
  }

  lemma {:induction false} AsciiIsWellFormed(s: string)
    requires Ascii(s)
    ensures WellFormed(s)
    decreases |s|
  {
    if s != "" {
      AsciiIsWellFormed(s[1..]);
    }
  }

  lemma LongerStartsWell(a: string, b: string)
    requires a != "" && StartsWell(a)
    ensures StartsWell(a + b) && (a + b)[0] == a[0]
  {
    var n := LeadLength(a[0]);
    var run := ContinuationRun((a + b)[1..], n - 1);
    assert forall i :: 0 <= i < n - 1 ==> (a + b)[1..][i] == a[1..][i];
  }

  /** Well-formed texts one after the other are well formed. */
  lemma {:induction false} ConcatWellFormed(a: string, b: string)
    requires WellFormed(a) && WellFormed(b)
    ensures WellFormed(a + b)
    decreases |a|
  {
    if a == "" {
      assert a + b == b;
    } else {
      Unfolded(a);
      var n := LeadLength(a[0]);
      assert 0 < n <= |a|;
      LongerStartsWell(a, b);
      var whole := a + b;
      assert whole[n..] == a[n..] + b;
      hide WellFormed, StartsWell, LeadLength;
      ConcatWellFormed(a[n..], b);
      Unfolded(whole);
    }
  }

  lemma Unfolded(s: string)
    requires s != ""
    ensures WellFormed(s) <==> StartsWell(s) && LeadLength(s[0]) <= |s| && WellFormed(s[LeadLength(s[0])..])
  {
  }

  /** A well-formed text cut where no character is split falls into two well-formed texts. */
  lemma {:induction false} CutOnBoundary(s: string, p: nat)
    requires WellFormed(s) && p <= |s| && (p < |s| ==> !Continuation(s[p]))
    ensures WellFormed(s[..p]) && WellFormed(s[p..])
    decreases |s|
  {
    if p == 0 || s == "" {
      assert s[0..] == s && s[..0] == "";
    } else {
      Unfolded(s);
      InsideIsContinuation(s, p);
      var n := LeadLength(s[0]);
      assert 0 < n <= p;
      PrefixStartsWell(s, p);
      hide WellFormed, StartsWell, LeadLength, Continuation;
      CutOnBoundary(s[n..], p - n);
      assert s[n..][p - n..] == s[p..] && s[..p][n..] == s[n..][..p - n] && s[..p][0] == s[0];
      Unfolded(s[..p]);
    }
  }

  lemma InsideIsContinuation(s: string, p: nat)
    requires s != "" && StartsWell(s) && 0 < p <= |s|
    ensures LeadLength(s[0]) <= |s|
    ensures p < LeadLength(s[0]) ==> Continuation(s[p])
  {
    assert p < |s| ==> s[1..][p - 1] == s[p];
  }

  lemma PrefixStartsWell(s: string, p: nat)
    requires s != "" && StartsWell(s) && LeadLength(s[0]) <= p <= |s|
    ensures StartsWell(s[..p])
  {
    var n := LeadLength(s[0]);
    var run := ContinuationRun(s[..p][1..], n - 1);
    assert forall i :: 0 <= i < p - 1 ==> s[..p][1..][i] == s[1..][i];
  }

  // ---- how much recoding a piece of a well-formed text grows ----

  /** Octets before p of the character that a cut at p falls into; 0 where it falls between characters. */
  function Begun(s: string, p: nat): (n: nat)
    requires p <= |s|
    ensures n <= 3
  {
    if p == 0 || p == |s| || !Continuation(s[p]) then 0
    else if p == 1 || !Continuation(s[p - 1]) then 1
    else if p == 2 || !Continuation(s[p - 2]) then 2
    else 3
  }

  /** Octets from p on of that character. */
  function Left(s: string, p: nat): (n: nat)
    requires p <= |s|
    ensures n <= 3
  {
    ContinuationRun(s[p..], 3)
  }

  /** A character whose first t octets end a piece becomes three octets: the piece grows by 3 - t. */
  function TailGrowth(t: nat): nat
    requires t <= 3
  {
    if t == 0 then 0 else 3 - t
  }

  lemma InsideAreContinuations(s: string, q: nat)
    requires s != "" && StartsWell(s) && q <= LeadLength(s[0]) <= |s|
    ensures forall i :: 1 <= i < q ==> Continuation(s[i])
  {
    forall i | 1 <= i < q ensures Continuation(s[i]) {
      InsideIsContinuation(s, i);
    }
  }

  lemma FirstStartsCharacter(s: string)
    requires WellFormed(s) && s != ""
    ensures !Continuation(s[0])
  {
  }

  /** What is cut does not depend on the characters before. */
  lemma BegunLater(s: string, n: nat, p: nat)
    requires n <= p <= |s| && WellFormed(s[n..])
    ensures Begun(s, p) == Begun(s[n..], p - n)
  {
    if n < |s| {
      FirstStartsCharacter(s[n..]);
    }
    hide WellFormed, Continuation;
    assert forall i :: n <= i < |s| ==> s[i] == s[n..][i - n];
  }

  /** A cut inside the first character. */
  lemma BegunInside(s: string, p: nat)
    requires s != "" && StartsWell(s) && 0 < p < LeadLength(s[0])
    ensures LeadLength(s[0]) <= |s| && Begun(s, p) == p && Continuation(s[p])
  {
    InsideIsContinuation(s, p);
    InsideAreContinuations(s, LeadLength(s[0]));
  }

  /** A truncated last character becomes one replacement character. */
  lemma {:induction false} PrefixLength(s: string, q: nat)
    requires WellFormed(s) && q <= |s|
    ensures |Recode(s[..q])| == q + TailGrowth(Begun(s, q))
    decreases |s|
  {
    if q == 0 {
    } else {
      Unfolded(s);
      var n := LeadLength(s[0]);
      if n <= q {
        BegunLater(s, n, q);
        PrefixStartsWell(s, q);
        PrefixLength(s[n..], q - n);
        assert s[..q][n..] == s[n..][..q - n] && s[..q][0] == s[0];
      } else {
        BegunInside(s, q);
        TruncatedCharacter(s, q);
      }
    }
  }

  lemma TruncatedCharacter(s: string, q: nat)
    requires s != "" && StartsWell(s) && 0 < q < LeadLength(s[0]) <= |s|
    ensures |Recode(s[..q])| == 3
  {
    var n, p := LeadLength(s[0]), s[..q];
    assert p[0] == s[0];
    var run := ContinuationRun(p[1..], n - 1);
    InsideAreContinuations(s, q);
    assert forall i :: 0 <= i < q - 1 ==> p[1..][i] == s[i + 1];
    assert run == q - 1;
    assert p[q..] == "";
  }

  /** Each stray continuation octet becomes a replacement character of its own. */
  lemma {:induction false} StrayContinuations(s: string, h: nat)
    requires h <= |s| && forall i :: 0 <= i < h ==> Continuation(s[i])
    ensures |Recode(s)| == 3 * h + |Recode(s[h..])|
    decreases h
  {
    if h == 0 {
      assert s[0..] == s;
    } else {
      StrayContinuations(s[1..], h - 1);
      assert s[1..][h - 1..] == s[h..];
    }
  }

  ghost predicate CutAt(s: string, p: nat, h: nat) {
    && h <= 3 && p + h <= |s| && (p == 0 ==> h == 0)
    && (forall i :: p <= i < p + h ==> Continuation(s[i])) && WellFormed(s[p + h..])
  }

  lemma CutLater(s: string, n: nat, p: nat, h: nat)
    requires 0 < n <= p && n <= |s| && CutAt(s[n..], p - n, h)
    ensures CutAt(s, p, h)
  {
    var rest := s[n..];
    assert rest[p - n + h..] == s[p + h..];
    hide WellFormed, Continuation;
    forall i | p <= i < p + h ensures Continuation(s[i]) {
      assert s[i] == rest[i - n];
    }
  }

  /** Wherever a well-formed text is cut, at most three octets belong to the character that was cut. */
  lemma {:induction false} CutAnywhere(s: string, p: nat) returns (h: nat)
    requires WellFormed(s) && p <= |s|
    ensures CutAt(s, p, h)
    decreases |s|
  {
    if p == 0 {
      h := 0;
      assert s[0..] == s;
    } else {
      Unfolded(s);
      var n := LeadLength(s[0]);
      InsideAreContinuations(s, n);
      assert 0 < n <= |s|;
      hide WellFormed, StartsWell, LeadLength, Continuation;
      if n <= p {
        hide CutAt;
        h := CutAnywhere(s[n..], p - n);
        CutLater(s, n, p, h);
      } else {
        h := n - p;
      }
    }
  }

  /** The part of the cut character that is left is what CutAnywhere finds. */
  lemma LeftIs(s: string, p: nat, h: nat)
    requires p <= |s| && CutAt(s, p, h)
    ensures Left(s, p) == h
  {
    var rest := s[p..];
    assert forall i :: 0 <= i < |rest| ==> rest[i] == s[p + i];
    if p + h < |s| {
      FirstStartsCharacter(s[p + h..]);
      assert rest[h] == s[p + h..][0];
    }
    hide WellFormed, Continuation;
  }

  /** How many octets longer the piece of s from a to b is after recoding: each octet left of a character
      cut at a becomes three, and so does what has begun of one cut at b. */
  function Growth(s: string, a: nat, b: nat): nat
    requires a <= b <= |s|
  {
    if b - a <= Left(s, a) then 2 * (b - a) else 2 * Left(s, a) + TailGrowth(Begun(s, b))
  }

  lemma PieceLength(s: string, a: nat, b: nat)
    requires WellFormed(s) && a <= b <= |s|
    ensures |Recode(s[a..b])| == b - a + Growth(s, a, b)
    ensures a == 0 ==> Left(s, a) == 0
  {
    var h := CutAnywhere(s, a);
    LeftIs(s, a, h);
    PieceLengthAt(s, a, b, h);
  }

  lemma PieceLengthAt(s: string, a: nat, b: nat, h: nat)
    requires a <= b <= |s| && CutAt(s, a, h)
    ensures |Recode(s[a..b])| == b - a + if b - a <= h then 2 * (b - a) else 2 * h + TailGrowth(Begun(s, b))
  {
    var piece := s[a..b];
    assert forall i :: 0 <= i < |piece| ==> piece[i] == s[a + i];
    if b <= a + h {
      StrayContinuations(piece, b - a);
      assert piece[b - a..] == "";
    } else {
      StrayContinuations(piece, h);
      LaterPiece(s, a + h, b);
      assert piece[h..] == s[a + h..b];
      hide Recode, WellFormed, Continuation, Begun;
    }
  }

  lemma LaterPiece(s: string, n: nat, b: nat)
    requires n <= b <= |s| && WellFormed(s[n..])
    ensures |Recode(s[n..b])| == b - n + TailGrowth(Begun(s, b))
  {
    hide Recode, WellFormed, Begun, TailGrowth;
    var rest, q := s[n..], b - n;
    assert rest[..q] == s[n..b];
    BegunLater(s, n, b);
    PrefixLength(rest, q);
  }

  lemma CleanCut(s: string, p: nat)
    requires p < |s| && Begun(s, p) == 0 && WellFormed(s)
    ensures Left(s, p) == 0
  {
    if p == 0 {
      FirstStartsCharacter(s);
    }
    hide WellFormed;
    assert s[p..][0] == s[p];
  }

  /** A character has at most four octets. */
  lemma {:induction false} CutCharacter(s: string, p: nat)
    requires WellFormed(s) && p <= |s|
    ensures Begun(s, p) > 0 ==> 1 <= Left(s, p) && Begun(s, p) + Left(s, p) <= 4
    decreases |s|
  {
    if 0 < p < |s| {
      Unfolded(s);
      var n := LeadLength(s[0]);
      assert 0 < n <= 4;
      if n <= p {
        BegunLater(s, n, p);
        assert s[n..][p - n..] == s[p..];
        hide WellFormed, StartsWell, LeadLength, Continuation;
        CutCharacter(s[n..], p - n);
      } else {
        BegunInside(s, p);
        InsideAreContinuations(s, n);
        assert CutAt(s, p, n - p);
        LeftIs(s, p, n - p);
      }
    }
  }

  lemma {:induction false} RecodeAfterAscii(a: string, b: string)
    requires Ascii(a)
    ensures Recode(a + b) == a + Recode(b)
    decreases |a|
  {
    if a == "" {
      assert a + b == b;
    } else {
      RecodeAfterAscii(a[1..], b);
      assert (a + b)[1..] == a[1..] + b && (a + b)[..1] == [a[0]];
      assert [a[0]] + (a[1..] + Recode(b)) == a + Recode(b);
    }
  }
}
