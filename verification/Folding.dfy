/** foldLine in apps/api/src/calendar/ical.ts, and unfolding (RFC 5545, section 3.1). */
module Folding {
  import opened Text
  import Utf8

  const MAX_LINE_OCTETS := 75

  /** The subarrays that the loop cuts: `size` octets first, then 74 each. */
  function Chunks(buf: string, size: nat): (r: seq<string>)
    requires size > 0
    ensures Concat(r) == buf
    ensures forall i :: 0 <= i < |r| ==> 0 < |r[i]| <= if i == 0 then size else MAX_LINE_OCTETS - 1
    ensures r == [] <==> buf == ""
    decreases |buf|
  {
    if buf == "" then []
    else if |buf| <= size then
      assert Concat([buf]) == buf + Concat([buf][1..]);
      [buf]
    else
      var rest := Chunks(buf[size..], MAX_LINE_OCTETS - 1);
      assert ([buf[..size]] + rest)[1..] == rest;
      [buf[..size]] + rest
  }

  /** Each chunk is decoded by itself and the document encoded again. */
  function RecodeAll(chunks: seq<string>): (r: seq<string>)
    ensures |r| == |chunks|
    ensures forall i :: 0 <= i < |r| ==> r[i] == Utf8.Recode(chunks[i])
  {
    if chunks == [] then [] else [Utf8.Recode(chunks[0])] + RecodeAll(chunks[1..])
  }

  const FOLD := "\r\n "

  function FoldLine(line: string): string {
    if |line| <= MAX_LINE_OCTETS then line else Join(RecodeAll(Chunks(line, MAX_LINE_OCTETS)), FOLD)
  }

  /** What the loop still pushes when it stands at the cursor. */
  function PartsFrom(line: string, cursor: nat, size: nat): seq<string>
    requires cursor <= |line| && size > 0
  {
    RecodeAll(Chunks(line[cursor..], size))
  }

  lemma NextPart(line: string, cursor: nat, size: nat, end: nat)
    requires size > 0 && cursor < |line| && end == if cursor + size < |line| then cursor + size else |line|
    ensures PartsFrom(line, cursor, size) == [Utf8.Recode(line[cursor..end])] + PartsFrom(line, end, MAX_LINE_OCTETS - 1)
  {
    hide Utf8.Recode;
    var rest := line[cursor..];
    if |rest| <= size {
      assert line[cursor..end] == rest && line[end..] == "";
    } else {
      assert rest[..size] == line[cursor..end] && rest[size..] == line[end..];
    }
    assert Chunks(rest, size) == [line[cursor..end]] + Chunks(line[end..], MAX_LINE_OCTETS - 1);
  }

  lemma AllParts(line: string, size: nat)
    requires size > 0
    ensures PartsFrom(line, |line|, size) == []
    ensures |line| > MAX_LINE_OCTETS ==> FoldLine(line) == Join(PartsFrom(line, 0, MAX_LINE_OCTETS), FOLD)
  {
    assert line[0..] == line && line[|line|..] == "";
  }

  lemma Push(parts: seq<string>, part: string, rest: seq<string>)
    ensures parts + ([part] + rest) == (parts + [part]) + rest
  {
  }

  /** The loop over cursor and chunk size. */
  method FoldLineInPlace(line: string) returns (folded: string)
    ensures folded == FoldLine(line)
  {
    if |line| <= MAX_LINE_OCTETS { return line; }
    hide FoldLine, Join, PartsFrom, Utf8.Recode;
    var parts: seq<string> := [];
    var cursor := 0;
    var chunkSize := MAX_LINE_OCTETS;
    while cursor < |line|
      invariant 0 <= cursor <= |line| && 0 < chunkSize <= MAX_LINE_OCTETS
      invariant parts + PartsFrom(line, cursor, chunkSize) == PartsFrom(line, 0, MAX_LINE_OCTETS)
    {
      var end := if cursor + chunkSize < |line| then cursor + chunkSize else |line|;
      NextPart(line, cursor, chunkSize, end);
      Push(parts, Utf8.Recode(line[cursor..end]), PartsFrom(line, end, MAX_LINE_OCTETS - 1));
      parts := parts + [Utf8.Recode(line[cursor..end])];
      cursor := end;
      chunkSize := MAX_LINE_OCTETS - 1;
    }
    AllParts(line, chunkSize);
    assert parts + [] == parts;
    folded := Join(parts, FOLD);
  }

  // ---- unfolding ----

  /** Remove every CRLF that a space follows, with the space. */
  function Unfold(s: string): string {
    if s == "" then ""
    else if |s| >= 3 && s[0] == '\r' && s[1] == '\n' && s[2] == ' ' then Unfold(s[3..])
    else [s[0]] + Unfold(s[1..])
  }

  lemma {:induction false} UnfoldText(a: string, b: string)
    requires LfFree(a) && (b == "" || b[0] != '\n')
    ensures Unfold(a + b) == a + Unfold(b)
    decreases |a|
  {
    if a == "" {
      assert a + b == b;
    } else {
      var s := a + b;
      assert s[0] == a[0] && s[1..] == a[1..] + b;
      assert |a| > 1 ==> s[1] == a[1];
      assert |a| == 1 && b != "" ==> s[1] == b[0];
      UnfoldText(a[1..], b);
      assert [a[0]] + a[1..] == a;
    }
  }

  lemma UnfoldMark(b: string)
    ensures Unfold(FOLD + b) == Unfold(b)
  {
    assert (FOLD + b)[3..] == b;
  }

  lemma UnfoldChar(c: char, b: string)
    requires !(c == '\r' && |b| >= 2 && b[0] == '\n' && b[1] == ' ')
    ensures Unfold([c] + b) == [c] + Unfold(b)
  {
    assert ([c] + b)[1..] == b;
  }

  lemma UnfoldBreak(b: string)
    requires b != "" && b[0] != ' '
    ensures Unfold(CRLF + b) == CRLF + Unfold(b)
  {
    hide Unfold;
    UnfoldChar('\n', b);
    UnfoldChar('\r', ['\n'] + b);
    assert CRLF + b == ['\r'] + (['\n'] + b) && CRLF + Unfold(b) == ['\r'] + (['\n'] + Unfold(b));
  }

  lemma Regroup(a: string, b: string, c: string, d: string)
    ensures a + b + c + d == a + (b + (c + d))
  {
    assert a + b + c + d == a + b + (c + d);
    Associates(a, b, c + d);
  }

  /** Unfolding joined pieces concatenates them, before whatever follows. */
  lemma {:induction false} UnfoldPieces(parts: seq<string>, rest: string)
    requires AllLfFree(parts) && (rest == "" || rest[0] != '\n')
    ensures Unfold(Join(parts, FOLD) + rest) == Concat(parts) + Unfold(rest)
    decreases |parts|
  {
    if parts == [] {
      assert "" + rest == rest;
    } else if |parts| == 1 {
      UnfoldText(parts[0], rest);
      assert Concat(parts) == parts[0] + Concat(parts[1..]);
    } else {
      var joined := Join(parts[1..], FOLD);
      UnfoldPieces(parts[1..], rest);
      UnfoldMark(joined + rest);
      UnfoldText(parts[0], FOLD + (joined + rest));
      hide Unfold, Join, Concat;
      Regroup(parts[0], FOLD, joined, rest);
      Associates(parts[0], Concat(parts[1..]), Unfold(rest));
    }
  }

  lemma {:induction false} PiecesLfFree(parts: seq<string>)
    requires LfFree(Concat(parts))
    ensures AllLfFree(parts) && AllLfFree(RecodeAll(parts))
    decreases |parts|
  {
    if parts != [] {
      PiecesLfFree(parts[1..]);
      Utf8.RecodeLfFree(parts[0]);
    }
  }

  /** What unfolding a folded line gives, before whatever follows. */
  function Restored(line: string): string {
    if |line| <= MAX_LINE_OCTETS then line else Concat(RecodeAll(Chunks(line, MAX_LINE_OCTETS)))
  }

  lemma UnfoldFolded(line: string, rest: string)
    requires LfFree(line) && (rest == "" || rest[0] != '\n')
    ensures Unfold(FoldLine(line) + rest) == Restored(line) + Unfold(rest)
  {
    if |line| <= MAX_LINE_OCTETS {
      UnfoldText(line, rest);
    } else {
      PiecesLfFree(Chunks(line, MAX_LINE_OCTETS));
      UnfoldPieces(RecodeAll(Chunks(line, MAX_LINE_OCTETS)), rest);
    }
  }

  // ---- which lines survive ----

  /** No fold falls inside a character: the octets at 75, 149, 223, ... start characters. */
  predicate FoldsCleanly(line: string) {
    |line| <= MAX_LINE_OCTETS || CutsCleanly(line, MAX_LINE_OCTETS)
  }

  predicate CutsCleanly(buf: string, size: nat)
    requires size > 0
    decreases |buf|
  {
    |buf| <= size || (!Utf8.Continuation(buf[size]) && CutsCleanly(buf[size..], MAX_LINE_OCTETS - 1))
  }

  lemma {:induction false} CleanChunksStay(buf: string, size: nat)
    requires size > 0 && Utf8.WellFormed(buf) && CutsCleanly(buf, size)
    ensures RecodeAll(Chunks(buf, size)) == Chunks(buf, size)
    decreases |buf|
  {
    if buf == "" {
    } else if |buf| <= size {
      Utf8.RecodeKeepsWellFormed(buf);
    } else {
      Utf8.CutOnBoundary(buf, size);
      Utf8.RecodeKeepsWellFormed(buf[..size]);
      CleanChunksStay(buf[size..], MAX_LINE_OCTETS - 1);
      var rest := Chunks(buf[size..], MAX_LINE_OCTETS - 1);
      assert ([buf[..size]] + rest)[1..] == rest;
    }
  }

  lemma {:induction false} RecodedChunksGrow(buf: string, size: nat)
    requires size > 0
    ensures |Concat(RecodeAll(Chunks(buf, size)))| >= |buf|
    ensures !CutsCleanly(buf, size) ==> |Concat(RecodeAll(Chunks(buf, size)))| > |buf|
    ensures buf != "" && Utf8.Continuation(buf[0]) ==> |Concat(RecodeAll(Chunks(buf, size)))| > |buf|
    decreases |buf|
  {
    if buf == "" {
    } else if |buf| <= size {
      Utf8.RecodeGrows(buf);
      assert RecodeAll([buf])[1..] == [];
    } else {
      Utf8.RecodeGrows(buf[..size]);
      RecodedChunksGrow(buf[size..], MAX_LINE_OCTETS - 1);
      var rest := Chunks(buf[size..], MAX_LINE_OCTETS - 1);
      assert ([buf[..size]] + rest)[1..] == rest;
      assert RecodeAll([buf[..size]] + rest) == [Utf8.Recode(buf[..size])] + RecodeAll(rest);
      assert ([Utf8.Recode(buf[..size])] + RecodeAll(rest))[1..] == RecodeAll(rest);
    }
  }

  /** Folding and unfolding give a line back exactly when no cut falls inside a character. */
  lemma FoldRoundTripIff(line: string)
    requires LfFree(line) && Utf8.WellFormed(line)
    ensures Unfold(FoldLine(line)) == line <==> FoldsCleanly(line)
    ensures FoldsCleanly(line) ==> Restored(line) == line
  {
    UnfoldFolded(line, "");
    assert FoldLine(line) + "" == FoldLine(line) && Restored(line) + "" == Restored(line);
    if |line| > MAX_LINE_OCTETS {
      if CutsCleanly(line, MAX_LINE_OCTETS) {
        CleanChunksStay(line, MAX_LINE_OCTETS);
      } else {
        RecodedChunksGrow(line, MAX_LINE_OCTETS);
      }
    }
  }

  lemma {:induction false} AsciiCutsCleanly(buf: string, size: nat)
    requires size > 0 && Ascii(buf)
    ensures CutsCleanly(buf, size)
    decreases |buf|
  {
    if |buf| > size {
      AsciiCutsCleanly(buf[size..], MAX_LINE_OCTETS - 1);
    }
  }

  /** ASCII lines always survive. */
  lemma AsciiSurvives(line: string)
    requires LfFree(line) && Ascii(line)
    ensures FoldsCleanly(line) && Utf8.WellFormed(line) && Unfold(FoldLine(line)) == line
  {
    AsciiCutsCleanly(line, MAX_LINE_OCTETS);
    Utf8.AsciiIsWellFormed(line);
    FoldRoundTripIff(line);
  }

  // ---- physical lines ----

  function Indented(chunks: seq<string>): seq<string> {
    if chunks == [] then [] else [" " + chunks[0]] + Indented(chunks[1..])
  }

  lemma {:induction false} LinesOfFold(parts: seq<string>)
    requires parts != [] && AllLfFree(parts)
    ensures Lines(Join(parts, FOLD)) == [parts[0]] + Indented(parts[1..])
    decreases |parts|
  {
    if |parts| == 1 {
      LinesOfOne(parts[0]);
    } else {
      var tail := Join(parts[1..], FOLD);
      LinesOfFold(parts[1..]);
      SpaceBefore(tail, parts[1], Indented(parts[1..][1..]));
      FirstLine(parts[0], " " + tail);
      assert parts[0] + FOLD + tail == parts[0] + CRLF + (" " + tail);
      assert [" " + parts[1]] + Indented(parts[1..][1..]) == Indented(parts[1..]);
    }
  }

  lemma SpaceBefore(s: string, first: string, rest: seq<string>)
    requires Lines(s) == [first] + rest
    ensures Lines(" " + s) == [" " + first] + rest
  {
    assert (" " + s)[1..] == s;
  }

  lemma {:induction false} ChunkCount(buf: string, size: nat)
    requires size > 0 && |buf| > 0
    ensures |Chunks(buf, size)| == if |buf| <= size then 1 else 1 + (|buf| - size + MAX_LINE_OCTETS - 2) / (MAX_LINE_OCTETS - 1)
    decreases |buf|
  {
    if |buf| > size {
      ChunkCount(buf[size..], MAX_LINE_OCTETS - 1);
    }
  }

  lemma {:induction false} IndentedLengths(chunks: seq<string>)
    ensures |Indented(chunks)| == |chunks|
    ensures forall i :: 0 <= i < |chunks| ==> |Indented(chunks)[i]| == |chunks[i]| + 1 && Indented(chunks)[i][0] == ' '
    decreases |chunks|
  {
    if chunks != [] {
      IndentedLengths(chunks[1..]);
    }
  }

  /** Recoding lengthens no chunk by more than eight octets, and the first by at most two. */
  lemma {:induction false} ChunkGrowth(line: string, a: nat, size: nat)
    requires Utf8.WellFormed(line) && a <= |line| && size > 0
    ensures var parts := PartsFrom(line, a, size);
            forall i :: 0 <= i < |parts| ==>
              |parts[i]| <= (if i == 0 then size else MAX_LINE_OCTETS - 1) + (if a == 0 && i == 0 then 2 else 8)
    decreases |line| - a
  {
    hide Utf8.Recode, Utf8.WellFormed, PartsFrom, Utf8.Begun, Utf8.Left;
    if a == |line| {
      AllParts(line, size);
    } else {
      var end := if a + size < |line| then a + size else |line|;
      Utf8.PieceLength(line, a, end);
      NextPart(line, a, size, end);
      ChunkGrowth(line, end, MAX_LINE_OCTETS - 1);
      var rest := PartsFrom(line, end, MAX_LINE_OCTETS - 1);
      assert forall i :: 1 <= i < |PartsFrom(line, a, size)| ==> PartsFrom(line, a, size)[i] == rest[i - 1];
    }
  }

  /** The cut at p keeps the limit: it falls between characters, or after three octets of a character of
      four with at most 72 octets to come, its last one included. */
  predicate CutFits(line: string, p: nat)
    requires p <= |line|
  {
    Utf8.Begun(line, p) == 0 || (Utf8.Begun(line, p) == 3 && |line| - p <= MAX_LINE_OCTETS - 3)
  }

  /** Every cut from p on does; cuts are 74 octets apart. */
  predicate CutsFit(line: string, p: nat)
    decreases |line| - p
  {
    p >= |line| || (CutFits(line, p) && CutsFit(line, p + MAX_LINE_OCTETS - 1))
  }

  predicate FitsLimit(line: string) {
    |line| <= MAX_LINE_OCTETS || CutsFit(line, MAX_LINE_OCTETS)
  }

  ghost predicate PartsFit(parts: seq<string>, size: nat) {
    forall i :: 0 <= i < |parts| ==> |parts[i]| <= if i == 0 then size else MAX_LINE_OCTETS - 1
  }

  lemma PartsFitFirst(first: string, rest: seq<string>, size: nat)
    ensures PartsFit([first] + rest, size) <==> |first| <= size && PartsFit(rest, MAX_LINE_OCTETS - 1)
  {
    var parts := [first] + rest;
    assert parts[0] == first;
    assert forall i :: 0 <= i < |rest| ==> parts[i + 1] == rest[i];
    if PartsFit(parts, size) {
      forall i | 0 <= i < |rest| ensures |rest[i]| <= MAX_LINE_OCTETS - 1 {
        assert |parts[i + 1]| <= MAX_LINE_OCTETS - 1;
      }
    }
  }

  /** The rest after a cut that left at least one octet of a character: it keeps the limit exactly if it
      is short enough to be the last part and grow by two. */
  lemma RestFitsIff(line: string, a: nat)
    requires Utf8.WellFormed(line) && a < |line| && Utf8.Begun(line, a) == 3
    ensures PartsFit(PartsFrom(line, a, MAX_LINE_OCTETS - 1), MAX_LINE_OCTETS - 1) <==> |line| - a <= MAX_LINE_OCTETS - 3
  {
    var size := MAX_LINE_OCTETS - 1;
    var end := if a + size < |line| then a + size else |line|;
    Utf8.CutCharacter(line, a);
    Utf8.PieceLength(line, a, end);
    NextPart(line, a, size, end);
    assert end == |line| ==> Utf8.Begun(line, end) == 0;
    if end == |line| {
      AllParts(line, size);
    }
    hide Utf8.Recode, Utf8.WellFormed, PartsFrom, Utf8.Begun, Utf8.Left;
    PartsFitFirst(Utf8.Recode(line[a..end]), PartsFrom(line, end, size), size);
  }

  /** A part that starts with a character fits unless one or two octets of its last character have begun. */
  lemma FirstFitsIff(line: string, a: nat, size: nat, end: nat)
    requires Utf8.WellFormed(line) && size > 0 && a < |line| && Utf8.Left(line, a) == 0
    requires end == if a + size < |line| then a + size else |line|
    ensures PartsFit(PartsFrom(line, a, size), size)
            <==> (Utf8.Begun(line, end) == 0 || Utf8.Begun(line, end) == 3) && PartsFit(PartsFrom(line, end, MAX_LINE_OCTETS - 1), MAX_LINE_OCTETS - 1)
  {
    assert end == |line| ==> Utf8.Begun(line, end) == 0;
    hide Utf8.Recode, Utf8.WellFormed, Utf8.Begun, Utf8.Left, PartsFrom, PartsFit;
    Utf8.PieceLength(line, a, end);
    NextPart(line, a, size, end);
    PartsFitFirst(Utf8.Recode(line[a..end]), PartsFrom(line, end, MAX_LINE_OCTETS - 1), size);
  }

  lemma NoPartsFit(line: string, size: nat)
    requires size > 0
    ensures PartsFit(PartsFrom(line, |line|, size), size) && Utf8.Begun(line, |line|) == 0
  {
    AllParts(line, size);
    hide PartsFrom;
  }

  lemma {:induction false} PartsFitIff(line: string, a: nat, size: nat)
    requires Utf8.WellFormed(line) && a <= |line| && size > 0 && Utf8.Begun(line, a) == 0 && Utf8.Left(line, a) == 0
    ensures PartsFit(PartsFrom(line, a, size), size) <==> CutsFit(line, a + size)
    decreases |line| - a
  {
    hide Utf8.WellFormed, Utf8.Begun, Utf8.Left, PartsFrom, PartsFit;
    if a == |line| {
      NoPartsFit(line, size);
    } else if a + size >= |line| {
      FirstFitsIff(line, a, size, |line|);
      NoPartsFit(line, MAX_LINE_OCTETS - 1);
    } else {
      FirstFitsIff(line, a, size, a + size);
      if Utf8.Begun(line, a + size) == 0 {
        Utf8.CleanCut(line, a + size);
        PartsFitIff(line, a + size, MAX_LINE_OCTETS - 1);
      } else if Utf8.Begun(line, a + size) == 3 {
        RestFitsIff(line, a + size);
      }
    }
  }

  lemma {:induction false} CleanCutsFit(line: string, a: nat, size: nat)
    requires a <= |line| && size > 0
    ensures CutsCleanly(line[a..], size) ==> CutsFit(line, a + size)
    decreases |line| - a
  {
    if a + size < |line| {
      assert line[a..][size] == line[a + size] && line[a..][size..] == line[a + size..];
      CleanCutsFit(line, a + size, MAX_LINE_OCTETS - 1);
    }
  }

  lemma LinesAreParts(line: string)
    requires LfFree(line) && |line| > MAX_LINE_OCTETS
    ensures var parts := PartsFrom(line, 0, MAX_LINE_OCTETS);
            && parts != [] && Lines(FoldLine(line)) == [parts[0]] + Indented(parts[1..])
            && |parts| == 1 + (|line| - 75 + 73) / 74
  {
    hide Utf8.Recode, Lines, Join;
    assert line[0..] == line;
    var parts := RecodeAll(Chunks(line, MAX_LINE_OCTETS));
    ChunkCount(line, MAX_LINE_OCTETS);
    PiecesLfFree(Chunks(line, MAX_LINE_OCTETS));
    LinesOfFold(parts);
  }

  /** A line of more than 75 octets takes 1 + ceil((length - 75) / 74) physical lines, of which all but the
      first start with a space. Replacement characters make the first at most 77 and the others at most 83
      octets long; the limit of 75 is kept exactly where FitsLimit says. */
  lemma PhysicalLines(line: string)
    requires LfFree(line) && Utf8.WellFormed(line)
    ensures var physical := Lines(FoldLine(line));
            && |physical| == (if |line| <= MAX_LINE_OCTETS then 1 else 1 + (|line| - 75 + 73) / 74)
            && (forall i :: 1 <= i < |physical| ==> physical[i] != "" && physical[i][0] == ' ')
            && |physical[0]| <= 77
            && (forall i :: 0 <= i < |physical| ==> |physical[i]| <= 83)
            && ((forall i :: 0 <= i < |physical| ==> |physical[i]| <= MAX_LINE_OCTETS) <==> FitsLimit(line))
            && (FoldsCleanly(line) ==> FitsLimit(line))
  {
    if |line| <= MAX_LINE_OCTETS {
      LinesOfOne(line);
    } else {
      assert line[0..] == line && Utf8.Begun(line, 0) == 0;
      hide FoldLine, Lines, PartsFrom, PartsFit, Utf8.WellFormed, Utf8.Begun, Utf8.Left, CutsCleanly, CutsFit, Indented;
      LinesAreParts(line);
      ChunkGrowth(line, 0, MAX_LINE_OCTETS);
      Utf8.CleanCut(line, 0);
      PartsFitIff(line, 0, MAX_LINE_OCTETS);
      CleanCutsFit(line, 0, MAX_LINE_OCTETS);
      PartLengths(PartsFrom(line, 0, MAX_LINE_OCTETS), Lines(FoldLine(line)));
    }
  }

  lemma PartLengths(parts: seq<string>, physical: seq<string>)
    requires parts != [] && physical == [parts[0]] + Indented(parts[1..])
    requires forall i :: 0 <= i < |parts| ==> |parts[i]| <= if i == 0 then 77 else 82
    ensures |physical| == |parts| && |physical[0]| <= 77
    ensures forall i :: 1 <= i < |physical| ==> physical[i] != "" && physical[i][0] == ' '
    ensures forall i :: 0 <= i < |physical| ==> |physical[i]| <= 83
    ensures (forall i :: 0 <= i < |physical| ==> |physical[i]| <= MAX_LINE_OCTETS) <==> PartsFit(parts, MAX_LINE_OCTETS)
  {
    IndentedLengths(parts[1..]);
    hide Indented;
    assert forall i :: 1 <= i < |physical| ==> physical[i] == Indented(parts[1..])[i - 1];
    assert forall i :: 1 <= i < |parts| ==> parts[i] == parts[1..][i - 1];
    assert forall i :: 0 <= i < |physical| ==> |physical[i]| == |parts[i]| + if i == 0 then 0 else 1;
  }

  // ---- a line that does not survive ----

  /** Seventy-four letters and one character of two octets (U+00E9): the cut at 75 falls inside it. */
  function SplitLine(): string {
    Letters() + LAST
  }

  function Letters(): (s: string)
    ensures |s| == 74 && forall i :: 0 <= i < 74 ==> s[i] == 'a'
  {
    seq(74, _ => 'a')
  }

  lemma SplitLineIsWellFormed()
    ensures Utf8.WellFormed(SplitLine()) && LfFree(SplitLine()) && |SplitLine()| == 76 && SplitLine()[75] == '\U{A9}'
  {
    hide Letters, Utf8.WellFormed;
    Utf8.AsciiIsWellFormed(Letters());
    LastCharacter();
    Utf8.ConcatWellFormed(Letters(), LAST);
  }

  const LAST: string := ['\U{C3}', '\U{A9}']

  lemma LastCharacter()
    ensures Utf8.WellFormed(LAST)
  {
    assert Utf8.ContinuationRun(LAST[1..], 1) == 1 && LAST[2..] == "";
  }

  /** It is not recovered, and its first physical line has 77 octets. */
  lemma SplitCharacterIsLost()
    ensures Unfold(FoldLine(SplitLine())) != SplitLine() && |Lines(FoldLine(SplitLine()))[0]| == 77
  {
    var line := SplitLine();
    SplitLineIsWellFormed();
    hide Letters, FoldLine, Utf8.WellFormed;
    FoldRoundTripIff(line);
    assert Utf8.Continuation(line[75]);
    LinesAreParts(line);
    FirstPart();
  }

  lemma FirstPart()
    ensures |PartsFrom(SplitLine(), 0, MAX_LINE_OCTETS)[0]| == 77
  {
    var line := SplitLine();
    hide Letters;
    assert line[0..75] == Letters() + ['\U{C3}'];
    Utf8.RecodeAfterAscii(Letters(), ['\U{C3}']);
    LoneLead();
  }

  lemma LoneLead()
    ensures |Utf8.Recode(['\U{C3}'])| == 3
  {
    var s: string := ['\U{C3}'];
    assert s[1..] == "" && Utf8.ContinuationRun("", 1) == 0;
    assert Utf8.MalformedLength(s) == 1;
  }

  // ---- whole documents ----

  /** A content line: it has no LF, does not look like a continuation, and no fold splits a character. */
  ghost predicate ContentLine(line: string) {
    LfFree(line) && line != "" && line[0] != ' ' && line[0] != '\n' && Utf8.WellFormed(line) && FoldsCleanly(line)
  }

  function FoldAll(lines: seq<string>): (r: seq<string>)
    ensures |r| == |lines|
    ensures forall i :: 0 <= i < |r| ==> r[i] == FoldLine(lines[i])
  {
    if lines == [] then [] else [FoldLine(lines[0])] + FoldAll(lines[1..])
  }

  lemma FoldedStart(line: string)
    requires ContentLine(line)
    ensures FoldLine(line) != "" && FoldLine(line)[0] == line[0]
  {
    if |line| > MAX_LINE_OCTETS {
      CleanChunksStay(line, MAX_LINE_OCTETS);
      assert FoldLine(line)[0] == Chunks(line, MAX_LINE_OCTETS)[0][0];
    }
  }

  lemma UnfoldFirst(line: string, tail: string)
    requires LfFree(line) && Restored(line) == line && tail != "" && tail[0] != ' '
    ensures Unfold(FoldLine(line) + CRLF + tail) == line + CRLF + Unfold(tail)
  {
    UnfoldBreak(tail);
    UnfoldFolded(line, CRLF + tail);
    Associates(FoldLine(line), CRLF, tail);
    Associates(line, CRLF, Unfold(tail));
  }

  lemma Associates(a: string, b: string, c: string)
    ensures a + b + c == a + (b + c)
  {
  }

  lemma DocumentStart(lines: seq<string>)
    requires lines != [] && ContentLine(lines[0])
    ensures Join(FoldAll(lines), CRLF) != "" && Join(FoldAll(lines), CRLF)[0] == lines[0][0]
  {
    FoldedStart(lines[0]);
    assert FoldAll(lines)[0] == FoldLine(lines[0]);
  }

  /** Unfolding a document of folded content lines gives the lines joined by CRLF. */
  lemma {:induction false} UnfoldDocument(lines: seq<string>)
    requires lines != [] && forall i :: 0 <= i < |lines| ==> ContentLine(lines[i])
    ensures Unfold(Join(FoldAll(lines), CRLF)) == Join(lines, CRLF)
    decreases |lines|
  {
    assert ContentLine(lines[0]);
    if |lines| == 1 {
      FoldRoundTripIff(lines[0]);
    } else {
      assert ContentLine(lines[1]);
      DocumentStart(lines[1..]);
      UnfoldDocument(lines[1..]);
      FoldRoundTripIff(lines[0]);
      UnfoldFirst(lines[0], Join(FoldAll(lines[1..]), CRLF));
    }
  }

  /** Unfold, then split at CRLF: the content lines come back. */
  lemma DocumentRoundTrip(lines: seq<string>)
    requires lines != [] && forall i :: 0 <= i < |lines| ==> ContentLine(lines[i])
    ensures Lines(Unfold(Join(FoldAll(lines), CRLF))) == lines
  {
    UnfoldDocument(lines);
    LinesOfJoin(lines);
  }
}
