/** The detail view: hard-wrapped text, paged by whole lines. Text is a sequence of runes. */
module DetailView {
  import opened Pieces
  import opened Division

  const NEWLINE := '\n'

  function Lines(s: string): seq<string> {
    Split(s, NEWLINE)
  }

  // ---- Wrapping one line ----

  /** The line in chunks of `width` runes; the last chunk may be shorter, and an empty line is one chunk. */
  function Chunks(line: string, width: nat): (chunks: seq<string>)
    requires width > 0
    ensures chunks != []
  {
    if |line| <= width then [line] else [line[..width]] + Chunks(line[width..], width)
  }

  function Concat(p: seq<string>): string {
    if p == [] then "" else p[0] + Concat(p[1..])
  }

  /** Chunks are short enough, all but the last are full, and they make up the line again. */
  lemma {:induction false} ChunksMakeTheLine(line: string, width: nat)
    requires width > 0
    ensures forall i :: 0 <= i < |Chunks(line, width)| ==> |Chunks(line, width)[i]| <= width
    ensures forall i :: 0 <= i < |Chunks(line, width)| - 1 ==> |Chunks(line, width)[i]| == width
    ensures Concat(Chunks(line, width)) == line
  {
    if |line| <= width {
      assert Concat([line]) == line + Concat([]);
    } else {
      ChunksMakeTheLine(line[width..], width);
      assert line == line[..width] + line[width..];
    }
  }

  /** One chunk for every `width` runes begun, and one for an empty line. */
  lemma {:induction false} ChunkCount(line: string, width: nat)
    requires width > 0
    ensures |Chunks(line, width)| == if |line| == 0 then 1 else (|line| + width - 1) / width
  {
    if |line| > width {
      ChunkCount(line[width..], width);
      OneMoreTurn(|line| - 1, width);
    }
  }

  lemma {:induction false} ChunksHoldNoNewline(line: string, width: nat)
    requires width > 0 && NEWLINE !in line
    ensures forall i :: 0 <= i < |Chunks(line, width)| ==> NEWLINE !in Chunks(line, width)[i]
  {
    if |line| > width {
      ChunksHoldNoNewline(line[width..], width);
    }
  }

  // ---- Wrapping a text ----

  /** Every line in chunks, in order. */
  function Wrapped(lines: seq<string>, width: nat): (wrapped: seq<string>)
    requires width > 0
    ensures lines != [] ==> wrapped != []
  {
    if lines == [] then [] else Wrapped(Front(lines), width) + Chunks(Last(lines), width)
  }

  /** Each line is wrapped on its own and stays in its place. */
  lemma {:induction false} WrappedAppend(a: seq<string>, line: string, b: seq<string>, width: nat)
    requires width > 0
    ensures Wrapped(a + [line] + b, width) == Wrapped(a, width) + Chunks(line, width) + Wrapped(b, width)
  {
    if b == [] {
      assert a + [line] + b == a + [line] && Front(a + [line]) == a;
    } else {
      WrappedAppend(a, line, Front(b), width);
      assert Front(a + [line] + b) == a + [line] + Front(b);
    }
  }

  function HardWrapped(s: string, width: int): string {
    if width < 1 then s else Join(Wrapped(Lines(s), width), NEWLINE)
  }

  lemma {:induction false} WrappedLines(lines: seq<string>, width: nat)
    requires width > 0 && forall i :: 0 <= i < |lines| ==> NEWLINE !in lines[i]
    ensures forall i :: 0 <= i < |Wrapped(lines, width)| ==> |Wrapped(lines, width)[i]| <= width && NEWLINE !in Wrapped(lines, width)[i]
  {
    if lines != [] {
      WrappedLines(Front(lines), width);
      ChunksMakeTheLine(Last(lines), width);
      ChunksHoldNoNewline(Last(lines), width);
    }
  }

  /** The lines of the wrapped text are the chunks of the lines: none is longer than the width. */
  lemma WrappedTextLines(s: string, width: nat)
    requires width > 0
    ensures Lines(HardWrapped(s, width)) == Wrapped(Lines(s), width)
    ensures forall i :: 0 <= i < |Lines(HardWrapped(s, width))| ==> |Lines(HardWrapped(s, width))[i]| <= width
  {
    JoinSplit(s, NEWLINE);
    WrappedLines(Lines(s), width);
    SplitJoin(Wrapped(Lines(s), width), NEWLINE);
  }

  lemma {:induction false} NothingToWrap(lines: seq<string>, width: nat)
    requires width > 0 && forall i :: 0 <= i < |lines| ==> |lines[i]| <= width
    ensures Wrapped(lines, width) == lines
  {
    if lines != [] {
      FrontLast(lines);
      NothingToWrap(Front(lines), width);
      assert Chunks(Last(lines), width) == [Last(lines)];
    }
  }

  /** Wrapping twice is wrapping once. */
  lemma WrapIsIdempotent(s: string, width: int)
    ensures HardWrapped(HardWrapped(s, width), width) == HardWrapped(s, width)
  {
    if width >= 1 {
      WrappedTextLines(s, width);
      NothingToWrap(Lines(HardWrapped(s, width)), width);
      JoinSplit(HardWrapped(s, width), NEWLINE);
    }
  }

  function LineCount(lines: seq<string>, width: nat): nat
    requires width > 0
  {
    if lines == [] then 0
    else LineCount(Front(lines), width) + (if |Last(lines)| == 0 then 1 else (|Last(lines)| + width - 1) / width)
  }

  /** The number of visual lines: for each line its length over the width rounded up, at least one. */
  lemma {:induction false} WrappedCount(lines: seq<string>, width: nat)
    requires width > 0
    ensures |Wrapped(lines, width)| == LineCount(lines, width)
  {
    if lines != [] {
      WrappedCount(Front(lines), width);
      ChunkCount(Last(lines), width);
    }
  }

  // ---- The loops ----

  lemma JoinMore(p: seq<string>, q: seq<string>)
    requires p != [] && q != []
    ensures Join(p + q, NEWLINE) == Join(p, NEWLINE) + [NEWLINE] + Join(q, NEWLINE)
  {
    assert Front(p + q) == p + Front(q);
    UnlinesAppend(p, Front(q), NEWLINE);
  }

  /** Writes one line in chunks after the text so far. */
  method WriteChunks(b: string, line: string, width: nat) returns (out: string)
    requires width > 0
    ensures out == b + Join(Chunks(line, width), NEWLINE)
  {
    out := b;
    var r := line;
    while |r| > width
      invariant out + Join(Chunks(r, width), NEWLINE) == b + Join(Chunks(line, width), NEWLINE)
      decreases |r|
    {
      JoinMore([r[..width]], Chunks(r[width..], width));
      assert Join([r[..width]], NEWLINE) == r[..width];
      out := out + r[..width] + [NEWLINE];
      r := r[width..];
    }
    assert Join([r], NEWLINE) == r;
    out := out + r;
  }

  method HardWrap(s: string, width: int) returns (out: string)
    ensures out == HardWrapped(s, width)
    ensures if width < 1 then out == s else Lines(out) == Wrapped(Lines(s), width)
  {
    if width < 1 {
      return s;
    }
    WrappedTextLines(s, width);
    var lines := Lines(s);
    out := "";
    for i := 0 to |lines|
      invariant if i == 0 then out == "" else out == Join(Wrapped(lines[..i], width), NEWLINE)
    {
      assert Front(lines[..i + 1]) == lines[..i];
      if i > 0 {
        JoinMore(Wrapped(lines[..i], width), Chunks(lines[i], width));
        out := out + [NEWLINE];
      } else {
        assert Wrapped(lines[..i + 1], width) == Chunks(lines[i], width);
      }
      out := WriteChunks(out, lines[i], width);
    }
    assert lines[..|lines|] == lines;
  }

  // ---- Paging ----

  function Max0(n: int): nat {
    if n < 0 then 0 else n
  }

  function VisibleLines(height: int): nat {
    if height - 4 < 5 then 5 else height - 4
  }

  /** What is shown of the lines at a scroll offset: as many as fit, from line start on. That is the
      offset, or less when the text ends on the page. */
  ghost predicate ShowsPage(shown: seq<string>, lines: seq<string>, height: int, scroll: nat, start: nat) {
    && start + |shown| <= |lines| && shown == lines[start..start + |shown|]
    && |shown| == (if |lines| < VisibleLines(height) then |lines| else VisibleLines(height))
    && start <= scroll && (start < scroll ==> start + |shown| == |lines|)
  }

  function CountNewlines(s: string): nat {
    if s == "" then 0 else CountNewlines(Front(s)) + (if Last(s) == NEWLINE then 1 else 0)
  }

  lemma {:induction false} LinesAreNewlinesPlusOne(s: string)
    ensures |Lines(s)| == CountNewlines(s) + 1
  {
    if s != "" {
      LinesAreNewlinesPlusOne(Front(s));
    }
  }

  /** The body the view pages through. */
  function Body(detail: string, isLog: bool, wrap: bool, width: int): string {
    if isLog && wrap && width > 0 then HardWrapped(detail, width) else detail
  }

  /** The offset the G key scrolls to. */
  function LastPageStart(body: string, height: int): nat {
    var total := CountNewlines(body) + 1;
    var visible := VisibleLines(height);
    if total <= visible then 0 else total - visible
  }

  /** Every page has lines, and none starts further on than the last page. */
  lemma PagesStopAtTheLast(body: string, height: int, scroll: nat, start: nat, shown: seq<string>)
    requires ShowsPage(shown, Lines(body), height, scroll, start)
    ensures shown != []
    ensures start == if scroll <= LastPageStart(body, height) then scroll else LastPageStart(body, height)
  {
    LinesAreNewlinesPlusOne(body);
  }

  /** G ends at the last line, and no smaller offset does. */
  lemma LastPageEndsAtLastLine(body: string, height: int, scroll: nat, start: nat, shown: seq<string>)
    requires ShowsPage(shown, Lines(body), height, scroll, start)
    ensures start + |shown| == |Lines(body)| <==> LastPageStart(body, height) <= scroll
  {
    LinesAreNewlinesPlusOne(body);
  }

  /** The lines on screen. */
  method RenderPage(detail: string, isLog: bool, wrap: bool, width: int, height: int, scroll: nat) returns (shown: seq<string>)
    ensures exists start :: ShowsPage(shown, Lines(Body(detail, isLog, wrap, width)), height, scroll, start)
    ensures var lines := if isLog && wrap && width > 0 then Wrapped(Lines(detail), width) else Lines(detail);
            Lines(Body(detail, isLog, wrap, width)) == lines &&
            |shown| == (if height < 9 then (if |lines| < 5 then |lines| else 5) else if |lines| < height - 4 then |lines| else height - 4)
  {
    var body := detail;
    if isLog && wrap && width > 0 {
      WrappedTextLines(detail, width);
      body := HardWrap(body, width);
    }
    var lines := Lines(body);
    var visible := VisibleLines(height);
    var maxStart := Max0(|lines| - visible);
    var start := scroll;
    if start > maxStart {
      start := maxStart;
    }
    var end := start + visible;
    if end > |lines| {
      end := |lines|;
    }
    shown := lines[start..end];
    assert ShowsPage(shown, Lines(Body(detail, isLog, wrap, width)), height, scroll, start);
  }
}
