/** The bounded line buffer behind the live log view. */
module LogRing {
  import opened Model
  import opened Pieces

  const NEWLINE: Byte := 10

  /** The complete lines of a stream, and the text after its last newline. */
  function Complete(stream: Bytes): seq<Bytes> {
    Front(Split(stream, NEWLINE))
  }

  function Pending(stream: Bytes): Bytes {
    Last(Split(stream, NEWLINE))
  }

  /** The newest `cap` elements. */
  function Newest<T>(s: seq<T>, cap: nat): seq<T> {
    if |s| <= cap then s else s[|s| - cap..]
  }

  /** What a ring of `cap` lines shows after the bytes of `stream` went in, however they were cut up. */
  function RingText(stream: Bytes, cap: nat): Bytes {
    Unlines(Newest(Complete(stream), cap), NEWLINE) + Pending(stream)
  }

  lemma CompleteAppend(stream: Bytes, chunk: Bytes)
    ensures Complete(stream + chunk) == Complete(stream) + Complete(Pending(stream) + chunk)
    ensures Pending(stream + chunk) == Pending(Pending(stream) + chunk)
  {
    SplitAppend(stream, chunk, NEWLINE);
  }

  lemma NextLine(text: Bytes, moved: seq<Bytes>, pending: Bytes, nl: nat)
    requires nl < |pending| && pending[nl] == NEWLINE && NEWLINE !in pending[..nl]
    requires Split(text, NEWLINE) == moved + Split(pending, NEWLINE)
    ensures Split(text, NEWLINE) == moved + [pending[..nl]] + Split(pending[nl + 1..], NEWLINE)
  {
    SplitAt(pending, nl, NEWLINE);
  }

  lemma NewestAppend<T>(a: seq<T>, b: seq<T>, cap: nat)
    ensures Newest(Newest(a, cap) + b, cap) == Newest(a + b, cap)
  {
  }

  /** Only the ring's lines and the pending text matter for what comes next. */
  lemma WriteStep(stream: Bytes, chunk: Bytes, cap: nat)
    ensures Newest(Newest(Complete(stream), cap) + Complete(Pending(stream) + chunk), cap) == Newest(Complete(stream + chunk), cap)
    ensures Pending(Pending(stream) + chunk) == Pending(stream + chunk)
  {
    CompleteAppend(stream, chunk);
    NewestAppend(Complete(stream), Complete(Pending(stream) + chunk), cap);
  }

  /** The view is always a suffix of the stream, and the whole stream until the first line is dropped. */
  lemma RingTextIsSuffix(stream: Bytes, cap: nat)
    ensures var v := RingText(stream, cap); |v| <= |stream| && v == stream[|stream| - |v|..]
    ensures |Complete(stream)| <= cap <==> RingText(stream, cap) == stream
  {
    var lines := Complete(stream);
    var dropped := lines[..|lines| - |Newest(lines, cap)|];
    DroppedThenKept(stream, cap, dropped);
    if |lines| > cap {
      assert |Unlines(dropped, NEWLINE)| >= 1;
    }
  }

  lemma DroppedThenKept(stream: Bytes, cap: nat, dropped: seq<Bytes>)
    requires dropped == Complete(stream)[..|Complete(stream)| - |Newest(Complete(stream), cap)|]
    ensures stream == Unlines(dropped, NEWLINE) + RingText(stream, cap)
  {
    var kept := Newest(Complete(stream), cap);
    JoinSplit(stream, NEWLINE);
    assert Complete(stream) == dropped + kept;
    UnlinesAppend(dropped, kept, NEWLINE);
    Associative(Unlines(dropped, NEWLINE), Unlines(kept, NEWLINE), Pending(stream));
  }

  lemma {:induction false} LinesCounted(p: seq<Bytes>)
    requires Plain(p, NEWLINE)
    ensures multiset(Unlines(p, NEWLINE))[NEWLINE] == |p|
    ensures p != [] ==> Unlines(p, NEWLINE) != [] && Last(Unlines(p, NEWLINE)) == NEWLINE
  {
    if p != [] {
      LinesCounted(Front(p));
      assert NEWLINE !in Last(p) && multiset(Last(p))[NEWLINE] == 0;
    }
  }

  lemma TextCounted(lines: seq<Bytes>, rest: Bytes, text: Bytes)
    requires Plain(lines, NEWLINE) && NEWLINE !in rest && text == Unlines(lines, NEWLINE) + rest
    ensures multiset(text)[NEWLINE] == |lines|
  {
    LinesCounted(lines);
    assert multiset(rest)[NEWLINE] == 0;
  }

  lemma RingTextCounted(stream: Bytes, cap: nat)
    ensures multiset(stream)[NEWLINE] == |Complete(stream)|
    ensures multiset(RingText(stream, cap))[NEWLINE] == |Newest(Complete(stream), cap)|
  {
    JoinSplit(stream, NEWLINE);
    TextCounted(Complete(stream), Pending(stream), stream);
    TextCounted(Newest(Complete(stream), cap), Pending(stream), RingText(stream, cap));
  }

  lemma CutAfterNewline(dropped: seq<Bytes>, rest: Bytes, text: Bytes)
    requires Plain(dropped, NEWLINE) && dropped != [] && text == Unlines(dropped, NEWLINE) + rest
    ensures |rest| < |text| && text[|text| - |rest| - 1] == NEWLINE
  {
    LinesCounted(dropped);
  }

  lemma DroppedEndsInNewline(stream: Bytes, cap: nat)
    requires |Complete(stream)| > cap
    ensures var v := RingText(stream, cap); |v| < |stream| && stream[|stream| - |v| - 1] == NEWLINE
  {
    var dropped := Complete(stream)[..|Complete(stream)| - cap];
    assert |Newest(Complete(stream), cap)| == cap;
    DroppedThenKept(stream, cap, dropped);
    JoinSplit(stream, NEWLINE);
    CutAfterNewline(dropped, RingText(stream, cap), stream);
  }

  /** Counted in newline bytes: the view is the end of the stream with as many newlines as there are,
      up to the capacity, and where text was dropped the view starts right after a newline. */
  lemma RingTextMeans(stream: Bytes, cap: nat)
    ensures var v := RingText(stream, cap); var newlines := multiset(stream)[10];
            && |v| <= |stream| && v == stream[|stream| - |v|..]
            && multiset(v)[10] == (if newlines <= cap then newlines else cap)
            && (newlines <= cap ==> v == stream)
            && (newlines > cap ==> |v| < |stream| && stream[|stream| - |v| - 1] == 10)
  {
    RingTextIsSuffix(stream, cap);
    RingTextCounted(stream, cap);
    if |Complete(stream)| > cap {
      DroppedEndsInNewline(stream, cap);
    }
  }

  function Flatten(chunks: seq<Bytes>): Bytes {
    if chunks == [] then [] else Flatten(Front(chunks)) + Last(chunks)
  }

  class LogRing {
    var buffer: array<Bytes>
    var count: nat
    var partial: Bytes
    const capLines: nat
    ghost var stream: Bytes

    ghost predicate Valid()
      reads this, buffer
    {
      && capLines >= 1
      && count <= buffer.Length
      && Lines() == Newest(Complete(stream), capLines)
      && partial == Pending(stream)
    }

    ghost function Lines(): seq<Bytes>
      requires count <= buffer.Length
      reads this, buffer
    {
      buffer[..count]
    }

    constructor (cap: int)
      ensures Valid() && fresh(buffer)
      ensures stream == [] && capLines == if cap < 1 then 1 else cap
    {
      capLines := if cap < 1 then 1 else cap;
      buffer := new Bytes[0];
      count := 0;
      partial := [];
      stream := [];
    }

    /** Appends one line, moving to a larger backing array when the current one is full. */
    method Append(line: Bytes)
      requires count <= buffer.Length
      modifies this`buffer, this`count, buffer
      ensures buffer == old(buffer) || fresh(buffer)
      ensures count <= buffer.Length
      ensures Lines() == old(Lines()) + [line]
    {
      if count == buffer.Length {
        var bigger := new Bytes[2 * count + 1];
        forall i | 0 <= i < count {
          bigger[i] := buffer[i];
        }
        buffer := bigger;
      }
      buffer[count] := line;
      count := count + 1;
    }

    /** Drops the oldest lines in place when there are too many: shift down, clear the tail, truncate. */
    method DropOldest()
      requires count <= buffer.Length
      modifies this`count, buffer
      ensures count <= buffer.Length
      ensures Lines() == Newest(old(Lines()), capLines)
    {
      if count <= capLines {
        return;
      }
      ghost var was := Lines();
      var excess := count - capLines;
      for i := 0 to capLines
        invariant count == |was| && buffer == old(buffer)
        invariant forall k :: 0 <= k < i ==> buffer[k] == was[k + excess]
        invariant forall k :: i <= k < count ==> buffer[k] == was[k]
      {
        buffer[i] := buffer[i + excess];
      }
      for i := capLines to count
        invariant count == |was| && buffer == old(buffer)
        invariant forall k :: 0 <= k < capLines ==> buffer[k] == was[k + excess]
      {
        buffer[i] := [];
      }
      count := capLines;
    }

    /** Moves every complete line of `text` into the buffer and returns what follows the last newline. */
    method TakeLines(text: Bytes) returns (pending: Bytes)
      requires count <= buffer.Length
      modifies this`buffer, this`count, buffer
      ensures buffer == old(buffer) || fresh(buffer)
      ensures count <= buffer.Length
      ensures Lines() == old(Lines()) + Complete(text) && pending == Pending(text)
    {
      pending := text;
      ghost var moved: seq<Bytes> := [];
      while true
        invariant buffer == old(buffer) || fresh(buffer)
        invariant count <= buffer.Length
        invariant Lines() == old(Lines()) + moved
        invariant Split(text, NEWLINE) == moved + Split(pending, NEWLINE)
        decreases |pending|
      {
        var nl := Find(pending, NEWLINE);
        if nl < 0 {
          SplitNone(pending, NEWLINE);
          return;
        }
        NextLine(text, moved, pending, nl);
        Append(pending[..nl]);
        moved := moved + [pending[..nl]];
        pending := pending[nl + 1..];
      }
    }

    method Write(chunk: Bytes)
      requires Valid()
      modifies this, buffer
      ensures buffer == old(buffer) || fresh(buffer)
      ensures Valid() && stream == old(stream) + chunk
    {
      WriteStep(stream, chunk, capLines);
      partial := TakeLines(partial + chunk);
      DropOldest();
      stream := stream + chunk;
    }

    method Snapshot() returns (out: Bytes)
      requires Valid()
      ensures out == RingText(stream, capLines)
    {
      out := [];
      for i := 0 to count
        invariant out == Unlines(buffer[..i], NEWLINE)
      {
        assert Front(buffer[..i + 1]) == buffer[..i];
        out := out + buffer[i] + [NEWLINE];
      }
      out := out + partial;
    }
  }

  /** Any sequence of writes shows exactly what one write of the concatenated stream would. */
  method WriteAll(ring: LogRing, chunks: seq<Bytes>) returns (out: Bytes)
    requires ring.Valid()
    modifies ring, ring.buffer
    ensures ring.Valid() && ring.stream == old(ring.stream) + Flatten(chunks)
    ensures out == RingText(old(ring.stream) + Flatten(chunks), ring.capLines)
  {
    for i := 0 to |chunks|
      invariant ring.buffer == old(ring.buffer) || fresh(ring.buffer)
      invariant ring.Valid()
      invariant ring.stream == old(ring.stream) + Flatten(chunks[..i])
    {
      assert Front(chunks[..i + 1]) == chunks[..i];
      ring.Write(chunks[i]);
    }
    assert chunks[..|chunks|] == chunks;
    out := ring.Snapshot();
  }
}
