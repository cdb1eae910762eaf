/**
 Lines reassembled from a subprocess's output as it arrives, in chunks cut anywhere. A line over the
 bound stops the reader for good.
 */
module LineReader {
  import opened Jsonl

  const MaxStreamLine := 1024 * 1024
  const MaxCapturedOutput := 1024 * 1024

  /** What has been emitted so far, whether a line was too long, and the line begun. */
  datatype Reader = Reader(lines: seq<Bytes>, failed: bool, pending: Bytes)

  const Start := Reader([], false, [])

  /** One trailing carriage return is not part of the line. */
  function Trimmed(line: Bytes): Bytes { if line != [] && line[|line| - 1] == CR then line[..|line| - 1] else line }

  function Emitted(r: Reader, line: Bytes): Reader { Reader(r.lines + [Trimmed(line)], false, []) }

  /** What one chunk does: at each newline the line begun is emitted. */
  function Fed(r: Reader, chunk: Bytes): Reader
    decreases |chunk|
  {
    var n := Line(chunk);
    if r.failed then r
    else if |r.pending| + n > MaxStreamLine then r.(failed := true)
    else if n == |chunk| then r.(pending := r.pending + chunk[..n])
    else Fed(Emitted(r, r.pending + chunk[..n]), chunk[n + 1..])
  }

  function FedAll(r: Reader, chunks: seq<Bytes>): Reader {
    if chunks == [] then r else Fed(FedAll(r, chunks[..|chunks| - 1]), chunks[|chunks| - 1])
  }

  function Joined(chunks: seq<Bytes>): Bytes {
    if chunks == [] then [] else Joined(chunks[..|chunks| - 1]) + chunks[|chunks| - 1]
  }

  /** A stream split at its newlines: one piece more than there are newlines. */
  function Pieces(stream: Bytes): (pieces: seq<Bytes>)
    ensures pieces != []
    decreases |stream|
  {
    var n := Line(stream);
    if n == |stream| then [stream] else [stream[..n]] + Pieces(stream[n + 1..])
  }

  /** How many pieces come before the first that is too long. */
  function Short(pieces: seq<Bytes>): (n: nat)
    ensures n <= |pieces|
    ensures forall i | 0 <= i < n :: |pieces[i]| <= MaxStreamLine
    ensures n < |pieces| ==> |pieces[n]| > MaxStreamLine
  {
    if pieces == [] || |pieces[0]| > MaxStreamLine then 0 else 1 + Short(pieces[1..])
  }

  /** The lines a reader gives once its stream has ended. */
  function Flushed(r: Reader): seq<Bytes> {
    if r.failed || r.pending == [] then r.lines else r.lines + [Trimmed(r.pending)]
  }

  class LineWriter {
    var lines: seq<Bytes>
    var failed: bool
    var pending: Bytes

    function View(): Reader reads this { Reader(lines, failed, pending) }

    constructor ()
      ensures View() == Start
    {
      lines, failed, pending := [], false, [];
    }

    method Write(chunk: Bytes) returns (consumed: nat, ok: bool)
      requires |pending| <= MaxStreamLine
      modifies this
      ensures View() == Fed(old(View()), chunk) && |pending| <= MaxStreamLine
      ensures ok == !failed && consumed <= |chunk|
      ensures ok ==> consumed == |chunk|
      ensures !ok && chunk != [] ==> consumed < |chunk|
    {
      hide Fed, Line;
      consumed, ok := 0, false;
      ghost var was := View();
      if failed {
        FedFailed(was, chunk);
        return;
      }
      var p := chunk;
      while p != []
        invariant !failed && |pending| <= MaxStreamLine && consumed + |p| == |chunk|
        invariant Fed(View(), p) == Fed(was, chunk)
        decreases |p|
      {
        var take := Line(p);
        FedStep(View(), p);
        if |pending| + take > MaxStreamLine {
          failed := true;
          return;
        }
        pending := pending + p[..take];
        consumed := consumed + take;
        if take == |p| {
          ok := true;
          return;
        }
        lines := lines + [Trimmed(pending)];
        pending := [];
        p := p[take + 1..];
        consumed := consumed + 1;
      }
      FedNothing(View());
      ok := true;
    }

    /** Emits a last line that was not terminated. */
    method Flush() returns (ok: bool)
      modifies this
      ensures lines == Flushed(old(View())) && failed == old(failed) && ok == !failed && (ok ==> pending == [])
    {
      if failed {
        return false;
      }
      if pending != [] {
        lines := lines + [Trimmed(pending)];
        pending := [];
      }
      ok := true;
    }
  }

  /** One step of a reader that has not failed. */
  lemma FedStep(r: Reader, p: Bytes)
    requires !r.failed
    ensures var n := Line(p);
      Fed(r, p) ==
        if |r.pending| + n > MaxStreamLine then r.(failed := true)
        else if n == |p| then r.(pending := r.pending + p[..n])
        else Fed(Emitted(r, r.pending + p[..n]), p[n + 1..])
  {}

  lemma FedNothing(r: Reader)
    requires |r.pending| <= MaxStreamLine
    ensures Fed(r, []) == r
  {
    assert r.pending + [][..0] == r.pending;
  }

  // ---------------------------------------------------------------- the chunks do not matter

  /** The same to the caller: what a failed reader had begun is never seen. */
  predicate Alike(a: Reader, b: Reader) { a.lines == b.lines && a.failed == b.failed && (!a.failed ==> a.pending == b.pending) }

  /** Two chunks do what their concatenation does, wherever the cut falls. */
  lemma {:induction false} FedTwice(r: Reader, p: Bytes, q: Bytes)
    requires |r.pending| <= MaxStreamLine
    ensures Alike(Fed(Fed(r, p), q), Fed(r, p + q))
    decreases |p|
  {
    hide Fed, Line;
    var n := Line(p);
    if r.failed {
      FedFailed(r, p);
      FedFailed(r, q);
      FedFailed(r, p + q);
    } else {
      FedStep(r, p);
      if n < |p| {
        CutAfter(p, q);
        FedStep(r, p + q);
        if |r.pending| + n <= MaxStreamLine {
          FedTwice(Emitted(r, r.pending + p[..n]), p[n + 1..], q);
        } else {
          FedFailed(r.(failed := true), q);
        }
      } else {
        FedAcross(r, p, q);
      }
    }
  }

  lemma FedFailed(r: Reader, p: Bytes)
    requires r.failed
    ensures Fed(r, p) == r
  {}

  lemma CutAfter(p: Bytes, q: Bytes)
    requires Line(p) < |p|
    ensures var n := Line(p); Line(p + q) == n && (p + q)[..n] == p[..n] && (p + q)[n + 1..] == p[n + 1..] + q
  {
    var n := Line(p);
    LineOf(p[..n], p[n..] + q);
    assert p + q == p[..n] + (p[n..] + q);
  }

  lemma CutInside(p: Bytes, q: Bytes)
    requires Line(p) == |p|
    ensures var m := Line(q);
      Line(p + q) == |p| + m && (p + q)[..|p| + m] == p + q[..m] && (m < |q| ==> (p + q)[|p| + m + 1..] == q[m + 1..])
  {
    var m := Line(q);
    assert p[..|p|] == p;
    assert p + q == (p + q[..m]) + q[m..];
    LineOf(p + q[..m], q[m..]);
    hide Line;
  }

  /** A cut inside a line. */
  lemma FedAcross(r: Reader, p: Bytes, q: Bytes)
    requires !r.failed && |r.pending| <= MaxStreamLine && Line(p) == |p|
    ensures Alike(Fed(Fed(r, p), q), Fed(r, p + q))
  {
    hide Fed, Line;
    FedStep(r, p);
    FedStep(r, p + q);
    CutInside(p, q);
    var m := Line(q);
    var r' := Fed(r, p);
    if |r.pending| + |p| <= MaxStreamLine {
      assert r' == r.(pending := r.pending + p);
      FedStep(r', q);
      assert r.pending + (p + q[..m]) == r'.pending + q[..m];
      if m < |q| && |r'.pending| + m <= MaxStreamLine {
        assert Emitted(r, r.pending + (p + q[..m])) == Emitted(r', r'.pending + q[..m]);
      } else if m == |q| {
        assert p + q[..m] == p + q;
      }
    } else {
      FedFailed(r.(failed := true), q);
    }
  }

  lemma AlikeFed(a: Reader, b: Reader, chunk: Bytes)
    requires Alike(a, b)
    ensures Alike(Fed(a, chunk), Fed(b, chunk))
  {
    if a.failed {
      FedFailed(a, chunk);
      FedFailed(b, chunk);
    } else {
      assert a == b;
    }
  }

  lemma {:induction false} PendingFits(r: Reader, chunk: Bytes)
    requires |r.pending| <= MaxStreamLine
    ensures |Fed(r, chunk).pending| <= MaxStreamLine
    decreases |chunk|
  {
    var n := Line(chunk);
    if !r.failed && |r.pending| + n <= MaxStreamLine && n < |chunk| {
      PendingFits(Emitted(r, r.pending + chunk[..n]), chunk[n + 1..]);
    }
  }

  /** For every way the output is cut into chunks, the reader ends as if it had come whole. */
  lemma {:induction false} ChunksDoNotMatter(r: Reader, chunks: seq<Bytes>)
    requires |r.pending| <= MaxStreamLine
    ensures Alike(FedAll(r, chunks), Fed(r, Joined(chunks))) && |FedAll(r, chunks).pending| <= MaxStreamLine
  {
    if chunks == [] {
      FedNothing(r);
    } else {
      var n := |chunks| - 1;
      ChunksDoNotMatter(r, chunks[..n]);
      AlikeFed(FedAll(r, chunks[..n]), Fed(r, Joined(chunks[..n])), chunks[n]);
      FedTwice(r, Joined(chunks[..n]), chunks[n]);
      PendingFits(FedAll(r, chunks[..n]), chunks[n]);
    }
  }

  // ---------------------------------------------------------------- what pieces and lines are

  function Rejoined(pieces: seq<Bytes>): Bytes {
    if |pieces| == 0 then [] else if |pieces| == 1 then pieces[0] else pieces[0] + [NL] + Rejoined(pieces[1..])
  }

  /** A stream's pieces have no newline in them, and put back together with newlines give the stream. */
  lemma {:induction false} PiecesRejoin(stream: Bytes)
    ensures Rejoined(Pieces(stream)) == stream
    ensures forall i, j | 0 <= i < |Pieces(stream)| && 0 <= j < |Pieces(stream)[i]| :: Pieces(stream)[i][j] != NL
    decreases |stream|
  {
    var n := Line(stream);
    if n < |stream| {
      var rest := Pieces(stream[n + 1..]);
      PiecesRejoin(stream[n + 1..]);
      assert Pieces(stream)[1..] == rest;
      assert stream == stream[..n] + [NL] + stream[n + 1..];
    }
  }

  /** A line is its piece, less one carriage return if it ends in one. */
  lemma TrimmedIs(line: Bytes)
    ensures Trimmed(line + [CR]) == line
    ensures (line == [] || line[|line| - 1] != CR) ==> Trimmed(line) == line
  {
    assert (line + [CR])[..|line|] == line;
  }

  // ---------------------------------------------------------------- and the lines are the stream's

  function TrimmedAll(pieces: seq<Bytes>): seq<Bytes> {
    if pieces == [] then [] else [Trimmed(pieces[0])] + TrimmedAll(pieces[1..])
  }

  lemma {:induction false} FedIsSplit(r: Reader, stream: Bytes)
    requires !r.failed && r.pending == []
    ensures var pieces := Pieces(stream);
      var n := Short(pieces);
      Fed(r, stream) ==
        if n < |pieces| then Reader(r.lines + TrimmedAll(pieces[..n]), true, [])
        else Reader(r.lines + TrimmedAll(pieces[..n - 1]), false, pieces[n - 1])
    decreases |stream|
  {
    var pieces := Pieces(stream);
    var n := Line(stream);
    FedStep(r, stream);
    assert r.pending + stream[..n] == stream[..n];
    if n == |stream| {
      assert stream[..n] == stream && pieces == [stream];
      hide Fed, Pieces;
      assert TrimmedAll(pieces[..0]) == [] && r.lines + [] == r.lines;
    } else {
      var rest := Pieces(stream[n + 1..]);
      assert pieces == [stream[..n]] + rest;
      if n <= MaxStreamLine {
        var r' := Emitted(r, stream[..n]);
        FedIsSplit(r', stream[n + 1..]);
        hide Fed, Pieces;
        SplitOn(stream[..n], rest, r.lines);
      } else {
        hide Fed, Pieces;
        assert TrimmedAll(pieces[..0]) == [] && r.lines + [] == r.lines;
      }
    }
  }

  lemma SplitOn(first: Bytes, rest: seq<Bytes>, lines: seq<Bytes>)
    requires |first| <= MaxStreamLine && rest != []
    ensures var pieces := [first] + rest;
      var n := Short(pieces);
      && n == 1 + Short(rest) && pieces[|pieces| - 1] == rest[|rest| - 1]
      && (n > 0 ==> lines + TrimmedAll(pieces[..n]) == (lines + [Trimmed(first)]) + TrimmedAll(rest[..n - 1]))
      && (n > 1 ==> lines + TrimmedAll(pieces[..n - 1]) == (lines + [Trimmed(first)]) + TrimmedAll(rest[..n - 2]))
  {
    var pieces := [first] + rest;
    assert pieces[1..] == rest;
    var n := Short(pieces);
    assert n == 1 + Short(rest);
    hide *;
    LinesOn(first, rest, lines, n);
    if n > 1 {
      LinesOn(first, rest, lines, n - 1);
    }
  }

  lemma LinesOn(first: Bytes, rest: seq<Bytes>, lines: seq<Bytes>, n: nat)
    requires 0 < n <= 1 + |rest|
    ensures lines + TrimmedAll(([first] + rest)[..n]) == (lines + [Trimmed(first)]) + TrimmedAll(rest[..n - 1])
  {
    hide *;
    assert ([first] + rest)[..n] == [first] + rest[..n - 1];
    FirstTrimmed(first, rest[..n - 1]);
    Regroup(lines, [Trimmed(first)], TrimmedAll(rest[..n - 1]));
  }

  lemma Regroup(a: seq<Bytes>, b: seq<Bytes>, c: seq<Bytes>)
    ensures a + (b + c) == (a + b) + c
  {}

  lemma FirstTrimmed(first: Bytes, rest: seq<Bytes>)
    ensures TrimmedAll([first] + rest) == [Trimmed(first)] + TrimmedAll(rest)
  {
    assert ([first] + rest)[1..] == rest;
    hide Trimmed;
  }

  /**
   The lines emitted are those of the whole stream split at its newlines, up to the first that is too
   long, and the reader fails exactly when there is one.
   */
  lemma LinesAreTheStreams(chunks: seq<Bytes>)
    ensures var pieces := Pieces(Joined(chunks));
      var n := Short(pieces);
      var end := FedAll(Start, chunks);
      && (end.failed <==> exists i :: 0 <= i < |pieces| && |pieces[i]| > MaxStreamLine)
      && (end.failed ==> Flushed(end) == TrimmedAll(pieces[..n]))
      && (!end.failed ==> end.lines == TrimmedAll(pieces[..|pieces| - 1]) && end.pending == pieces[|pieces| - 1])
  {
    ChunksDoNotMatter(Start, chunks);
    FedIsSplit(Start, Joined(chunks));
    assert forall ls: seq<Bytes> :: Start.lines + ls == ls;
  }

  /** At the end of the stream its last piece is a line too, unless it is empty. */
  lemma FlushedAreTheStreams(chunks: seq<Bytes>)
    requires !FedAll(Start, chunks).failed
    ensures var pieces := Pieces(Joined(chunks));
      Flushed(FedAll(Start, chunks)) == TrimmedAll(if pieces[|pieces| - 1] == [] then pieces[..|pieces| - 1] else pieces)
  {
    LinesAreTheStreams(chunks);
    hide Pieces, TrimmedAll, FedAll, Trimmed;
    var pieces := Pieces(Joined(chunks));
    LastTrimmed(pieces[..|pieces| - 1], pieces[|pieces| - 1]);
    assert pieces == pieces[..|pieces| - 1] + [pieces[|pieces| - 1]];
  }

  lemma {:induction false} LastTrimmed(pieces: seq<Bytes>, last: Bytes)
    ensures TrimmedAll(pieces + [last]) == TrimmedAll(pieces) + [Trimmed(last)]
  {
    hide Trimmed;
    if pieces == [] {
      assert [] + [last] == [last] && [last][1..] == [];
    } else {
      LastTrimmed(pieces[1..], last);
      assert (pieces + [last])[1..] == pieces[1..] + [last];
    }
  }

  // ---------------------------------------------------------------- the captured output

  function Terminated(lines: seq<Bytes>): Bytes {
    if lines == [] then [] else Terminated(lines[..|lines| - 1]) + lines[|lines| - 1] + [NL]
  }

  function Prefix(s: Bytes, n: nat): Bytes { if |s| > n then s[..n] else s }

  class LockedBuffer {
    var data: Bytes
    ghost var written: seq<Bytes>

    /** The capture is the first bytes of all the lines with their newlines. */
    ghost predicate Valid() reads this { data == Prefix(Terminated(written), MaxCapturedOutput) }

    constructor ()
      ensures Valid() && written == []
    {
      data, written := [], [];
    }

    method WriteLine(line: Bytes)
      requires Valid()
      modifies this
      ensures Valid() && written == old(written) + [line]
    {
      ghost var before := Terminated(written);
      written := written + [line];
      assert written[..|written| - 1] == old(written);
      assert Terminated(written) == before + (line + [NL]);
      if |data| >= MaxCapturedOutput {
        return;
      }
      var remaining := MaxCapturedOutput - |data|;
      var chunk := line + [NL];
      if |chunk| > remaining {
        chunk := chunk[..remaining];
      }
      data := data + chunk;
    }
  }
}
