/**
 Journals of newline-terminated JSON frames, and their repair after a crash. A line's encoding, what
 counts as blank and what counts as valid JSON are parameters of a format.
 */
module Jsonl {
  import opened Wrappers

  newtype byte = b: int | 0 <= b < 256

  type Bytes = seq<byte>

  const NL: byte := 10
  const CR: byte := 13

  /** No newline in it. */
  predicate OneLine(line: Bytes) { forall i | 0 <= i < |line| :: line[i] != NL }

  /** `blank` says that trimming leaves nothing, `valid` that trimming leaves one JSON value. */
  datatype Format<!T(!new)> = Format(encode: T -> Bytes, decode: Bytes -> Option<T>, blank: Bytes -> bool, valid: Bytes -> bool)
  {
    predicate Bad(line: Bytes) { !blank(line) && !valid(line) }

    /** A record encodes to one line of JSON which no strict prefix of it is. */
    ghost predicate Sound() {
      && blank([])
      && (forall r: T :: OneLine(encode(r)) && Whole(encode(r)) && decode(encode(r)) == Some(r))
      && (forall r: T, n: nat | 0 < n < |encode(r)| :: Bad(encode(r)[..n]))
    }

    ghost predicate Whole(line: Bytes) { line != [] && line[|line| - 1] != CR && valid(line) }
  }

  /** Where the first newline is, or the length. */
  function Line(data: Bytes): (n: nat)
    ensures n <= |data| && OneLine(data[..n]) && (n < |data| ==> data[n] == NL)
  {
    if data == [] || data[0] == NL then 0
    else
      var n := 1 + Line(data[1..]);
      assert data[..n] == [data[0]] + data[1..][..n - 1];
      n
  }

  /** What reading leaves in the file, or where a terminated frame is corrupt. */
  datatype Read = Frames(data: Bytes) | Corrupt(offset: nat)

  function Onto(frame: Bytes, rest: Read): Read {
    match rest
    case Frames(data) => Frames(frame + data)
    case Corrupt(offset) => Corrupt(|frame| + offset)
  }

  /** An unterminated last frame is dropped if it is not JSON and terminated if it is; any other must be JSON. */
  function Repair<T(!new)>(f: Format<T>, data: Bytes): Read
    decreases |data|
  {
    var n := Line(data);
    if data == [] then Frames([])
    else if n == |data| then (if f.Bad(data) then Frames([]) else Frames(data + [NL]))
    else if f.Bad(data[..n]) then Corrupt(0)
    else Onto(data[..n + 1], Repair(f, data[n + 1..]))
  }

  class File {
    var data: Bytes

    constructor (data: Bytes)
      ensures this.data == data
    {
      this.data := data;
    }

    /** Reads the journal, repairing the file in place. A corrupt journal is left as it was. */
    method ReadJsonl<T(!new)>(f: Format<T>) returns (r: Read)
      modifies this
      ensures r == Repair(f, old(data))
      ensures data == if r.Frames? then r.data else old(data)
    {
      hide Repair, Onto, Line;
      ghost var whole, front, rest := data, [], data;
      var offset := 0;
      ScanStarts(f, whole);
      while offset < |data|
        invariant data == whole == front + rest && offset == |front|
        invariant Repair(f, whole) == Onto(front, Repair(f, rest))
      {
        assert data[offset..] == rest;
        var end := Line(data[offset..]);
        var final := offset + end == |data|;
        ScanOn(f, front, rest);
        if f.Bad(data[offset..][..end]) {
          if !final {
            return Corrupt(offset);
          }
          data := data[..offset];
          assert data == front;
          return Frames(data);
        }
        if final {
          data := data + [NL];
          return Frames(data);
        }
        Regroup(front, rest[..end + 1], rest[end + 1..]);
        front, rest := front + rest[..end + 1], rest[end + 1..];
        offset := offset + end + 1;
      }
      ScanEnds(f, front, rest);
      r := Frames(data);
    }
  }

  lemma ScanStarts<T(!new)>(f: Format<T>, whole: Bytes)
    ensures whole == [] + whole && Repair(f, whole) == Onto([], Repair(f, whole))
  {
    hide Repair;
    assert [] + whole == whole;
    if Repair(f, whole).Frames? {
      assert [] + Repair(f, whole).data == Repair(f, whole).data;
    }
  }

  lemma ScanEnds<T(!new)>(f: Format<T>, front: Bytes, rest: Bytes)
    requires rest == []
    ensures Onto(front, Repair(f, rest)) == Frames(front + rest)
  {}

  lemma Regroup(front: Bytes, a: Bytes, b: Bytes)
    ensures front + (a + b) == (front + a) + b
  {}

  lemma SplitAt(rest: Bytes, n: nat)
    requires n < |rest|
    ensures rest == rest[..n] + [rest[n]] + rest[n + 1..] && rest[..n] + [rest[n]] == rest[..n + 1]
    ensures rest == rest[..n + 1] + rest[n + 1..]
  {}

  lemma SplitLine(rest: Bytes)
    requires Line(rest) < |rest|
    ensures var n := Line(rest); rest == rest[..n] + [NL] + rest[n + 1..] && rest[..n] + [NL] == rest[..n + 1]
    ensures rest == rest[..Line(rest) + 1] + rest[Line(rest) + 1..]
  {
    hide Line;
    SplitAt(rest, Line(rest));
  }

  /** One frame further, or the end. */
  lemma ScanOn<T(!new)>(f: Format<T>, front: Bytes, rest: Bytes)
    requires rest != []
    ensures var n := Line(rest);
      Onto(front, Repair(f, rest)) ==
        if n < |rest| then
          if f.Bad(rest[..n]) then Corrupt(|front|) else Onto(front + rest[..n + 1], Repair(f, rest[n + 1..]))
        else if f.Bad(rest[..n]) then Frames(front)
        else Frames(front + rest + [NL])
    ensures Line(rest) < |rest| ==> rest == rest[..Line(rest) + 1] + rest[Line(rest) + 1..]
  {
    hide Repair, Onto;
    var n := Line(rest);
    if n < |rest| {
      SplitLine(rest);
      hide Line;
      ScanFrame(f, front, rest[..n], rest[n + 1..]);
    } else {
      hide Line;
      assert rest[..n] == rest;
      ScanTail(f, front, rest);
    }
  }

  lemma ScanFrame<T(!new)>(f: Format<T>, front: Bytes, line: Bytes, tail: Bytes)
    requires OneLine(line)
    ensures Onto(front, Repair(f, line + [NL] + tail)) ==
      if f.Bad(line) then Corrupt(|front|) else Onto(front + (line + [NL]), Repair(f, tail))
  {
    RepairFrame(f, line, tail);
    hide Repair;
    OntoOnto(front, line + [NL], Repair(f, tail));
  }

  lemma ScanTail<T(!new)>(f: Format<T>, front: Bytes, line: Bytes)
    requires line != [] && OneLine(line)
    ensures Onto(front, Repair(f, line)) == if f.Bad(line) then Frames(front) else Frames(front + line + [NL])
  {
    CutLine(f, line);
    hide Repair;
    assert front + (line + [NL]) == front + line + [NL];
    assert front + [] == front;
  }

  lemma OntoOnto(a: Bytes, b: Bytes, rest: Read)
    ensures Onto(a, Onto(b, rest)) == Onto(a + b, rest)
  {
    if rest.Frames? {
      assert a + (b + rest.data) == (a + b) + rest.data;
    }
  }

  // ---------------------------------------------------------------- any file at all

  /** There is one place for the first newline. */
  lemma LineIs(data: Bytes, n: nat)
    requires n <= |data| && (forall i | 0 <= i < n :: data[i] != NL) && (n < |data| ==> data[n] == NL)
    ensures Line(data) == n
  {
    hide Line;
    var m := Line(data);
    var before := data[..m];
    assert forall i | 0 <= i < m :: before[i] == data[i];
  }

  lemma LineOf(line: Bytes, rest: Bytes)
    requires OneLine(line) && (rest == [] || rest[0] == NL)
    ensures Line(line + rest) == |line|
  {
    LineIs(line + rest, |line|);
  }

  lemma RepairFrame<T(!new)>(f: Format<T>, line: Bytes, rest: Bytes)
    requires OneLine(line)
    ensures Repair(f, line + [NL] + rest) == if f.Bad(line) then Corrupt(0) else Onto(line + [NL], Repair(f, rest))
  {
    var data := line + [NL] + rest;
    assert data == line + ([NL] + rest);
    LineOf(line, [NL] + rest);
    assert data[..|line|] == line && data[..|line| + 1] == line + [NL] && data[|line| + 1..] == rest;
  }

  /** Reading a repaired file again changes nothing. */
  lemma {:induction false} RepairedStaysRepaired<T(!new)>(f: Format<T>, data: Bytes)
    requires Repair(f, data).Frames?
    ensures Repair(f, Repair(f, data).data) == Repair(f, data)
    decreases |data|
  {
    var n := Line(data);
    if data != [] && n < |data| {
      var line, rest := data[..n], data[n + 1..];
      assert data == line + [NL] + rest;
      RepairFrame(f, line, rest);
      RepairedStaysRepaired(f, rest);
      RepairFrame(f, line, Repair(f, rest).data);
      hide Repair;
    } else if data != [] && !f.Bad(data) {
      assert data[..n] == data;
      RepairFrame(f, data, []);
      assert data + [NL] + [] == data + [NL];
    }
  }

  /** A terminated frame at `offset`: it starts the file or follows a newline, and ends at one. */
  ghost predicate FrameAt(data: Bytes, offset: nat, line: Bytes) {
    && OneLine(line) && offset + |line| < |data|
    && data[offset..offset + |line| + 1] == line + [NL]
    && (offset == 0 || data[offset - 1] == NL)
  }

  lemma FirstBreak(data: Bytes, n: nat, m: nat)
    requires n < |data| && data[n] == NL && forall i | 0 <= i < n :: data[i] != NL
    requires m < |data| && data[m] == NL && forall i | 0 <= i < m :: data[i] != NL
    ensures n == m
  {}

  lemma FramesOf(line: Bytes, rest: Bytes, offset: nat, other: Bytes)
    requires OneLine(line)
    ensures var data := line + [NL] + rest;
      FrameAt(data, offset, other)
      <==> (offset == 0 && other == line) || (offset > |line| && FrameAt(rest, offset - |line| - 1, other))
  {
    if offset <= |line| {
      FirstFrame(line, rest, offset, other);
    } else {
      LaterFrame(line, rest, offset, other);
    }
    hide FrameAt;
  }

  /** Up to the first newline there is one frame, the line. */
  lemma FirstFrame(line: Bytes, rest: Bytes, offset: nat, other: Bytes)
    requires OneLine(line) && offset <= |line|
    ensures FrameAt(line + [NL] + rest, offset, other) <==> offset == 0 && other == line
  {
    var data := line + [NL] + rest;
    var n, m := |line|, |other|;
    assert data[..n + 1] == line + [NL];
    if FrameAt(data, offset, other) {
      assert forall i | 0 <= i < n :: data[i] == line[i];
      assert offset == 0 by { assert forall i | 0 <= i < n :: data[i] != NL; }
      var frame := data[..m + 1];
      assert data[offset..offset + m + 1] == frame;
      assert data[m] == NL by { assert frame[m] == NL; }
      assert forall i | 0 <= i < m :: data[i] == other[i] by { assert frame[..m] == other; }
      assert data[n] == NL;
      FirstBreak(data, n, m);
    }
  }

  /** Past it, a frame is a frame of what follows. */
  lemma LaterFrame(line: Bytes, rest: Bytes, offset: nat, other: Bytes)
    requires offset > |line|
    ensures FrameAt(line + [NL] + rest, offset, other) <==> FrameAt(rest, offset - |line| - 1, other)
  {
    var data, k := line + [NL] + rest, |line| + 1;
    assert data[k..] == rest;
    if offset + |other| < |data| {
      assert data[offset..offset + |other| + 1] == rest[offset - k..offset - k + |other| + 1];
    }
    assert k < offset <= |data| ==> data[offset - 1] == rest[offset - k - 1];
    assert data[k - 1] == NL;
  }

  ghost predicate CorruptAt<T(!new)>(f: Format<T>, data: Bytes, offset: nat) {
    exists line :: FrameAt(data, offset, line) && f.Bad(line)
  }

  lemma CorruptOf<T(!new)>(f: Format<T>, line: Bytes, rest: Bytes, offset: nat)
    requires OneLine(line)
    ensures CorruptAt(f, line + [NL] + rest, offset)
      <==> (offset == 0 && f.Bad(line)) || (offset > |line| && CorruptAt(f, rest, offset - |line| - 1))
  {
    var data := line + [NL] + rest;
    forall other ensures FrameAt(data, offset, other)
      <==> (offset == 0 && other == line) || (offset > |line| && FrameAt(rest, offset - |line| - 1, other))
    {
      FramesOf(line, rest, offset, other);
    }
    assert offset == 0 ==> FrameAt(data, offset, line);
    hide FrameAt;
    if offset > |line| && CorruptAt(f, rest, offset - |line| - 1) {
      var other :| FrameAt(rest, offset - |line| - 1, other) && f.Bad(other);
      assert FrameAt(data, offset, other);
    }
  }

  lemma NoFrames(data: Bytes, offset: nat, line: Bytes)
    requires OneLine(data)
    ensures !FrameAt(data, offset, line)
  {
    if offset + |line| < |data| {
      assert data[offset..offset + |line| + 1][|line|] != (line + [NL])[|line|];
    }
  }

  /** `read` refuses the first corrupt frame, or there is none. */
  ghost predicate RefusesFirst<T(!new)>(f: Format<T>, data: Bytes, read: Read) {
    match read
    case Corrupt(first) => CorruptAt(f, data, first) && forall offset: nat | CorruptAt(f, data, offset) :: first <= offset
    case Frames(_) => forall offset: nat :: !CorruptAt(f, data, offset)
  }

  lemma RefusesFurther<T(!new)>(f: Format<T>, line: Bytes, rest: Bytes, read: Read)
    requires OneLine(line) && RefusesFirst(f, rest, read)
    ensures RefusesFirst(f, line + [NL] + rest, if f.Bad(line) then Corrupt(0) else Onto(line + [NL], read))
  {
    var data := line + [NL] + rest;
    forall offset: nat ensures CorruptAt(f, data, offset)
      <==> (offset == 0 && f.Bad(line)) || (offset > |line| && CorruptAt(f, rest, offset - |line| - 1))
    {
      CorruptOf(f, line, rest, offset);
    }
    hide CorruptAt;
    assert f.Bad(line) ==> CorruptAt(f, data, 0);
    if read.Corrupt? {
      assert CorruptAt(f, rest, read.offset + |line| + 1 - |line| - 1);
    }
  }

  /** Reading fails exactly when some terminated frame is not JSON, and names the first such frame. */
  lemma {:induction false} FailsExactlyOnInteriorCorruption<T(!new)>(f: Format<T>, data: Bytes)
    ensures RefusesFirst(f, data, Repair(f, data))
    decreases |data|
  {
    var n := Line(data);
    if n < |data| {
      var line, rest := data[..n], data[n + 1..];
      assert data == line + [NL] + rest;
      RepairFrame(f, line, rest);
      FailsExactlyOnInteriorCorruption(f, rest);
      RefusesFurther(f, line, rest, Repair(f, rest));
      hide Repair, RefusesFirst;
    } else {
      assert data[..n] == data;
      forall offset: nat, line ensures !FrameAt(data, offset, line) {
        NoFrames(data, offset, line);
      }
      hide FrameAt;
    }
  }

  // ---------------------------------------------------------------- a file cut short by a crash

  function Encoded<T(!new)>(f: Format<T>, records: seq<T>): Bytes {
    if records == [] then [] else f.encode(records[0]) + [NL] + Encoded(f, records[1..])
  }

  /** How many records' encodings lie whole in the first `n` bytes. */
  function WholeWithin<T(!new)>(f: Format<T>, records: seq<T>, n: nat): (k: nat)
    ensures k <= |records|
  {
    if records == [] || n < |f.encode(records[0])| then 0
    else if n == |f.encode(records[0])| then 1
    else 1 + WholeWithin(f, records[1..], n - |f.encode(records[0])| - 1)
  }

  /**
   A journal cut at any byte is repaired to exactly its longest prefix of whole frames. A frame that
   has lost only its newline counts as whole, and gets it back.
   */
  lemma {:induction false} CutAnywhere<T(!new)>(f: Format<T>, records: seq<T>, n: nat)
    requires f.Sound() && n <= |Encoded(f, records)|
    ensures Repair(f, Encoded(f, records)[..n]) == Frames(Encoded(f, records[..WholeWithin(f, records, n)]))
  {
    hide Line;
    var whole := Encoded(f, records);
    var k := WholeWithin(f, records, n);
    if records != [] {
      var line, rest := f.encode(records[0]), Encoded(f, records[1..]);
      assert f.Whole(line) && OneLine(line);
      if n < |line| {
        assert whole[..n] == line[..n];
        if n > 0 {
          CutLine(f, line[..n]);
          hide Repair;
        }
      } else if n == |line| {
        assert whole[..n] == line;
        CutLine(f, line);
        hide Repair;
        assert records[..1][1..] == [] && Encoded(f, records[..1]) == line + [NL];
      } else {
        var m := n - |line| - 1;
        CutAnywhere(f, records[1..], m);
        assert whole[..n] == line + [NL] + rest[..m];
        RepairFrame(f, line, rest[..m]);
        hide Repair;
        assert records[..k][1..] == records[1..][..k - 1];
      }
    }
  }

  lemma CutLine<T(!new)>(f: Format<T>, line: Bytes)
    requires line != [] && OneLine(line)
    ensures Repair(f, line) == if f.Bad(line) then Frames([]) else Frames(line + [NL])
  {
    assert line + [] == line;
    LineOf(line, []);
  }

  /** The prefix is the longest: with one more record it would not fit in the cut file and a newline. */
  lemma {:induction false} WholeWithinIsLongest<T(!new)>(f: Format<T>, records: seq<T>, n: nat)
    requires f.Sound()
    ensures var k := WholeWithin(f, records, n);
      && |Encoded(f, records[..k])| <= n + 1
      && (k < |records| ==> n + 1 < |Encoded(f, records[..k + 1])|)
  {
    var k := WholeWithin(f, records, n);
    if records != [] {
      if n < |f.encode(records[0])| {
        assert records[..1][1..] == [];
      } else if n == |f.encode(records[0])| {
        assert records[..1][1..] == [];
        if 1 < |records| {
          assert records[..2][1..] == [records[1]];
        }
      } else {
        WholeWithinIsLongest(f, records[1..], n - |f.encode(records[0])| - 1);
        assert records[..k][1..] == records[1..][..k - 1];
        if k < |records| {
          assert records[..k + 1][1..] == records[1..][..k];
        }
      }
    }
  }

  // ---------------------------------------------------------------- scanning the frames

  function Scanned(line: Bytes): Bytes {
    if line != [] && line[|line| - 1] == CR then line[..|line| - 1] else line
  }

  /** Every line that is not empty decodes, or loading fails. */
  function Decoded<T(!new)>(f: Format<T>, data: Bytes): Option<seq<T>>
    decreases |data|
  {
    if data == [] then Some([])
    else
      var n := Line(data);
      var raw := Scanned(data[..n]);
      var rest := Decoded(f, data[if n < |data| then n + 1 else n..]);
      if raw == [] then rest
      else if f.decode(raw).None? || rest.None? then None
      else Some([f.decode(raw).value] + rest.value)
  }

  lemma DecodedFrame<T(!new)>(f: Format<T>, line: Bytes, rest: Bytes)
    requires OneLine(line) && line != [] && line[|line| - 1] != CR && f.decode(line).Some? && Decoded(f, rest).Some?
    ensures Decoded(f, line + [NL] + rest) == Some([f.decode(line).value] + Decoded(f, rest).value)
  {
    var data := line + [NL] + rest;
    assert data == line + ([NL] + rest);
    LineOf(line, [NL] + rest);
    assert data[..|line|] == line && data[|line| + 1..] == rest;
    assert Scanned(line) == line;
    DecodedStep(f, data, |line|);
    hide *;
  }

  lemma DecodedStep<T(!new)>(f: Format<T>, data: Bytes, n: nat)
    requires n == Line(data) < |data| && Scanned(data[..n]) != []
    requires f.decode(Scanned(data[..n])).Some? && Decoded(f, data[n + 1..]).Some?
    ensures Decoded(f, data) == Some([f.decode(Scanned(data[..n])).value] + Decoded(f, data[n + 1..]).value)
  {}

  lemma {:induction false} DecodesWhatWasEncoded<T(!new)>(f: Format<T>, records: seq<T>)
    requires f.Sound()
    ensures Decoded(f, Encoded(f, records)) == Some(records)
  {
    if records != [] {
      var line, rest := f.encode(records[0]), Encoded(f, records[1..]);
      DecodesWhatWasEncoded(f, records[1..]);
      assert f.Whole(line);
      DecodedFrame(f, line, rest);
      hide Decoded;
      assert [records[0]] + records[1..] == records;
    }
  }

  /** After a crash that cuts the file anywhere, loading gives the records that were whole, and again so. */
  lemma LoadedAfterCut<T(!new)>(f: Format<T>, records: seq<T>, n: nat)
    requires f.Sound() && n <= |Encoded(f, records)|
    ensures var read := Repair(f, Encoded(f, records)[..n]);
      && read.Frames? && Repair(f, read.data) == read
      && Decoded(f, read.data) == Some(records[..WholeWithin(f, records, n)])
  {
    CutAnywhere(f, records, n);
    RepairedStaysRepaired(f, Encoded(f, records)[..n]);
    DecodesWhatWasEncoded(f, records[..WholeWithin(f, records, n)]);
  }

  // ---------------------------------------------------------------- such formats exist

  function Ones(n: nat): (s: Bytes)
    ensures |s| == n && forall i | 0 <= i < n :: s[i] == 49
  {
    seq(n, i => 49)
  }

  function Braced(line: Bytes): bool { |line| >= 2 && line[0] == 123 && line[|line| - 1] == 125 }

  const Unary: Format<nat> := Format((n: int) => if n < 0 then [123, 125] else [123] + Ones(n) + [125],
                                     line => if Braced(line) then Some(|line| - 2) else None,
                                     line => line == [], line => Braced(line))

  lemma UnaryIsSound()
    ensures Unary.Sound()
  {
    forall r: nat, n: nat | 0 < n < |Unary.encode(r)| ensures Unary.Bad(Unary.encode(r)[..n]) {
      if n > 1 {
        assert Unary.encode(r)[n - 1] == 49;
      }
    }
  }
}
