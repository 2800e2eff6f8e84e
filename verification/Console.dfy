/** Reassembling a byte stream into lines (orchestrator/console.py). */
module Console {
  import opened Texts
  import opened Wrappers

  const NEWLINE: Byte := 10

  /** The pieces between newlines, as `bytes.split(b"\n")` returns them: one more than there are newlines. */
  function Split(data: Bytes): (pieces: seq<Bytes>)
    ensures |pieces| > 0
  {
    if |data| == 0 then [[]]
    else
      var rest := Split(data[1..]);
      if data[0] == NEWLINE then [[]] + rest else [[data[0]] + rest[0]] + rest[1..]
  }

  function Join(pieces: seq<Bytes>): Bytes
    requires |pieces| > 0
  {
    if |pieces| == 1 then pieces[0] else pieces[0] + [NEWLINE] + Join(pieces[1..])
  }

  predicate OneLine(piece: Bytes) {
    NEWLINE !in piece
  }

  /** What `split` is: the one list of newline-free pieces that newlines join back to the data. */
  predicate PiecesOf(data: Bytes, pieces: seq<Bytes>) {
    |pieces| > 0 && Join(pieces) == data && forall i | 0 <= i < |pieces| :: OneLine(pieces[i])
  }

  lemma JoinLonger(b: Byte, first: Bytes, tail: seq<Bytes>)
    ensures Join([[b] + first] + tail) == [b] + Join([first] + tail)
  {
    assert ([[b] + first] + tail)[1..] == tail && ([first] + tail)[1..] == tail;
    if |tail| > 0 { assert [b] + first + [NEWLINE] + Join(tail) == [b] + (first + [NEWLINE] + Join(tail)); }
  }

  lemma {:induction false} SplitPieces(data: Bytes)
    ensures PiecesOf(data, Split(data))
  {
    if |data| == 0 {
    } else {
      var rest := Split(data[1..]);
      SplitPieces(data[1..]);
      if data[0] == NEWLINE {
        assert ([[]] + rest)[1..] == rest;
      } else {
        var pieces := [[data[0]] + rest[0]] + rest[1..];
        JoinLonger(data[0], rest[0], rest[1..]);
        assert [rest[0]] + rest[1..] == rest;
        forall i | 0 <= i < |pieces| ensures OneLine(pieces[i]) { assert OneLine(rest[i]); }
      }
    }
  }

  lemma {:induction false} PiecesUnique(data: Bytes, pieces: seq<Bytes>)
    requires PiecesOf(data, pieces)
    ensures pieces == Split(data)
    decreases |data|
  {
    if |pieces| == 1 && |pieces[0]| == 0 {
    } else if |pieces[0]| > 0 {
      assert OneLine(pieces[0]) && pieces[0][0] in pieces[0];
      var shorter := [pieces[0][1..]] + pieces[1..];
      assert shorter[1..] == pieces[1..];
      assert pieces[0] == [pieces[0][0]] + pieces[0][1..];
      assert Join(pieces) == [pieces[0][0]] + Join(shorter);
      forall i | 0 <= i < |shorter| ensures OneLine(shorter[i]) { assert OneLine(pieces[i]); }
      PiecesUnique(data[1..], shorter);
    } else {
      assert data == [NEWLINE] + Join(pieces[1..]);
      forall i | 0 <= i < |pieces[1..]| ensures OneLine(pieces[1..][i]) { assert OneLine(pieces[i + 1]); }
      PiecesUnique(data[1..], pieces[1..]);
      assert pieces == [[]] + pieces[1..];
    }
  }

  lemma {:induction false} JoinOnto(front: seq<Bytes>, last: Bytes, more: seq<Bytes>, whole: Bytes)
    requires |more| > 0 && Join(more) == last + whole
    ensures Join(front + more) == Join(front + [last]) + whole
    decreases |front|
  {
    if |front| == 0 {
      assert front + more == more && front + [last] == [last];
    } else {
      JoinOnto(front[1..], last, more, whole);
      assert (front + more)[1..] == front[1..] + more && (front + [last])[1..] == front[1..] + [last];
    }
  }

  /** A stream cut anywhere: only the piece around the cut is put together from both sides. */
  lemma SplitCut(a: Bytes, b: Bytes)
    ensures var p := Split(a); var q := Split(p[|p| - 1] + b);
            Split(a + b) == p[..|p| - 1] + q
  {
    var p := Split(a);
    var front, last := p[..|p| - 1], p[|p| - 1];
    var q := Split(last + b);
    SplitPieces(a);
    SplitPieces(last + b);
    JoinOnto(front, last, q, b);
    assert front + [last] == p;
    forall i | 0 <= i < |front + q| ensures OneLine((front + q)[i]) {
      if i < |front| { assert OneLine(p[i]); } else { assert OneLine(q[i - |front|]); }
    }
    PiecesUnique(a + b, front + q);
  }

  /** The pieces a newline has ended. */
  function Ended(data: Bytes): seq<Bytes> {
    Split(data)[..|Split(data)| - 1]
  }

  /** What follows the last newline. */
  function Rest(data: Bytes): Bytes {
    Split(data)[|Split(data)| - 1]
  }

  lemma EndedCut(a: Bytes, b: Bytes)
    ensures Ended(a + b) == Ended(a) + Ended(Rest(a) + b) && Rest(a + b) == Rest(Rest(a) + b)
  {
    SplitCut(a, b);
    assert Split(a + b) == Ended(a) + Split(Rest(a) + b);
  }

  lemma RestIsOneLine(a: Bytes)
    ensures OneLine(Rest(a))
  {
    SplitPieces(a);
  }

  function TrimReturns(line: string): string {
    if |line| > 0 && line[|line| - 1] == '\r' then TrimReturns(line[..|line| - 1]) else line
  }

  /** Trimming takes the carriage returns at the end, all of them and nothing else. */
  lemma {:induction false} TrimMeaning(line: string) returns (returns': string)
    ensures line == TrimReturns(line) + returns' && forall c | c in returns' :: c == '\r'
    ensures |TrimReturns(line)| > 0 ==> TrimReturns(line)[|TrimReturns(line)| - 1] != '\r'
  {
    if |line| > 0 && line[|line| - 1] == '\r' {
      var rest := TrimMeaning(line[..|line| - 1]);
      returns' := rest + [line[|line| - 1]];
      assert line == line[..|line| - 1] + [line[|line| - 1]];
    } else {
      returns' := "";
    }
  }

  function Decoded(decode: Bytes -> string, pieces: seq<Bytes>): (lines: seq<string>)
    ensures |lines| == |pieces|
  {
    if |pieces| == 0 then []
    else Decoded(decode, pieces[..|pieces| - 1]) + [TrimReturns(decode(pieces[|pieces| - 1]))]
  }

  lemma {:induction false} DecodedAppend(decode: Bytes -> string, p: seq<Bytes>, q: seq<Bytes>)
    ensures Decoded(decode, p + q) == Decoded(decode, p) + Decoded(decode, q)
  {
    if |q| == 0 {
      assert p + q == p;
    } else {
      DecodedAppend(decode, p, q[..|q| - 1]);
      assert (p + q)[..|p| + |q| - 1] == p + q[..|q| - 1];
    }
  }

  /** Splitting a whole stream at once: every terminated line, decoded and trimmed, and then whatever follows the
      last newline, which is decoded but keeps its carriage returns. */
  function Batch(decode: Bytes -> string, data: Bytes): seq<string> {
    Decoded(decode, Ended(data)) + (if |Rest(data)| == 0 then [] else [decode(Rest(data))])
  }

  method DecodeAll(decode: Bytes -> string, pieces: seq<Bytes>) returns (lines: seq<string>)
    ensures lines == Decoded(decode, pieces)
  {
    lines := [];
    var i := 0;
    while i < |pieces|
      invariant 0 <= i <= |pieces| && lines == Decoded(decode, pieces[..i])
    {
      assert pieces[..i + 1][..i] == pieces[..i];
      lines := lines + [TrimReturns(decode(pieces[i]))];
      i := i + 1;
    }
    assert pieces[..i] == pieces;
  }

  class LineBuffer {
    const decode: Bytes -> string
    var partial: Bytes
    /** Everything fed since the last flush. */
    ghost var fed: Bytes

    ghost predicate Valid()
      reads this
    {
      partial == Rest(fed)
    }

    constructor (d: Bytes -> string)
      ensures Valid() && decode == d && fed == []
    {
      decode, partial, fed := d, [], [];
    }

    method Feed(chunk: Bytes) returns (lines: seq<string>)
      requires Valid()
      modifies this
      ensures Valid() && fed == old(fed) + chunk && OneLine(partial)
      ensures Decoded(decode, Ended(fed)) == Decoded(decode, Ended(old(fed))) + lines
    {
      var pieces := Split(partial + chunk);
      EndedCut(fed, chunk);
      RestIsOneLine(partial + chunk);
      DecodedAppend(decode, Ended(fed), Ended(partial + chunk));
      lines := DecodeAll(decode, pieces[..|pieces| - 1]);
      partial, fed := pieces[|pieces| - 1], fed + chunk;
    }

    method Flush() returns (line: Option<string>)
      requires Valid()
      modifies this
      ensures Valid() && fed == [] && partial == []
      ensures Decoded(decode, Ended(old(fed))) + (if line.Some? then [line.value] else []) ==
              Batch(decode, old(fed))
    {
      var rest := partial;
      partial, fed := [], [];
      line := if |rest| == 0 then None else Some(decode(rest));
    }

    /** Draining a stream however it is cut gives exactly the lines of the whole stream. */
    method Drain(chunks: seq<Bytes>) returns (lines: seq<string>)
      requires Valid() && fed == []
      modifies this
      ensures Valid() && fed == []
      ensures lines == Batch(decode, Concat(chunks))
    {
      lines := [];
      var i := 0;
      while i < |chunks|
        invariant 0 <= i <= |chunks| && Valid() && fed == Concat(chunks[..i])
        invariant lines == Decoded(decode, Ended(fed))
      {
        assert chunks[..i + 1][..i] == chunks[..i];
        var more := Feed(chunks[i]);
        lines := lines + more;
        i := i + 1;
      }
      assert chunks[..i] == chunks;
      var last := Flush();
      if last.Some? { lines := lines + [last.value]; }
    }
  }

  function Concat(chunks: seq<Bytes>): Bytes {
    if |chunks| == 0 then [] else Concat(chunks[..|chunks| - 1]) + chunks[|chunks| - 1]
  }
}
