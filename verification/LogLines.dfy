/** The line splitter between the postgres log stream and the structured logger. */
module LogLines {
  type Bytes = seq<char>

  /** The first position of c in s, or -1. */
  function IndexByte(s: Bytes, c: char): (i: int)
    ensures -1 <= i < |s|
    ensures forall k :: 0 <= k < (if i < 0 then |s| else i) ==> s[k] != c
    ensures i >= 0 ==> s[i] == c
  {
    IndexFrom(s, c, 0)
  }

  function IndexFrom(s: Bytes, c: char, from: nat): (i: int)
    requires from <= |s|
    ensures i == -1 || from <= i < |s|
    ensures forall k :: from <= k < (if i < 0 then |s| else i) ==> s[k] != c
    ensures i >= 0 ==> s[i] == c
    decreases |s| - from
  {
    if from == |s| then -1 else if s[from] == c then from else IndexFrom(s, c, from + 1)
  }

  /** s without its trailing carriage returns. */
  function TrimRight(s: Bytes): (t: Bytes)
    ensures t <= s && (forall i :: |t| <= i < |s| ==> s[i] == '\r')
    ensures t == [] || t[|t| - 1] != '\r'
  {
    if s != [] && s[|s| - 1] == '\r' then TrimRight(s[..|s| - 1]) else s
  }

  // ---------- the reference: one stream, split at its newlines ----------

  function Lines(s: Bytes): seq<Bytes> {
    var i := IndexByte(s, '\n');
    if i < 0 then [] else [s[..i]] + Lines(s[i + 1..])
  }

  function Unterminated(s: Bytes): Bytes {
    var i := IndexByte(s, '\n');
    if i < 0 then s else Unterminated(s[i + 1..])
  }

  function Terminated(lines: seq<Bytes>): Bytes {
    if lines == [] then [] else lines[0] + ['\n'] + Terminated(lines[1..])
  }

  lemma TerminatedCons(line: Bytes, lines: seq<Bytes>)
    ensures Terminated([line] + lines) == line + ['\n'] + Terminated(lines)
  {
    assert ([line] + lines)[1..] == lines;
  }

  /** What comes later does not move the first newline. */
  lemma SameFirst(s: Bytes, t: Bytes)
    requires IndexByte(s, '\n') >= 0
    ensures IndexByte(s + t, '\n') == IndexByte(s, '\n')
  {
    assert (s + t)[IndexByte(s, '\n')] == '\n';
  }

  lemma NoLine(s: Bytes)
    requires IndexByte(s, '\n') < 0
    ensures Lines(s) == [] && Unterminated(s) == s
  {
  }

  lemma LinesSplit(s: Bytes, i: nat)
    requires i == IndexByte(s, '\n')
    ensures Lines(s) == [s[..i]] + Lines(s[i + 1..]) && Unterminated(s) == Unterminated(s[i + 1..])
  {
  }

  /** Splitting loses nothing: the lines, each closed by its newline, and the rest are the stream. */
  lemma {:induction false} LinesJoin(s: Bytes)
    ensures Terminated(Lines(s)) + Unterminated(s) == s
    decreases |s|
  {
    var i := IndexByte(s, '\n');
    if i >= 0 {
      var line, later := s[..i], s[i + 1..];
      LinesJoin(later);
      LinesSplit(s, i);
      TerminatedCons(line, Lines(later));
      Rejoin(s, i, Terminated(Lines(later)), Unterminated(later));
    }
  }

  lemma Rejoin(s: Bytes, i: nat, lines: Bytes, rest: Bytes)
    requires i < |s| && s[i] == '\n' && lines + rest == s[i + 1..]
    ensures (s[..i] + ['\n'] + lines) + rest == s
  {
    assert (s[..i] + ['\n'] + lines) + rest == s[..i] + ['\n'] + (lines + rest);
  }

  lemma {:induction false} LinesAreLines(s: Bytes)
    ensures '\n' !in Unterminated(s)
    ensures forall line :: line in Lines(s) ==> '\n' !in line
    decreases |s|
  {
    var i := IndexByte(s, '\n');
    if i >= 0 {
      LinesAreLines(s[i + 1..]);
      LinesSplit(s, i);
    }
  }

  /** What comes later only completes the unterminated rest. */
  lemma {:induction false} LinesAppend(s: Bytes, t: Bytes)
    ensures Lines(s + t) == Lines(s) + Lines(Unterminated(s) + t)
    ensures Unterminated(s + t) == Unterminated(Unterminated(s) + t)
    decreases |s|
  {
    var i := IndexByte(s, '\n');
    if i >= 0 {
      SameFirst(s, t);
      var line, later := s[..i], s[i + 1..];
      assert (s + t)[..i] == line && (s + t)[i + 1..] == later + t;
      LinesAppend(later, t);
      LinesSplit(s, i);
      LinesSplit(s + t, i);
      assert [line] + (Lines(later) + Lines(Unterminated(later) + t))
          == ([line] + Lines(later)) + Lines(Unterminated(later) + t);
    }
  }

  function Trimmed(lines: seq<Bytes>): seq<Bytes> {
    seq(|lines|, i requires 0 <= i < |lines| => TrimRight(lines[i]))
  }

  function Concat(chunks: seq<Bytes>): Bytes {
    if chunks == [] then [] else Concat(chunks[..|chunks| - 1]) + chunks[|chunks| - 1]
  }

  // ---------- the writer ----------

  class PgLogWriter {
    var buf: Bytes
    /** The lines handed to emit, in order. */
    var emitted: seq<Bytes>
    ghost var received: Bytes

    /** Whatever arrived so far was split as one stream. */
    ghost predicate Valid()
      reads this
    {
      emitted == Trimmed(Lines(received)) && buf == Unterminated(received)
    }

    constructor ()
      ensures Valid() && received == [] && emitted == []
    {
      buf, emitted, received := [], [], [];
    }

    method Write(b: Bytes) returns (n: nat)
      requires Valid()
      modifies this
      ensures Valid() && received == old(received) + b && n == |b|
    {
      hide Lines, Unterminated, TrimRight;
      LinesAppend(received, b);
      TrimmedAppend(Lines(received), Lines(buf + b));
      ghost var all := received + b;
      received := all;
      buf := buf + b;
      while true
        invariant received == all && Unterminated(buf) == Unterminated(all)
        invariant emitted + Trimmed(Lines(buf)) == Trimmed(Lines(all))
        decreases |buf|
      {
        var i := IndexByte(buf, '\n');
        if i < 0 { NoLine(buf); break; }
        LinesSplit(buf, i);
        TrimmedAppend([buf[..i]], Lines(buf[i + 1..]));
        var line := TrimRight(buf[..i]);
        ghost var others := Trimmed(Lines(buf[i + 1..]));
        assert Trimmed([buf[..i]]) == [line];
        assert emitted + ([line] + others) == (emitted + [line]) + others;
        buf := buf[i + 1..];
        emitted := emitted + [line];
      }
      assert Lines(buf) == [] && emitted + Trimmed([]) == emitted;
      n := |b|;
    }
  }

  lemma TrimmedAppend(xs: seq<Bytes>, ys: seq<Bytes>)
    ensures Trimmed(xs + ys) == Trimmed(xs) + Trimmed(ys)
  {
  }

  /** However the stream is cut into writes, the lines come out as if it had arrived whole. */
  method WriteAll(chunks: seq<Bytes>) returns (lines: seq<Bytes>, rest: Bytes)
    ensures lines == Trimmed(Lines(Concat(chunks))) && rest == Unterminated(Concat(chunks))
  {
    var w := new PgLogWriter();
    var k := 0;
    while k < |chunks|
      invariant 0 <= k <= |chunks| && w.Valid() && w.received == Concat(chunks[..k])
    {
      assert chunks[..k + 1][..k] == chunks[..k];
      var _ := w.Write(chunks[k]);
      k := k + 1;
    }
    assert chunks[..k] == chunks;
    lines, rest := w.emitted, w.buf;
  }
}
