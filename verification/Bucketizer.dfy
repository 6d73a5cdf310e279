/** Streaming a log through the bucketizer equals cutting the whole log by a recursive definition. */
module Bucketizer {
  import opened Foundation

  /** A log line with the verdict of the logger regular expression on it. */
  datatype Line = Line(text: string, matches: bool)

  type Bucket = seq<Line>

  // ----- Reference definition -------------------------------------------------------------------

  /** How many lines at the front do not match, counting no further than `limit`. */
  function Calm(lines: seq<Line>, limit: nat): (n: nat)
    ensures n <= |lines| && n <= limit
  {
    if lines == [] || limit == 0 || lines[0].matches then 0 else 1 + Calm(lines[1..], limit - 1)
  }

  /** A bucket gets a second line before its size is looked at. */
  function Cap(size: nat): nat {
    if size < 2 then 2 else size
  }

  /** Lines up to the first match are lost; a match takes the calm lines after it, up to the cap. */
  function Cut(size: nat, lines: seq<Line>): seq<Bucket>
    decreases |lines|
  {
    if lines == [] then []
    else if !lines[0].matches then Cut(size, lines[1..])
    else
      var n := 1 + Calm(lines[1..], Cap(size) - 1);
      [lines[..n]] + Cut(size, lines[n..])
  }

  // ----- The bucketizer -------------------------------------------------------------------------

  /** The buffer, open exactly when it is not empty, and the buckets closed so far. */
  datatype State = State(buf: Bucket, closed: seq<Bucket>)

  function Step(size: nat, s: State, line: Line): State {
    if line.matches then State([line], if s.buf == [] then s.closed else s.closed + [s.buf])
    else if s.buf == [] then s
    else if |s.buf| + 1 >= size then State([], s.closed + [s.buf + [line]])
    else s.(buf := s.buf + [line])
  }

  function Steps(size: nat, s: State, lines: seq<Line>): State
    decreases |lines|
  {
    if lines == [] then s else Steps(size, Step(size, s, lines[0]), lines[1..])
  }

  class Bucketizer {
    const size: nat
    var buf: Bucket
    var open: bool

    ghost predicate Valid()
      reads this
    {
      size >= 1 && (open <==> buf != [])
    }

    constructor (size: int)
      ensures Valid() && buf == [] && this.size == if size < 1 then 2 else size
    {
      this.size := if size < 1 then 2 else size;
      buf, open := [], false;
    }

    method Add(line: Line) returns (bucket: Option<Bucket>)
      requires Valid()
      modifies this
      ensures Valid()
      ensures Step(size, State(old(buf), []), line) == State(buf, if bucket.Some? then [bucket.value] else [])
    {
      if line.matches {
        if open && |buf| > 0 {
          bucket := Some(buf);
          buf, open := [line], true;
          return;
        }
        buf, open := [line], true;
        return None;
      }
      if !open {
        return None;
      }
      buf := buf + [line];
      if |buf| >= size {
        bucket := Some(buf);
        buf, open := [], false;
        return;
      }
      return None;
    }

    method Flush() returns (bucket: Option<Bucket>)
      requires Valid()
      modifies this
      ensures Valid() && buf == [] && bucket == if old(buf) == [] then None else Some(old(buf))
    {
      if |buf| == 0 {
        return None;
      }
      bucket := Some(buf);
      buf, open := [], false;
    }

    /** Adds every line, then flushes: the buckets are exactly the recursive cut of the lines. */
    method Stream(lines: seq<Line>) returns (buckets: seq<Bucket>)
      requires Valid() && buf == []
      modifies this
      ensures Valid() && buf == [] && buckets == Cut(size, lines)
    {
      buckets := [];
      var i := 0;
      assert lines[0..] == lines;
      while i < |lines|
        invariant 0 <= i <= |lines| && Valid()
        invariant Steps(size, State(buf, buckets), lines[i..]) == Steps(size, State([], []), lines)
      {
        ghost var s := State(buf, buckets);
        var b := Add(lines[i]);
        if b.Some? {
          buckets := buckets + [b.value];
        }
        StepClosed(size, s, lines[i]);
        assert lines[i..][1..] == lines[i + 1..];
        i := i + 1;
      }
      StreamingCuts(size, State([], []), lines);
      var b := Flush();
      if b.Some? {
        buckets := buckets + [b.value];
      }
    }
  }

  /** Buckets already closed play no part. */
  lemma StepClosed(size: nat, s: State, line: Line)
    ensures var t := Step(size, State(s.buf, []), line);
            Step(size, s, line) == State(t.buf, s.closed + t.closed)
  {
  }

  // ----- Streaming equals cutting ---------------------------------------------------------------

  function Finish(s: State): seq<Bucket> {
    if s.buf == [] then s.closed else s.closed + [s.buf]
  }

  function Take(size: nat, buf: Bucket, lines: seq<Line>, n: nat): seq<Bucket>
    requires n <= |lines|
  {
    [buf + lines[..n]] + Cut(size, lines[n..])
  }

  /** What the cut makes of lines that follow an open buffer. */
  function Continue(size: nat, buf: Bucket, lines: seq<Line>): seq<Bucket> {
    if buf == [] then Cut(size, lines)
    else Take(size, buf, lines, Calm(lines, if Cap(size) >= |buf| then Cap(size) - |buf| else 0))
  }

  lemma TakeOne(size: nat, buf: Bucket, lines: seq<Line>, n: nat)
    requires n < |lines|
    ensures Take(size, buf, lines, 1 + n) == Take(size, buf + [lines[0]], lines[1..], n)
  {
    assert buf + lines[..1 + n] == (buf + [lines[0]]) + lines[1..][..n];
    assert lines[1 + n..] == lines[1..][n..];
  }

  lemma TakeNone(size: nat, buf: Bucket, lines: seq<Line>)
    ensures Take(size, buf, lines, 0) == [buf] + Cut(size, lines)
  {
    assert buf + lines[..0] == buf && lines[0..] == lines;
  }

  lemma MatchContinues(size: nat, buf: Bucket, lines: seq<Line>)
    requires lines != [] && lines[0].matches
    ensures Continue(size, buf, lines) == (if buf == [] then [] else [buf]) + Continue(size, [lines[0]], lines[1..])
  {
    var n := Calm(lines[1..], Cap(size) - 1);
    TakeOne(size, [], lines, n);
    assert [] + lines[..1 + n] == lines[..1 + n] && [] + [lines[0]] == [lines[0]];
    assert Cut(size, lines) == Continue(size, [lines[0]], lines[1..]);
    if buf != [] {
      TakeNone(size, buf, lines);
    }
  }

  lemma CalmContinues(size: nat, buf: Bucket, lines: seq<Line>)
    requires size >= 1 && lines != [] && !lines[0].matches && buf != [] && |buf| < Cap(size)
    ensures |buf| + 1 >= size ==> Continue(size, buf, lines) == [buf + [lines[0]]] + Cut(size, lines[1..])
    ensures |buf| + 1 < size ==> Continue(size, buf, lines) == Continue(size, buf + [lines[0]], lines[1..])
  {
    var n := Calm(lines[1..], Cap(size) - |buf| - 1);
    assert Calm(lines, Cap(size) - |buf|) == 1 + n;
    TakeOne(size, buf, lines, n);
    if |buf| + 1 >= size {
      TakeNone(size, buf + [lines[0]], lines[1..]);
    }
  }

  lemma StepContinues(size: nat, s: State, lines: seq<Line>)
    requires size >= 1 && lines != [] && (s.buf == [] || |s.buf| < Cap(size))
    ensures var t := Step(size, s, lines[0]);
            && s.closed + Continue(size, s.buf, lines) == t.closed + Continue(size, t.buf, lines[1..])
            && (t.buf == [] || |t.buf| < Cap(size))
  {
    var after := Continue(size, Step(size, s, lines[0]).buf, lines[1..]);
    if lines[0].matches {
      MatchContinues(size, s.buf, lines);
      assert s.closed + ([s.buf] + after) == (s.closed + [s.buf]) + after;
      assert [] + after == after;
    } else if s.buf != [] {
      CalmContinues(size, s.buf, lines);
      var full := s.buf + [lines[0]];
      assert s.closed + ([full] + after) == (s.closed + [full]) + after;
    }
  }

  /** From any open or empty buffer: adding the lines and flushing yields what the recursive cut yields. */
  lemma {:induction false} StreamingCuts(size: nat, s: State, lines: seq<Line>)
    requires size >= 1 && (s.buf == [] || |s.buf| < Cap(size))
    ensures Finish(Steps(size, s, lines)) == s.closed + Continue(size, s.buf, lines)
    decreases |lines|
  {
    if lines == [] {
      assert s.buf + lines == s.buf;
    } else {
      StepContinues(size, s, lines);
      StreamingCuts(size, Step(size, s, lines[0]), lines[1..]);
    }
  }

  // ----- What the cut guarantees ----------------------------------------------------------------

  function Matching(lines: seq<Line>): seq<Line> {
    if lines == [] then [] else (if lines[0].matches then [lines[0]] else []) + Matching(lines[1..])
  }

  predicate GoodBucket(size: nat, b: Bucket) {
    1 <= |b| <= (if size <= 2 then 2 else size) && b[0].matches && forall i :: 1 <= i < |b| ==> !b[i].matches
  }

  /** The first line of every bucket. */
  function Heads(buckets: seq<Bucket>): seq<Line> {
    if buckets == [] then []
    else (if buckets[0] == [] then [] else [buckets[0][0]]) + Heads(buckets[1..])
  }

  lemma {:induction false} CalmIsCalm(lines: seq<Line>, limit: nat)
    ensures forall i :: 0 <= i < Calm(lines, limit) ==> !lines[i].matches
    ensures Matching(lines) == Matching(lines[Calm(lines, limit)..])
  {
    if lines == [] || limit == 0 || lines[0].matches {
      assert lines[0..] == lines;
    } else {
      CalmIsCalm(lines[1..], limit - 1);
      var n := Calm(lines[1..], limit - 1);
      assert lines[1..][n..] == lines[1 + n..];
      forall i | 0 <= i < 1 + n ensures !lines[i].matches {
        assert i > 0 ==> lines[i] == lines[1..][i - 1];
      }
    }
  }

  /** Each bucket is one matching line, then calm lines; the heads are all matching lines, once each, in order. */
  lemma {:induction false} CutIsSound(size: nat, lines: seq<Line>)
    ensures forall i :: 0 <= i < |Cut(size, lines)| ==> GoodBucket(size, Cut(size, lines)[i])
    ensures Heads(Cut(size, lines)) == Matching(lines)
    decreases |lines|
  {
    if lines != [] && !lines[0].matches {
      CutIsSound(size, lines[1..]);
    } else if lines != [] {
      var rest := lines[1..];
      var n := Calm(rest, Cap(size) - 1);
      var cut := Cut(size, lines[1 + n..]);
      CutIsSound(size, lines[1 + n..]);
      CutFirst(size, lines);
      assert ([lines[..1 + n]] + cut)[1..] == cut;
      hide Cut, Calm, GoodBucket;
    }
  }

  /** The bucket a matching line opens, and what it leaves to the cut of the rest. */
  lemma CutFirst(size: nat, lines: seq<Line>)
    requires lines != [] && lines[0].matches
    ensures var n := Calm(lines[1..], Cap(size) - 1);
            && GoodBucket(size, lines[..1 + n]) && Cut(size, lines) == [lines[..1 + n]] + Cut(size, lines[1 + n..])
            && Matching(lines) == [lines[0]] + Matching(lines[1 + n..])
  {
    var rest := lines[1..];
    var n := Calm(rest, Cap(size) - 1);
    CalmIsCalm(rest, Cap(size) - 1);
    assert rest[n..] == lines[1 + n..];
    hide Cut, Calm, Matching;
    forall i | 1 <= i < 1 + n ensures !lines[i].matches {
      assert lines[i] == rest[i - 1];
    }
  }

  /** The lines kept: those that match, and those that arrive while a bucket is open. */
  function Kept(size: nat, buf: Bucket, lines: seq<Line>): seq<Line>
    decreases |lines|
  {
    if lines == [] then []
    else
      (if lines[0].matches || buf != [] then [lines[0]] else [])
      + Kept(size, Step(size, State(buf, []), lines[0]).buf, lines[1..])
  }

  lemma StepKeeps(size: nat, s: State, line: Line)
    ensures Flatten(Finish(Step(size, s, line))) ==
            Flatten(Finish(s)) + if line.matches || s.buf != [] then [line] else []
  {
    if line.matches && s.buf == [] {
      FlattenSnoc(s.closed, [line]);
    } else if line.matches {
      FlattenSnoc(s.closed + [s.buf], [line]);
    } else if s.buf != [] {
      FlattenSnoc(s.closed, s.buf);
      FlattenSnoc(s.closed, s.buf + [line]);
      assert Flatten(s.closed) + (s.buf + [line]) == (Flatten(s.closed) + s.buf) + [line];
      assert Finish(Step(size, s, line)) == s.closed + [s.buf + [line]];
    }
  }

  /** Only lines that arrive while no bucket is open are discarded; all others are in the buckets, in order. */
  lemma {:induction false} OnlyClosedLinesDiscarded(size: nat, s: State, lines: seq<Line>)
    ensures Flatten(Finish(Steps(size, s, lines))) == Flatten(Finish(s)) + Kept(size, s.buf, lines)
    decreases |lines|
  {
    if lines != [] {
      var t := Step(size, s, lines[0]);
      OnlyClosedLinesDiscarded(size, t, lines[1..]);
      StepClosed(size, s, lines[0]);
      StepKeeps(size, s, lines[0]);
    }
  }

  // ----- Which lines are kept, by distance ------------------------------------------------------

  /** How many lines ago the last match was, counted from the last line. */
  function Since(lines: seq<Line>): Option<nat> {
    if lines == [] then None
    else if lines[|lines| - 1].matches then Some(0)
    else
      var before := Since(lines[..|lines| - 1]);
      if before.Some? then Some(before.value + 1) else None
  }

  /** The lines that are fewer than max(size, 2) lines behind the last match up to them. */
  function Near(size: nat, lines: seq<Line>): seq<Line> {
    if lines == [] then []
    else
      Near(size, lines[..|lines| - 1])
      + if Since(lines).Some? && Since(lines).value < (if size <= 2 then 2 else size) then [lines[|lines| - 1]] else []
  }

  lemma {:induction false} StepsSnoc(size: nat, s: State, lines: seq<Line>, line: Line)
    ensures Steps(size, s, lines + [line]) == Step(size, Steps(size, s, lines), line)
    decreases |lines|
  {
    if lines == [] {
      assert ([line])[1..] == [] && lines + [line] == [line];
    } else {
      assert (lines + [line])[1..] == lines[1..] + [line];
      StepsSnoc(size, Step(size, s, lines[0]), lines[1..], line);
    }
  }

  /** The open bucket starts at the last match; without one, the last match is too far away. */
  predicate BufferAge(size: nat, buf: Bucket, since: Option<nat>) {
    if buf == [] then since.Some? ==> since.value + 1 >= (if size <= 2 then 2 else size)
    else since == Some(|buf| - 1) && |buf| < (if size <= 2 then 2 else size)
  }

  lemma AgeStep(size: nat, s: State, since: Option<nat>, line: Line)
    requires size >= 1 && BufferAge(size, s.buf, since)
    ensures var now := if line.matches then Some(0) else if since.Some? then Some(since.value + 1) else None;
            && BufferAge(size, Step(size, s, line).buf, now)
            && (line.matches || s.buf != [] <==> now.Some? && now.value < (if size <= 2 then 2 else size))
  {
  }

  lemma NearSnoc(size: nat, init: seq<Line>, line: Line)
    ensures var lines := init + [line];
            var now := if line.matches then Some(0)
                       else if Since(init).Some? then Some(Since(init).value + 1) else None;
            && Since(lines) == now
            && Near(size, lines) ==
               Near(size, init) + if now.Some? && now.value < (if size <= 2 then 2 else size) then [line] else []
  {
    assert (init + [line])[..|init|] == init;
  }

  lemma {:induction false} NearKept(size: nat, lines: seq<Line>)
    requires size >= 1
    ensures var s := Steps(size, State([], []), lines);
            Flatten(Finish(s)) == Near(size, lines) && BufferAge(size, s.buf, Since(lines))
    decreases |lines|
  {
    if lines != [] {
      var init, line := lines[..|lines| - 1], lines[|lines| - 1];
      var s := Steps(size, State([], []), init);
      NearKept(size, init);
      assert lines == init + [line];
      StepsSnoc(size, State([], []), init, line);
      StepKeeps(size, s, line);
      AgeStep(size, s, Since(init), line);
      NearSnoc(size, init, line);
      hide Flatten, Steps, Finish, Step, BufferAge, Near, Since;
    }
  }

  /** The buckets together are exactly the lines fewer than max(size, 2) lines behind a match, in order. */
  lemma KeptByDistance(size: nat, lines: seq<Line>)
    requires size >= 1
    ensures Flatten(Cut(size, lines)) == Near(size, lines)
  {
    NearKept(size, lines);
    StreamingCuts(size, State([], []), lines);
    assert [] + Cut(size, lines) == Cut(size, lines);
  }
}
