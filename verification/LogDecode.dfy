/** The declarative meaning of reading a container log with since, byte limit and tail options. */
module LogSlice {
  import opened Foundation

  newtype byte = x: int | 0 <= x < 256
  type Bytes = seq<byte>

  /** A raw line, with the message and optional timestamp parseCRILine finds in it, or None when it does not parse. */
  datatype Raw = Raw(bytes: Bytes, parsed: Option<(Bytes, Option<int>)>)

  datatype Options = Options(since: Option<int>, tail: Option<int>, limit: Option<int>)

  function Message(raw: Raw): Bytes {
    if raw.parsed.Some? then raw.parsed.value.0 else raw.bytes
  }

  /** Older than the requested time; a line without a timestamp never is. */
  predicate TooOld(raw: Raw, since: Option<int>) {
    && since.Some? && raw.parsed.Some? && raw.parsed.value.1.Some?
    && raw.parsed.value.1.value < since.value
  }

  function Recent(raws: seq<Raw>, since: Option<int>): seq<Bytes> {
    if raws == [] then []
    else Recent(raws[..|raws| - 1], since) + if TooOld(raws[|raws| - 1], since) then [] else [Message(raws[|raws| - 1])]
  }

  /** Bytes the lines take with their newlines. */
  function Size(lines: seq<Bytes>): nat {
    if lines == [] then 0 else Size(lines[..|lines| - 1]) + |lines[|lines| - 1]| + 1
  }

  /** Every non-empty prefix is within the limit. */
  predicate Fits(lines: seq<Bytes>, limit: Option<int>) {
    lines != [] ==> (limit.Some? ==> Size(lines) <= limit.value) && Fits(lines[..|lines| - 1], limit)
  }

  /** The last line is the first to exceed the limit. */
  predicate Overflows(lines: seq<Bytes>, limit: Option<int>) {
    lines != [] && limit.Some? && Size(lines) > limit.value && Fits(lines[..|lines| - 1], limit)
  }

  /** `part` ends with the line of `lines` that exceeds the limit, or is all of `lines` if none does. */
  predicate IsLimited(lines: seq<Bytes>, limit: Option<int>, part: seq<Bytes>) {
    part <= lines && (Overflows(part, limit) || (part == lines && Fits(part, limit)))
  }

  function LastLines(lines: seq<Bytes>, tail: Option<int>): seq<Bytes> {
    if tail.Some? && 0 <= tail.value < |lines| then lines[|lines| - tail.value..] else lines
  }

  lemma RecentAdded(raws: seq<Raw>, raw: Raw, since: Option<int>)
    ensures Recent(raws + [raw], since) == Recent(raws, since) + if TooOld(raw, since) then [] else [Message(raw)]
  {
    assert (raws + [raw])[..|raws|] == raws;
  }

  lemma RecentSnoc(raws: seq<Raw>, i: nat, since: Option<int>)
    requires i < |raws|
    ensures Recent(raws[..i + 1], since) ==
            Recent(raws[..i], since) + if TooOld(raws[i], since) then [] else [Message(raws[i])]
  {
    RecentAdded(raws[..i], raws[i], since);
    assert raws[..i + 1] == raws[..i] + [raws[i]];
  }

  /** One more line after lines that fit. */
  lemma LineAdded(lines: seq<Bytes>, line: Bytes, limit: Option<int>)
    requires Fits(lines, limit)
    ensures var size := Size(lines) + |line| + 1;
            && Size(lines + [line]) == size
            && (if limit.Some? && size > limit.value then Overflows(lines + [line], limit)
                else Fits(lines + [line], limit))
  {
    assert (lines + [line])[..|lines|] == lines;
  }

  lemma {:induction false} RecentPrefix(raws: seq<Raw>, i: nat, since: Option<int>)
    requires i <= |raws|
    ensures Recent(raws[..i], since) <= Recent(raws, since)
    decreases |raws| - i
  {
    if i < |raws| {
      RecentSnoc(raws, i, since);
      RecentPrefix(raws, i + 1, since);
    } else {
      assert raws[..i] == raws;
    }
  }

  lemma {:induction false} FitsPrefix(lines: seq<Bytes>, part: seq<Bytes>, limit: Option<int>)
    requires Fits(lines, limit) && part <= lines
    ensures Fits(part, limit) && !Overflows(part, limit)
    decreases |lines|
  {
    if part != lines {
      assert part <= lines[..|lines| - 1];
      FitsPrefix(lines[..|lines| - 1], part, limit);
    }
  }

  lemma OneOverflow(lines: seq<Bytes>, p: seq<Bytes>, q: seq<Bytes>, limit: Option<int>)
    requires p <= lines && q <= lines && |p| < |q| && Overflows(q, limit)
    ensures !Overflows(p, limit)
  {
    assert p <= q[..|q| - 1];
    FitsPrefix(q[..|q| - 1], p, limit);
  }

  /**
   There is exactly one limited part. All its lines but the last fit together in a limit of zero or more,
   a negative limit lets a single line through, and a part that is not everything exceeds the limit.
   */
  lemma LimitedPart(lines: seq<Bytes>, limit: Option<int>, p: seq<Bytes>, q: seq<Bytes>)
    requires IsLimited(lines, limit, p) && IsLimited(lines, limit, q)
    ensures p == q
    ensures limit.Some? && limit.value >= 0 && p != [] ==> Size(p[..|p| - 1]) <= limit.value
    ensures limit.Some? && limit.value < 0 ==> |p| == if lines == [] then 0 else 1
    ensures p != lines ==> limit.Some? && Size(p) > limit.value
  {
    if Fits(lines, limit) {
      FitsPrefix(lines, p, limit);
      FitsPrefix(lines, q, limit);
    } else if |p| < |q| {
      OneOverflow(lines, p, q, limit);
    } else if |q| < |p| {
      OneOverflow(lines, q, p, limit);
    }
  }

  lemma {:induction false} RecentSplit(a: seq<Raw>, b: seq<Raw>, since: Option<int>)
    ensures Recent(a + b, since) == Recent(a, since) + Recent(b, since)
    decreases |b|
  {
    if b == [] {
      assert a + b == a;
    } else {
      var init, last := b[..|b| - 1], b[|b| - 1];
      assert a + b == (a + init) + [last] && b == init + [last];
      var tail := if TooOld(last, since) then [] else [Message(last)];
      RecentSplit(a, init, since);
      assert Recent(a + b, since) == Recent(a + init, since) + tail by {
        RecentAdded(a + init, last, since);
      }
      assert Recent(b, since) == Recent(init, since) + tail by {
        RecentAdded(init, last, since);
      }
    }
  }

  /**
   Every raw line is treated on its own, in its place: it is left out iff a time is asked for and its timestamp is
   earlier; otherwise its message is taken, or all of it when it does not parse.
   */
  lemma FilteredExactly(raws: seq<Raw>, i: nat, since: Option<int>)
    requires i < |raws|
    ensures var early := match raws[i].parsed
                         case Some((_, Some(at))) => since.Some? && at < since.value
                         case _ => false;
            var line := match raws[i].parsed case Some((text, _)) => text case None => raws[i].bytes;
            Recent(raws, since) ==
            Recent(raws[..i], since) + (if early then [] else [line]) + Recent(raws[i + 1..], since)
  {
    var one := [raws[i]];
    assert raws == (raws[..i] + one) + raws[i + 1..];
    RecentSplit(raws[..i] + one, raws[i + 1..], since);
    RecentSplit(raws[..i], one, since);
    RecentAdded([], raws[i], since);
    assert [] + one == one;
    hide Recent;
  }

  /** A line without a timestamp always survives the filter, in its place. */
  lemma UntimedSurvives(raws: seq<Raw>, i: nat, since: Option<int>)
    requires i < |raws| && (raws[i].parsed.None? || raws[i].parsed.value.1.None?)
    ensures Recent(raws, since) == Recent(raws[..i], since) + [Message(raws[i])] + Recent(raws[i + 1..], since)
  {
    FilteredExactly(raws, i, since);
  }

  /** What is written for the lines: each with a newline behind it. */
  function Printed(lines: seq<Bytes>): Bytes {
    if lines == [] then [] else Printed(lines[..|lines| - 1]) + lines[|lines| - 1] + [10]
  }

  /** The limit is about the bytes that are written. */
  lemma {:induction false} SizeIsWritten(lines: seq<Bytes>)
    ensures Size(lines) == |Printed(lines)|
  {
    if lines != [] {
      SizeIsWritten(lines[..|lines| - 1]);
    }
  }

  /** The last lines, as many as asked for, or all if fewer or if none or a negative number is asked for. */
  lemma TailIsSuffix(lines: seq<Bytes>, tail: Option<int>)
    ensures var last := LastLines(lines, tail);
            && |last| == (if tail.Some? && 0 <= tail.value < |lines| then tail.value else |lines|)
            && lines == lines[..|lines| - |last|] + last
  {
  }
}

/** decodeTo: one pass over a container log, against that meaning. */
module LogDecode {
  import opened Foundation
  import opened LogSlice

  datatype Error = Cancelled | ScanFailed | WriteFailed

  datatype ScanEnd = Exhausted | LimitReached | ContextDone

  /** The scan loop. `cancelAt` is the turn from which the context is done; `scanned` counts the raw lines taken. */
  method Scan(raws: seq<Raw>, since: Option<int>, limit: Option<int>, cancelAt: Option<nat>)
    returns (lines: seq<Bytes>, scanned: nat, end: ScanEnd)
    ensures scanned <= |raws| && lines == Recent(raws[..scanned], since)
    ensures end.LimitReached? ==> Overflows(lines, limit) && scanned > 0 && !TooOld(raws[scanned - 1], since)
    ensures !end.LimitReached? ==> Fits(lines, limit)
    ensures end.Exhausted? ==> scanned == |raws|
    ensures end.ContextDone? ==> scanned < |raws| && cancelAt == Some(scanned)
    ensures !end.ContextDone? && cancelAt.Some? ==> scanned <= cancelAt.value
  {
    assert Recent([], since) == [] && Size([]) == 0 && Fits([], limit);
    hide Recent, Size, Fits, Overflows;
    var total := 0;
    lines, scanned := [], 0;
    ghost var taken: seq<Raw> := [];
    while scanned < |raws|
      invariant scanned <= |raws| && taken == raws[..scanned]
      invariant lines == Recent(taken, since) && total == Size(lines) && Fits(lines, limit)
      invariant cancelAt.Some? ==> scanned <= cancelAt.value
    {
      if cancelAt.Some? && scanned >= cancelAt.value {
        end := ContextDone;
        return;
      }
      var raw := raws[scanned];
      RecentAdded(taken, raw, since);
      taken, scanned := taken + [raw], scanned + 1;
      assert taken == raws[..scanned];
      if !TooOld(raw, since) {
        var msg := Message(raw);
        LineAdded(lines, msg, limit);
        lines := lines + [msg];
        total := total + |msg| + 1;
        if limit.Some? && total > limit.value {
          end := LimitReached;
          return;
        }
      }
    }
    end := Exhausted;
  }

  /** No line among the first `k` raw lines reaches the limit, so the loop gets past them. */
  predicate Passes(raws: seq<Raw>, opts: Options, k: nat)
    requires k <= |raws|
  {
    Fits(Recent(raws[..k], opts.since), opts.limit)
  }

  lemma PassesIff(raws: seq<Raw>, opts: Options, k: nat, scanned: nat)
    requires k <= |raws| && 0 < scanned <= |raws| && Passes(raws, opts, scanned - 1) && !Passes(raws, opts, scanned)
    ensures Passes(raws, opts, k) <==> k < scanned
  {
    if k < scanned {
      assert raws[..scanned - 1][..k] == raws[..k];
      RecentPrefix(raws[..scanned - 1], k, opts.since);
      FitsPrefix(Recent(raws[..scanned - 1], opts.since), Recent(raws[..k], opts.since), opts.limit);
    } else if Passes(raws, opts, k) {
      assert raws[..k][..scanned] == raws[..scanned];
      RecentPrefix(raws[..k], scanned, opts.since);
      FitsPrefix(Recent(raws[..k], opts.since), Recent(raws[..scanned], opts.since), opts.limit);
    }
  }

  predicate CancelSeen(raws: seq<Raw>, opts: Options, cancelAt: Option<nat>) {
    cancelAt.Some? && cancelAt.value < |raws| && Passes(raws, opts, cancelAt.value)
  }

  predicate BreakSeen(raws: seq<Raw>, opts: Options, breakAt: Option<nat>) {
    breakAt.Some? && breakAt.value <= |raws| && Passes(raws, opts, breakAt.value)
  }

  lemma PassesFewer(raws: seq<Raw>, opts: Options, k: nat, n: nat)
    requires k <= n <= |raws| && Passes(raws, opts, n)
    ensures Passes(raws, opts, k)
  {
    assert raws[..n][..k] == raws[..k];
    RecentPrefix(raws[..n], k, opts.since);
    FitsPrefix(Recent(raws[..n], opts.since), Recent(raws[..k], opts.since), opts.limit);
  }

  /** Where the scan ends decides what the loop has seen of a cancellation or a read error. */
  lemma ScanSees(raws: seq<Raw>, opts: Options, at: Option<nat>, scanned: nat, limited: bool)
    requires scanned <= |raws| && at.Some? && at.value <= |raws| && (!limited ==> scanned == |raws|)
    requires Passes(raws, opts, scanned) <==> !limited
    requires limited ==> scanned > 0 && Passes(raws, opts, scanned - 1)
    ensures Passes(raws, opts, at.value) <==> !limited || at.value < scanned
  {
    if limited {
      PassesIff(raws, opts, at.value, scanned);
    } else {
      PassesFewer(raws, opts, at.value, scanned);
    }
  }

  /** The output loop. */
  method Write(lines: seq<Bytes>, writeFailsAt: Option<nat>) returns (out: seq<Bytes>, err: Option<Error>)
    ensures if writeFailsAt.Some? && writeFailsAt.value < |lines|
            then err == Some(WriteFailed) && out == lines[..writeFailsAt.value]
            else err == None && out == lines
  {
    out := [];
    var i := 0;
    while i < |lines|
      invariant 0 <= i <= |lines| && out == lines[..i] && (writeFailsAt.Some? ==> i <= writeFailsAt.value)
    {
      if writeFailsAt == Some(i) {
        err := Some(WriteFailed);
        return;
      }
      out := out + [lines[i]];
      i := i + 1;
    }
    err := None;
  }

  /** The raw line that overflows is the last one taken; those before it pass. */
  lemma PassesBefore(raws: seq<Raw>, opts: Options, scanned: nat)
    requires 0 < scanned <= |raws| && !TooOld(raws[scanned - 1], opts.since)
    requires Overflows(Recent(raws[..scanned], opts.since), opts.limit)
    ensures Passes(raws, opts, scanned - 1) && !Passes(raws, opts, scanned)
  {
    RecentSnoc(raws, scanned - 1, opts.since);
    var lines := Recent(raws[..scanned], opts.since);
    assert lines[..|lines| - 1] == Recent(raws[..scanned - 1], opts.since);
  }

  /** The first half, up to the check of the scanner's error. */
  method Collect(raws: seq<Raw>, opts: Options, cancelAt: Option<nat>, breakAt: Option<nat>)
    returns (lines: seq<Bytes>, err: Option<Error>)
    requires breakAt.Some? ==> breakAt.value <= |raws|
    ensures err == if CancelSeen(raws, opts, cancelAt) then Some(Cancelled)
                   else if BreakSeen(raws, opts, breakAt) then Some(ScanFailed) else None
    ensures err.None? ==> IsLimited(Recent(raws, opts.since), opts.limit, lines)
  {
    var scanned, end;
    lines, scanned, end := Scan(raws, opts.since, opts.limit, cancelAt);
    if end.ContextDone? {
      err := Some(Cancelled);
      return;
    }
    if end.LimitReached? {
      PassesBefore(raws, opts, scanned);
    }
    if cancelAt.Some? && cancelAt.value < |raws| {
      ScanSees(raws, opts, cancelAt, scanned, end.LimitReached?);
    }
    if breakAt.Some? {
      ScanSees(raws, opts, breakAt, scanned, end.LimitReached?);
    }
    if breakAt.Some? && (end.Exhausted? || breakAt.value < scanned) {
      err := Some(ScanFailed);
      return;
    }
    RecentPrefix(raws, scanned, opts.since);
    assert end.Exhausted? ==> raws[..scanned] == raws;
    err := None;
  }

  /**
   The scanner meets a read error behind the last raw line; it knows of it once it has handed out more than
   `breakAt` lines, and in any case when no line is left. `writeFailsAt`: the output line whose write fails.
   */
  method DecodeTo(raws: seq<Raw>, opts: Options, cancelAt: Option<nat>, breakAt: Option<nat>, writeFailsAt: Option<nat>)
    returns (out: seq<Bytes>, err: Option<Error>, ghost limited: seq<Bytes>)
    requires breakAt.Some? ==> breakAt.value <= |raws|
    ensures err == Some(Cancelled) <==> CancelSeen(raws, opts, cancelAt)
    ensures err == Some(ScanFailed) <==> !CancelSeen(raws, opts, cancelAt) && BreakSeen(raws, opts, breakAt)
    ensures err == Some(Cancelled) || err == Some(ScanFailed) ==> out == []
    ensures err == None || err == Some(WriteFailed) ==>
              && IsLimited(Recent(raws, opts.since), opts.limit, limited)
              && var tail := LastLines(limited, opts.tail);
                 if writeFailsAt.Some? && writeFailsAt.value < |tail|
                 then err == Some(WriteFailed) && out == tail[..writeFailsAt.value]
                 else err == None && out == tail
  {
    var lines;
    lines, err := Collect(raws, opts, cancelAt, breakAt);
    limited := lines;
    out := [];
    if err.None? {
      if opts.tail.Some? && opts.tail.value >= 0 && |lines| > opts.tail.value {
        lines := lines[|lines| - opts.tail.value..];
      }
      out, err := Write(lines, writeFailsAt);
    }
  }
}
