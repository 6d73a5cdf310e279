/**
 The line pump of one log stream: a reader goroutine fills a bounded channel, the select loop collects
 lines into batches for the publisher, and a backlog limit evicts lines from the front.
 */
module LogLines {
  import opened Foundation

  const BatchSize := 100

  /** What one turn of the select loop picks. */
  datatype Select = Line(text: string) | Tick | CtxDone | ReadError | ChannelClosed

  /** Batches handed to the publisher so far, lines waiting, and the dropped-lines counter. */
  datatype Buffer = Buffer(batches: seq<seq<string>>, pending: seq<string>, dropped: nat)

  const Empty := Buffer([], [], 0)

  // ----- Reference definitions over the received lines ------------------------------------------

  /** Cuts a sequence into batches of 100, the last one possibly shorter. */
  function Chunks(s: seq<string>): seq<seq<string>>
    decreases |s|
  {
    if s == [] then [] else if |s| <= BatchSize then [s] else [s[..BatchSize]] + Chunks(s[BatchSize..])
  }

  function LastOf(s: seq<string>, n: nat): seq<string> {
    if |s| <= n then s else s[|s| - n..]
  }

  /** Lines received since the last forced flush. */
  function Open(sels: seq<Select>): seq<string> {
    if sels == [] then []
    else match sels[|sels| - 1]
      case Line(text) => Open(sels[..|sels| - 1]) + [text]
      case _ => []
  }

  function Received(sels: seq<Select>): seq<string> {
    if sels == [] then []
    else match sels[|sels| - 1]
      case Line(text) => Received(sels[..|sels| - 1]) + [text]
      case _ => Received(sels[..|sels| - 1])
  }

  /** What is left of one segment between forced flushes: everything, or the last `backlog` lines. */
  function Kept(backlog: nat, segment: seq<string>): seq<string> {
    if backlog >= BatchSize then segment else LastOf(segment, backlog)
  }

  /** The received lines in order, minus the front of every segment that outgrew the backlog. */
  function Survivors(backlog: nat, sels: seq<Select>): seq<string> {
    FlushedSurvivors(backlog, sels) + Kept(backlog, Open(sels))
  }

  function FlushedSurvivors(backlog: nat, sels: seq<Select>): seq<string> {
    if sels == [] then []
    else
      var init := sels[..|sels| - 1];
      FlushedSurvivors(backlog, init) + if sels[|sels| - 1].Line? then [] else Kept(backlog, Open(init))
  }

  // ----- The loop body --------------------------------------------------------------------------

  function FlushAll(b: Buffer): Buffer {
    b.(batches := b.batches + Chunks(b.pending), pending := [])
  }

  function Evict(b: Buffer, backlog: nat): Buffer {
    b.(pending := LastOf(b.pending, backlog), dropped := b.dropped + |b.pending| - |LastOf(b.pending, backlog)|)
  }

  function FlushFull(b: Buffer): Buffer
    decreases |b.pending|
  {
    if |b.pending| < BatchSize then b
    else FlushFull(b.(batches := b.batches + [b.pending[..BatchSize]], pending := b.pending[BatchSize..]))
  }

  function Turn(backlog: nat, b: Buffer, sel: Select): Buffer {
    match sel
    case Line(text) => FlushFull(Evict(b.(pending := b.pending + [text]), backlog))
    case _ => FlushAll(b)
  }

  function Pumped(backlog: nat, sels: seq<Select>): Buffer {
    if sels == [] then Empty else Turn(backlog, Pumped(backlog, sels[..|sels| - 1]), sels[|sels| - 1])
  }

  class Pump {
    const backlog: nat
    var pending: seq<string>
    var batches: seq<seq<string>>
    var dropped: nat

    ghost function View(): Buffer
      reads this
    {
      Buffer(batches, pending, dropped)
    }

    constructor (backlogMax: int)
      ensures backlog == (if backlogMax < 1 then 1000 else backlogMax) && View() == Empty
    {
      backlog := if backlogMax < 1 then 1000 else backlogMax;
      pending, batches, dropped := [], [], 0;
    }

    method Flush(force: bool)
      modifies this
      ensures View() == if force then FlushAll(old(View())) else FlushFull(old(View()))
    {
      while |pending| >= BatchSize || (force && |pending| > 0)
        invariant dropped == old(dropped)
        invariant force ==> batches + Chunks(pending) == old(batches) + Chunks(old(pending))
        invariant !force ==> FlushFull(View()) == FlushFull(old(View()))
        decreases |pending|
      {
        var n := if |pending| < BatchSize then |pending| else BatchSize;
        ghost var before := batches;
        ghost var rest := pending;
        assert rest == rest[..n] + rest[n..];
        batches := batches + [pending[..n]];
        pending := pending[n..];
        assert n == |rest| ==> rest[..n] == rest;
        assert Chunks(rest) == [rest[..n]] + Chunks(pending);
        assert before + Chunks(rest) == batches + Chunks(pending);
        if !force && |pending| < BatchSize {
          return;
        }
      }
      assert force ==> pending == [];
    }

    method AppendLine(text: string)
      modifies this
      ensures View() == Turn(backlog, old(View()), Line(text))
    {
      pending := pending + [text];
      ghost var all := pending;
      while |pending| > backlog
        invariant LastOf(pending, backlog) == LastOf(all, backlog)
        invariant dropped == old(dropped) + |all| - |pending|
        invariant batches == old(batches)
        decreases |pending|
      {
        pending := pending[1..];
        dropped := dropped + 1;
      }
      assert View() == Evict(old(View()).(pending := all), backlog);
      if |pending| >= BatchSize {
        Flush(false);
      }
    }

    /** The select loop; CtxDone, ReadError and ChannelClosed leave it after a last flush. */
    method Run(sels: seq<Select>) returns (turns: nat)
      requires View() == Empty
      modifies this
      ensures turns <= |sels| && View() == Pumped(backlog, sels[..turns])
      ensures turns < |sels| ==> turns > 0 && Leaves(sels[turns - 1])
      ensures forall i :: 0 <= i < turns - 1 ==> !Leaves(sels[i])
    {
      turns := 0;
      while turns < |sels|
        invariant turns <= |sels| && View() == Pumped(backlog, sels[..turns])
        invariant forall i :: 0 <= i < turns ==> !Leaves(sels[i])
      {
        var sel := sels[turns];
        assert sels[..turns + 1][..turns] == sels[..turns];
        turns := turns + 1;
        if sel.Line? {
          AppendLine(sel.text);
        } else {
          Flush(true);
          if Leaves(sel) {
            return;
          }
        }
      }
    }
  }

  predicate Leaves(sel: Select) {
    !sel.Line? && !sel.Tick?
  }

  // ----- Conservation ---------------------------------------------------------------------------

  predicate WellSized(batches: seq<seq<string>>) {
    forall i :: 0 <= i < |batches| ==> 1 <= |batches[i]| <= BatchSize
  }

  lemma {:induction false} ChunksFlatten(s: seq<string>)
    ensures Flatten(Chunks(s)) == s && WellSized(Chunks(s))
    decreases |s|
  {
    if 0 < |s| <= BatchSize {
      FlattenSnoc([], s);
      assert [] + [s] == [s];
    } else if |s| > BatchSize {
      ChunksFlatten(s[BatchSize..]);
      FlattenConcat([s[..BatchSize]], Chunks(s[BatchSize..]));
      FlattenSnoc([], s[..BatchSize]);
      assert [] + [s[..BatchSize]] == [s[..BatchSize]];
      assert s == s[..BatchSize] + s[BatchSize..];
    }
  }

  /** The pump between two turns. */
  ghost predicate Conserves(backlog: nat, sels: seq<Select>, b: Buffer) {
    && Flatten(b.batches) + b.pending == Survivors(backlog, sels)
    && (backlog < BatchSize ==> b.pending == Kept(backlog, Open(sels)))
    && WellSized(b.batches)
    && |b.pending| <= (if backlog < BatchSize then backlog else BatchSize - 1)
    && b.dropped + |Survivors(backlog, sels)| == |Received(sels)|
  }

  /** One more line in the open segment. */
  lemma LineReceived(backlog: nat, init: seq<Select>, text: string)
    ensures var sels := init + [Line(text)];
            && Open(sels) == Open(init) + [text] && Received(sels) == Received(init) + [text]
            && FlushedSurvivors(backlog, sels) == FlushedSurvivors(backlog, init)
  {
    assert (init + [Line(text)])[..|init|] == init;
  }

  lemma WideLineTurn(backlog: nat, init: seq<Select>, text: string, b: Buffer)
    requires backlog >= BatchSize && Conserves(backlog, init, b)
    ensures Conserves(backlog, init + [Line(text)], Turn(backlog, b, Line(text)))
  {
    LineReceived(backlog, init, text);
    hide Open, Received, FlushedSurvivors, Flatten;
    var sels := init + [Line(text)];
    var grown := b.(pending := b.pending + [text]);
    assert Evict(grown, backlog) == grown;
    assert Flatten(b.batches) + grown.pending == (Flatten(b.batches) + b.pending) + [text];
    assert Survivors(backlog, sels) == Survivors(backlog, init) + [text];
    if |grown.pending| == BatchSize {
      var batch := grown.pending[..BatchSize];
      assert batch == grown.pending && grown.pending[BatchSize..] == [];
      FlattenSnoc(b.batches, batch);
      var full := grown.(batches := b.batches + [batch], pending := []);
      assert FlushFull(full) == full;
      assert Flatten(full.batches) + [] == Survivors(backlog, sels);
    }
  }

  lemma NarrowLineTurn(backlog: nat, init: seq<Select>, text: string, b: Buffer)
    requires 0 < backlog < BatchSize && Conserves(backlog, init, b)
    ensures Conserves(backlog, init + [Line(text)], Turn(backlog, b, Line(text)))
  {
    LineReceived(backlog, init, text);
    hide Open, Received, FlushedSurvivors, Flatten;
    var sels := init + [Line(text)];
    var grown := b.(pending := b.pending + [text]);
    var kept := LastOf(grown.pending, backlog);
    assert kept == Kept(backlog, Open(sels));
    assert Evict(grown, backlog).pending == kept;
    assert Flatten(b.batches) == FlushedSurvivors(backlog, init) by {
      assert Flatten(b.batches) == (Flatten(b.batches) + b.pending)[..|Flatten(b.batches)|];
      assert FlushedSurvivors(backlog, init) == Survivors(backlog, init)[..|FlushedSurvivors(backlog, init)|];
    }
  }

  lemma SegmentClosed(backlog: nat, init: seq<Select>, sel: Select)
    requires !sel.Line?
    ensures var sels := init + [sel];
            Open(sels) == [] && Received(sels) == Received(init) && Survivors(backlog, sels) == Survivors(backlog, init)
  {
    assert (init + [sel])[..|init|] == init;
  }

  lemma FlushTurn(backlog: nat, init: seq<Select>, sel: Select, b: Buffer)
    requires backlog > 0 && Conserves(backlog, init, b) && !sel.Line?
    ensures Conserves(backlog, init + [sel], Turn(backlog, b, sel))
    ensures Turn(backlog, b, sel).pending == []
  {
    hide Open, Received, Survivors, Flatten, Chunks, FlushFull;
    var chunks, t := Chunks(b.pending), Turn(backlog, b, sel);
    SegmentClosed(backlog, init, sel);
    ChunksFlatten(b.pending);
    FlattenConcat(b.batches, chunks);
    assert t.batches == b.batches + chunks && t.pending == [] && t.dropped == b.dropped;
    assert Flatten(t.batches) + [] == Survivors(backlog, init);
  }

  /** For every sequence of select outcomes. */
  lemma {:induction false} LinesConserved(backlog: nat, sels: seq<Select>)
    requires backlog > 0
    ensures Conserves(backlog, sels, Pumped(backlog, sels))
  {
    if sels != [] {
      var init, sel := sels[..|sels| - 1], sels[|sels| - 1];
      LinesConserved(backlog, init);
      assert sels == init + [sel];
      if sel.Line? {
        if backlog >= BatchSize {
          WideLineTurn(backlog, init, sel.text, Pumped(backlog, init));
        } else {
          NarrowLineTurn(backlog, init, sel.text, Pumped(backlog, init));
        }
      } else {
        FlushTurn(backlog, init, sel, Pumped(backlog, init));
      }
    }
  }

  /** A backlog of at least one batch never evicts: the counter stays zero and no line is missing. */
  lemma {:induction false} NoEviction(backlog: nat, sels: seq<Select>)
    requires backlog >= BatchSize
    ensures Survivors(backlog, sels) == Received(sels) && Pumped(backlog, sels).dropped == 0
  {
    LinesConserved(backlog, sels);
    if sels != [] {
      var init := sels[..|sels| - 1];
      NoEviction(backlog, init);
      assert FlushedSurvivors(backlog, init) + Open(init) == Received(init);
    }
  }

  // ----- Reader goroutine and channel -----------------------------------------------------------

  datatype Stream = Stream(rest: seq<string>, chan: seq<string>, closed: bool, failed: bool, quit: bool,
                           cancelled: bool, sels: seq<Select>)

  datatype Event =
    | ReadLine         // the reader sends the next line; it waits while the channel is full
    | ReadEof          // the stream ends; the reader closes the channel
    | ReadFail         // the stream fails; the reader reports and closes the channel
    | ReaderQuits      // the reader sees the cancelled context while it waits to send
    | Cancel
    | Loop(sel: Select)

  function Opened(lines: seq<string>): Stream {
    Stream(lines, [], false, false, false, false, [])
  }

  predicate Ended(s: Stream) {
    s.sels != [] && Leaves(s.sels[|s.sels| - 1])
  }

  predicate Enabled(s: Stream, sel: Select) {
    !Ended(s) && match sel
    case Line(text) => s.chan != [] && s.chan[0] == text
    case Tick => true
    case CtxDone => s.cancelled
    case ReadError => s.failed
    case ChannelClosed => s.closed && s.chan == []
  }

  function Apply(backlog: nat, s: Stream, e: Event): Stream {
    match e
    case ReadLine =>
      if !s.closed && s.rest != [] && |s.chan| < backlog
      then s.(rest := s.rest[1..], chan := s.chan + [s.rest[0]]) else s
    case ReadEof => if !s.closed && s.rest == [] then s.(closed := true) else s
    case ReadFail => if !s.closed then s.(closed := true, failed := true) else s
    case ReaderQuits => if !s.closed && s.cancelled && s.rest != [] then s.(closed := true, quit := true) else s
    case Cancel => s.(cancelled := true)
    case Loop(sel) =>
      if !Enabled(s, sel) then s
      else s.(sels := s.sels + [sel], chan := if sel.Line? then s.chan[1..] else s.chan)
  }

  function Exec(backlog: nat, lines: seq<string>, events: seq<Event>): Stream {
    if events == [] then Opened(lines)
    else Apply(backlog, Exec(backlog, lines, events[..|events| - 1]), events[|events| - 1])
  }

  ghost predicate StreamInv(lines: seq<string>, s: Stream) {
    && Received(s.sels) + s.chan + s.rest == lines
    && (s.closed && !s.failed && !s.quit ==> s.rest == [])
    && (s.quit ==> s.cancelled)
    && (Ended(s) && s.sels[|s.sels| - 1].ChannelClosed? ==> s.closed && s.chan == [])
  }

  lemma LoopKeeps(lines: seq<string>, backlog: nat, s: Stream, sel: Select)
    requires StreamInv(lines, s)
    ensures StreamInv(lines, Apply(backlog, s, Loop(sel)))
  {
    if Enabled(s, sel) {
      var sels := s.sels + [sel];
      assert sels[..|s.sels|] == s.sels;
      if sel.Line? {
        assert s.chan == [sel.text] + s.chan[1..];
        assert Received(sels) + s.chan[1..] + s.rest == Received(s.sels) + s.chan + s.rest;
      }
    }
  }

  lemma {:induction false} StreamConserves(backlog: nat, lines: seq<string>, events: seq<Event>)
    ensures StreamInv(lines, Exec(backlog, lines, events))
  {
    if events != [] {
      var s, e := Exec(backlog, lines, events[..|events| - 1]), events[|events| - 1];
      StreamConserves(backlog, lines, events[..|events| - 1]);
      match e
      case Loop(sel) => LoopKeeps(lines, backlog, s, sel);
      case ReadLine =>
        if s.rest != [] {
          assert s.rest == [s.rest[0]] + s.rest[1..];
          assert Received(s.sels) + (s.chan + [s.rest[0]]) + s.rest[1..] == Received(s.sels) + s.chan + s.rest;
        }
      case _ =>
    }
  }

  /**
   When the loop leaves because the stream ended cleanly, every line has been received and none is pending:
   the batches are exactly the surviving lines, and all lines when the backlog holds a whole batch.
   */
  lemma CleanEofHandsOverEverything(backlog: nat, lines: seq<string>, events: seq<Event>)
    requires backlog > 0
    requires var s := Exec(backlog, lines, events);
             Ended(s) && s.sels[|s.sels| - 1].ChannelClosed? && !s.failed && !s.cancelled
    ensures var s := Exec(backlog, lines, events);
            && Received(s.sels) == lines
            && Pumped(backlog, s.sels).pending == []
            && Flatten(Pumped(backlog, s.sels).batches) == Survivors(backlog, s.sels)
            && (backlog >= BatchSize ==> Flatten(Pumped(backlog, s.sels).batches) == lines)
  {
    var s := Exec(backlog, lines, events);
    StreamConserves(backlog, lines, events);
    LinesConserved(backlog, s.sels);
    var init := s.sels[..|s.sels| - 1];
    LinesConserved(backlog, init);
    FlushTurn(backlog, init, s.sels[|s.sels| - 1], Pumped(backlog, init));
    if backlog >= BatchSize {
      NoEviction(backlog, s.sels);
    }
  }

  // ----- One turn, said in lines ----------------------------------------------------------------

  /** What a turn adds to the batches. */
  function Fresh(before: Buffer, after: Buffer): seq<seq<string>> {
    if |before.batches| <= |after.batches| then after.batches[|before.batches|..] else []
  }

  lemma {:induction false} ChunksFull(s: seq<string>)
    ensures forall i :: 0 <= i < |Chunks(s)| - 1 ==> |Chunks(s)[i]| == 100
    decreases |s|
  {
    if |s| > BatchSize {
      ChunksFull(s[BatchSize..]);
    }
  }

  /**
   After every history. A line is kept as the newest; lines beyond the backlog go from the front; the hundredth line
   makes one batch of all of them and nothing less does. Every other turn hands over all that is pending, in batches of
   a hundred with the remainder last.
   */
  lemma TurnExact(backlog: nat, sels: seq<Select>, sel: Select)
    requires backlog > 0
    ensures var b, t := Pumped(backlog, sels), Pumped(backlog, sels + [sel]);
            && b.batches <= t.batches
            && if sel.Line? then
                 var all := b.pending + [sel.text];
                 var kept := if |all| > backlog then all[1..] else all;
                 && t.dropped == b.dropped + (if |all| > backlog then 1 else 0)
                 && if |kept| == 100 then t.pending == [] && Fresh(b, t) == [kept]
                    else t.pending == kept && Fresh(b, t) == []
               else
                 && t.pending == [] && t.dropped == b.dropped && Flatten(Fresh(b, t)) == b.pending
                 && WellSized(Fresh(b, t))
                 && forall i :: 0 <= i < |Fresh(b, t)| - 1 ==> |Fresh(b, t)[i]| == 100
  {
    assert (sels + [sel])[..|sels|] == sels;
    LinesConserved(backlog, sels);
    var b := Pumped(backlog, sels);
    if sel.Line? {
      LineTurn(backlog, b, sel.text);
    } else {
      ChunksFlatten(b.pending);
      ChunksFull(b.pending);
      assert (b.batches + Chunks(b.pending))[|b.batches|..] == Chunks(b.pending);
    }
    hide Pumped, Flatten, Survivors, Chunks;
  }

  lemma LineTurn(backlog: nat, b: Buffer, text: string)
    requires backlog > 0 && |b.pending| <= backlog && |b.pending| < 100
    ensures var t, all := Turn(backlog, b, Line(text)), b.pending + [text];
            var kept := if |all| > backlog then all[1..] else all;
            && t.dropped == b.dropped + (if |all| > backlog then 1 else 0)
            && if |kept| == 100 then t.pending == [] && t.batches == b.batches + [kept]
               else t.pending == kept && t.batches == b.batches
  {
    var all := b.pending + [text];
    var kept := if |all| > backlog then all[1..] else all;
    var e := Evict(b.(pending := all), backlog);
    assert LastOf(all, backlog) == kept && e.pending == kept;
    if |kept| == 100 {
      assert kept[..BatchSize] == kept && kept[BatchSize..] == [];
      var full := e.(batches := e.batches + [kept], pending := []);
      assert FlushFull(full) == full;
    }
  }
}
