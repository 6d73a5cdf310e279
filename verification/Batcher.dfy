/**
 The size-and-timeout batcher. Its buffer is a reused backing array; each batch is copied out of it and handed
 to a flush goroutine counted by a wait group. A stopped timer whose callback is already waiting for the
 lock still runs that callback.
 */
module Batcher {
  import opened Foundation

  /** Armed: will fire. Fired: the callback waits for the lock. Over: stopped in time, or the callback has run. */
  datatype Phase = Armed | Fired | Over

  /** `inflight` is the wait group's counter; `finished` are the batches whose flush call has returned. */
  datatype State<T> = State(buf: seq<T>, timer: Option<nat>, timers: seq<Phase>, closed: bool,
                            accepted: seq<T>, batches: seq<seq<T>>, inflight: int, finished: set<nat>)

  datatype Event<T> = Add(item: T) | Flush | Close | Fire(t: nat) | Callback(t: nat) | FlushReturns(batch: nat)

  function Init<T>(): State<T> {
    State([], None, [], false, [], [], 0, {})
  }

  function Stopped(timers: seq<Phase>, timer: Option<nat>): seq<Phase> {
    if timer.Some? && timer.value < |timers| && timers[timer.value].Armed? then timers[timer.value := Over] else timers
  }

  function WithTimer<T>(s: State<T>): State<T> {
    var timers := Stopped(s.timers, s.timer);
    s.(timers := timers + [Armed], timer := Some(|timers|))
  }

  function Flushed<T>(s: State<T>): State<T> {
    if s.buf == [] then s
    else s.(batches := s.batches + [s.buf], buf := [], timers := Stopped(s.timers, s.timer), timer := None,
            inflight := s.inflight + 1)
  }

  function Added<T>(maxSize: nat, timed: bool, s: State<T>, item: T): State<T> {
    if s.closed then s
    else
      var t := s.(buf := s.buf + [item], accepted := s.accepted + [item]);
      var u := if |t.buf| == 1 && timed then WithTimer(t) else t;
      if |u.buf| >= maxSize then Flushed(u) else u
  }

  function Apply<T>(maxSize: nat, timed: bool, s: State<T>, e: Event<T>): State<T> {
    match e
    case Add(item) => Added(maxSize, timed, s, item)
    case Flush => Flushed(s)
    case Close => Flushed(s.(closed := true, timers := Stopped(s.timers, s.timer), timer := None))
    case Fire(t) => if t < |s.timers| && s.timers[t].Armed? then s.(timers := s.timers[t := Fired]) else s
    case Callback(t) =>
      if t < |s.timers| && s.timers[t].Fired? then
        var u := s.(timers := s.timers[t := Over]);
        if u.closed then u else Flushed(u)
      else s
    case FlushReturns(k) =>
      if k < |s.batches| && k !in s.finished then s.(inflight := s.inflight - 1, finished := s.finished + {k}) else s
  }

  function Exec<T>(maxSize: nat, timed: bool, events: seq<Event<T>>): State<T> {
    if events == [] then Init()
    else Apply(maxSize, timed, Exec(maxSize, timed, events[..|events| - 1]), events[|events| - 1])
  }

  // ----- The batcher itself ---------------------------------------------------------------------

  function Contents<T>(arrays: seq<array<T>>): seq<seq<T>>
    reads arrays
  {
    if arrays == [] then [] else Contents(arrays[..|arrays| - 1]) + [arrays[|arrays| - 1][..]]
  }

  lemma ContentsSnoc<T>(arrays: seq<array<T>>, a: array<T>)
    ensures Contents(arrays + [a]) == Contents(arrays) + [a[..]]
  {
    assert (arrays + [a])[..|arrays|] == arrays;
  }

  class Batcher<T(0)> {
    const maxSize: nat
    const timed: bool
    var backing: array<T>
    var len: nat
    var timer: Option<nat>
    var timers: seq<Phase>
    var closed: bool
    var accepted: seq<T>
    var handed: seq<array<T>>
    var inflight: int
    var finished: set<nat>

    /** The capacity is never exceeded, and no batch handed to a flush call shares the buffer's array. */
    ghost predicate Sound()
      reads this
    {
      && 1 <= maxSize == backing.Length && len <= maxSize
      && backing !in handed
    }

    /** Between calls there is room for one more item, so appending never reallocates. */
    ghost predicate Valid()
      reads this
    {
      Sound() && len < maxSize
    }

    ghost function View(): State<T>
      requires Sound()
      reads this, backing, handed
    {
      State(backing[..len], timer, timers, closed, accepted, Contents(handed), inflight, finished)
    }

    constructor (max: int, timed: bool)
      ensures Valid() && View() == Init() && fresh(backing) && this.timed == timed
      ensures maxSize == if max < 1 then 1 else max
    {
      var size := if max < 1 then 1 else max;
      maxSize, this.timed := size, timed;
      backing := new T[size];
      len, timer, timers, closed := 0, None, [], false;
      accepted, handed, inflight, finished := [], [], 0, {};
    }

    method StopTimer()
      modifies this`timers
      ensures timers == Stopped(old(timers), timer)
    {
      if timer.Some? && timer.value < |timers| && timers[timer.value].Armed? {
        timers := timers[timer.value := Over];
      }
    }

    method ResetTimerLocked()
      requires Sound()
      modifies this`timers, this`timer
      ensures Sound() && View() == WithTimer(old(View()))
    {
      StopTimer();
      timers := timers + [Armed];
      timer := Some(|timers| - 1);
    }

    method FlushLocked()
      requires Sound()
      modifies this`handed, this`len, this`timers, this`timer, this`inflight
      ensures Valid() && View() == Flushed(old(View()))
      ensures forall a :: a in handed && a !in old(handed) ==> fresh(a)
      ensures forall a :: a in old(handed) ==> a in handed
    {
      hide Contents;
      if len == 0 {
        return;
      }
      var items := new T[len](i requires 0 <= i < len <= backing.Length reads this, backing => backing[i]);
      assert items[..] == backing[..len];
      ContentsSnoc(handed, items);
      handed := handed + [items];
      len := 0;
      StopTimer();
      timer := None;
      inflight := inflight + 1;
    }

    method Add(item: T) returns (ok: bool)
      requires Valid()
      modifies this, backing
      ensures Valid() && backing == old(backing)
      ensures View() == Apply(maxSize, timed, old(View()), Event.Add(item)) && ok == !old(closed)
      ensures forall a :: a in handed && a !in old(handed) ==> fresh(a)
    {
      if closed {
        return false;
      }
      backing[len] := item;
      len := len + 1;
      accepted := accepted + [item];
      assert backing[..len] == old(backing[..len]) + [item];
      if len == 1 && timed {
        ResetTimerLocked();
      }
      if len >= maxSize {
        FlushLocked();
      }
      return true;
    }

    method Flush()
      requires Valid()
      modifies this
      ensures Valid() && backing == old(backing) && View() == Apply(maxSize, timed, old(View()), Event.Flush)
    {
      FlushLocked();
    }

    /** The part of Close under the lock; it then waits until `inflight` is zero. */
    method Close()
      requires Valid()
      modifies this
      ensures Valid() && backing == old(backing) && View() == Apply(maxSize, timed, old(View()), Event.Close)
    {
      closed := true;
      if timer.Some? {
        StopTimer();
        timer := None;
      }
      FlushLocked();
    }

    method TimerCallback(t: nat)
      requires Valid() && t < |timers| && timers[t].Fired?
      modifies this
      ensures Valid() && backing == old(backing) && View() == Apply(maxSize, timed, old(View()), Event.Callback(t))
    {
      timers := timers[t := Over];
      if closed || len == 0 {
        return;
      }
      FlushLocked();
    }
  }

  // ----- What every interleaving keeps ----------------------------------------------------------

  ghost predicate Inv<T>(maxSize: nat, timed: bool, s: State<T>) {
    && Flatten(s.batches) + s.buf == s.accepted
    && (forall i :: 0 <= i < |s.batches| ==> 1 <= |s.batches[i]| <= maxSize)
    && |s.buf| < maxSize
    && (s.closed ==> s.buf == [])
    && (!s.closed && timed && s.buf != [] ==>
          s.timer.Some? && s.timer.value < |s.timers| && !s.timers[s.timer.value].Over?)
    && (forall k :: k in s.finished ==> k < |s.batches|)
    && s.inflight == |s.batches| - |s.finished|
  }

  lemma FlushKeeps<T>(maxSize: nat, timed: bool, s: State<T>)
    requires maxSize >= 1 && Inv(maxSize + 1, timed, s)
    requires forall i :: 0 <= i < |s.batches| ==> |s.batches[i]| <= maxSize
    ensures Inv(maxSize, timed, Flushed(s))
  {
    hide Flatten;
    FlattenSnoc(s.batches, s.buf);
    assert Flatten(s.batches + [s.buf]) + [] == s.accepted;
  }

  lemma AddKeeps<T>(maxSize: nat, timed: bool, s: State<T>, item: T)
    requires maxSize >= 1 && Inv(maxSize, timed, s)
    ensures Inv(maxSize, timed, Added(maxSize, timed, s, item))
  {
    if !s.closed {
      var t := s.(buf := s.buf + [item], accepted := s.accepted + [item]);
      var u := if |t.buf| == 1 && timed then WithTimer(t) else t;
      assert Flatten(s.batches) + (s.buf + [item]) == (Flatten(s.batches) + s.buf) + [item];
      assert Inv(maxSize + 1, timed, u);
      if |u.buf| >= maxSize {
        FlushKeeps(maxSize, timed, u);
      }
    }
  }

  lemma CloseKeeps<T>(maxSize: nat, timed: bool, s: State<T>)
    requires maxSize >= 1 && Inv(maxSize, timed, s)
    ensures Inv(maxSize, timed, Apply(maxSize, timed, s, Close))
  {
    hide Flatten;
    FlattenSnoc(s.batches, s.buf);
    assert Flatten(s.batches + [s.buf]) + [] == s.accepted;
  }

  lemma CallbackKeeps<T>(maxSize: nat, timed: bool, s: State<T>, t: nat)
    requires maxSize >= 1 && Inv(maxSize, timed, s)
    ensures Inv(maxSize, timed, Apply(maxSize, timed, s, Callback(t)))
  {
    hide Flatten;
    FlattenSnoc(s.batches, s.buf);
    assert Flatten(s.batches + [s.buf]) + [] == s.accepted;
  }

  lemma InvStep<T>(maxSize: nat, timed: bool, s: State<T>, e: Event<T>)
    requires maxSize >= 1 && Inv(maxSize, timed, s)
    ensures Inv(maxSize, timed, Apply(maxSize, timed, s, e))
  {
    hide Flatten;
    match e
    case Add(item) => AddKeeps(maxSize, timed, s, item);
    case Flush => FlushKeeps(maxSize, timed, s);
    case Close => CloseKeeps(maxSize, timed, s);
    case Callback(t) => CallbackKeeps(maxSize, timed, s, t);
    case _ =>
  }

  /** Conservation, batch sizes and the pending timer, over every interleaving of calls, timers and flush calls. */
  lemma {:induction false} BatcherSound<T>(maxSize: nat, timed: bool, events: seq<Event<T>>)
    requires maxSize >= 1
    ensures Inv(maxSize, timed, Exec(maxSize, timed, events))
  {
    if events != [] {
      BatcherSound(maxSize, timed, events[..|events| - 1]);
      InvStep(maxSize, timed, Exec(maxSize, timed, events[..|events| - 1]), events[|events| - 1]);
    }
  }

  /** A non-empty open buffer is flushed when its timer goes off: its items become the last batch. */
  lemma {:induction false} TimeoutFlushes<T>(maxSize: nat, events: seq<Event<T>>)
    requires maxSize >= 1
    ensures var s := Exec(maxSize, true, events);
            !s.closed && s.buf != [] ==>
              && s.timer.Some?
              && var u := Apply(maxSize, true, Apply(maxSize, true, s, Fire(s.timer.value)), Callback(s.timer.value));
                 u.buf == [] && u.batches == s.batches + [s.buf]
  {
    BatcherSound(maxSize, true, events);
  }

  lemma {:induction false} FullSet(n: nat, s: set<nat>)
    requires |s| == n && forall k :: k in s ==> k < n
    ensures forall k: nat :: k < n ==> k in s
  {
    if n > 0 {
      if n - 1 in s {
        var rest := s - {n - 1};
        FullSet(n - 1, rest);
        forall k: nat | k < n ensures k in s {
          assert k == n - 1 || k in rest;
        }
      } else {
        Bounded(n - 1, s);
      }
    }
  }

  lemma {:induction false} Bounded(n: nat, s: set<nat>)
    requires forall k :: k in s ==> k < n
    ensures |s| <= n
  {
    if n > 0 {
      Bounded(n - 1, s - {n - 1});
    } else {
      assert s == {};
    }
  }

  /**
   Close returns once its locked part is done and the wait group is at zero. From then on, whatever still
   happens, every accepted item is in a batch whose flush call has finished.
   */
  lemma ClosedMeansFlushed<T>(maxSize: nat, timed: bool, events: seq<Event<T>>)
    requires maxSize >= 1
    requires var s := Exec(maxSize, timed, events); s.closed && s.inflight == 0
    ensures var s := Exec(maxSize, timed, events);
            && Flatten(s.batches) == s.accepted
            && (forall k: nat :: k < |s.batches| ==> k in s.finished)
    ensures forall e :: var s := Exec(maxSize, timed, events);
                        var t := Apply(maxSize, timed, s, e);
                        t.closed && t.inflight == 0 && t.accepted == s.accepted && t.batches == s.batches
  {
    BatcherSound(maxSize, timed, events);
    var s := Exec(maxSize, timed, events);
    FullSet(|s.batches|, s.finished);
  }

  // ----- The events alone -----------------------------------------------------------------------

  /** The items of the Add calls that come before the first Close. */
  function Offered<T(==)>(events: seq<Event<T>>): seq<T> {
    if events == [] then []
    else
      var init, e := events[..|events| - 1], events[|events| - 1];
      Offered(init) + if e.Add? && Close !in init then [e.item] else []
  }

  /** Exactly these are accepted, and the batcher is closed iff Close has been called. */
  lemma {:induction false} AcceptedExactly<T>(maxSize: nat, timed: bool, events: seq<Event<T>>)
    ensures Exec(maxSize, timed, events).accepted == Offered(events)
    ensures Exec(maxSize, timed, events).closed <==> Close in events
  {
    if events != [] {
      var init, e := events[..|events| - 1], events[|events| - 1];
      AcceptedExactly(maxSize, timed, init);
      assert events == init + [e];
    }
  }

  lemma AddBoundary<T>(maxSize: nat, timed: bool, s: State<T>, item: T)
    requires maxSize >= 1 && (s.closed ==> s.buf == [])
    ensures var t := Apply(maxSize, timed, s, Add(item));
            if s.closed then t.buf == s.buf == [] && t.batches == s.batches
            else if |s.buf| + 1 < maxSize then t.buf == s.buf + [item] && t.batches == s.batches
            else t.buf == [] && t.batches == s.batches + [s.buf + [item]]
  {
  }

  /** After every history: when an Add makes a batch, and which one. */
  lemma AddBatches<T>(maxSize: nat, timed: bool, events: seq<Event<T>>, item: T)
    requires maxSize >= 1
    ensures var s := Exec(maxSize, timed, events);
            var t := Exec(maxSize, timed, events + [Add(item)]);
            if Close in events then t.buf == s.buf == [] && t.batches == s.batches
            else if |s.buf| + 1 < maxSize then t.buf == s.buf + [item] && t.batches == s.batches
            else t.buf == [] && t.batches == s.batches + [s.buf + [item]]
  {
    BatcherSound(maxSize, timed, events);
    AcceptedExactly(maxSize, timed, events);
    assert (events + [Add(item)])[..|events|] == events;
    AddBoundary(maxSize, timed, Exec(maxSize, timed, events), item);
    hide Flatten, Apply;
  }

  /** Flush and Close hand over whatever there is, and nothing if there is nothing. */
  lemma FlushBatches<T>(maxSize: nat, timed: bool, events: seq<Event<T>>, e: Event<T>)
    requires e == Flush || e == Close
    ensures var s := Exec(maxSize, timed, events);
            var t := Exec(maxSize, timed, events + [e]);
            t.buf == [] && t.batches == s.batches + if s.buf == [] then [] else [s.buf]
  {
    assert (events + [e])[..|events|] == events;
    var s := Exec(maxSize, timed, events);
    hide Exec;
    assert s.batches + [] == s.batches;
  }

  ghost predicate TimerInv<T>(timed: bool, s: State<T>) {
    && (!timed ==> s.timers == [])
    && forall t :: 0 <= t < |s.timers| && s.timers[t].Armed? ==> s.timer == Some(t) && s.buf != [] && !s.closed
  }

  lemma TimerStops<T>(timed: bool, s: State<T>)
    requires TimerInv(timed, s)
    ensures var timers := Stopped(s.timers, s.timer);
            |timers| == |s.timers| && forall t :: 0 <= t < |timers| ==> !timers[t].Armed?
  {
  }

  lemma TimerAdd<T>(maxSize: nat, timed: bool, s: State<T>, item: T)
    requires maxSize >= 1 && TimerInv(timed, s) && (s.closed ==> s.buf == [])
    ensures TimerInv(timed, Apply(maxSize, timed, s, Add(item)))
  {
    if !s.closed {
      TimerStops(timed, s);
      var t := s.(buf := s.buf + [item], accepted := s.accepted + [item]);
      var u := if |t.buf| == 1 && timed then WithTimer(t) else t;
      assert TimerInv(timed, u);
      TimerStops(timed, u);
    }
  }

  lemma TimerStep<T>(maxSize: nat, timed: bool, s: State<T>, e: Event<T>)
    requires maxSize >= 1 && TimerInv(timed, s) && (s.closed ==> s.buf == [])
    ensures TimerInv(timed, Apply(maxSize, timed, s, e))
  {
    if e.Add? {
      TimerAdd(maxSize, timed, s, e.item);
    } else {
      TimerStops(timed, s);
    }
  }

  /** Only the current timer can still go off, and only while there are items for it to flush. */
  lemma {:induction false} OneTimerArmed<T>(maxSize: nat, timed: bool, events: seq<Event<T>>)
    requires maxSize >= 1
    ensures TimerInv(timed, Exec(maxSize, timed, events))
  {
    if events != [] {
      var s := Exec(maxSize, timed, events[..|events| - 1]);
      OneTimerArmed(maxSize, timed, events[..|events| - 1]);
      BatcherSound(maxSize, timed, events[..|events| - 1]);
      assert s.closed ==> s.buf == [];
      hide Inv, Apply;
      TimerStep(maxSize, timed, s, events[|events| - 1]);
    }
  }
}
