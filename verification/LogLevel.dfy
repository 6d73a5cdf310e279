/**
 De-duplication of set-level requests: a cache of recent levels, checked and confirmed by request threads inside the
 keyed lock, and overwritten at any time, outside of it, by cache updates from the core. The clock never goes back.
 */
module LogLevel {
  import opened Foundation
  import KeyedLock

  datatype CacheEntry = CacheEntry(level: string, expiresAt: int)

  /** A request thread inside `Do`: before the check, between check and confirmation, or ready to leave. */
  datatype Stage = ToCheck | ToConfirm | Done
  datatype Job = Job(level: string, stage: Stage)

  /** Accepted and Skipped: the two answers to a request. Accepted, Confirmed and Pushed write to the cache. */
  datatype Kind = Accepted | Skipped | Confirmed | Pushed
  datatype Record = Record(kind: Kind, thread: nat, key: string, level: string, at: int)

  datatype State = State(lock: KeyedLock.State, jobs: map<nat, Job>, entries: map<string, CacheEntry>,
                         log: seq<Record>, now: int)

  datatype Event =
    | Begin(thread: nat, key: string, level: string)
    | Enter(thread: nat)
    | Check(thread: nat, at: int)
    | Confirm(thread: nat, at: int)
    | Leave(thread: nat)
    | UpdateCache(key: string, level: string, at: int)

  const Init := State(KeyedLock.Init, map[], map[], [], 0)

  /** A recent identical request: the guard in UpdateNewRequest. */
  predicate Hit(entries: map<string, CacheEntry>, key: string, level: string, now: int) {
    key in entries && entries[key].level == level && now < entries[key].expiresAt
  }

  function Stored(ttl: int, entries: map<string, CacheEntry>, key: string, level: string, now: int)
    : map<string, CacheEntry>
  {
    entries[key := CacheEntry(level, now + ttl)]
  }

  function Written(ttl: int, s: State, r: Record): State {
    s.(entries := Stored(ttl, s.entries, r.key, r.level, r.at), log := s.log + [r], now := r.at)
  }

  predicate Working(s: State, t: nat, stage: Stage) {
    KeyedLock.At(s.lock, t).Inside? && t in s.jobs && s.jobs[t].stage == stage
  }

  function CheckRecord(s: State, t: nat, at: int): Record
    requires Working(s, t, ToCheck)
  {
    var key, level := KeyedLock.At(s.lock, t).key, s.jobs[t].level;
    Record(if Hit(s.entries, key, level, at) then Skipped else Accepted, t, key, level, at)
  }

  function Checked(ttl: int, s: State, t: nat, at: int): State
    requires Working(s, t, ToCheck)
  {
    var r := CheckRecord(s, t, at);
    if r.kind.Skipped? then s.(log := s.log + [r], now := at, jobs := s.jobs[t := Job(r.level, Done)])
    else Written(ttl, s, r).(jobs := s.jobs[t := Job(r.level, ToConfirm)])
  }

  function Apply(ttl: int, s: State, e: Event): State {
    match e
    case Begin(t, key, level) =>
      if KeyedLock.At(s.lock, t).Outside? then
        s.(lock := KeyedLock.Apply(s.lock, KeyedLock.Lookup(t, key)), jobs := s.jobs[t := Job(level, ToCheck)])
      else s
    case Enter(t) => s.(lock := KeyedLock.Apply(s.lock, KeyedLock.Acquire(t)))
    case Check(t, at) => if Working(s, t, ToCheck) && at >= s.now then Checked(ttl, s, t, at) else s
    case Confirm(t, at) =>
      if Working(s, t, ToConfirm) && at >= s.now then
        Written(ttl, s, Record(Confirmed, t, KeyedLock.At(s.lock, t).key, s.jobs[t].level, at))
        .(jobs := s.jobs[t := s.jobs[t].(stage := Done)])
      else s
    case Leave(t) => if Working(s, t, Done) then s.(lock := KeyedLock.Apply(s.lock, KeyedLock.Release(t))) else s
    case UpdateCache(key, level, at) =>
      if at >= s.now then Written(ttl, s, Record(Pushed, 0, key, level, at)) else s
  }

  function Exec(ttl: int, events: seq<Event>): State {
    if events == [] then Init else Apply(ttl, Exec(ttl, events[..|events| - 1]), events[|events| - 1])
  }

  /** The cache under its mutex. */
  class LLCache {
    const ttl: int
    var entries: map<string, CacheEntry>

    /** Five minutes, in nanoseconds, when no positive lifetime is given. */
    constructor (ttl: int)
      ensures entries == map[] && this.ttl == if ttl <= 0 then 300_000_000_000 else ttl
    {
      this.ttl := if ttl <= 0 then 300_000_000_000 else ttl;
      entries := map[];
    }

    method UpdateNewRequest(key: string, level: string, now: int) returns (isNew: bool)
      modifies this
      ensures isNew <==> !Hit(old(entries), key, level, now)
      ensures entries == if isNew then Stored(ttl, old(entries), key, level, now) else old(entries)
    {
      if key in entries && entries[key].level == level && now < entries[key].expiresAt {
        return false;
      }
      entries := entries[key := CacheEntry(level, now + ttl)];
      return true;
    }

    method Put(key: string, level: string, now: int)
      modifies this
      ensures entries == Stored(ttl, old(entries), key, level, now)
    {
      entries := entries[key := CacheEntry(level, now + ttl)];
    }

    /** Reads one instant longer than UpdateNewRequest skips: at the expiry itself the level is still returned. */
    method Get(key: string, now: int) returns (level: Option<string>)
      ensures level.Some? ==>
                || Hit(entries, key, level.value, now)
                || (key in entries && entries[key] == CacheEntry(level.value, now))
      ensures forall l ::
                Hit(entries, key, l, now) || (key in entries && entries[key] == CacheEntry(l, now)) ==> level == Some(l)
    {
      if key !in entries || now > entries[key].expiresAt {
        return None;
      }
      return Some(entries[key].level);
    }
  }

  // ----- The log explains the cache -------------------------------------------------------------

  predicate Writes(r: Record, key: string) {
    r.key == key && !r.kind.Skipped?
  }

  function LastWrite(log: seq<Record>, key: string): Option<Record> {
    if log == [] then None
    else if Writes(log[|log| - 1], key) then Some(log[|log| - 1])
    else LastWrite(log[..|log| - 1], key)
  }

  lemma LastWriteSnoc(log: seq<Record>, r: Record, key: string)
    ensures LastWrite(log + [r], key) == if Writes(r, key) then Some(r) else LastWrite(log, key)
  {
    assert (log + [r])[..|log|] == log;
  }

  /** The last write of the key has this level and is less than the lifetime old. */
  predicate Fresh(ttl: int, log: seq<Record>, key: string, level: string, at: int) {
    var w := LastWrite(log, key);
    w.Some? && w.value.level == level && at < w.value.at + ttl
  }

  predicate Asks(r: Record, key: string) {
    r.key == key && (r.kind.Accepted? || r.kind.Skipped?)
  }

  /** Record `c` confirms the acceptance `a`. */
  predicate Confirms(c: Record, a: Record) {
    c == Record(Confirmed, a.thread, a.key, a.level, c.at)
  }

  /** The acceptance at `i` was confirmed before its key was asked about again. */
  ghost predicate ConfirmedFirst(log: seq<Record>, i: nat)
    requires i < |log|
  {
    exists c :: i < c < |log| && Confirms(log[c], log[i]) && forall j :: i < j < c ==> !Asks(log[j], log[i].key)
  }

  /** The acceptance at `i` is still to be confirmed by its thread, which is inside, and nobody has asked since. */
  predicate AwaitsConfirmation(s: State, i: nat)
    requires i < |s.log|
  {
    var a := s.log[i];
    && Working(s, a.thread, ToConfirm)
    && KeyedLock.At(s.lock, a.thread).key == a.key && s.jobs[a.thread].level == a.level
    && forall j :: i < j < |s.log| ==> !Asks(s.log[j], a.key)
  }

  ghost predicate CacheInv(ttl: int, s: State) {
    && (forall key :: key in s.entries <==> LastWrite(s.log, key).Some?)
    && (forall key :: key in s.entries ==>
          s.entries[key] == CacheEntry(LastWrite(s.log, key).value.level, LastWrite(s.log, key).value.at + ttl))
  }

  ghost predicate LogInv(ttl: int, log: seq<Record>, now: int) {
    && (forall i, j :: 0 <= i < j < |log| ==> log[i].at <= log[j].at)
    && (forall i :: 0 <= i < |log| ==> log[i].at <= now)
    && (forall j :: 0 <= j < |log| && Asks(log[j], log[j].key) ==>
          (log[j].kind.Skipped? <==> Fresh(ttl, log[..j], log[j].key, log[j].level, log[j].at)))
  }

  ghost predicate Inv(ttl: int, s: State) {
    && KeyedLock.Inv(s.lock) && CacheInv(ttl, s) && LogInv(ttl, s.log, s.now)
    && Acceptances(s)
  }

  ghost predicate Acceptances(s: State) {
    forall i :: 0 <= i < |s.log| && s.log[i].kind.Accepted? ==> ConfirmedFirst(s.log, i) || AwaitsConfirmation(s, i)
  }

  /** A write, or a record that is no write. */
  lemma CacheGrows(ttl: int, s: State, s': State, r: Record)
    requires CacheInv(ttl, s) && s'.log == s.log + [r]
    requires s'.entries == if r.kind.Skipped? then s.entries else Stored(ttl, s.entries, r.key, r.level, r.at)
    ensures CacheInv(ttl, s')
  {
    forall key ensures LastWrite(s'.log, key) == if Writes(r, key) then Some(r) else LastWrite(s.log, key) {
      LastWriteSnoc(s.log, r, key);
    }
  }

  /**
   A new record leaves an acceptance confirmed, or awaiting its confirmation if it neither asks about the key nor
   moves the thread.
   */
  lemma AcceptanceStays(s: State, s': State, r: Record, i: nat)
    requires i < |s.log| && s'.log == s.log + [r] && s'.lock == s.lock
    requires ConfirmedFirst(s.log, i) || AwaitsConfirmation(s, i)
    requires AwaitsConfirmation(s, i) ==> !Asks(r, s.log[i].key) && s.log[i].thread in s'.jobs
    requires AwaitsConfirmation(s, i) ==> s'.jobs[s.log[i].thread] == s.jobs[s.log[i].thread] || Confirms(r, s.log[i])
    ensures ConfirmedFirst(s'.log, i) || AwaitsConfirmation(s', i)
  {
    var log' := s'.log;
    if ConfirmedFirst(s.log, i) {
      ConfirmedStays(s.log, i, r);
    } else {
      assert forall j :: i < j < |s.log| ==> log'[j] == s.log[j];
      if Confirms(r, s.log[i]) {
        assert Confirms(log'[|s.log|], log'[i]);
      }
    }
  }

  lemma LogGrows(ttl: int, log: seq<Record>, now: int, r: Record)
    requires LogInv(ttl, log, now) && r.at >= now
    requires Asks(r, r.key) ==> (r.kind.Skipped? <==> Fresh(ttl, log, r.key, r.level, r.at))
    ensures LogInv(ttl, log + [r], r.at)
  {
    var log' := log + [r];
    assert log'[..|log|] == log;
    forall j | 0 <= j < |log'| && Asks(log'[j], log'[j].key)
      ensures log'[j].kind.Skipped? <==> Fresh(ttl, log'[..j], log'[j].key, log'[j].level, log'[j].at)
    {
      if j < |log| {
        assert log'[..j] == log[..j];
      }
    }
  }

  lemma ConfirmedStays(log: seq<Record>, i: nat, r: Record)
    requires i < |log| && ConfirmedFirst(log, i)
    ensures ConfirmedFirst(log + [r], i)
  {
    var log' := log + [r];
    var c :| i < c < |log| && Confirms(log[c], log[i]) && forall j :: i < j < c ==> !Asks(log[j], log[i].key);
    assert Confirms(log'[c], log'[i]) && forall j :: i < j < c ==> !Asks(log'[j], log'[i].key);
  }

  /** While a thread is about to check its key, no confirmation of that key is outstanding. */
  lemma NoneOutstanding(s: State, t: nat, i: nat)
    requires KeyedLock.Inv(s.lock) && Working(s, t, ToCheck) && i < |s.log| && AwaitsConfirmation(s, i)
    ensures s.log[i].thread != t && s.log[i].key != KeyedLock.At(s.lock, t).key
  {
    OneInside(s, t, s.log[i].thread);
  }

  lemma OneInside(s: State, t: nat, u: nat)
    requires KeyedLock.Inv(s.lock) && KeyedLock.At(s.lock, t).Inside? && KeyedLock.At(s.lock, u).Inside?
    ensures KeyedLock.At(s.lock, t).key == KeyedLock.At(s.lock, u).key ==> t == u
  {
    if KeyedLock.At(s.lock, t).key == KeyedLock.At(s.lock, u).key {
      KeyedLock.InsideUnique(s.lock, t, u);
    }
  }

  lemma CheckKeepsAcceptances(ttl: int, s: State, t: nat, at: int)
    requires KeyedLock.Inv(s.lock) && Acceptances(s) && Working(s, t, ToCheck)
    ensures Acceptances(Checked(ttl, s, t, at))
  {
    var s', r := Checked(ttl, s, t, at), CheckRecord(s, t, at);
    assert s'.log == s.log + [r];
    forall i | 0 <= i < |s.log| && s.log[i].kind.Accepted?
      ensures ConfirmedFirst(s'.log, i) || AwaitsConfirmation(s', i)
    {
      if AwaitsConfirmation(s, i) {
        NoneOutstanding(s, t, i);
      }
      AcceptanceStays(s, s', r, i);
    }
    assert r.kind.Accepted? ==> AwaitsConfirmation(s', |s.log|);
  }

  lemma CheckKeeps(ttl: int, s: State, t: nat, at: int)
    requires Inv(ttl, s) && Working(s, t, ToCheck) && at >= s.now
    ensures Inv(ttl, Checked(ttl, s, t, at))
  {
    var s', r := Checked(ttl, s, t, at), CheckRecord(s, t, at);
    LogGrows(ttl, s.log, s.now, r);
    CacheGrows(ttl, s, s', r);
    CheckKeepsAcceptances(ttl, s, t, at);
  }

  lemma ConfirmKeeps(ttl: int, s: State, t: nat, at: int)
    requires Inv(ttl, s) && Working(s, t, ToConfirm) && at >= s.now
    ensures Inv(ttl, Apply(ttl, s, Confirm(t, at)))
  {
    var s' := Apply(ttl, s, Confirm(t, at));
    var r := Record(Confirmed, t, KeyedLock.At(s.lock, t).key, s.jobs[t].level, at);
    LogGrows(ttl, s.log, s.now, r);
    CacheGrows(ttl, s, s', r);
    forall i | 0 <= i < |s'.log| && s'.log[i].kind.Accepted?
      ensures ConfirmedFirst(s'.log, i) || AwaitsConfirmation(s', i)
    {
      AcceptanceStays(s, s', r, i);
    }
  }

  lemma PushKeeps(ttl: int, s: State, key: string, level: string, at: int)
    requires Inv(ttl, s) && at >= s.now
    ensures Inv(ttl, Apply(ttl, s, UpdateCache(key, level, at)))
  {
    var s', r := Apply(ttl, s, UpdateCache(key, level, at)), Record(Pushed, 0, key, level, at);
    LogGrows(ttl, s.log, s.now, r);
    CacheGrows(ttl, s, s', r);
    forall i | 0 <= i < |s'.log| && s'.log[i].kind.Accepted?
      ensures ConfirmedFirst(s'.log, i) || AwaitsConfirmation(s', i)
    {
      AcceptanceStays(s, s', r, i);
    }
  }

  /** A thread that owes a confirmation stays where it is when another thread moves. */
  lemma LockMoves(ttl: int, s: State, s': State, t: nat)
    requires Inv(ttl, s) && KeyedLock.Inv(s'.lock) && !Working(s, t, ToConfirm)
    requires s'.log == s.log && s'.entries == s.entries && s'.now == s.now
    requires forall u: nat :: u != t ==> KeyedLock.At(s'.lock, u) == KeyedLock.At(s.lock, u)
    requires forall u: nat :: u != t && u in s.jobs ==> u in s'.jobs && s'.jobs[u] == s.jobs[u]
    ensures Inv(ttl, s')
  {
    forall i | 0 <= i < |s.log| && s.log[i].kind.Accepted? && AwaitsConfirmation(s, i)
      ensures AwaitsConfirmation(s', i)
    {
      assert s.log[i].thread != t;
    }
  }

  lemma LockStepKeeps(ttl: int, s: State, e: Event)
    requires Inv(ttl, s) && (e.Begin? || e.Enter? || e.Leave?)
    ensures Inv(ttl, Apply(ttl, s, e))
  {
    var s', t := Apply(ttl, s, e), e.thread;
    var step := match e
      case Begin(_, key, _) => KeyedLock.Lookup(t, key)
      case Enter(_) => KeyedLock.Acquire(t)
      case _ => KeyedLock.Release(t);
    if s' != s {
      KeyedLock.InvStep(s.lock, step);
      LockMoves(ttl, s, s', t);
    }
  }

  lemma InvStep(ttl: int, s: State, e: Event)
    requires Inv(ttl, s)
    ensures Inv(ttl, Apply(ttl, s, e))
  {
    match e
    case Check(t, at) =>
      if Working(s, t, ToCheck) && at >= s.now {
        CheckKeeps(ttl, s, t, at);
      }
    case Confirm(t, at) =>
      if Working(s, t, ToConfirm) && at >= s.now {
        ConfirmKeeps(ttl, s, t, at);
      }
    case UpdateCache(key, level, at) =>
      if at >= s.now {
        PushKeeps(ttl, s, key, level, at);
      }
    case _ => LockStepKeeps(ttl, s, e);
  }

  lemma {:induction false} InvAlways(ttl: int, events: seq<Event>)
    ensures Inv(ttl, Exec(ttl, events))
  {
    if events != [] {
      InvAlways(ttl, events[..|events| - 1]);
      InvStep(ttl, Exec(ttl, events[..|events| - 1]), events[|events| - 1]);
    }
  }

  /** A request is skipped iff the key was last written with the same level less than the lifetime ago. */
  lemma SkippedIffFresh(ttl: int, events: seq<Event>, j: nat)
    requires j < |Exec(ttl, events).log| && Asks(Exec(ttl, events).log[j], Exec(ttl, events).log[j].key)
    ensures var log := Exec(ttl, events).log;
            log[j].kind.Skipped? <==> Fresh(ttl, log[..j], log[j].key, log[j].level, log[j].at)
  {
    InvAlways(ttl, events);
  }

  /** Every write to the key after record `c` and before record `j` has this level. */
  predicate SameLevel(log: seq<Record>, c: nat, j: nat, key: string, level: string)
    requires j <= |log|
  {
    forall i :: c < i < j && Writes(log[i], key) ==> log[i].level == level
  }

  lemma {:induction false} LastWriteAfter(log: seq<Record>, c: nat, key: string, level: string)
    requires c < |log| && Writes(log[c], key) && log[c].level == level && SameLevel(log, c, |log|, key, level)
    requires forall i, j :: 0 <= i < j < |log| ==> log[i].at <= log[j].at
    ensures var w := LastWrite(log, key);
            w.Some? && w.value.level == level && w.value.at >= log[c].at
    decreases |log|
  {
    var n := |log| - 1;
    if !Writes(log[n], key) {
      assert log[..n][c] == log[c];
      LastWriteAfter(log[..n], c, key, level);
    } else {
      assert c <= n;
    }
  }

  /** The same within a log, given the confirmation. */
  lemma ApartInLog(ttl: int, log: seq<Record>, now: int, c: nat, j: nat)
    requires LogInv(ttl, log, now) && c < j < |log|
    requires log[c].kind.Confirmed? && log[j].kind.Accepted? && log[c].key == log[j].key && log[c].level == log[j].level
    requires SameLevel(log, c, j, log[c].key, log[c].level)
    ensures log[c].at + ttl <= log[j].at
  {
    var before := log[..j];
    assert before[c] == log[c];
    LastWriteAfter(before, c, log[c].key, log[c].level);
    assert Asks(log[j], log[j].key);
  }

  /** Both requests were accepted for the same key and level, and no other level was recorded between them. */
  predicate Repeated(log: seq<Record>, i: nat, j: nat) {
    && i < j < |log| && log[i].kind.Accepted? && log[j].kind.Accepted?
    && log[i].key == log[j].key && log[i].level == log[j].level
    && SameLevel(log, i, j, log[i].key, log[i].level)
  }

  /** The first request was confirmed, and the second came at least the lifetime after that. */
  ghost predicate Apart(ttl: int, log: seq<Record>, i: nat, j: nat)
    requires i < j < |log|
  {
    exists c :: i < c < j && Confirms(log[c], log[i]) && log[i].at + ttl <= log[c].at + ttl <= log[j].at
  }

  lemma ConfirmedBetween(s: State, i: nat, j: nat)
    requires Acceptances(s) && Repeated(s.log, i, j)
    ensures exists c :: i < c < j && Confirms(s.log[c], s.log[i])
  {
    var log, key := s.log, s.log[i].key;
    assert Asks(log[j], key);
    assert ConfirmedFirst(log, i);
    var c :| i < c < |log| && Confirms(log[c], log[i]) && forall k :: i < k < c ==> !Asks(log[k], key);
    assert c < j;
  }

  /**
   Over every interleaving: of two accepted requests for one key and level, with no other level recorded between them,
   the first was confirmed before the second was even checked, and the second comes at least the lifetime after the
   confirmation.
   */
  lemma AcceptedApart(ttl: int, events: seq<Event>, i: nat, j: nat)
    requires Repeated(Exec(ttl, events).log, i, j)
    ensures Apart(ttl, Exec(ttl, events).log, i, j)
  {
    InvAlways(ttl, events);
    var s := Exec(ttl, events);
    ConfirmedBetween(s, i, j);
    var c :| i < c < j && Confirms(s.log[c], s.log[i]);
    ApartInLog(ttl, s.log, s.now, c, j);
    assert s.log[i].at <= s.log[c].at;
  }

  // ----- The log comes from the calls -----------------------------------------------------------

  /** The record is about a call that was made: the request its thread is in, or an update from the core. */
  ghost predicate Called(events: seq<Event>, r: Record) {
    match r.kind
    case Pushed => UpdateCache(r.key, r.level, r.at) in events
    case Confirmed => Begin(r.thread, r.key, r.level) in events && Confirm(r.thread, r.at) in events
    case _ => Begin(r.thread, r.key, r.level) in events && Check(r.thread, r.at) in events
  }

  ghost predicate CallsInv(events: seq<Event>, s: State) {
    && (forall i :: 0 <= i < |s.log| ==> Called(events, s.log[i]))
    && (forall t: nat :: !KeyedLock.At(s.lock, t).Outside? ==>
          t in s.jobs && Begin(t, KeyedLock.At(s.lock, t).key, s.jobs[t].level) in events)
  }

  lemma CallsStep(ttl: int, events: seq<Event>, s: State, e: Event)
    requires CallsInv(events, s)
    ensures CallsInv(events + [e], Apply(ttl, s, e))
  {
    assert forall x :: x in events ==> x in events + [e];
    assert e in events + [e];
    var s' := Apply(ttl, s, e);
    forall i | 0 <= i < |s.log| ensures Called(events + [e], s.log[i]) {
      assert Called(events, s.log[i]);
    }
    forall t: nat | !KeyedLock.At(s'.lock, t).Outside?
      ensures t in s'.jobs && Begin(t, KeyedLock.At(s'.lock, t).key, s'.jobs[t].level) in events + [e]
    {
    }
  }

  /** Over every interleaving: every answer, confirmation and update in the log is one that was asked for, as asked. */
  lemma {:induction false} LogComesFromCalls(ttl: int, events: seq<Event>)
    ensures CallsInv(events, Exec(ttl, events))
  {
    if events != [] {
      var init, e := events[..|events| - 1], events[|events| - 1];
      LogComesFromCalls(ttl, init);
      CallsStep(ttl, init, Exec(ttl, init), e);
      assert events == init + [e];
    }
  }

  /** A check by a thread that is inside is answered and logged at once, with the request's own key and level. */
  lemma ChecksAreLogged(ttl: int, events: seq<Event>, t: nat, at: int)
    requires var s := Exec(ttl, events); Working(s, t, ToCheck) && at >= s.now
    ensures var s, log := Exec(ttl, events), Exec(ttl, events + [Check(t, at)]).log;
            var key, level := KeyedLock.At(s.lock, t).key, s.jobs[t].level;
            var last := LastWrite(s.log, key);
            var skip := last.Some? && last.value.level == level && at < last.value.at + ttl;
            var kind := if skip then Skipped else Accepted;
            log == s.log + [Record(kind, t, key, level, at)]
  {
    assert (events + [Check(t, at)])[..|events|] == events;
    InvAlways(ttl, events);
    var s := Exec(ttl, events);
    assert CacheInv(ttl, s);
  }

  /** Confirmations and updates from the core are logged at once as well, and become the last write of their key. */
  lemma WritesAreLogged(ttl: int, events: seq<Event>, t: nat, key: string, level: string, at: int)
    requires at >= Exec(ttl, events).now
    ensures var s, u := Exec(ttl, events), Exec(ttl, events + [UpdateCache(key, level, at)]);
            && u.log == s.log + [Record(Pushed, 0, key, level, at)]
            && u.entries == s.entries[key := CacheEntry(level, at + ttl)]
    ensures var s, u := Exec(ttl, events), Exec(ttl, events + [Confirm(t, at)]);
            Working(s, t, ToConfirm) ==>
              var k, l := KeyedLock.At(s.lock, t).key, s.jobs[t].level;
              u.log == s.log + [Record(Confirmed, t, k, l, at)] && u.entries == s.entries[k := CacheEntry(l, at + ttl)]
  {
    assert (events + [UpdateCache(key, level, at)])[..|events|] == events;
    assert (events + [Confirm(t, at)])[..|events|] == events;
  }

  /** From asking for the lock to leaving it: one answer, and a confirmation if and only if the request was accepted. */
  lemma WholeRequest(ttl: int, events: seq<Event>, t: nat, key: string, level: string, at: int, later: int)
    requires var s := Exec(ttl, events);
             && KeyedLock.At(s.lock, t).Outside? && s.now <= at <= later
             && forall u: nat :: KeyedLock.At(s.lock, u).Inside? ==> KeyedLock.At(s.lock, u).key != key
    ensures var s := Exec(ttl, events);
            var u := Exec(ttl, events + [Begin(t, key, level), Enter(t), Check(t, at), Confirm(t, later), Leave(t)]);
            && KeyedLock.At(u.lock, t).Outside?
            && u.log == s.log + if Fresh(ttl, s.log, key, level, at) then [Record(Skipped, t, key, level, at)]
                                else [Record(Accepted, t, key, level, at), Record(Confirmed, t, key, level, later)]
  {
    var e2 := events + [Begin(t, key, level), Enter(t)];
    var e3 := e2 + [Check(t, at)];
    Entered(ttl, events, t, key, level);
    ChecksAreLogged(ttl, e2, t, at);
    CheckedStage(ttl, e2, t, at);
    Finished(ttl, e3, t, later);
    assert e3 + [Confirm(t, later), Leave(t)] ==
           events + [Begin(t, key, level), Enter(t), Check(t, at), Confirm(t, later), Leave(t)];
    hide Exec, LastWrite;
  }

  lemma Entered(ttl: int, events: seq<Event>, t: nat, key: string, level: string)
    requires var s := Exec(ttl, events);
             && KeyedLock.At(s.lock, t).Outside?
             && forall u: nat :: KeyedLock.At(s.lock, u).Inside? ==> KeyedLock.At(s.lock, u).key != key
    ensures var s, u := Exec(ttl, events), Exec(ttl, events + [Begin(t, key, level), Enter(t)]);
            && u.log == s.log && u.now == s.now
            && Working(u, t, ToCheck) && KeyedLock.At(u.lock, t).key == key && u.jobs[t].level == level
  {
    var e1 := events + [Begin(t, key, level)];
    var e2 := e1 + [Enter(t)];
    assert e1[..|events|] == events && e2[..|e1|] == e1 && e2 == events + [Begin(t, key, level), Enter(t)];
    InvAlways(ttl, events);
    GetsIn(Exec(ttl, events).lock, t, key);
    hide Inv;
  }

  lemma Finished(ttl: int, events: seq<Event>, t: nat, at: int)
    requires var s := Exec(ttl, events); (Working(s, t, ToConfirm) && s.now <= at) || Working(s, t, Done)
    ensures var s, u := Exec(ttl, events), Exec(ttl, events + [Confirm(t, at), Leave(t)]);
            && KeyedLock.At(u.lock, t).Outside?
            && u.log == s.log + if Working(s, t, Done) then []
                                else [Record(Confirmed, t, KeyedLock.At(s.lock, t).key, s.jobs[t].level, at)]
  {
    var e1 := events + [Confirm(t, at)];
    var e2 := e1 + [Leave(t)];
    assert e1[..|events|] == events && e2[..|e1|] == e1 && e2 == events + [Confirm(t, at), Leave(t)];
    assert Exec(ttl, events).log + [] == Exec(ttl, events).log;
  }

  lemma GetsIn(lock: KeyedLock.State, t: nat, key: string)
    requires KeyedLock.Inv(lock) && KeyedLock.At(lock, t).Outside?
    requires forall u: nat :: KeyedLock.At(lock, u).Inside? ==> KeyedLock.At(lock, u).key != key
    ensures var l := KeyedLock.Apply(KeyedLock.Apply(lock, KeyedLock.Lookup(t, key)), KeyedLock.Acquire(t));
            KeyedLock.At(l, t).Inside? && KeyedLock.At(l, t).key == key
  {
    var l := KeyedLock.Apply(lock, KeyedLock.Lookup(t, key));
    forall m | m in lock.owner ensures m != l.locks[key] {
      assert KeyedLock.PlaceSound(lock, KeyedLock.At(lock, lock.owner[m]));
    }
  }

  lemma CheckedStage(ttl: int, events: seq<Event>, t: nat, at: int)
    requires var s := Exec(ttl, events); Working(s, t, ToCheck) && at >= s.now
    ensures var s, u := Exec(ttl, events), Exec(ttl, events + [Check(t, at)]);
            && u.lock == s.lock && u.now == at && t in u.jobs && u.jobs[t].level == s.jobs[t].level && u.log != []
            && u.jobs[t].stage == if u.log[|u.log| - 1].kind.Skipped? then Done else ToConfirm
  {
    assert (events + [Check(t, at)])[..|events|] == events;
  }
}
