/**
 Mutual exclusion by key: a map that only grows gives each key its mutex. Finding the mutex and acquiring it are
 separate steps, so any number of threads may look a key up before the first of them gets in.
 */
module KeyedLock {

  /** Where a thread is with respect to `Do`, or between `Lock` and `Unlock`. */
  datatype Place = Outside | Waiting(key: string, mutex: nat) | Inside(key: string, mutex: nat)

  /** Mutexes are numbered as they are made; `owner` maps the locked ones to the thread that holds them. */
  datatype State = State(locks: map<string, nat>, made: nat, owner: map<nat, nat>, places: map<nat, Place>)

  datatype Event = Lookup(thread: nat, key: string) | Acquire(thread: nat) | Release(thread: nat)

  const Init := State(map[], 0, map[], map[])

  function At(s: State, t: nat): Place {
    if t in s.places then s.places[t] else Outside
  }

  function LockedFor(s: State, key: string): State {
    if key in s.locks then s else s.(locks := s.locks[key := s.made], made := s.made + 1)
  }

  predicate CanAcquire(s: State, t: nat) {
    At(s, t).Waiting? && At(s, t).mutex !in s.owner
  }

  function Apply(s: State, e: Event): State {
    match e
    case Lookup(t, key) =>
      if !At(s, t).Outside? then s
      else
        var u := LockedFor(s, key);
        u.(places := s.places[t := Waiting(key, u.locks[key])])
    case Acquire(t) =>
      if CanAcquire(s, t) then
        var p := At(s, t);
        s.(owner := s.owner[p.mutex := t], places := s.places[t := Inside(p.key, p.mutex)])
      else s
    case Release(t) =>
      if At(s, t).Inside? then s.(owner := s.owner - {At(s, t).mutex}, places := s.places[t := Outside]) else s
  }

  function Exec(events: seq<Event>): State {
    if events == [] then Init else Apply(Exec(events[..|events| - 1]), events[|events| - 1])
  }

  /** The map under its own lock, and the mutexes it hands out. */
  class Synchronizer {
    var locks: map<string, nat>
    var made: nat
    var owner: map<nat, nat>
    var places: map<nat, Place>

    ghost function View(): State
      reads this
    {
      State(locks, made, owner, places)
    }

    constructor ()
      ensures View() == Init
    {
      locks, made, owner, places := map[], 0, map[], map[];
    }

    method LockFor(key: string) returns (m: nat)
      modifies this
      ensures View() == LockedFor(old(View()), key) && key in locks && m == locks[key]
    {
      if key !in locks {
        locks, made := locks[key := made], made + 1;
      }
      m := locks[key];
    }

    /** The start of Do and of Lock. */
    method Begin(t: nat, key: string)
      requires At(View(), t).Outside?
      modifies this
      ensures View() == Apply(old(View()), Lookup(t, key))
    {
      var m := LockFor(key);
      places := places[t := Waiting(key, m)];
    }

    /** The mutex's Lock returns when nobody holds it. */
    method Enter(t: nat)
      requires CanAcquire(View(), t)
      modifies this
      ensures View() == Apply(old(View()), Acquire(t))
    {
      var p := places[t];
      owner := owner[p.mutex := t];
      places := places[t := Inside(p.key, p.mutex)];
    }

    /** The end of Do: releases the mutex it has kept. */
    method Leave(t: nat)
      requires At(View(), t).Inside?
      modifies this
      ensures View() == Apply(old(View()), Release(t))
    {
      owner := owner - {places[t].mutex};
      places := places[t := Outside];
    }

    /** Unlock looks the mutex up again; `Inv` makes it the same one, so this is the same step as `Leave`. */
    method Unlock(t: nat)
      requires Inv(View()) && At(View(), t).Inside?
      modifies this
      ensures View() == Apply(old(View()), Release(t))
    {
      var m := LockFor(places[t].key);
      owner := owner - {m};
      places := places[t := Outside];
    }
  }

  // ----- What every interleaving keeps ----------------------------------------------------------

  predicate PlaceSound(s: State, p: Place) {
    p.Outside? || (p.key in s.locks && s.locks[p.key] == p.mutex)
  }

  ghost predicate Inv(s: State) {
    && (forall k :: k in s.locks ==> s.locks[k] < s.made)
    && (forall k, l :: k in s.locks && l in s.locks && s.locks[k] == s.locks[l] ==> k == l)
    && (forall t: nat :: PlaceSound(s, At(s, t)))
    && (forall m :: m in s.owner ==> At(s, s.owner[m]).Inside? && At(s, s.owner[m]).mutex == m)
    && (forall t: nat :: At(s, t).Inside? ==> At(s, t).mutex in s.owner && s.owner[At(s, t).mutex] == t)
  }

  lemma LookupKeeps(s: State, t: nat, key: string)
    requires Inv(s) && At(s, t).Outside?
    ensures Inv(Apply(s, Lookup(t, key)))
  {
    var s' := Apply(s, Lookup(t, key));
    forall u: nat ensures PlaceSound(s', At(s', u)) && (u != t ==> At(s', u) == At(s, u)) {
      assert PlaceSound(s, At(s, u));
    }
    assert At(s', t).Waiting? && s'.owner == s.owner;
  }

  lemma AcquireKeeps(s: State, t: nat)
    requires Inv(s) && CanAcquire(s, t)
    ensures Inv(Apply(s, Acquire(t)))
  {
    var s', p := Apply(s, Acquire(t)), At(s, t);
    assert At(s', t) == Inside(p.key, p.mutex) && s'.locks == s.locks && s'.made == s.made;
    forall u: nat ensures PlaceSound(s', At(s', u)) && (u != t ==> At(s', u) == At(s, u)) {
      assert PlaceSound(s, At(s, u));
    }
  }

  lemma ReleaseKeeps(s: State, t: nat)
    requires Inv(s) && At(s, t).Inside?
    ensures Inv(Apply(s, Release(t)))
  {
    var s' := Apply(s, Release(t));
    assert At(s', t) == Outside && s'.locks == s.locks && s'.made == s.made;
    forall u: nat ensures PlaceSound(s', At(s', u)) && (u != t ==> At(s', u) == At(s, u)) {
      assert PlaceSound(s, At(s, u));
    }
  }

  lemma InvStep(s: State, e: Event)
    requires Inv(s)
    ensures Inv(Apply(s, e))
  {
    match e
    case Lookup(t, key) =>
      if At(s, t).Outside? {
        LookupKeeps(s, t, key);
      }
    case Acquire(t) =>
      if CanAcquire(s, t) {
        AcquireKeeps(s, t);
      }
    case Release(t) =>
      if At(s, t).Inside? {
        ReleaseKeeps(s, t);
      }
  }

  lemma {:induction false} InvAlways(events: seq<Event>)
    ensures Inv(Exec(events))
  {
    if events != [] {
      InvAlways(events[..|events| - 1]);
      InvStep(Exec(events[..|events| - 1]), events[|events| - 1]);
    }
  }

  /** At most one thread is inside per key. */
  lemma InsideUnique(s: State, t: nat, u: nat)
    requires Inv(s) && At(s, t).Inside? && At(s, u).Inside? && At(s, t).key == At(s, u).key
    ensures t == u
  {
    assert PlaceSound(s, At(s, t)) && PlaceSound(s, At(s, u));
  }

  /** The mutex of a key never changes. */
  lemma {:induction false} LocksPersist(events: seq<Event>, more: seq<Event>, key: string)
    ensures key in Exec(events).locks ==>
              key in Exec(events + more).locks && Exec(events + more).locks[key] == Exec(events).locks[key]
    decreases |more|
  {
    if more == [] {
      assert events + more == events;
    } else {
      var init := more[..|more| - 1];
      assert (events + more)[..|events + more| - 1] == events + init;
      LocksPersist(events, init, key);
    }
  }

  /**
   Over every interleaving: one key, one mutex, for good; at most one thread inside per key; and a waiting thread is
   kept out exactly by another thread inside the same key, never by other keys.
   */
  lemma ExclusivePerKey(events: seq<Event>, t: nat)
    ensures var s := Exec(events);
            && (forall u: nat :: At(s, t).Inside? && At(s, u).Inside? && At(s, t).key == At(s, u).key ==> t == u)
            && (At(s, t).Waiting? ==>
                  (CanAcquire(s, t) <==> forall u: nat :: At(s, u).Inside? ==> At(s, u).key != At(s, t).key))
  {
    InvAlways(events);
    var s := Exec(events);
    forall u: nat | At(s, t).Inside? && At(s, u).Inside? && At(s, t).key == At(s, u).key ensures t == u {
      InsideUnique(s, t, u);
    }
    if At(s, t).Waiting? {
      assert PlaceSound(s, At(s, t));
      if CanAcquire(s, t) {
        forall u: nat | At(s, u).Inside? ensures At(s, u).key != At(s, t).key {
          assert PlaceSound(s, At(s, u));
        }
      } else {
        var u := s.owner[At(s, t).mutex];
        assert PlaceSound(s, At(s, u));
      }
    }
  }

  /** After every history: leaving a key frees it, for every thread that waits for it. */
  lemma ReleaseFrees(events: seq<Event>, t: nat, u: nat)
    requires At(Exec(events), t).Inside?
    ensures var key, s := At(Exec(events), t).key, Exec(events + [Release(t)]);
            && At(s, t) == Outside && !(At(s, u).Inside? && At(s, u).key == key)
            && (At(s, u).Waiting? && At(s, u).key == key ==>
                  At(Exec(events + [Release(t), Acquire(u)]), u) == Inside(key, At(s, u).mutex))
  {
    var e1 := events + [Release(t)];
    var e2 := e1 + [Acquire(u)];
    assert e1[..|events|] == events && e2[..|e1|] == e1 && e2 == events + [Release(t), Acquire(u)];
    InvAlways(events);
    InvAlways(e1);
    var s, s' := Exec(events), Exec(e1);
    assert PlaceSound(s, At(s, t)) && PlaceSound(s, At(s, u)) && PlaceSound(s', At(s', u));
    assert s'.locks == s.locks && (u != t ==> At(s', u) == At(s, u));
  }

  /** A thread that wants a key nobody is inside of gets in at once. */
  lemma FreeKeyEntered(events: seq<Event>, t: nat, key: string)
    requires At(Exec(events), t).Outside?
    requires forall u: nat :: At(Exec(events), u).Inside? ==> At(Exec(events), u).key != key
    ensures var s := Exec(events + [Lookup(t, key), Acquire(t)]); At(s, t).Inside? && At(s, t).key == key
  {
    var e1 := events + [Lookup(t, key)];
    var e2 := e1 + [Acquire(t)];
    assert e1[..|events|] == events && e2[..|e1|] == e1 && e2 == events + [Lookup(t, key), Acquire(t)];
    var s := Exec(e1);
    assert At(s, t).Waiting? && At(s, t).key == key;
    forall u: nat | At(s, u).Inside? ensures At(s, u).key != key {
      assert u != t && At(s, u) == At(Exec(events), u);
    }
    ExclusivePerKey(e1, t);
  }
}
