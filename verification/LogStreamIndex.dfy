/**
 The registry of log streams: `subs` by subscription id and `podSubs` by pod, changed by Start, Stop,
 StopAll and by the deferred cleanup of each run, which deletes by id and not by identity.
 Lock regions are single steps; cleanups may come arbitrarily late.
 */
module LogStreamIndex {
  import opened Foundation

  /** The registry's reference to one subscription object. */
  datatype Sub = Sub(run: nat, pod: string)

  /** One goroutine. `stopped`: Stop or StopAll has taken it out; `cleaned`: its deferred cleanup has run. */
  datatype Run = Run(id: string, pod: string, stopped: bool, cleaned: bool)

  datatype State = State(subs: map<string, Sub>, podSubs: map<string, string>, runs: seq<Run>)

  datatype Event = Start(id: string, pod: string) | Stop(id: string) | StopAll | Cleanup(run: nat)

  datatype Error = Denied | AlreadyExists | PodBusy(holder: string) | NotFound

  const Init := State(map[], map[], [])

  function Drop(podSubs: map<string, string>, pod: string, id: string): map<string, string> {
    if pod in podSubs && podSubs[pod] == id then podSubs - {pod} else podSubs
  }

  function Registered(s: State): set<nat> {
    set id | id in s.subs :: s.subs[id].run
  }

  function Apply(s: State, e: Event): State {
    match e
    case Start(id, pod) =>
      if id in s.subs || pod in s.podSubs then s
      else State(s.subs[id := Sub(|s.runs|, pod)], s.podSubs[pod := id], s.runs + [Run(id, pod, false, false)])
    case Stop(id) =>
      if id !in s.subs then s
      else
        var sub := s.subs[id];
        State(s.subs - {id}, Drop(s.podSubs, sub.pod, id),
              if sub.run < |s.runs| then s.runs[sub.run := s.runs[sub.run].(stopped := true)] else s.runs)
    case StopAll =>
      State(map[], map[], seq(|s.runs|, r requires 0 <= r < |s.runs| =>
                                if r in Registered(s) then s.runs[r].(stopped := true) else s.runs[r]))
    case Cleanup(r) =>
      if r >= |s.runs| || s.runs[r].cleaned then s
      else
        var run := s.runs[r];
        State(s.subs - {run.id}, Drop(s.podSubs, run.pod, run.id), s.runs[r := run.(cleaned := true)])
  }

  function Exec(events: seq<Event>): State {
    if events == [] then Init else Apply(Exec(events[..|events| - 1]), events[|events| - 1])
  }

  /** The manager's fields, and the goroutines it has started. */
  class Manager {
    var subs: map<string, Sub>
    var podSubs: map<string, string>
    var runs: seq<Run>

    ghost function View(): State
      reads this
    {
      State(subs, podSubs, runs)
    }

    constructor ()
      ensures View() == Init
    {
      subs, podSubs, runs := map[], map[], [];
    }

    /** `allowed` is the verdict of the policy engine on the command type and the namespace. */
    method Start(id: string, pod: string, allowed: bool) returns (err: Option<Error>)
      modifies this
      ensures View() == if allowed then Apply(old(View()), Event.Start(id, pod)) else old(View())
      ensures err == if !allowed then Some(Denied)
                     else if id in old(subs) then Some(AlreadyExists)
                     else if pod in old(podSubs) then Some(PodBusy(old(podSubs)[pod]))
                     else None
      ensures err.Some? ==> View() == old(View())
    {
      if !allowed {
        return Some(Denied);
      }
      if id in subs {
        return Some(AlreadyExists);
      }
      if pod in podSubs {
        return Some(PodBusy(podSubs[pod]));
      }
      subs := subs[id := Sub(|runs|, pod)];
      podSubs := podSubs[pod := id];
      runs := runs + [Run(id, pod, false, false)];
      err := None;
    }

    method Stop(id: string) returns (err: Option<Error>)
      modifies this
      ensures View() == Apply(old(View()), Event.Stop(id))
      ensures err == if id in old(subs) then None else Some(NotFound)
    {
      if id !in subs {
        return Some(NotFound);
      }
      var sub := subs[id];
      subs := subs - {id};
      if sub.pod in podSubs && podSubs[sub.pod] == id {
        podSubs := podSubs - {sub.pod};
      }
      if sub.run < |runs| {
        runs := runs[sub.run := runs[sub.run].(stopped := true)];
      }
      err := None;
    }

    /** Swaps in empty maps under the lock, then cancels what the old map held. */
    method StopAll()
      modifies this
      ensures View() == Apply(old(View()), Event.StopAll)
    {
      var held := subs;
      subs, podSubs := map[], map[];
      var rest := held.Keys;
      while rest != {}
        invariant rest <= held.Keys && subs == map[] && podSubs == map[]
        invariant |runs| == |old(runs)|
        invariant forall r :: 0 <= r < |runs| ==>
                                runs[r] == if exists id :: id in held.Keys - rest && held[id].run == r
                                           then old(runs)[r].(stopped := true) else old(runs)[r]
        decreases rest
      {
        ghost var before := rest;
        var id :| id in rest;
        rest := rest - {id};
        assert held.Keys - rest == (held.Keys - before) + {id};
        var run := held[id].run;
        if run < |runs| {
          runs := runs[run := runs[run].(stopped := true)];
        }
      }
    }

    method Cleanup(r: nat)
      requires r < |runs| && !runs[r].cleaned
      modifies this
      ensures View() == Apply(old(View()), Event.Cleanup(r))
    {
      var run := runs[r];
      subs := subs - {run.id};
      if run.pod in podSubs && podSubs[run.pod] == run.id {
        podSubs := podSubs - {run.pod};
      }
      runs := runs[r := run.(cleaned := true)];
    }
  }

  // ----- What every interleaving keeps ----------------------------------------------------------

  ghost predicate LiveRun(s: State, id: string, pod: string) {
    exists r :: 0 <= r < |s.runs| && !s.runs[r].cleaned && s.runs[r].id == id && s.runs[r].pod == pod
  }

  /** A registered id owns its pod's slot, and its run has been neither stopped nor cleaned. */
  predicate Owns(s: State, id: string)
    requires id in s.subs
  {
    var sub := s.subs[id];
    && sub.pod in s.podSubs && s.podSubs[sub.pod] == id
    && sub.run < |s.runs| && s.runs[sub.run] == Run(id, sub.pod, false, false)
  }

  ghost predicate Inv(s: State) {
    && (forall id :: id in s.subs ==> Owns(s, id))
    && (forall pod :: pod in s.podSubs ==> LiveRun(s, s.podSubs[pod], pod))
  }

  /** A run that has not been cleaned stays in place, whatever else happens to it. */
  lemma RunStays(s: State, e: Event, r: nat)
    requires r < |s.runs| && !s.runs[r].cleaned && e != Cleanup(r)
    ensures var s' := Apply(s, e);
            r < |s'.runs| && s'.runs[r].id == s.runs[r].id && s'.runs[r].pod == s.runs[r].pod && !s'.runs[r].cleaned
  {
  }

  lemma SlotKept(s: State, e: Event, pod: string)
    requires Inv(s) && pod in Apply(s, e).podSubs
    ensures LiveRun(Apply(s, e), Apply(s, e).podSubs[pod], pod)
  {
    var s' := Apply(s, e);
    if pod in s.podSubs {
      var r :| 0 <= r < |s.runs| && !s.runs[r].cleaned && s.runs[r].id == s.podSubs[pod] && s.runs[r].pod == pod;
      RunStays(s, e, r);
    } else {
      assert s'.runs[|s.runs|] == Run(e.id, pod, false, false);
    }
  }

  lemma EntryKept(s: State, e: Event, id: string)
    requires Inv(s) && id in Apply(s, e).subs
    ensures Owns(Apply(s, e), id)
  {
    if id in s.subs {
      assert Owns(s, id);
      if e.Stop? && e.id in s.subs {
        assert Owns(s, e.id);
      }
    }
  }

  lemma InvStep(s: State, e: Event)
    requires Inv(s)
    ensures Inv(Apply(s, e))
  {
    hide LiveRun, Owns, Apply;
    var s' := Apply(s, e);
    forall pod | pod in s'.podSubs ensures LiveRun(s', s'.podSubs[pod], pod) {
      SlotKept(s, e, pod);
    }
    forall id | id in s'.subs ensures Owns(s', id) {
      EntryKept(s, e, id);
    }
  }

  /** Over every interleaving; in particular both maps are empty once all runs have ended. */
  lemma {:induction false} IndexSound(events: seq<Event>)
    ensures Inv(Exec(events))
    ensures var s := Exec(events);
            (forall r :: 0 <= r < |s.runs| ==> s.runs[r].cleaned) ==> s.subs == map[] && s.podSubs == map[]
  {
    if events != [] {
      IndexSound(events[..|events| - 1]);
      InvStep(Exec(events[..|events| - 1]), events[|events| - 1]);
    }
    var s := Exec(events);
    if forall r :: 0 <= r < |s.runs| ==> s.runs[r].cleaned {
      assert forall id :: id in s.subs ==> Owns(s, id);
      assert forall id :: id !in s.subs;
      assert forall pod :: pod in s.podSubs ==> LiveRun(s, s.podSubs[pod], pod);
      assert forall pod :: pod !in s.podSubs;
    }
  }

  // ----- When `podSubs` is the inverse of `subs` -------------------------------------------------

  /** Together with `Owns`: `podSubs[pod] == id` iff `subs[id]` streams `pod`. */
  predicate Inverse(s: State) {
    forall pod :: pod in s.podSubs ==> s.podSubs[pod] in s.subs && s.subs[s.podSubs[pod]].pod == pod
  }

  /** A cleanup takes out the entry of the same id on another pod, and leaves that pod's slot. */
  predicate Crosses(s: State, e: Event) {
    && e.Cleanup? && e.run < |s.runs| && !s.runs[e.run].cleaned
    && s.runs[e.run].id in s.subs && s.subs[s.runs[e.run].id].pod != s.runs[e.run].pod
  }

  /** A crossing cleanup is the only step that breaks the inverse. */
  lemma InverseStep(s: State, e: Event)
    requires Inv(s) && Inverse(s)
    ensures Inverse(Apply(s, e)) <==> !Crosses(s, e)
  {
    assert forall id :: id in s.subs ==> Owns(s, id);
    var s' := Apply(s, e);
    match e
    case Cleanup(r) =>
      if r < |s.runs| && !s.runs[r].cleaned && s.runs[r].id in s.subs && s.subs[s.runs[r].id].pod != s.runs[r].pod {
        assert s.subs[s.runs[r].id].pod in s'.podSubs;
      }
    case Start(id, pod) =>
    case Stop(id) =>
    case StopAll =>
  }

  predicate NoCrossing(events: seq<Event>) {
    events != [] ==>
      && NoCrossing(events[..|events| - 1])
      && !Crosses(Exec(events[..|events| - 1]), events[|events| - 1])
  }

  lemma InverseLast(events: seq<Event>)
    requires events != [] && Inverse(Exec(events[..|events| - 1]))
    ensures Inverse(Exec(events)) <==> !Crosses(Exec(events[..|events| - 1]), events[|events| - 1])
  {
    IndexSound(events[..|events| - 1]);
    InverseStep(Exec(events[..|events| - 1]), events[|events| - 1]);
  }

  /** Over whole runs: the maps are inverse at all times iff no cleanup crosses. */
  lemma {:induction false} InverseIff(events: seq<Event>)
    ensures (forall n :: 0 <= n <= |events| ==> Inverse(Exec(events[..n]))) <==> NoCrossing(events)
  {
    assert Exec([]) == Init && Inverse(Init);
    hide Apply, Inverse, Crosses;
    assert events[..|events|] == events;
    if events == [] {
      assert forall n :: 0 <= n <= |events| ==> events[..n] == [];
    } else {
      var init := events[..|events| - 1];
      InverseIff(init);
      assert forall n :: 0 <= n <= |init| ==> init[..n] == events[..n];
      assert init[..|init|] == init;
      if Inverse(Exec(init)) {
        InverseLast(events);
      }
    }
  }

  // ----- When every stream can be stopped -------------------------------------------------------

  predicate RegisteredRun(s: State, r: nat)
    requires r < |s.runs|
  {
    s.runs[r].id in s.subs && s.subs[s.runs[r].id].run == r
  }

  /** A run that is still going although nobody has stopped it. */
  predicate Going(s: State, r: nat) {
    r < |s.runs| && !s.runs[r].cleaned && !s.runs[r].stopped
  }

  /** Every run that is still going can be reached by Stop. */
  ghost predicate AllRegistered(s: State) {
    forall r: nat :: Going(s, r) ==> RegisteredRun(s, r)
  }

  /** The cleanup of one run takes out the entry of a newer run with the same id. */
  predicate Steals(s: State, e: Event) {
    && e.Cleanup? && e.run < |s.runs| && !s.runs[e.run].cleaned
    && s.runs[e.run].id in s.subs && s.subs[s.runs[e.run].id].run != e.run
  }

  lemma RegisteredKept(s: State, e: Event, r: nat)
    requires Inv(s) && AllRegistered(s) && !Steals(s, e) && Going(Apply(s, e), r)
    ensures RegisteredRun(Apply(s, e), r)
  {
    if r < |s.runs| {
      assert Going(s, r);
      assert RegisteredRun(s, r) && Owns(s, s.runs[r].id);
      if e.Stop? && e.id in s.subs {
        assert Owns(s, e.id);
      }
    }
  }

  /** A stealing cleanup is the only step after which a run that is still going cannot be stopped. */
  lemma RegisteredStep(s: State, e: Event)
    requires Inv(s) && AllRegistered(s)
    ensures AllRegistered(Apply(s, e)) <==> !Steals(s, e)
  {
    var s' := Apply(s, e);
    if Steals(s, e) {
      assert Owns(s, s.runs[e.run].id);
      assert Going(s', s.subs[s.runs[e.run].id].run);
    } else {
      forall r: nat | Going(s', r) ensures RegisteredRun(s', r) {
        RegisteredKept(s, e, r);
      }
    }
  }

  predicate NoSteal(events: seq<Event>) {
    events != [] ==>
      && NoSteal(events[..|events| - 1])
      && !Steals(Exec(events[..|events| - 1]), events[|events| - 1])
  }

  lemma RegisteredLast(events: seq<Event>)
    requires events != [] && AllRegistered(Exec(events[..|events| - 1]))
    ensures AllRegistered(Exec(events)) <==> !Steals(Exec(events[..|events| - 1]), events[|events| - 1])
  {
    IndexSound(events[..|events| - 1]);
    RegisteredStep(Exec(events[..|events| - 1]), events[|events| - 1]);
  }

  /** Over whole runs: every stream can be stopped at all times iff no cleanup steals. */
  lemma {:induction false} StoppableIff(events: seq<Event>)
    ensures (forall n :: 0 <= n <= |events| ==> AllRegistered(Exec(events[..n]))) <==> NoSteal(events)
  {
    assert Exec([]) == Init && AllRegistered(Init);
    hide Apply, AllRegistered, Steals;
    assert events[..|events|] == events;
    if events == [] {
      assert forall n :: 0 <= n <= |events| ==> events[..n] == [];
    } else {
      var init := events[..|events| - 1];
      StoppableIff(init);
      assert forall n :: 0 <= n <= |init| ==> init[..n] == events[..n];
      assert init[..|init|] == init;
      if AllRegistered(Exec(init)) {
        RegisteredLast(events);
      }
    }
  }

  /** A run that is still going and has lost its entry. */
  predicate Lost(s: State, r: nat) {
    Going(s, r) && !RegisteredRun(s, r)
  }

  /** Lost, or ended without ever having been stopped. */
  predicate LostOrEnded(s: State, r: nat, id: string) {
    r < |s.runs| && s.runs[r].id == id && !s.runs[r].stopped && (s.runs[r].cleaned || Lost(s, r))
  }

  lemma LostStays(s: State, e: Event, r: nat, id: string)
    requires Inv(s) && LostOrEnded(s, r, id)
    ensures LostOrEnded(Apply(s, e), r, id)
  {
    assert forall i :: i in s.subs ==> Owns(s, i);
  }

  lemma {:induction false} LostForGood(events: seq<Event>, more: seq<Event>, r: nat, id: string)
    requires LostOrEnded(Exec(events), r, id)
    ensures LostOrEnded(Exec(events + more), r, id)
  {
    if more == [] {
      assert events + more == events;
    } else {
      var init := more[..|more| - 1];
      LostForGood(events, init, r, id);
      IndexSound(events + init);
      assert (events + more)[..|events + more| - 1] == events + init;
      LostStays(Exec(events + init), more[|more| - 1], r, id);
    }
  }

  /** Whatever is called after a steal, the newer run is never stopped: it goes on until it ends by itself. */
  lemma StolenNeverStopped(events: seq<Event>, e: Event, more: seq<Event>)
    requires Steals(Exec(events), e)
    ensures var before, after := Exec(events), Exec(events + [e] + more);
            var r := before.subs[before.runs[e.run].id].run;
            Going(before, r) && LostOrEnded(after, r, before.runs[e.run].id)
  {
    var s := Exec(events);
    IndexSound(events);
    assert Owns(s, s.runs[e.run].id);
    var r := s.subs[s.runs[e.run].id].run;
    assert (events + [e])[..|events|] == events;
    assert Lost(Exec(events + [e]), r);
    LostForGood(events + [e], more, r, s.runs[e.run].id);
  }

  lemma {:induction false} NoStealIndex(events: seq<Event>)
    requires NoSteal(events)
    ensures Inv(Exec(events)) && AllRegistered(Exec(events)) && Inverse(Exec(events))
  {
    IndexSound(events);
    if events != [] {
      var s, e := Exec(events[..|events| - 1]), events[|events| - 1];
      NoStealIndex(events[..|events| - 1]);
      RegisteredStep(s, e);
      InverseStep(s, e);
      if e.Cleanup? && e.run < |s.runs| && !s.runs[e.run].cleaned && s.runs[e.run].id in s.subs {
        assert Owns(s, s.runs[e.run].id);
      }
    }
  }

  // ----- When there is one stream per pod -------------------------------------------------------

  ghost predicate OnePerPod(s: State) {
    forall q: nat, r: nat :: Going(s, q) && Going(s, r) && s.runs[q].pod == s.runs[r].pod ==> q == r
  }

  /** A start is accepted on a pod where a run that has lost its entry is still going. */
  ghost predicate Crowds(s: State, e: Event) {
    && e.Start? && e.id !in s.subs && e.pod !in s.podSubs
    && exists r: nat :: Lost(s, r) && s.runs[r].pod == e.pod
  }

  lemma OnlyStartsAdd(s: State, e: Event, r: nat)
    requires Going(Apply(s, e), r)
    ensures r < |s.runs| ==> Going(s, r) && Apply(s, e).runs[r].pod == s.runs[r].pod
    ensures r >= |s.runs| ==>
              e.Start? && e.id !in s.subs && e.pod !in s.podSubs && r == |s.runs| && Apply(s, e).runs[r].pod == e.pod
  {
  }

  /** Whoever is still going on a free pod has lost its entry. */
  lemma FreePodLost(s: State, r: nat)
    requires Inv(s) && Going(s, r) && s.runs[r].pod !in s.podSubs
    ensures Lost(s, r)
  {
    if s.runs[r].id in s.subs {
      assert Owns(s, s.runs[r].id);
    }
  }

  /** Such a start is the only step that puts a second stream on a pod. */
  lemma OnePerPodStep(s: State, e: Event)
    requires Inv(s) && OnePerPod(s)
    ensures OnePerPod(Apply(s, e)) <==> !Crowds(s, e)
  {
    var s' := Apply(s, e);
    if Crowds(s, e) {
      var r: nat :| Lost(s, r) && s.runs[r].pod == e.pod;
      assert Going(s', r) && Going(s', |s.runs|);
    } else {
      forall q: nat, r: nat | Going(s', q) && Going(s', r) && s'.runs[q].pod == s'.runs[r].pod ensures q == r {
        OnlyStartsAdd(s, e, q);
        OnlyStartsAdd(s, e, r);
        if q < |s.runs| && r >= |s.runs| {
          FreePodLost(s, q);
        } else if r < |s.runs| && q >= |s.runs| {
          FreePodLost(s, r);
        }
      }
    }
  }

  ghost predicate NoCrowd(events: seq<Event>) {
    events != [] ==>
      && NoCrowd(events[..|events| - 1])
      && !Crowds(Exec(events[..|events| - 1]), events[|events| - 1])
  }

  lemma OnePerPodLast(events: seq<Event>)
    requires events != [] && OnePerPod(Exec(events[..|events| - 1]))
    ensures OnePerPod(Exec(events)) <==> !Crowds(Exec(events[..|events| - 1]), events[|events| - 1])
  {
    IndexSound(events[..|events| - 1]);
    OnePerPodStep(Exec(events[..|events| - 1]), events[|events| - 1]);
  }

  /** Over whole runs: there is one stream per pod at all times iff no start crowds. */
  lemma {:induction false} OnePerPodIff(events: seq<Event>)
    ensures (forall n :: 0 <= n <= |events| ==> OnePerPod(Exec(events[..n]))) <==> NoCrowd(events)
  {
    assert Exec([]) == Init && OnePerPod(Init);
    hide Apply, OnePerPod, Crowds;
    assert events[..|events|] == events;
    if events == [] {
      assert forall n :: 0 <= n <= |events| ==> events[..n] == [];
    } else {
      var init := events[..|events| - 1];
      OnePerPodIff(init);
      assert forall n :: 0 <= n <= |init| ==> init[..n] == events[..n];
      assert init[..|init|] == init;
      if OnePerPod(Exec(init)) {
        OnePerPodLast(events);
      }
    }
  }

  /** Without a steal nothing crosses and nothing crowds. */
  lemma {:induction false} NoStealEnough(events: seq<Event>)
    requires NoSteal(events)
    ensures NoCrossing(events) && NoCrowd(events)
  {
    if events != [] {
      var init, e := events[..|events| - 1], events[|events| - 1];
      NoStealEnough(init);
      NoStealIndex(init);
      var s := Exec(init);
      if e.Cleanup? && e.run < |s.runs| && s.runs[e.run].id in s.subs {
        assert Owns(s, s.runs[e.run].id);
      }
    }
  }

  /** Then at most one run per pod is still going, and `podSubs` is exactly the inverse of `subs`. */
  lemma OneStreamPerPod(events: seq<Event>, q: nat, r: nat, id: string, pod: string)
    requires NoSteal(events)
    ensures var s := Exec(events);
            && ((pod in s.podSubs && s.podSubs[pod] == id) <==> (id in s.subs && s.subs[id].pod == pod))
            && (Going(s, q) && Going(s, r) && s.runs[q].pod == s.runs[r].pod ==> q == r)
  {
    NoStealIndex(events);
    NoStealEnough(events);
    OnePerPodIff(events);
    var s := Exec(events);
    assert events[..|events|] == events && OnePerPod(s);
    if id in s.subs {
      assert Owns(s, id);
    }
  }

  // ----- What callers can do about it -----------------------------------------------------------

  /** No id is started again before the cleanup of its previous run. */
  predicate NoEarlyRestart(events: seq<Event>) {
    events != [] ==>
      var s, e := Exec(events[..|events| - 1]), events[|events| - 1];
      && NoEarlyRestart(events[..|events| - 1])
      && (e.Start? ==> forall r :: 0 <= r < |s.runs| && s.runs[r].id == e.id ==> s.runs[r].cleaned)
  }

  predicate DistinctLive(s: State) {
    forall q, r :: 0 <= q < r < |s.runs| && !s.runs[q].cleaned && !s.runs[r].cleaned ==> s.runs[q].id != s.runs[r].id
  }

  lemma DistinctStep(s: State, e: Event)
    requires DistinctLive(s)
    requires e.Start? ==> forall r :: 0 <= r < |s.runs| && s.runs[r].id == e.id ==> s.runs[r].cleaned
    ensures DistinctLive(Apply(s, e))
  {
    var s' := Apply(s, e);
    forall r | 0 <= r < |s.runs|
      ensures r < |s'.runs| && s'.runs[r].id == s.runs[r].id && (s.runs[r].cleaned ==> s'.runs[r].cleaned)
    {
    }
  }

  lemma DistinctNoSteal(s: State, e: Event)
    requires Inv(s) && DistinctLive(s)
    ensures !Steals(s, e)
  {
    if e.Cleanup? && e.run < |s.runs| && s.runs[e.run].id in s.subs {
      assert Owns(s, s.runs[e.run].id);
    }
  }

  /** Waiting for the cleanup before an id is used again is enough. */
  lemma {:induction false} PatientCallersSafe(events: seq<Event>)
    requires NoEarlyRestart(events)
    ensures NoSteal(events) && DistinctLive(Exec(events))
  {
    if events != [] {
      var s, e := Exec(events[..|events| - 1]), events[|events| - 1];
      PatientCallersSafe(events[..|events| - 1]);
      IndexSound(events[..|events| - 1]);
      DistinctStep(s, e);
      DistinctNoSteal(s, e);
    }
  }

  /** After every history: a new id on a free pod gets a run of its own, and stopping it puts both maps back. */
  lemma StopUndoesStart(events: seq<Event>, id: string, pod: string)
    requires id !in Exec(events).subs && pod !in Exec(events).podSubs
    ensures var s := Exec(events);
            var t, u := Exec(events + [Start(id, pod)]), Exec(events + [Start(id, pod), Stop(id)]);
            && t.runs == s.runs + [Run(id, pod, false, false)]
            && t.subs == s.subs[id := Sub(|s.runs|, pod)] && t.podSubs == s.podSubs[pod := id]
            && u.subs == s.subs && u.podSubs == s.podSubs && u.runs == s.runs + [Run(id, pod, true, false)]
  {
    var e1 := events + [Start(id, pod)];
    var e2 := e1 + [Stop(id)];
    assert e1[..|events|] == events && e2[..|e1|] == e1 && e2 == events + [Start(id, pod), Stop(id)];
  }

  /** After every history: StopAll leaves nothing registered, stops every run that was, and no other. */
  lemma StopAllStops(events: seq<Event>, r: nat)
    requires r < |Exec(events).runs|
    ensures var s, t := Exec(events), Exec(events + [StopAll]);
            && t.subs == map[] && t.podSubs == map[] && |t.runs| == |s.runs|
            && t.runs[r] == if RegisteredRun(s, r) then s.runs[r].(stopped := true) else s.runs[r]
  {
    assert (events + [StopAll])[..|events|] == events;
    IndexSound(events);
    var s := Exec(events);
    if r in Registered(s) {
      var id :| id in s.subs && s.subs[id].run == r;
      assert Owns(s, id);
    }
  }

  /**
   Three histories with an early restart. On another pod the new run can no longer be stopped while its pod stays
   blocked, until StopAll frees the pod and a second stream starts beside it. On the same pod the cleanup itself frees
   the pod.
   */
  lemma EarlyRestartBreaksIndex(a: string, b: string, p: string, q: string)
    requires a != b && p != q
    ensures var s := Exec([Start(a, p), Stop(a), Start(a, q), Cleanup(0)]);
            && a !in s.subs && q in s.podSubs && |s.runs| == 2 && s.runs[1] == Run(a, q, false, false)
            && Apply(s, Stop(a)) == s && Apply(s, Start(b, q)) == s
    ensures var s := Exec([Start(a, p), Stop(a), Start(a, q), Cleanup(0), StopAll, Start(b, q)]);
            |s.runs| == 3 && s.runs[1] == Run(a, q, false, false) && s.runs[2] == Run(b, q, false, false)
    ensures var s := Exec([Start(a, p), Stop(a), Start(a, p), Cleanup(0), Start(b, p)]);
            |s.runs| == 3 && s.runs[1] == Run(a, p, false, false) && s.runs[2] == Run(b, p, false, false)
  {
    var e2 := [Start(a, p), Stop(a)];
    var one := Run(a, p, true, false);
    AfterStop(a, p);
    AfterRestart(e2, a, q, one);
    AfterRestart(e2, a, p, one);
    var other, same := e2 + [Start(a, q), Cleanup(0)], e2 + [Start(a, p), Cleanup(0)];
    assert other == [Start(a, p), Stop(a), Start(a, q), Cleanup(0)];
    var stopped := other + [StopAll];
    assert stopped[..|other|] == other;
    assert Exec(stopped) == State(map[], map[], Exec(other).runs);
    SecondStream(stopped, b, q);
    assert stopped + [Start(b, q)] == [Start(a, p), Stop(a), Start(a, q), Cleanup(0), StopAll, Start(b, q)];
    SecondStream(same, b, p);
    assert same + [Start(b, p)] == [Start(a, p), Stop(a), Start(a, p), Cleanup(0), Start(b, p)];
  }

  lemma SecondStream(events: seq<Event>, b: string, pod: string)
    requires Exec(events).subs == map[] && Exec(events).podSubs == map[]
    ensures Exec(events + [Start(b, pod)]).runs == Exec(events).runs + [Run(b, pod, false, false)]
  {
    assert (events + [Start(b, pod)])[..|events|] == events;
  }

  lemma AfterStop(a: string, p: string)
    ensures Exec([Start(a, p), Stop(a)]) == State(map[], map[], [Run(a, p, true, false)])
  {
    var e1 := [Start(a, p)];
    var e2 := [Start(a, p), Stop(a)];
    assert e1[..0] == [] && e2[..1] == e1;
    assert Exec([]) == Init;
    assert Exec(e1) == State(map[a := Sub(0, p)], map[p := a], [Run(a, p, false, false)]);
  }

  lemma AfterRestart(e2: seq<Event>, a: string, pod: string, one: Run)
    requires Exec(e2) == State(map[], map[], [one]) && one.id == a && !one.cleaned
    ensures var s := Exec(e2 + [Start(a, pod), Cleanup(0)]);
            && s.subs == map[] && s.runs == [one.(cleaned := true), Run(a, pod, false, false)]
            && s.podSubs == if one.pod == pod then map[] else map[pod := a]
  {
    var e3 := e2 + [Start(a, pod)];
    var e4 := e3 + [Cleanup(0)];
    assert e3[..|e2|] == e2 && e4[..|e3|] == e3;
    assert Exec(e3) == State(map[a := Sub(1, pod)], map[pod := a], [one, Run(a, pod, false, false)]);
    assert e4 == e2 + [Start(a, pod), Cleanup(0)];
  }
}
