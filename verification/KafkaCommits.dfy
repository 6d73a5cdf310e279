/** Which messages are committed, how often, and where the group's position stands because of it. */
module KafkaCommits {
  import opened Foundation
  import opened KafkaProcessor
  import opened KafkaProtocol
  import opened KafkaReplies
  import opened KafkaSessions

  /**
   Commit-first mode commits what it is about to execute, and on the JSON path nothing else: `commit` does nothing for
   messages that do not parse or are rejected. Commit-after mode commits everything but a message whose reply failed.
   */
  function ExpectedCommits(cfg: Config, m: Message, out: Outcome): nat {
    if cfg.commitFirst then if cfg.adapter.Some? || (Parses(m) && Admitted(cfg, m)) then 1 else 0
    else if ReplyFails(cfg, m, out) then 0 else 1
  }

  /** The processor itself has to answer, and publishing the answer fails. */
  predicate ReplyFails(cfg: Config, m: Message, out: Outcome) {
    && !out.published
    && if cfg.adapter.Some? then
         && Passes(cfg, m, out.claimed) && (out.reaction.Replied? || out.reaction.PoolFull?)
         && m.replyTopic != "" && m.correlationId != ""
       else Parses(m) && MayReply(cfg, m) && !(Admitted(cfg, m) && out.reaction.Accepted?)
  }

  function Commits(h: seq<Effect>, o: nat): nat {
    if h == [] then 0
    else Commits(h[..|h| - 1], o) + if h[|h| - 1].Commit? && h[|h| - 1].offset == o then 1 else 0
  }

  lemma CommitsSnoc(h: seq<Effect>, e: Effect, o: nat)
    ensures Commits(h + [e], o) == Commits(h, o) + if e.Commit? && e.offset == o then 1 else 0
  {
    assert (h + [e])[..|h|] == h;
  }

  /** Where the position stands after these effects: behind the last commit that reached the broker. */
  function Replay(start: nat, h: seq<Effect>): nat {
    if h == [] then start
    else
      var e := h[|h| - 1];
      if e.Commit? && Applied(e.result) then e.offset + 1 else Replay(start, h[..|h| - 1])
  }

  lemma ReplaySnoc(start: nat, h: seq<Effect>, e: Effect)
    ensures Replay(start, h + [e]) == if e.Commit? && Applied(e.result) then e.offset + 1 else Replay(start, h)
  {
    assert (h + [e])[..|h|] == h;
  }

  function CommitsIn(p: Plan): nat {
    match p
    case Done(_) => 0
    case Do(e, n) => CommitsIn(n) + if e.Commit? then 1 else 0
  }

  lemma {:induction false} LoggedCommits(p: Plan, o: nat)
    ensures CommitsIn(Logged(p, o)) == CommitsIn(p)
  {
    if p.Do? {
      LoggedCommits(p.next, o);
    }
  }

  lemma PublishCommits(m: Message, o: nat, reply: Reply, ok: bool, next: Plan)
    ensures CommitsIn(PublishPlan(m, o, reply, ok, next)) == if ok then CommitsIn(next) else 0
  {
    var p := PublishPlan(m, o, reply, ok, next);
    assert CommitsIn(p) == CommitsIn(p.next);
  }

  lemma LastCommit(o: nat, r: CommitResult, err: Option<Cause>)
    ensures CommitsIn(Do(Commit(o, r), Done(err))) == 1
  {
  }

  lemma ExecuteCommits(cfg: Config, o: nat, m: Message, out: Outcome)
    ensures CommitsIn(ExecutePlan(cfg, o, m, out)) ==
            if cfg.commitFirst || (!out.reaction.Accepted? && !out.published) then 0 else 1
    ensures CommitsIn(DualExecutePlan(cfg, o, m, out)) ==
            if cfg.commitFirst
               || (&& !out.reaction.ExecError? && !out.reaction.Accepted? && m.replyTopic != "" && m.correlationId != ""
                   && !out.published)
            then 0 else 1
  {
    var after := if cfg.commitFirst then 0 else 1;
    var failed := if cfg.commitFirst then Done(Some(ExecuteFailed))
                  else Do(Commit(o, out.commit), Done(Some(ExecuteFailed)));
    LastCommit(o, out.commit, Some(ExecuteFailed));
    assert CommitsIn(CommitPlan(cfg, o, out)) == after == CommitsIn(failed);
    assert CommitsIn(DualFailure(cfg, o, out, ExecuteFailed)) == after;
    PublishCommits(m, o, ExecutorFailure, out.published, failed);
    PublishCommits(m, o, ExecutorResponse, out.published, CommitPlan(cfg, o, out));
    assert CommitsIn(ExecutePlan(cfg, o, m, out)) == CommitsIn(ExecutePlan(cfg, o, m, out).next);
    assert CommitsIn(DualExecutePlan(cfg, o, m, out)) == CommitsIn(DualExecutePlan(cfg, o, m, out).next);
  }

  lemma PlanCommits(cfg: Config, o: nat, m: Message, out: Outcome)
    ensures CommitsIn(MessagePlan(cfg, o, m, out)) == ExpectedCommits(cfg, m, out)
  {
    var p := HandlePlan(cfg, o, m, out);
    LoggedCommits(p, o);
    ExecuteCommits(cfg, o, m, out);
    PublishCommits(m, o, GuardRejection, out.published, CommitPlan(cfg, o, out));
    var after := if cfg.commitFirst then 0 else 1;
    assert CommitsIn(CommitPlan(cfg, o, out)) == after == CommitsIn(DualFailure(cfg, o, out, ProtoFailed));
    assert CommitsIn(DualFailure(cfg, o, out, DecodeFailed)) == after;
    assert p.Do? ==> CommitsIn(p) == CommitsIn(p.next) + if p.effect.Commit? then 1 else 0;
    hide CommitsIn;
  }

  // ----- The invariant --------------------------------------------------------------------------

  /** Commits made, or still in the plan. */
  function CommitAccount(s: State, o: nat): nat {
    Commits(s.session, o) + if s.todo.Do? && o == s.position - 1 then CommitsIn(s.todo) else 0
  }

  predicate Accounted(w: Setup, s: State, o: nat) {
    o < |w.log| && o in s.outcomes && CommitAccount(s, o) == ExpectedCommits(w.cfg, w.log[o], s.outcomes[o])
  }

  ghost predicate CommitInv(w: Setup, s: State) {
    && s.committed == Replay(w.base, s.history) == Replay(s.first, s.session)
    && (forall o: nat :: s.first <= o < s.position ==> Accounted(w, s, o))
    && (forall o: nat :: o < s.first || s.position <= o ==> CommitAccount(s, o) == 0)
  }

  lemma AccountStep(w: Setup, s: State, ev: Event, o: nat)
    requires RepliesInv(w, s) && !ev.Crash? && !ev.Fetch?
    ensures CommitAccount(Apply(w, s, ev), o) == CommitAccount(s, o)
  {
    match ev
    case Perform =>
      if s.todo.Do? && Ready(w.poolSize, s.pool, s.todo.effect) {
        CommitsSnoc(s.session, s.todo.effect, o);
        assert CommitsIn(s.todo) == CommitsIn(s.todo.next) + if s.todo.effect.Commit? then 1 else 0;
        assert s.todo.effect.offset == s.position - 1 && (s.todo.next.Done? ==> CommitsIn(s.todo.next) == 0);
        hide Commits, CommitsIn, RepliesInv;
      }
    case JobPublish(job, ok) =>
      if job in s.pool.collecting && job < |w.log| {
        hide RepliesInv, CommitsIn;
        var m := w.log[job];
        CommitsSnoc(s.session, Publish(job, m.replyTopic, m.correlationId, JobResult, ok), o);
      }
    case JobEnd(_) =>
  }

  lemma ReplayStep(w: Setup, s: State, ev: Event)
    requires s.committed == Replay(w.base, s.history) == Replay(s.first, s.session) && !ev.Crash?
    ensures var s' := Apply(w, s, ev); s'.committed == Replay(w.base, s'.history) == Replay(s'.first, s'.session)
  {
    var s' := Apply(w, s, ev);
    if s'.session != s.session {
      var e := s'.session[|s.session|];
      assert s'.history == s.history + [e];
      ReplaySnoc(w.base, s.history, e);
      ReplaySnoc(s.first, s.session, e);
    }
  }

  lemma FetchStep(w: Setup, s: State, out: Outcome)
    requires RepliesInv(w, s) && CommitInv(w, s)
    ensures CommitInv(w, Apply(w, s, Fetch(out)))
  {
    var s' := Apply(w, s, Fetch(out));
    if s.todo.Done? && s.position < |w.log| {
      PlanCommits(w.cfg, s.position, w.log[s.position], out);
      forall o: nat
        ensures CommitAccount(s', o) == CommitAccount(s, o) + if o == s.position then CommitsIn(s'.todo) else 0
      {
      }
      forall o: nat | s'.first <= o < s'.position ensures Accounted(w, s', o) {
        assert o < s.position ==> Accounted(w, s, o);
      }
    }
  }

  lemma CommitStep(w: Setup, s: State, ev: Event)
    requires RepliesInv(w, s) && CommitInv(w, s)
    ensures CommitInv(w, Apply(w, s, ev))
  {
    hide Replay, CommitAccount, Apply, RepliesInv;
    if ev.Fetch? {
      FetchStep(w, s, ev.out);
    } else if ev.Crash? {
      FreshSession(w, s);
    } else {
      ReplayStep(w, s, ev);
      SameSession(w, s, ev);
      forall o: nat ensures CommitAccount(Apply(w, s, ev), o) == CommitAccount(s, o) {
        AccountStep(w, s, ev, o);
      }
      AccountsCarry(w, s, Apply(w, s, ev));
    }
  }

  lemma SameSession(w: Setup, s: State, ev: Event)
    requires !ev.Crash? && !ev.Fetch?
    ensures var s' := Apply(w, s, ev); s'.first == s.first && s'.position == s.position && s'.outcomes == s.outcomes
  {
  }

  lemma AccountsCarry(w: Setup, s: State, s': State)
    requires CommitInv(w, s) && s'.committed == Replay(w.base, s'.history) == Replay(s'.first, s'.session)
    requires s'.first == s.first && s'.position == s.position && s'.outcomes == s.outcomes
    requires forall o: nat :: CommitAccount(s', o) == CommitAccount(s, o)
    ensures CommitInv(w, s')
  {
    forall o: nat | s.first <= o < s.position ensures Accounted(w, s', o) {
      assert Accounted(w, s, o) && CommitAccount(s', o) == CommitAccount(s, o);
    }
  }

  lemma FreshSession(w: Setup, s: State)
    requires s.committed == Replay(w.base, s.history)
    ensures CommitInv(w, Apply(w, s, Crash))
  {
  }

  lemma {:induction false} CommitsAlways(w: Setup, events: seq<Event>)
    ensures CommitInv(w, Exec(w, events))
  {
    if events != [] {
      CommitsAlways(w, events[..|events| - 1]);
      RepliesAlways(w, events[..|events| - 1]);
      CommitStep(w, Exec(w, events[..|events| - 1]), events[|events| - 1]);
    }
  }

  // ----- What it means --------------------------------------------------------------------------

  /**
   Over every run with crashes, in both modes and on both paths: a handled message was committed exactly as often as
   `ExpectedCommits` says, and the position is where the last commit that reached the broker put it.
   */
  lemma CommittedExactly(w: Setup, events: seq<Event>, o: nat)
    ensures var s := Exec(w, events);
            && s.committed == Replay(w.base, s.history)
            && (s.first <= o < Handled(s) ==>
                  && o < |w.log| && o in s.outcomes
                  && Commits(s.session, o) == ExpectedCommits(w.cfg, w.log[o], s.outcomes[o]))
  {
    CommitsAlways(w, events);
    var s := Exec(w, events);
    assert s.first <= o < Handled(s) ==> Accounted(w, s, o) && CommitAccount(s, o) == Commits(s.session, o);
  }

  // ----- Which messages come back after a restart -----------------------------------------------

  /** The message is committed, and the commit reaches the broker. */
  predicate Reaches(cfg: Config, m: Message, out: Outcome) {
    ExpectedCommits(cfg, m, out) == 1 && Applied(out.commit)
  }

  lemma {:induction false} ReplayConcat(start: nat, a: seq<Effect>, b: seq<Effect>)
    ensures Replay(start, a + b) == Replay(Replay(start, a), b)
    decreases |b|
  {
    if b == [] {
      assert a + b == a;
    } else {
      var init, e := b[..|b| - 1], b[|b| - 1];
      assert a + b == (a + init) + [e];
      ReplaySnoc(start, a + init, e);
      ReplayConcat(start, a, init);
    }
  }

  /** Every commit of the plan fares as the outcome says. */
  predicate CommitsFare(p: Plan, r: CommitResult) {
    p.Do? ==> (p.effect.Commit? ==> p.effect.result == r) && CommitsFare(p.next, r)
  }

  lemma {:induction false} LoggedFare(p: Plan, o: nat, r: CommitResult)
    requires CommitsFare(p, r)
    ensures CommitsFare(Logged(p, o), r)
  {
    if p.Do? {
      LoggedFare(p.next, o, r);
    }
  }

  lemma PublishFare(m: Message, o: nat, reply: Reply, ok: bool, next: Plan, r: CommitResult)
    requires CommitsFare(next, r)
    ensures CommitsFare(PublishPlan(m, o, reply, ok, next), r)
  {
    assert CommitsFare(PublishPlan(m, o, reply, ok, next).next, r);
  }

  lemma LastFare(o: nat, r: CommitResult, err: Option<Cause>)
    ensures CommitsFare(Done(err), r) && CommitsFare(Do(Commit(o, r), Done(err)), r)
  {
  }

  lemma PlanFare(cfg: Config, o: nat, m: Message, out: Outcome)
    ensures CommitsFare(MessagePlan(cfg, o, m, out), out.commit)
  {
    var p, r, commit := HandlePlan(cfg, o, m, out), out.commit, CommitPlan(cfg, o, out);
    var failed := Do(Commit(o, r), Done(Some(ExecuteFailed)));
    LastFare(o, r, Some(ExecuteFailed));
    LastFare(o, r, Some(ProtoFailed));
    LastFare(o, r, Some(DecodeFailed));
    assert CommitsFare(commit, r);
    PublishFare(m, o, ExecutorFailure, out.published, failed, r);
    PublishFare(m, o, ExecutorFailure, out.published, Done(Some(ExecuteFailed)), r);
    PublishFare(m, o, ExecutorResponse, out.published, commit, r);
    PublishFare(m, o, GuardRejection, out.published, commit, r);
    assert CommitsFare(ExecutePlan(cfg, o, m, out), r) && CommitsFare(DualExecutePlan(cfg, o, m, out), r);
    LoggedFare(p, o, r);
  }

  lemma {:induction false} TraceReplay(p: Plan, o: nat, m: Message, r: CommitResult, start: nat)
    requires About(p, o, m) && CommitsFare(p, r)
    ensures Replay(start, Trace(p)) == if CommitsIn(p) > 0 && Applied(r) then o + 1 else start
  {
    if p.Do? {
      var e := p.effect;
      ReplayConcat(start, [e], Trace(p.next));
      ReplaySnoc(start, [], e);
      assert [] + [e] == [e];
      TraceReplay(p.next, o, m, r, Replay(start, [e]));
    }
  }

  /** A commit of `p` was made in this session, and it reached the broker. */
  predicate Landed(s: State, p: nat) {
    p in s.outcomes && Commits(s.session, p) > 0 && Applied(s.outcomes[p].commit)
  }

  /** The position is behind the last commit that landed. */
  ghost predicate LandInv(s: State) {
    && s.first <= s.committed && (s.committed > s.first ==> Landed(s, s.committed - 1))
    && (forall p: nat :: Landed(s, p) ==> p < s.committed)
  }

  /** What the plan still commits fares as the outcome of the current message says. */
  predicate FareInv(s: State) {
    s.todo.Do? ==>
      s.position > 0 && s.position - 1 in s.outcomes && CommitsFare(s.todo, s.outcomes[s.position - 1].commit)
  }

  lemma FareStep(w: Setup, s: State, ev: Event)
    requires FareInv(s)
    ensures FareInv(Apply(w, s, ev))
  {
    hide MessagePlan;
    if ev.Fetch? && s.position < |w.log| {
      PlanFare(w.cfg, s.position, w.log[s.position], ev.out);
    }
  }

  lemma LandFetch(w: Setup, s: State, out: Outcome)
    requires CommitInv(w, s) && LandInv(s)
    ensures LandInv(Apply(w, s, Fetch(out)))
  {
    hide MessagePlan;
    var s' := Apply(w, s, Fetch(out));
    assert CommitAccount(s, s.position) == 0;
    hide Commits, CommitsIn;
    assert forall p: nat :: Landed(s', p) <==> Landed(s, p);
  }

  /** Nothing is committed at or behind the position of the consumer. */
  lemma CommitsBefore(w: Setup, s: State, p: nat)
    requires CommitInv(w, s) && s.position <= p
    ensures Commits(s.session, p) == 0
  {
    hide Commits, CommitsIn;
    assert CommitAccount(s, p) == 0;
  }

  lemma LandPerform(w: Setup, s: State)
    requires RepliesInv(w, s) && CommitInv(w, s) && FareInv(s) && LandInv(s)
    ensures LandInv(Apply(w, s, Perform))
  {
    if s.todo.Do? && Ready(w.poolSize, s.pool, s.todo.effect) {
      var s', e := Apply(w, s, Perform), s.todo.effect;
      assert e.offset == s.position - 1 && (e.Commit? ==> e.result == s.outcomes[e.offset].commit);
      forall p: nat
        ensures Commits(s'.session, p) == Commits(s.session, p) + if e.Commit? && e.offset == p then 1 else 0
        ensures s.position <= p ==> Commits(s.session, p) == 0
      {
        CommitsSnoc(s.session, e, p);
        if s.position <= p {
          CommitsBefore(w, s, p);
        }
      }
      hide CommitInv, RepliesInv, FareInv, Commits;
      LandEffect(s, s', e);
    }
  }

  lemma LandEffect(s: State, s': State, e: Effect)
    requires LandInv(s) && s'.first == s.first && s'.outcomes == s.outcomes
    requires s'.committed == if e.Commit? && Applied(e.result) then e.offset + 1 else s.committed
    requires e.Commit? ==> s.first <= e.offset == s.position - 1
    requires e.Commit? ==> e.offset in s.outcomes && e.result == s.outcomes[e.offset].commit
    requires forall p: nat ::
               Commits(s'.session, p) == Commits(s.session, p) + if e.Commit? && e.offset == p then 1 else 0
    requires forall p: nat :: s.position <= p ==> Commits(s.session, p) == 0
    ensures LandInv(s')
  {
    hide Commits;
    forall p: nat ensures Landed(s', p) <==> Landed(s, p) || (e.Commit? && Applied(e.result) && p == e.offset) {}
    assert forall p: nat :: Landed(s, p) ==> p < s.position;
  }

  lemma LandJob(w: Setup, s: State, ev: Event)
    requires LandInv(s) && (ev.JobPublish? || ev.JobEnd?)
    ensures LandInv(Apply(w, s, ev))
  {
    var s' := Apply(w, s, ev);
    if s'.session != s.session {
      forall p: nat ensures Commits(s'.session, p) == Commits(s.session, p) {
        CommitsSnoc(s.session, s'.session[|s.session|], p);
      }
    }
    hide Commits;
    assert forall p: nat :: Landed(s', p) <==> Landed(s, p);
  }

  lemma {:induction false} LandAlways(w: Setup, events: seq<Event>)
    ensures FareInv(Exec(w, events)) && LandInv(Exec(w, events))
  {
    if events != [] {
      var init := events[..|events| - 1];
      var s, ev := Exec(w, init), events[|events| - 1];
      LandAlways(w, init);
      CommitsAlways(w, init);
      RepliesAlways(w, init);
      FareStep(w, s, ev);
      hide CommitInv, RepliesInv, FareInv;
      match ev
      case Fetch(out) => LandFetch(w, s, out);
      case Perform => LandPerform(w, s);
      case Crash =>
      case _ => LandJob(w, s, ev);
    }
  }

  /** The message is one that is committed, and its handling has come that far. */
  predicate Reached(w: Setup, s: State, p: nat) {
    && p < |w.log| && p in s.outcomes && Reaches(w.cfg, w.log[p], s.outcomes[p])
    && (p < Handled(s) || Commits(s.session, p) > 0)
  }

  lemma ReachedIsLanded(w: Setup, s: State, p: nat)
    requires CommitInv(w, s) && s.first <= p < s.position
    ensures Reached(w, s, p) <==> Landed(s, p)
  {
    hide Commits, CommitsIn, ExpectedCommits;
    assert Accounted(w, s, p);
    assert ExpectedCommits(w.cfg, w.log[p], s.outcomes[p]) <= 1 by {
      AtMostOneCommit(w.cfg, w.log[p], s.outcomes[p]);
    }
  }

  lemma AtMostOneCommit(cfg: Config, m: Message, out: Outcome)
    ensures ExpectedCommits(cfg, m, out) <= 1
  {
  }

  /**
   Over every run, in both modes and on both paths, wherever the crash falls: a message of this session is fetched
   again iff neither its commit nor that of a later message has reached the broker. Older ones never are.
   */
  lemma FetchedAgainIff(w: Setup, events: seq<Event>, o: nat)
    ensures var s := Exec(w, events);
            Exec(w, events + [Crash]).position <= o <==>
            s.first <= o && forall p: nat :: o <= p < s.position ==> !Reached(w, s, p)
  {
    CommitsAlways(w, events);
    LandAlways(w, events);
    assert (events + [Crash])[..|events|] == events;
    var s := Exec(w, events);
    forall p: nat | s.first <= p < s.position ensures Reached(w, s, p) <==> Landed(s, p) {
      ReachedIsLanded(w, s, p);
    }
    if s.committed > s.first && s.position < s.committed {
      CommitsBefore(w, s, s.committed - 1);
    }
    hide Reached, CommitInv, Commits;
    assert s.committed > s.first ==> Landed(s, s.committed - 1) && s.committed <= s.position;
  }

  /** An admitted message, handled or at least committed up front, whose commit reached the broker. */
  predicate Moved(w: Setup, s: State, p: nat) {
    && p < |w.log| && p in s.outcomes && Parses(w.log[p]) && Admitted(w.cfg, w.log[p])
    && Applied(s.outcomes[p].commit) && (p < Handled(s) || Commits(s.session, p) > 0)
  }

  /**
   In commit-first mode on the JSON path, wherever the crash falls: an unparseable or rejected message of this session
   comes back after a restart, to be rejected again, iff no admitted message behind it has moved the position.
   */
  lemma RejectedComeBack(w: Setup, events: seq<Event>, o: nat)
    requires w.cfg.commitFirst && w.cfg.adapter.None?
    requires o < |w.log| && !(Parses(w.log[o]) && Admitted(w.cfg, w.log[o]))
    ensures var s := Exec(w, events);
            Exec(w, events + [Crash]).position <= o <==>
            s.first <= o && forall p: nat :: o < p < s.position ==> !Moved(w, s, p)
  {
    FetchedAgainIff(w, events, o);
    var s := Exec(w, events);
    forall p: nat ensures Reached(w, s, p) <==> Moved(w, s, p) {}
    assert !Moved(w, s, o);
  }
}
