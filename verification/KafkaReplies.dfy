/**
 Replies and job slots within one uninterrupted session of the processor: who answers a message,
 how often, where to, and how many logs.collect jobs run at a time.
 */
module KafkaReplies {
  import opened Foundation
  import opened KafkaProcessor
  import opened KafkaProtocol

  /**
   How many replies a message must get. Besides messages without a usable reply address, only one kind
   goes unanswered: in commit-first mode, a command whose up-front commit failed.
   */
  function Expected(cfg: Config, m: Message, out: Outcome): nat {
    if cfg.adapter.Some? then
      if (cfg.commitFirst ==> out.commit.Acked?) && Passes(cfg, m, out.claimed) && !out.reaction.ExecError?
         && (out.reaction.Accepted? || (m.replyTopic != "" && m.correlationId != "")) then 1 else 0
    else
      if Parses(m) && MayReply(cfg, m) && !(cfg.commitFirst && Admitted(cfg, m) && !out.commit.Acked?) then 1 else 0
  }

  function Attempts(h: seq<Effect>, o: nat): nat {
    if h == [] then 0
    else Attempts(h[..|h| - 1], o) + (if h[|h| - 1].Publish? && h[|h| - 1].offset == o then 1 else 0)
  }

  lemma AttemptsSnoc(h: seq<Effect>, e: Effect, o: nat)
    ensures Attempts(h + [e], o) == Attempts(h, o) + if e.Publish? && e.offset == o then 1 else 0
  {
    assert (h + [e])[..|h|] == h;
  }

  predicate AddressedTo(e: Effect, m: Message) {
    e.Publish? ==> e.topic == m.replyTopic && e.correlationId == m.correlationId
  }

  /** Replies the plan will still make, itself or through a job it will start. */
  function Owed(p: Plan): nat {
    match p
    case Done(_) => 0
    case Do(e, n) => Owed(n) + if e.Publish? || (e.Execute? && e.reaction.Accepted?) then 1 else 0
  }

  predicate About(p: Plan, o: nat, m: Message) {
    p.Do? ==> p.effect.offset == o && AddressedTo(p.effect, m) && About(p.next, o, m)
  }

  lemma {:induction false} LoggedOwes(p: Plan, o: nat, m: Message)
    requires About(p, o, m)
    ensures Owed(Logged(p, o)) == Owed(p) && About(Logged(p, o), o, m)
  {
    if p.Do? {
      LoggedOwes(p.next, o, m);
    }
  }

  lemma PublishPlanOwes(m: Message, o: nat, reply: Reply, ok: bool, next: Plan)
    requires About(next, o, m) && Owed(next) == 0
    ensures Owed(PublishPlan(m, o, reply, ok, next)) == 1 && About(PublishPlan(m, o, reply, ok, next), o, m)
  {
    var n := PublishPlan(m, o, reply, ok, next).next;
    assert Owed(n) == 0 && About(n, o, m);
  }

  lemma ExecutePlanOwes(cfg: Config, o: nat, m: Message, out: Outcome)
    ensures Owed(ExecutePlan(cfg, o, m, out)) == 1 && About(ExecutePlan(cfg, o, m, out), o, m)
  {
    var commit := CommitPlan(cfg, o, out);
    assert Owed(commit) == 0 && About(commit, o, m);
    PublishPlanOwes(m, o, ExecutorResponse, out.published, commit);
    var failed := if cfg.commitFirst then Done(Some(ExecuteFailed))
                  else Do(Commit(o, out.commit), Done(Some(ExecuteFailed)));
    assert Owed(failed) == 0 && About(failed, o, m);
    PublishPlanOwes(m, o, ExecutorFailure, out.published, failed);
  }

  lemma DualPlanOwes(cfg: Config, o: nat, m: Message, out: Outcome)
    ensures About(DualExecutePlan(cfg, o, m, out), o, m)
    ensures Owed(DualExecutePlan(cfg, o, m, out)) ==
            if !out.reaction.ExecError? && (out.reaction.Accepted? || (m.replyTopic != "" && m.correlationId != ""))
            then 1 else 0
  {
    var commit := CommitPlan(cfg, o, out);
    assert Owed(commit) == 0 && About(commit, o, m);
    PublishPlanOwes(m, o, ExecutorResponse, out.published, commit);
    var failed := DualFailure(cfg, o, out, ExecuteFailed);
    assert Owed(failed) == 0 && About(failed, o, m);
  }

  lemma MessagePlanOwes(cfg: Config, o: nat, m: Message, out: Outcome)
    ensures Owed(MessagePlan(cfg, o, m, out)) == Expected(cfg, m, out)
    ensures About(MessagePlan(cfg, o, m, out), o, m)
  {
    ExecutePlanOwes(cfg, o, m, out);
    DualPlanOwes(cfg, o, m, out);
    assert Owed(CommitPlan(cfg, o, out)) == 0 && About(CommitPlan(cfg, o, out), o, m);
    LoggedOwes(HandlePlan(cfg, o, m, out), o, m);
  }

  // ----- The invariant --------------------------------------------------------------------------

  /** Replies made, due from a running job, or still in the plan. */
  function Account(s: State, o: nat): nat {
    Attempts(s.session, o)
    + (if o in s.pool.collecting then 1 else 0)
    + (if s.todo.Do? && o == s.position - 1 then Owed(s.todo) else 0)
  }

  ghost predicate PoolInv(w: Setup, s: State) {
    && s.pool.collecting !! s.pool.finishing
    && s.pool.slots == |s.pool.collecting| + |s.pool.finishing| <= w.poolSize
    && (forall o :: o in s.pool.finishing ==> Attempts(s.session, o) >= 1)
  }

  /** Every reply went to the topic and correlation id of its message. */
  ghost predicate Addressed(w: Setup, session: seq<Effect>) {
    forall i :: 0 <= i < |session| && session[i].Publish? ==>
                  session[i].offset < |w.log| && AddressedTo(session[i], w.log[session[i].offset])
  }

  /** The accounts are balanced: each fetched message has exactly the replies it must get, no other offset has any. */
  ghost predicate Balanced(w: Setup, s: State) {
    && (forall o: nat :: s.first <= o < s.position ==>
          o < |w.log| && o in s.outcomes && Account(s, o) == Expected(w.cfg, w.log[o], s.outcomes[o]))
    && (forall o: nat :: o < s.first || s.position <= o ==> Account(s, o) == 0)
  }

  ghost predicate RepliesInv(w: Setup, s: State) {
    && s.first <= s.position && (s.position > s.first ==> s.position <= |w.log|)
    && Balanced(w, s)
    && (s.todo.Do? ==> s.first < s.position && About(s.todo, s.position - 1, w.log[s.position - 1]))
    && Addressed(w, s.session)
  }

  /** A step that leaves every account as it was keeps them balanced. */
  lemma BalanceCarries(w: Setup, s: State, s': State)
    requires s.first <= s.position && (s.position > s.first ==> s.position <= |w.log|) && Balanced(w, s)
    requires s'.first == s.first && s'.position == s.position && s'.outcomes == s.outcomes
    requires forall o: nat :: Account(s', o) == Account(s, o)
    ensures Balanced(w, s')
  {
    hide Account, Expected;
  }

  lemma AddressedSnoc(w: Setup, session: seq<Effect>, e: Effect)
    requires Addressed(w, session) && (e.Publish? ==> e.offset < |w.log| && AddressedTo(e, w.log[e.offset]))
    ensures Addressed(w, session + [e])
  {
  }

  /** The current message's account: nothing is owed twice. */
  lemma CurrentAccount(w: Setup, s: State)
    requires RepliesInv(w, s) && s.todo.Do?
    ensures var o := s.position - 1;
            Attempts(s.session, o) + (if o in s.pool.collecting then 1 else 0) + Owed(s.todo) <= 1
  {
    hide Attempts, Owed;
    assert Account(s, s.position - 1) <= 1;
  }

  lemma PerformAccount(w: Setup, s: State, o: nat)
    requires RepliesInv(w, s) && s.todo.Do? && Ready(w.poolSize, s.pool, s.todo.effect)
    ensures Account(Apply(w, s, Perform), o) == Account(s, o)
  {
    CurrentAccount(w, s);
    AttemptsSnoc(s.session, s.todo.effect, o);
    assert Owed(s.todo) >= Owed(s.todo.next);
    hide Attempts;
  }

  /** A message whose job is about to start has no job yet. */
  lemma NewJob(w: Setup, s: State)
    requires RepliesInv(w, s) && PoolInv(w, s)
    requires s.todo.Do? && s.todo.effect.Execute? && s.todo.effect.reaction.Accepted?
    ensures s.todo.effect.offset !in s.pool.collecting && s.todo.effect.offset !in s.pool.finishing
  {
    CurrentAccount(w, s);
    assert Owed(s.todo) >= 1 && s.todo.effect.offset == s.position - 1;
    hide Attempts, Owed, Balanced, Addressed;
  }

  lemma SlotTaken(p: Pool, o: nat)
    requires p.collecting !! p.finishing && p.slots == |p.collecting| + |p.finishing|
    requires o !in p.collecting && o !in p.finishing
    ensures var q := PoolAfter(p, Execute(o, Accepted));
            q.collecting !! q.finishing && q.slots == |q.collecting| + |q.finishing|
  {
  }

  lemma PerformPool(w: Setup, s: State)
    requires RepliesInv(w, s) && PoolInv(w, s) && s.todo.Do? && Ready(w.poolSize, s.pool, s.todo.effect)
    ensures PoolInv(w, Apply(w, s, Perform))
  {
    var e, s' := s.todo.effect, Apply(w, s, Perform);
    if e.Execute? && e.reaction.Accepted? {
      NewJob(w, s);
      SlotTaken(s.pool, e.offset);
    }
    hide Attempts, RepliesInv;
    forall o | o in s.pool.finishing ensures Attempts(s'.session, o) >= 1 {
      AttemptsSnoc(s.session, e, o);
    }
  }

  lemma PerformKeeps(w: Setup, s: State)
    requires RepliesInv(w, s) && PoolInv(w, s)
    ensures RepliesInv(w, Apply(w, s, Perform)) && PoolInv(w, Apply(w, s, Perform))
  {
    var s' := Apply(w, s, Perform);
    if s.todo.Do? && Ready(w.poolSize, s.pool, s.todo.effect) {
      assert About(s'.todo, s.position - 1, w.log[s.position - 1]);
      forall o: nat ensures Account(s', o) == Account(s, o) {
        PerformAccount(w, s, o);
      }
      hide Attempts, Owed, Account, About;
      PerformPool(w, s);
      BalanceCarries(w, s, s');
      AddressedSnoc(w, s.session, s.todo.effect);
    }
  }

  lemma JobAccount(w: Setup, s: State, job: nat, ok: bool, o: nat)
    requires job in s.pool.collecting && job < |w.log|
    ensures Account(Apply(w, s, JobPublish(job, ok)), o) == Account(s, o)
    ensures o in s.pool.finishing ==> Attempts(Apply(w, s, JobPublish(job, ok)).session, o) >= Attempts(s.session, o)
    ensures Attempts(Apply(w, s, JobPublish(job, ok)).session, job) >= 1
  {
    hide Attempts, Owed;
    var e := Publish(job, w.log[job].replyTopic, w.log[job].correlationId, JobResult, ok);
    AttemptsSnoc(s.session, e, o);
    AttemptsSnoc(s.session, e, job);
  }

  lemma JobPublishKeeps(w: Setup, s: State, job: nat, ok: bool)
    requires RepliesInv(w, s) && PoolInv(w, s)
    ensures RepliesInv(w, Apply(w, s, JobPublish(job, ok))) && PoolInv(w, Apply(w, s, JobPublish(job, ok)))
  {
    hide Attempts, Owed, Account, About;
    var s' := Apply(w, s, JobPublish(job, ok));
    if job in s.pool.collecting && job < |w.log| {
      forall o: nat ensures Account(s', o) == Account(s, o)
        && (o in s.pool.finishing ==> Attempts(s'.session, o) >= Attempts(s.session, o))
        && Attempts(s'.session, job) >= 1
      {
        JobAccount(w, s, job, ok, o);
      }
      BalanceCarries(w, s, s');
      AddressedSnoc(w, s.session, Publish(job, w.log[job].replyTopic, w.log[job].correlationId, JobResult, ok));
    }
  }

  lemma FetchKeeps(w: Setup, s: State, out: Outcome)
    requires RepliesInv(w, s) && PoolInv(w, s)
    ensures RepliesInv(w, Apply(w, s, Fetch(out))) && PoolInv(w, Apply(w, s, Fetch(out)))
  {
    var s' := Apply(w, s, Fetch(out));
    if s.todo.Done? && s.position < |w.log| {
      MessagePlanOwes(w.cfg, s.position, w.log[s.position], out);
      forall o: nat ensures Account(s', o) == Account(s, o) + if o == s.position then Owed(s'.todo) else 0 {}
      hide Attempts, Account, Owed, About, MessagePlan, Expected;
    }
  }

  lemma JobEndKeeps(w: Setup, s: State, job: nat)
    requires RepliesInv(w, s) && PoolInv(w, s)
    ensures RepliesInv(w, Apply(w, s, JobEnd(job))) && PoolInv(w, Apply(w, s, JobEnd(job)))
  {
    var s' := Apply(w, s, JobEnd(job));
    forall o: nat ensures Account(s', o) == Account(s, o) {}
    hide Attempts, Account, Owed, About, Expected;
    BalanceCarries(w, s, s');
  }

  lemma {:induction false} RepliesAlways(w: Setup, events: seq<Event>)
    ensures RepliesInv(w, Exec(w, events)) && PoolInv(w, Exec(w, events))
  {
    if events != [] {
      var s := Exec(w, events[..|events| - 1]);
      RepliesAlways(w, events[..|events| - 1]);
      match events[|events| - 1]
      case Fetch(out) => FetchKeeps(w, s, out);
      case Perform => PerformKeeps(w, s);
      case JobPublish(o, ok) => JobPublishKeeps(w, s, o, ok);
      case JobEnd(o) => JobEndKeeps(w, s, o);
      case Crash =>
    }
  }

  /** The message's replies, counting the one its still collecting job will make, are as many as it must get. */
  predicate Answered(w: Setup, s: State, o: nat) {
    && o < |w.log| && o in s.outcomes
    && Attempts(s.session, o) + (if o in s.pool.collecting then 1 else 0) == Expected(w.cfg, w.log[o], s.outcomes[o])
  }

  /** What a session shows to the outside; see `ExactlyOneReply`. */
  ghost predicate SessionSound(w: Setup, s: State) {
    && (forall o: nat :: s.first <= o < Handled(s) ==> Answered(w, s, o))
    && Addressed(w, s.session)
    && s.pool.slots == |s.pool.collecting| + |s.pool.finishing| <= w.poolSize
  }

  lemma InvariantGivesSoundness(w: Setup, s: State)
    requires RepliesInv(w, s) && PoolInv(w, s)
    ensures SessionSound(w, s)
  {
    forall o: nat | s.first <= o < Handled(s) ensures Answered(w, s, o) {
      assert Account(s, o) == Expected(w.cfg, w.log[o], s.outcomes[o]);
    }
  }

  /**
   Since the last restart, every message whose handling has finished was answered exactly as often as
   `Expected` says, counting the reply its still collecting job will make; every reply went to the
   message's own topic and correlation id; the channel holds exactly one slot per running job.
   */
  lemma ExactlyOneReply(w: Setup, events: seq<Event>)
    ensures SessionSound(w, Exec(w, events))
  {
    RepliesAlways(w, events);
    InvariantGivesSoundness(w, Exec(w, events));
  }

  /**
   On the JSON path, a message with a usable and allowed reply address is answered exactly once, by the loop or by its
   job, unless it is an admitted command of commit-first mode whose up-front commit failed: that one is never answered.
   */
  lemma AnsweredOnceIff(w: Setup, events: seq<Event>, o: nat)
    requires w.cfg.adapter.None? && o < |w.log| && Parses(w.log[o]) && MayReply(w.cfg, w.log[o])
    requires var s := Exec(w, events); s.first <= o < Handled(s) && o in s.outcomes
    ensures var s := Exec(w, events);
            var replies := Attempts(s.session, o) + if o in s.pool.collecting then 1 else 0;
            && replies <= 1
            && (replies == 0 <==> w.cfg.commitFirst && Admitted(w.cfg, w.log[o]) && !s.outcomes[o].commit.Acked?)
  {
    ExactlyOneReply(w, events);
    assert Answered(w, Exec(w, events), o);
  }

  /** A running job can always publish, and then always return its slot: the receive never blocks. */
  lemma JobsProgress(w: Setup, s: State, job: nat, ok: bool)
    requires RepliesInv(w, s) && PoolInv(w, s)
    ensures && (job in s.pool.collecting ==>
                  var t := Apply(w, s, JobPublish(job, ok));
                  Attempts(t.session, job) == Attempts(s.session, job) + 1 && t.pool.slots == s.pool.slots
                  && job in t.pool.finishing && job !in t.pool.collecting)
            && (job in s.pool.finishing ==>
                  var t := Apply(w, s, JobEnd(job));
                  t.pool.slots == s.pool.slots - 1 && job !in t.pool.finishing + t.pool.collecting)
  {
    hide Attempts, Owed, Expected, About;
    if job in s.pool.collecting {
      assert Account(s, job) >= 1;
      AttemptsSnoc(s.session, Publish(job, w.log[job].replyTopic, w.log[job].correlationId, JobResult, ok), job);
    }
    if job in s.pool.finishing {
      assert |s.pool.finishing| >= |{job}| by {
        assert s.pool.finishing == (s.pool.finishing - {job}) + {job};
      }
    }
  }
}
