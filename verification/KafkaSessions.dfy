/**
 The loop in `Run` and the runs of the protocol are the same thing: since the last restart, what the processor itself
 has done, and what its current handler will still do, are exactly the effects of `Run` on the fetched messages.
 */
module KafkaSessions {
  import opened Foundation
  import opened KafkaProcessor
  import opened KafkaProtocol
  import opened KafkaReplies

  /** The effects of the loop, without the replies of logs.collect jobs. */
  function Own(h: seq<Effect>): seq<Effect> {
    if h == [] then []
    else Own(h[..|h| - 1]) + if JobReply(h[|h| - 1]) then [] else [h[|h| - 1]]
  }

  predicate JobReply(e: Effect) {
    e.Publish? && e.reply.JobResult?
  }

  lemma OwnSnoc(h: seq<Effect>, e: Effect)
    ensures Own(h + [e]) == Own(h) + if JobReply(e) then [] else [e]
  {
    assert (h + [e])[..|h|] == h;
  }

  /** The outcomes of the messages fetched in this session, in order. */
  function Outs(s: State): seq<Outcome>
    requires s.first <= s.position && forall o: nat :: s.first <= o < s.position ==> o in s.outcomes
  {
    seq(s.position - s.first, i requires 0 <= i < s.position - s.first => s.outcomes[s.first + i])
  }

  predicate NoJobReply(p: Plan) {
    p.Do? ==> !JobReply(p.effect) && NoJobReply(p.next)
  }

  lemma {:induction false} LoggedNoJobReply(p: Plan, o: nat)
    requires NoJobReply(p)
    ensures NoJobReply(Logged(p, o))
  {
    if p.Do? {
      LoggedNoJobReply(p.next, o);
    }
  }

  lemma PublishNoJobReply(m: Message, o: nat, reply: Reply, ok: bool, next: Plan)
    requires !reply.JobResult? && NoJobReply(next)
    ensures NoJobReply(PublishPlan(m, o, reply, ok, next))
  {
    assert NoJobReply(PublishPlan(m, o, reply, ok, next).next);
  }

  lemma FailureNoJobReply(cfg: Config, o: nat, out: Outcome, cause: Cause)
    ensures NoJobReply(DualFailure(cfg, o, out, cause))
  {
    var p := DualFailure(cfg, o, out, cause);
    assert p.Do? ==> NoJobReply(p.next);
  }

  /** Handlers leave the job's reply to the job. */
  lemma PlanNoJobReply(cfg: Config, o: nat, m: Message, out: Outcome)
    ensures NoJobReply(MessagePlan(cfg, o, m, out))
  {
    var p, commit := HandlePlan(cfg, o, m, out), CommitPlan(cfg, o, out);
    var failed := Do(Commit(o, out.commit), Done(Some(ExecuteFailed)));
    assert NoJobReply(failed.next) && NoJobReply(failed);
    assert NoJobReply(commit);
    FailureNoJobReply(cfg, o, out, ExecuteFailed);
    FailureNoJobReply(cfg, o, out, ProtoFailed);
    FailureNoJobReply(cfg, o, out, DecodeFailed);
    PublishNoJobReply(m, o, ExecutorFailure, out.published, failed);
    PublishNoJobReply(m, o, ExecutorFailure, out.published, Done(Some(ExecuteFailed)));
    PublishNoJobReply(m, o, ExecutorResponse, out.published, commit);
    PublishNoJobReply(m, o, GuardRejection, out.published, commit);
    assert NoJobReply(ExecutePlan(cfg, o, m, out)) && NoJobReply(DualExecutePlan(cfg, o, m, out));
    LoggedNoJobReply(p, o);
  }

  predicate Fetched(w: Setup, s: State) {
    && s.first <= s.position && (s.first < s.position ==> s.position <= |w.log|)
    && forall o: nat :: s.first <= o < s.position ==> o in s.outcomes
  }

  /** What `Run` would do with the messages fetched so far; nothing when there are none. */
  function Expects(w: Setup, s: State): seq<Effect>
    requires Fetched(w, s)
  {
    if s.first == s.position then [] else SessionTrace(w.cfg, s.first, w.log, Outs(s))
  }

  ghost predicate SessionInv(w: Setup, s: State) {
    && Fetched(w, s) && NoJobReply(s.todo)
    && Own(s.session) + Trace(s.todo) == Expects(w, s)
  }

  /** One more fetched message adds its plan to what is expected. */
  lemma ExpectsSnoc(w: Setup, s: State, s': State, out: Outcome)
    requires Fetched(w, s) && s.position < |w.log|
    requires s'.first == s.first && s'.position == s.position + 1 && s'.outcomes == s.outcomes[s.position := out]
    ensures Fetched(w, s')
    ensures Expects(w, s') == Expects(w, s) + Trace(MessagePlan(w.cfg, s.position, w.log[s.position], out))
  {
    hide MessagePlan, Trace;
    var outs := Outs(s');
    var n := |outs| - 1;
    assert outs[..n] == Outs(s) && outs[n] == out && s.first + n == s.position;
    var plan := MessagePlan(w.cfg, s.first + n, w.log[s.first + n], out);
    assert SessionTrace(w.cfg, s.first, w.log, outs) == SessionTrace(w.cfg, s.first, w.log, outs[..n]) + Trace(plan);
    assert s.first == s.position ==> SessionTrace(w.cfg, s.first, w.log, outs[..n]) == [];
  }

  lemma FetchStep(w: Setup, s: State, out: Outcome)
    requires SessionInv(w, s)
    ensures SessionInv(w, Apply(w, s, Fetch(out)))
  {
    var s' := Apply(w, s, Fetch(out));
    if s.todo.Done? && s.position < |w.log| {
      assert Trace(s.todo) == [];
      hide MessagePlan, Expects, Own, Trace, NoJobReply, Fetched;
      PlanNoJobReply(w.cfg, s.position, w.log[s.position], out);
      ExpectsSnoc(w, s, s', out);
      assert Own(s.session) + [] == Own(s.session);
    }
  }

  lemma SameExpects(w: Setup, s: State, s': State)
    requires Fetched(w, s) && s'.first == s.first && s'.position == s.position && s'.outcomes == s.outcomes
    ensures Fetched(w, s') && Expects(w, s') == Expects(w, s)
  {
    assert Outs(s') == Outs(s);
  }

  lemma PerformStep(w: Setup, s: State)
    requires SessionInv(w, s)
    ensures SessionInv(w, Apply(w, s, Perform))
  {
    var s' := Apply(w, s, Perform);
    if s.todo.Do? && Ready(w.poolSize, s.pool, s.todo.effect) {
      OwnSnoc(s.session, s.todo.effect);
      assert Trace(s.todo) == [s.todo.effect] + Trace(s'.todo);
      assert Own(s'.session) + Trace(s'.todo) == Own(s.session) + ([s.todo.effect] + Trace(s'.todo));
      SameExpects(w, s, s');
    }
  }

  lemma SessionCarries(w: Setup, s: State, s': State)
    requires SessionInv(w, s) && s'.first == s.first && s'.position == s.position && s'.outcomes == s.outcomes
    requires s'.todo == s.todo && Own(s'.session) == Own(s.session)
    ensures SessionInv(w, s')
  {
    SameExpects(w, s, s');
  }

  /** Jobs leave the loop alone. */
  lemma JobFrame(w: Setup, s: State, ev: Event)
    requires ev.JobPublish? || ev.JobEnd?
    ensures var s' := Apply(w, s, ev);
            && s'.first == s.first && s'.position == s.position && s'.outcomes == s.outcomes && s'.todo == s.todo
            && Own(s'.session) == Own(s.session)
  {
    hide Own;
    if ev.JobPublish? && ev.job in s.pool.collecting && ev.job < |w.log| {
      var m := w.log[ev.job];
      OwnSnoc(s.session, Publish(ev.job, m.replyTopic, m.correlationId, JobResult, ev.ok));
    }
  }

  lemma JobStep(w: Setup, s: State, ev: Event)
    requires SessionInv(w, s) && (ev.JobPublish? || ev.JobEnd?)
    ensures SessionInv(w, Apply(w, s, ev))
  {
    hide SessionInv, Apply, Own;
    JobFrame(w, s, ev);
    SessionCarries(w, s, Apply(w, s, ev));
  }

  lemma {:induction false} SessionAlways(w: Setup, events: seq<Event>)
    ensures SessionInv(w, Exec(w, events))
  {
    if events != [] {
      var s := Exec(w, events[..|events| - 1]);
      SessionAlways(w, events[..|events| - 1]);
      match events[|events| - 1]
      case Fetch(out) => FetchStep(w, s, out);
      case Perform => PerformStep(w, s);
      case Crash =>
      case ev => JobStep(w, s, ev);
    }
  }

  /** Over every run: the loop's effects in the current session, done and to be done, are those of `Processor.Run`. */
  lemma SessionIsRun(w: Setup, events: seq<Event>)
    ensures var s := Exec(w, events);
            && Fetched(w, s)
            && Own(s.session) + Trace(s.todo) == Expects(w, s)
  {
    SessionAlways(w, events);
  }

  // ----- Counting in a session ------------------------------------------------------------------

  /** JSON: what is admitted, unless its up-front commit failed. Dual: what the adapter passes on, likewise. */
  function ExpectedExecutions(cfg: Config, m: Message, out: Outcome): nat {
    if && (cfg.commitFirst ==> out.commit.Acked?)
       && (if cfg.adapter.Some? then Passes(cfg, m, out.claimed) else Parses(m) && Admitted(cfg, m))
    then 1 else 0
  }

  lemma {:induction false} ExecutionsConcat(a: seq<Effect>, b: seq<Effect>, o: nat)
    ensures Executions(a + b, o) == Executions(a, o) + Executions(b, o)
    decreases |b|
  {
    if b == [] {
      assert a + b == a;
    } else {
      var init, e := b[..|b| - 1], b[|b| - 1];
      assert a + b == (a + init) + [e];
      ExecutionsSnoc(a + init, e);
      ExecutionsConcat(a, init, o);
    }
  }

  lemma {:induction false} OwnExecutions(h: seq<Effect>, o: nat)
    ensures Executions(Own(h), o) == Executions(h, o)
  {
    if h != [] {
      var init, e := h[..|h| - 1], h[|h| - 1];
      OwnExecutions(init, o);
      ExecutionsSnoc(Own(init), e);
      assert Own(init) + [] == Own(init);
    }
  }

  function ExecutesIn(p: Plan): nat {
    if p.Done? then 0 else ExecutesIn(p.next) + if p.effect.Execute? then 1 else 0
  }

  lemma {:induction false} TraceExecutions(p: Plan, o: nat, m: Message, q: nat)
    requires About(p, o, m)
    ensures Executions(Trace(p), q) == if q == o then ExecutesIn(p) else 0
  {
    if p.Do? {
      TraceExecutions(p.next, o, m, q);
      ExecutionsConcat([p.effect], Trace(p.next), q);
      ExecutionsSnoc([], p.effect);
      assert [] + [p.effect] == [p.effect];
    }
  }

  lemma {:induction false} LoggedExecutes(p: Plan, o: nat)
    ensures ExecutesIn(Logged(p, o)) == ExecutesIn(p)
  {
    if p.Do? {
      LoggedExecutes(p.next, o);
    }
  }

  lemma PublishExecutes(m: Message, o: nat, reply: Reply, ok: bool, next: Plan)
    requires ExecutesIn(next) == 0
    ensures ExecutesIn(PublishPlan(m, o, reply, ok, next)) == 0
  {
    assert ExecutesIn(PublishPlan(m, o, reply, ok, next).next) == 0;
  }

  lemma FailureExecutes(cfg: Config, o: nat, out: Outcome, cause: Cause)
    ensures ExecutesIn(DualFailure(cfg, o, out, cause)) == 0
  {
    var p := DualFailure(cfg, o, out, cause);
    assert p.Do? ==> ExecutesIn(p.next) == 0;
  }

  lemma PlanExecutes(cfg: Config, o: nat, m: Message, out: Outcome)
    ensures ExecutesIn(MessagePlan(cfg, o, m, out)) == ExpectedExecutions(cfg, m, out)
  {
    var p, commit := HandlePlan(cfg, o, m, out), CommitPlan(cfg, o, out);
    var failed := Do(Commit(o, out.commit), Done(Some(ExecuteFailed)));
    assert ExecutesIn(failed.next) == 0 && (commit.Do? ==> ExecutesIn(commit.next) == 0);
    assert ExecutesIn(commit) == 0 == ExecutesIn(failed);
    FailureExecutes(cfg, o, out, ExecuteFailed);
    PublishExecutes(m, o, ExecutorFailure, out.published, failed);
    PublishExecutes(m, o, ExecutorFailure, out.published, Done(Some(ExecuteFailed)));
    PublishExecutes(m, o, ExecutorResponse, out.published, commit);
    PublishExecutes(m, o, GuardRejection, out.published, commit);
    assert ExecutesIn(ExecutePlan(cfg, o, m, out).next) == 0 == ExecutesIn(DualExecutePlan(cfg, o, m, out).next);
    assert ExecutesIn(ExecutePlan(cfg, o, m, out)) == 1 == ExecutesIn(DualExecutePlan(cfg, o, m, out));
    FailureExecutes(cfg, o, out, ProtoFailed);
    FailureExecutes(cfg, o, out, DecodeFailed);
    LoggedExecutes(p, o);
  }

  lemma MessageExecutions(cfg: Config, p: nat, m: Message, out: Outcome, o: nat)
    ensures Executions(Trace(MessagePlan(cfg, p, m, out)), o) == if p == o then ExpectedExecutions(cfg, m, out) else 0
  {
    hide MessagePlan, ExpectedExecutions;
    MessagePlanOwes(cfg, p, m, out);
    TraceExecutions(MessagePlan(cfg, p, m, out), p, m, o);
    PlanExecutes(cfg, p, m, out);
  }

  lemma {:induction false} SessionExecutions(cfg: Config, start: nat, log: seq<Message>, outs: seq<Outcome>, o: nat)
    requires start + |outs| <= |log|
    ensures Executions(SessionTrace(cfg, start, log, outs), o) ==
            if start <= o < start + |outs| then ExpectedExecutions(cfg, log[o], outs[o - start]) else 0
    decreases |outs|
  {
    if outs != [] {
      var n := |outs| - 1;
      SessionSnoc(cfg, start, log, outs, n);
      assert outs[..n + 1] == outs;
      hide SessionTrace, MessagePlan, Trace, ExpectedExecutions, Executions;
      var p := MessagePlan(cfg, start + n, log[start + n], outs[n]);
      SessionExecutions(cfg, start, log, outs[..n], o);
      ExecutionsConcat(SessionTrace(cfg, start, log, outs[..n]), Trace(p), o);
      MessageExecutions(cfg, start + n, log[start + n], outs[n], o);
    }
  }

  /** Executions done and executions still planned, against the messages fetched. */
  lemma ExecutionsBalance(w: Setup, s: State, o: nat)
    requires SessionInv(w, s)
    ensures Executions(s.session, o) + Executions(Trace(s.todo), o) ==
            if s.first <= o < s.position then ExpectedExecutions(w.cfg, w.log[o], s.outcomes[o]) else 0
  {
    OwnExecutions(s.session, o);
    ExecutionsConcat(Own(s.session), Trace(s.todo), o);
    hide Own, Trace, ExpectedExecutions, NoJobReply;
    if s.first < s.position {
      SessionExecutions(w.cfg, s.first, w.log, Outs(s), o);
    }
  }

  /**
   Over every run: a message whose handling has finished in this session was executed exactly once if
   `ExpectedExecutions` says so, and otherwise not at all; messages not fetched were not executed.
   */
  lemma ExecutedExactly(w: Setup, events: seq<Event>, o: nat)
    ensures var s := Exec(w, events);
            && (s.first <= o < Handled(s) ==>
                  && o < |w.log| && o in s.outcomes
                  && Executions(s.session, o) == ExpectedExecutions(w.cfg, w.log[o], s.outcomes[o]))
            && (o < s.first || s.position <= o ==> Executions(s.session, o) == 0)
  {
    SessionAlways(w, events);
    RepliesAlways(w, events);
    var s := Exec(w, events);
    ExecutionsBalance(w, s, o);
    PlannedExecutions(w, s, o);
  }

  lemma PlannedExecutions(w: Setup, s: State, o: nat)
    requires RepliesInv(w, s)
    ensures o < Handled(s) || s.position <= o ==> Executions(Trace(s.todo), o) == 0
  {
    if s.todo.Do? {
      TraceExecutions(s.todo, s.position - 1, w.log[s.position - 1], o);
    }
  }
}
