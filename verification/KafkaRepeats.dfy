/** When a command can be executed more than once: committing after the work allows any number of times. */
module KafkaRepeats {
  import opened Foundation
  import opened KafkaProcessor
  import opened KafkaProtocol
  import opened KafkaReplies
  import opened KafkaSessions
  import opened KafkaCommits

  /** The message gets to the executor, on the dual path unless the response sink takes it. */
  predicate Executable(cfg: Config, m: Message) {
    if cfg.adapter.Some? then Passes(cfg, m, false) else Parses(m) && Admitted(cfg, m)
  }

  /** The sink has no pending request, the executor answers, publishing works, the commit is acknowledged. */
  const Good := Outcome(Replied, false, false, true, Acked)

  // ----- Performing a whole plan ----------------------------------------------------------------

  /** No execution of the plan has to wait for the state of the jobs channel. */
  predicate Calm(p: Plan) {
    p.Do? ==> (p.effect.Execute? ==> p.effect.reaction.Replied?) && Calm(p.next)
  }

  lemma {:induction false} LoggedCalm(p: Plan, o: nat)
    requires Calm(p)
    ensures Calm(Logged(p, o))
  {
    if p.Do? {
      LoggedCalm(p.next, o);
    }
  }

  lemma GoodPlanCalm(cfg: Config, o: nat, m: Message)
    ensures Calm(MessagePlan(cfg, o, m, Good))
  {
    var commit := CommitPlan(cfg, o, Good);
    assert Calm(commit);
    assert Calm(PublishPlan(m, o, ExecutorResponse, true, commit));
    assert Calm(PublishPlan(m, o, GuardRejection, true, commit));
    assert Calm(ExecutePlan(cfg, o, m, Good)) && Calm(DualExecutePlan(cfg, o, m, Good));
    LoggedCalm(HandlePlan(cfg, o, m, Good), o);
  }

  lemma PerformOne(w: Setup, s: State)
    requires s.todo.Do? && Calm(s.todo)
    ensures var t, e := Apply(w, s, Perform), s.todo.effect;
            && t.todo == s.todo.next && t.position == s.position && t.history == s.history + [e]
            && t.committed == Replay(s.committed, [e])
  {
    ReplaySnoc(s.committed, [], s.todo.effect);
    assert [] + [s.todo.effect] == [s.todo.effect];
  }

  lemma FirstEffect(p: Plan, h: seq<Effect>, committed: nat)
    requires p.Do?
    ensures h + [p.effect] + Trace(p.next) == h + Trace(p)
    ensures Replay(Replay(committed, [p.effect]), Trace(p.next)) == Replay(committed, Trace(p))
  {
    ReplayConcat(committed, [p.effect], Trace(p.next));
  }

  /** From any state with a calm plan, performing it to its end has exactly its effects. */
  lemma {:induction false} Drain(w: Setup, events: seq<Event>) returns (more: seq<Event>)
    requires Calm(Exec(w, events).todo)
    ensures var s, t := Exec(w, events), Exec(w, events + more);
            && t.todo.Done? && t.position == s.position && t.history == s.history + Trace(s.todo)
            && t.committed == Replay(s.committed, Trace(s.todo))
    decreases Exec(w, events).todo
  {
    hide Apply;
    var s := Exec(w, events);
    if s.todo.Done? {
      more := [];
      assert events + more == events && s.history + [] == s.history;
    } else {
      var next := events + [Perform];
      assert next[..|events|] == events;
      PerformOne(w, s);
      FirstEffect(s.todo, s.history, s.committed);
      var rest := Drain(w, next);
      more := [Perform] + rest;
      assert events + more == next + rest;
    }
  }

  /** In commit-after mode, one good turn moves the group past the message and executes no other one. */
  lemma GoodTurn(w: Setup, o: nat, q: nat, committed: nat)
    requires !w.cfg.commitFirst && o < |w.log|
    ensures var t := Trace(MessagePlan(w.cfg, o, w.log[o], Good));
            Replay(committed, t) == o + 1 && (q != o ==> Executions(t, q) == 0)
  {
    var m := w.log[o];
    var p := MessagePlan(w.cfg, o, m, Good);
    MessagePlanOwes(w.cfg, o, m, Good);
    PlanFare(w.cfg, o, m, Good);
    PlanCommits(w.cfg, o, m, Good);
    TraceReplay(p, o, m, Acked, committed);
    TraceExecutions(p, o, m, q);
  }

  lemma Advance(w: Setup, events: seq<Event>) returns (more: seq<Event>)
    requires !w.cfg.commitFirst
    requires var s := Exec(w, events); s.todo.Done? && s.position == s.committed < |w.log|
    ensures var s, t := Exec(w, events), Exec(w, events + more);
            && t.todo.Done? && t.position == t.committed == s.position + 1
            && forall q: nat :: q != s.position ==> Executions(t.history, q) == Executions(s.history, q)
  {
    var s, next := Exec(w, events), events + [Fetch(Good)];
    assert next[..|events|] == events;
    var p := MessagePlan(w.cfg, s.position, w.log[s.position], Good);
    GoodPlanCalm(w.cfg, s.position, w.log[s.position]);
    assert Exec(w, next).todo == p;
    var rest := Drain(w, next);
    more := [Fetch(Good)] + rest;
    assert events + more == next + rest;
    GoodTurn(w, s.position, s.position, s.committed);
    forall q: nat | q != s.position ensures Executions(s.history + Trace(p), q) == Executions(s.history, q) {
      ExecutionsConcat(s.history, Trace(p), q);
      GoodTurn(w, s.position, q, s.committed);
    }
  }

  /** Every offset from the base on can be reached with nothing from there on executed yet. */
  lemma {:induction false} Reach(w: Setup, o: nat) returns (events: seq<Event>)
    requires !w.cfg.commitFirst && w.base <= o <= |w.log|
    ensures var s := Exec(w, events);
            s.todo.Done? && s.position == s.committed == o && forall q: nat :: q >= o ==> Executions(s.history, q) == 0
    decreases o - w.base
  {
    if o == w.base {
      events := [];
    } else {
      var before := Reach(w, o - 1);
      var more := Advance(w, before);
      events := before + more;
    }
  }

  // ----- Any number of executions ---------------------------------------------------------------

  /** Fetched, executed, and lost to a crash before the commit. */
  lemma ExecuteAndCrash(w: Setup, events: seq<Event>) returns (more: seq<Event>)
    requires !w.cfg.commitFirst
    requires var s := Exec(w, events);
             s.todo.Done? && s.position == s.committed < |w.log| && Executable(w.cfg, w.log[s.position])
    ensures var s := Exec(w, events);
            Exec(w, events + more) == Start(s.committed, s.history + [Execute(s.position, Replied)])
  {
    var s := Exec(w, events);
    var e1 := events + [Fetch(Good)];
    var e2 := e1 + [Perform];
    more := [Fetch(Good), Perform, Crash];
    assert e1[..|events|] == events && e2[..|e1|] == e1 && (e2 + [Crash])[..|e2|] == e2;
    assert events + more == e2 + [Crash];
    var p := MessagePlan(w.cfg, s.position, w.log[s.position], Good);
    assert p.Do? && p.effect == Execute(s.position, Replied);
    assert Exec(w, e1).todo == p;
  }

  lemma {:induction false} Repeat(w: Setup, o: nat, n: nat) returns (events: seq<Event>)
    requires !w.cfg.commitFirst && w.base <= o < |w.log| && Executable(w.cfg, w.log[o])
    ensures var s := Exec(w, events); s.todo.Done? && s.position == s.committed == o && Executions(s.history, o) == n
    decreases n
  {
    if n == 0 {
      events := Reach(w, o);
    } else {
      var before := Repeat(w, o, n - 1);
      var more := ExecuteAndCrash(w, before);
      events := before + more;
      ExecutionsSnoc(Exec(w, before).history, Execute(o, Replied));
    }
  }

  /** Commit-after, on both paths: crashes can make any executable message run any number of times. */
  lemma CommitAfterMayRepeat(w: Setup, o: nat, n: nat)
    requires !w.cfg.commitFirst && w.base <= o < |w.log| && Executable(w.cfg, w.log[o])
    ensures exists events :: Executions(Exec(w, events).history, o) == n
  {
    var events := Repeat(w, o, n);
  }

  // ----- Nothing executable, nothing executed ---------------------------------------------------

  predicate Inert(w: Setup) {
    forall o :: w.base <= o < |w.log| ==> !Executable(w.cfg, w.log[o])
  }

  ghost predicate IdleInv(w: Setup, s: State) {
    && w.base <= s.first && w.base <= s.committed && ExecutesIn(s.todo) == 0
    && forall o: nat :: Executions(s.history, o) == 0
  }

  lemma IdleStep(w: Setup, s: State, ev: Event)
    requires Inert(w) && RepliesInv(w, s) && IdleInv(w, s)
    ensures IdleInv(w, Apply(w, s, ev))
  {
    var s' := Apply(w, s, ev);
    match ev
    case Fetch(out) =>
      if s.todo.Done? && s.position < |w.log| {
        PlanExecutes(w.cfg, s.position, w.log[s.position], out);
      }
    case Perform =>
      if s.todo.Do? {
        ExecutionsSnoc(s.history, s.todo.effect);
      }
    case JobPublish(o, ok) =>
      if o < |w.log| {
        ExecutionsSnoc(s.history, Publish(o, w.log[o].replyTopic, w.log[o].correlationId, JobResult, ok));
      }
    case _ =>
  }

  lemma {:induction false} IdleAlways(w: Setup, events: seq<Event>)
    requires Inert(w)
    ensures IdleInv(w, Exec(w, events))
  {
    if events != [] {
      IdleAlways(w, events[..|events| - 1]);
      RepliesAlways(w, events[..|events| - 1]);
      IdleStep(w, Exec(w, events[..|events| - 1]), events[|events| - 1]);
    }
  }

  /** No run executes an offset twice iff the mode is commit-first, or there is nothing to execute at all. */
  lemma AtMostOnceIff(w: Setup)
    ensures (forall events: seq<Event>, o: nat :: Executions(Exec(w, events).history, o) <= 1) <==>
            w.cfg.commitFirst || Inert(w)
  {
    if w.cfg.commitFirst {
      forall events: seq<Event>, o: nat ensures Executions(Exec(w, events).history, o) <= 1 {
        AtMostOnce(w, events);
      }
    } else if Inert(w) {
      forall events: seq<Event>, o: nat ensures Executions(Exec(w, events).history, o) <= 1 {
        IdleAlways(w, events);
      }
    } else {
      var o: nat :| w.base <= o < |w.log| && Executable(w.cfg, w.log[o]);
      CommitAfterMayRepeat(w, o, 2);
    }
  }

  /** With the adapter in protobuf mode, or without an executor, no run executes anything. */
  lemma ProtobufNeverExecutes(w: Setup, events: seq<Event>, o: nat)
    requires w.cfg.adapter.Some? && (w.cfg.adapter.value.mode.ProtobufMode? || !w.cfg.adapter.value.executor)
    ensures Executions(Exec(w, events).history, o) == 0
  {
    IdleAlways(w, events);
  }
}
