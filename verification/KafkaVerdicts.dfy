/**
 What happens to a message, said from its own fields, the guard, the adapter and the outcomes: who is executed, who is
 answered with what, who is dropped, in which order, and which error `Run` logs.
 */
module KafkaVerdicts {
  import opened Foundation
  import opened KafkaProcessor
  import opened KafkaProtocol
  import opened KafkaReplies
  import opened KafkaSessions

  /** A command with both reply headers. */
  predicate Complete(m: Message) {
    m.body != None && m.correlationId != "" && m.replyTopic != ""
  }

  /** JSON path: a complete command the guard admits with its topic. Dual path: a command for an executor. */
  predicate ForExecutor(cfg: Config, m: Message) {
    match cfg.adapter
    case None =>
      Complete(m) && (cfg.guard == None || (Clears(cfg.guard.value, m) && cfg.guard.value.allowsTopic(m.replyTopic)))
    case Some(a) => m.body != None && a.executor && ReadsAsJson(a, m)
  }

  predicate Clears(g: Guard, m: Message) {
    m.body.Some? && g.admits(m.body.value)
  }

  predicate ReadsAsJson(a: Adapter, m: Message) {
    || a.mode == JsonMode
    || (a.mode == DualMode && m.looksJson)
    || (a.mode == DualMode && m.messageType == "" && m.direction == "")
  }

  /** The guard refuses the command but not its reply topic. */
  predicate Refused(cfg: Config, m: Message) {
    && cfg.adapter == None && Complete(m)
    && cfg.guard.Some? && cfg.guard.value.allowsTopic(m.replyTopic) && !Clears(cfg.guard.value, m)
  }

  function DropReason(cfg: Config, m: Message): Option<Reason> {
    if cfg.adapter.Some? then None
    else if !Complete(m) then Some(Unparseable)
    else if cfg.guard.Some? && !cfg.guard.value.allowsTopic(m.replyTopic) then Some(ForbiddenTopic)
    else None
  }

  /** A pending request of the core client gets the message. */
  predicate SinkTakes(cfg: Config, m: Message, out: Outcome) {
    cfg.adapter.Some? && cfg.adapter.value.sink && m.direction == "RESPONSE" && out.claimed
  }

  predicate GetsExecuted(cfg: Config, m: Message, out: Outcome) {
    ForExecutor(cfg, m) && !SinkTakes(cfg, m, out)
  }

  function ReplyDue(cfg: Config, m: Message, out: Outcome): Option<Reply> {
    if Refused(cfg, m) then Some(GuardRejection)
    else if !GetsExecuted(cfg, m, out) || out.reaction == Accepted then None
    else if out.reaction == ExecError then if cfg.adapter == None then Some(ExecutorFailure) else None
    else if m.correlationId != "" && m.replyTopic != "" then Some(ExecutorResponse)
    else None
  }

  /** The error of the adapter or of the executor. */
  function Failure(cfg: Config, m: Message, out: Outcome): Option<Cause> {
    if GetsExecuted(cfg, m, out) then if out.reaction == ExecError then Some(ExecuteFailed) else None
    else if cfg.adapter == None || SinkTakes(cfg, m, out) then None
    else
      var a := cfg.adapter.value;
      if ReadsAsJson(a, m) then if a.executor then Some(DecodeFailed) else None
      else if a.dispatcher && out.protoFails then Some(ProtoFailed)
      else None
  }

  function Logs(o: nat, cause: Option<Cause>): seq<Effect> {
    if cause.Some? then [LogError(o, cause.value)] else []
  }

  /** Everything that happens once the message is not held back by a failed up-front commit. */
  function Body(cfg: Config, o: nat, m: Message, out: Outcome): seq<Effect> {
    var reply, drop := ReplyDue(cfg, m, out), DropReason(cfg, m);
    var unsaid := reply.Some? && !out.published;
    var late := !cfg.commitFirst && !unsaid;
    (if GetsExecuted(cfg, m, out) then [Execute(o, out.reaction)] else [])
    + (if drop.Some? then [Drop(o, drop.value)] else [])
    + (if reply.Some? then [Publish(o, m.replyTopic, m.correlationId, reply.value, out.published)] else [])
    + (if late then [Commit(o, out.commit)] else [])
    + Logs(o, if unsaid then Some(PublishFailed)
              else if Failure(cfg, m, out).Some? then Failure(cfg, m, out)
              else if late && out.commit != Acked then Some(CommitFailed)
              else None)
  }

  function Script(cfg: Config, o: nat, m: Message, out: Outcome): seq<Effect> {
    if cfg.commitFirst && (cfg.adapter.Some? || ForExecutor(cfg, m)) then
      [Commit(o, out.commit)] + if out.commit == Acked then Body(cfg, o, m, out) else [LogError(o, CommitFailed)]
    else Body(cfg, o, m, out)
  }

  lemma TraceOne(e: Effect, err: Option<Cause>)
    ensures Trace(Do(e, Done(err))) == [e] && ErrorOf(Do(e, Done(err))) == err
  {
    assert Trace(Done(err)) == [];
  }

  lemma TraceStep(e: Effect, n: Plan)
    ensures Trace(Do(e, n)) == [e] + Trace(n) && ErrorOf(Do(e, n)) == ErrorOf(n)
  {
  }

  /** The parser's predicates mean what they say. */
  lemma Meanings(cfg: Config, m: Message, out: Outcome)
    ensures Parses(m) <==> Complete(m)
    ensures cfg.adapter.None? ==> ((Parses(m) && Admitted(cfg, m)) <==> ForExecutor(cfg, m))
    ensures cfg.adapter.None? && Parses(m) && !Admitted(cfg, m) ==> (MayReply(cfg, m) <==> Refused(cfg, m))
    ensures Passes(cfg, m, out.claimed) <==> cfg.adapter.Some? && GetsExecuted(cfg, m, out)
  {
  }

  /** The commit at the end, with the error it may leave. */
  function Ending(cfg: Config, o: nat, out: Outcome): seq<Effect> {
    if cfg.commitFirst then []
    else [Commit(o, out.commit)] + if out.commit == Acked then [] else [LogError(o, CommitFailed)]
  }

  function Whole(p: Plan, o: nat): seq<Effect> {
    Trace(p) + Logs(o, ErrorOf(p))
  }

  lemma WholeStep(e: Effect, n: Plan, o: nat)
    ensures Whole(Do(e, n), o) == [e] + Whole(n, o)
  {
    TraceStep(e, n);
    assert ([e] + Trace(n)) + Logs(o, ErrorOf(n)) == [e] + (Trace(n) + Logs(o, ErrorOf(n)));
  }

  lemma WholeDone(err: Option<Cause>, o: nat)
    ensures Whole(Done(err), o) == Logs(o, err)
  {
    assert Trace(Done(err)) == [] && [] + Logs(o, err) == Logs(o, err);
  }

  lemma EndingWhole(cfg: Config, o: nat, out: Outcome)
    ensures Whole(CommitPlan(cfg, o, out), o) == Ending(cfg, o, out)
  {
    WholeDone(None, o);
    WholeDone(Some(CommitFailed), o);
    WholeStep(Commit(o, out.commit), Done(if out.commit.Acked? then None else Some(CommitFailed)), o);
    assert [Commit(o, out.commit)] + [] == [Commit(o, out.commit)];
  }

  lemma PublishWhole(m: Message, o: nat, reply: Reply, ok: bool, next: Plan)
    ensures Whole(PublishPlan(m, o, reply, ok, next), o) ==
            [Publish(o, m.replyTopic, m.correlationId, reply, ok)]
            + if ok then Whole(next, o) else [LogError(o, PublishFailed)]
  {
    WholeDone(Some(PublishFailed), o);
    WholeStep(Publish(o, m.replyTopic, m.correlationId, reply, ok), if ok then next else Done(Some(PublishFailed)), o);
  }

  lemma FailureWhole(cfg: Config, o: nat, out: Outcome, cause: Cause)
    ensures Whole(DualFailure(cfg, o, out, cause), o) ==
            (if cfg.commitFirst then [] else [Commit(o, out.commit)]) + [LogError(o, cause)]
  {
    WholeDone(Some(cause), o);
    WholeStep(Commit(o, out.commit), Done(Some(cause)), o);
    assert [] + [LogError(o, cause)] == [LogError(o, cause)];
  }

  /** The end of the body of a message that has been answered, or needs no answer. */
  function Rest(cfg: Config, o: nat, out: Outcome, failure: Option<Cause>): seq<Effect> {
    if failure.None? then Ending(cfg, o, out)
    else (if cfg.commitFirst then [] else [Commit(o, out.commit)]) + [LogError(o, failure.value)]
  }

  function Answer(o: nat, m: Message, reply: Option<Reply>, ok: bool, rest: seq<Effect>): seq<Effect> {
    if reply.None? then rest
    else
      [Publish(o, m.replyTopic, m.correlationId, reply.value, ok)]
      + if ok then rest else [LogError(o, PublishFailed)]
  }

  lemma BodyWithoutDrop(cfg: Config, o: nat, m: Message, out: Outcome)
    requires DropReason(cfg, m) == None
    ensures Body(cfg, o, m, out) ==
            (if GetsExecuted(cfg, m, out) then [Execute(o, out.reaction)] else [])
            + Answer(o, m, ReplyDue(cfg, m, out), out.published, Rest(cfg, o, out, Failure(cfg, m, out)))
  {
    hide GetsExecuted, ReplyDue, Failure, DropReason;
  }

  lemma ExecuteWhole(cfg: Config, o: nat, m: Message, out: Outcome)
    requires cfg.adapter.None? && ForExecutor(cfg, m)
    ensures Whole(ExecutePlan(cfg, o, m, out), o) == Body(cfg, o, m, out)
  {
    var p := ExecutePlan(cfg, o, m, out);
    var failed := if cfg.commitFirst then Done(Some(ExecuteFailed))
                  else Do(Commit(o, out.commit), Done(Some(ExecuteFailed)));
    WholeStep(Execute(o, out.reaction), p.next, o);
    BodyWithoutDrop(cfg, o, m, out);
    EndingWhole(cfg, o, out);
    FailureWhole(cfg, o, out, ExecuteFailed);
    assert failed == DualFailure(cfg, o, out, ExecuteFailed);
    PublishWhole(m, o, ExecutorFailure, out.published, failed);
    PublishWhole(m, o, ExecutorResponse, out.published, CommitPlan(cfg, o, out));
    hide Whole, Body, Ending;
  }

  lemma DualExecuteWhole(cfg: Config, o: nat, m: Message, out: Outcome)
    requires cfg.adapter.Some? && GetsExecuted(cfg, m, out)
    ensures Whole(DualExecutePlan(cfg, o, m, out), o) == Body(cfg, o, m, out)
  {
    var p := DualExecutePlan(cfg, o, m, out);
    WholeStep(Execute(o, out.reaction), p.next, o);
    BodyWithoutDrop(cfg, o, m, out);
    EndingWhole(cfg, o, out);
    FailureWhole(cfg, o, out, ExecuteFailed);
    PublishWhole(m, o, ExecutorResponse, out.published, CommitPlan(cfg, o, out));
    hide Whole, Body, Ending;
  }

  lemma RoutedWhole(cfg: Config, o: nat, m: Message, out: Outcome)
    requires cfg.adapter.Some?
    ensures Whole(RoutedPlan(cfg, o, m, out), o) == Body(cfg, o, m, out)
  {
    if GetsExecuted(cfg, m, out) {
      DualExecuteWhole(cfg, o, m, out);
      hide Whole, Body;
    } else {
      BodyWithoutDrop(cfg, o, m, out);
      EndingWhole(cfg, o, out);
      FailureWhole(cfg, o, out, DecodeFailed);
      FailureWhole(cfg, o, out, ProtoFailed);
      hide Whole, Body, Ending;
      assert forall rest: seq<Effect> :: [] + rest == rest;
    }
  }

  lemma UnexecutedWhole(cfg: Config, o: nat, m: Message, out: Outcome)
    requires cfg.adapter.None? && !ForExecutor(cfg, m)
    ensures Whole(JsonPlan(cfg, o, m, out), o) == Body(cfg, o, m, out)
  {
    Meanings(cfg, m, out);
    EndingWhole(cfg, o, out);
    WholeStep(Drop(o, Unparseable), CommitPlan(cfg, o, out), o);
    WholeStep(Drop(o, ForbiddenTopic), CommitPlan(cfg, o, out), o);
    PublishWhole(m, o, GuardRejection, out.published, CommitPlan(cfg, o, out));
    hide Whole;
  }

  lemma CommitThenWhole(cfg: Config, o: nat, out: Outcome, next: Plan)
    ensures Whole(CommitThen(cfg, o, out, next), o) ==
            if !cfg.commitFirst then Whole(next, o)
            else [Commit(o, out.commit)] + if out.commit == Acked then Whole(next, o) else [LogError(o, CommitFailed)]
  {
    WholeDone(Some(CommitFailed), o);
    WholeStep(Commit(o, out.commit), if out.commit.Acked? then next else Done(Some(CommitFailed)), o);
  }

  /** Every message, outcome and configuration: the handler and `Run` do exactly what the script says, in that order. */
  lemma ScriptExact(cfg: Config, o: nat, m: Message, out: Outcome)
    ensures Trace(MessagePlan(cfg, o, m, out)) == Script(cfg, o, m, out)
  {
    TraceLogged(HandlePlan(cfg, o, m, out), o);
    assert Trace(MessagePlan(cfg, o, m, out)) == Whole(HandlePlan(cfg, o, m, out), o);
    Meanings(cfg, m, out);
    if cfg.adapter.Some? {
      RoutedWhole(cfg, o, m, out);
      CommitThenWhole(cfg, o, out, RoutedPlan(cfg, o, m, out));
    } else if ForExecutor(cfg, m) {
      ExecuteWhole(cfg, o, m, out);
      CommitThenWhole(cfg, o, out, ExecutePlan(cfg, o, m, out));
    } else {
      UnexecutedWhole(cfg, o, m, out);
    }
  }

  /** Over every run, for every handled message of the session: executed iff it is for the executor and gets there. */
  lemma ExecutedIff(w: Setup, events: seq<Event>, o: nat)
    requires var s := Exec(w, events); s.first <= o < Handled(s)
    ensures var s := Exec(w, events);
            && o < |w.log| && o in s.outcomes && Executions(s.session, o) <= 1
            && (Executions(s.session, o) == 1 <==>
                && GetsExecuted(w.cfg, w.log[o], s.outcomes[o])
                && (w.cfg.commitFirst ==> s.outcomes[o].commit == Acked))
  {
    ExecutedExactly(w, events, o);
    Meanings(w.cfg, w.log[o], Exec(w, events).outcomes[o]);
  }

  // ----- Over whole histories -------------------------------------------------------------------

  /** The effect has a cause in the message. */
  predicate Justified(cfg: Config, m: Message, e: Effect) {
    match e
    case Execute(_, _) => ForExecutor(cfg, m)
    case Publish(_, topic, correlationId, reply, _) =>
      && topic == m.replyTopic && correlationId == m.correlationId
      && if reply == GuardRejection then Refused(cfg, m) else ForExecutor(cfg, m)
    case Drop(_, reason) => DropReason(cfg, m) == Some(reason)
    case Commit(_, _) => cfg.commitFirst && cfg.adapter == None ==> ForExecutor(cfg, m)
    case LogError(_, _) => true
  }

  predicate AllJustified(cfg: Config, m: Message, p: Plan) {
    p.Do? ==> Justified(cfg, m, p.effect) && AllJustified(cfg, m, p.next)
  }

  lemma {:induction false} JustifiedTrace(cfg: Config, m: Message, p: Plan)
    requires forall i :: 0 <= i < |Trace(p)| ==> Justified(cfg, m, Trace(p)[i])
    ensures AllJustified(cfg, m, p)
  {
    if p.Do? {
      var t := Trace(p);
      assert t[0] == p.effect;
      forall i | 0 <= i < |Trace(p.next)| ensures Justified(cfg, m, Trace(p.next)[i]) {
        assert Trace(p.next)[i] == t[i + 1];
      }
      JustifiedTrace(cfg, m, p.next);
    }
  }

  lemma BodyJustified(cfg: Config, o: nat, m: Message, out: Outcome)
    ensures forall e :: e in Body(cfg, o, m, out) ==> Justified(cfg, m, e)
  {
  }

  lemma PlanJustified(cfg: Config, o: nat, m: Message, out: Outcome)
    ensures AllJustified(cfg, m, MessagePlan(cfg, o, m, out))
  {
    var p := MessagePlan(cfg, o, m, out);
    ScriptExact(cfg, o, m, out);
    BodyJustified(cfg, o, m, out);
    hide Body, MessagePlan, Trace;
    forall i | 0 <= i < |Trace(p)| ensures Justified(cfg, m, Trace(p)[i]) {
      assert Trace(p)[i] in Script(cfg, o, m, out);
    }
    JustifiedTrace(cfg, m, p);
  }

  ghost predicate HistoryInv(w: Setup, s: State) {
    && (forall i :: 0 <= i < |s.history| ==>
          s.history[i].offset < |w.log| && Justified(w.cfg, w.log[s.history[i].offset], s.history[i]))
    && (s.todo.Do? ==> 0 < s.position <= |w.log| && AllJustified(w.cfg, w.log[s.position - 1], s.todo))
    && (forall o :: o in s.pool.collecting ==> o < |w.log| && ForExecutor(w.cfg, w.log[o]))
  }

  lemma HistoryStep(w: Setup, s: State, ev: Event)
    requires RepliesInv(w, s) && HistoryInv(w, s)
    ensures HistoryInv(w, Apply(w, s, ev))
  {
    hide MessagePlan, ForExecutor, Refused, DropReason, Balanced, Addressed;
    if ev.Fetch? && s.position < |w.log| {
      PlanJustified(w.cfg, s.position, w.log[s.position], ev.out);
    }
  }

  /**
   Over every run, crashes included: whatever was ever executed, answered, dropped or committed had its cause in the
   message itself. In particular the executor never sees a command the guard does not admit.
   */
  lemma {:induction false} EffectsJustified(w: Setup, events: seq<Event>)
    ensures HistoryInv(w, Exec(w, events))
  {
    if events != [] {
      EffectsJustified(w, events[..|events| - 1]);
      RepliesAlways(w, events[..|events| - 1]);
      HistoryStep(w, Exec(w, events[..|events| - 1]), events[|events| - 1]);
    }
  }

  lemma {:induction false} CountedOccurs(h: seq<Effect>, o: nat) returns (i: nat)
    requires Executions(h, o) > 0
    ensures i < |h| && h[i].Execute? && h[i].offset == o
  {
    i := |h| - 1;
    if !(h[i].Execute? && h[i].offset == o) {
      i := CountedOccurs(h[..|h| - 1], o);
    }
  }

  /** JSON path with a guard, every run: what was executed is a complete command the guard admits with its topic. */
  lemma GuardRespected(w: Setup, events: seq<Event>, o: nat)
    requires w.cfg.adapter == None && w.cfg.guard.Some? && Executions(Exec(w, events).history, o) > 0
    ensures && o < |w.log| && w.log[o].body.Some? && w.log[o].correlationId != "" && w.log[o].replyTopic != ""
            && w.cfg.guard.value.admits(w.log[o].body.value) && w.cfg.guard.value.allowsTopic(w.log[o].replyTopic)
  {
    EffectsJustified(w, events);
    var i := CountedOccurs(Exec(w, events).history, o);
    assert Justified(w.cfg, w.log[o], Exec(w, events).history[i]);
  }
}
