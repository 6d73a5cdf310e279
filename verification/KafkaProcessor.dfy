/**
 The consume, commit, execute, reply loop over one partition of the request topic,
 together with the pool of asynchronous logs.collect jobs.

 Every outside decision (does a publish succeed, what does the executor answer, is a commit
 acknowledged) is an `Outcome` chosen freely per message. A crash may happen between any two effects.
 */
module KafkaProcessor {
  import opened Foundation

  // ----- Messages and configuration -------------------------------------------------------------

  datatype Command = Command(commandId: string, kind: string, issuer: string)

  /**
   `body` is None when the value does not decode as a command envelope. `looksJson` is the verdict of the probe that
   only reads the type and the schema version; `direction` and `messageType` are headers of the protobuf protocol.
   */
  datatype Message = Message(correlationId: string, replyTopic: string, direction: string, messageType: string,
                             looksJson: bool, body: Option<Command>)

  /** Envelope, type and issuer rules, and the reply topic rule, of the command guard. */
  datatype Guard = Guard(admits: Command -> bool, allowsTopic: string -> bool)

  datatype Mode = JsonMode | ProtobufMode | DualMode

  /** The dual adapter: its mode, and which of its three collaborators it has been given. */
  datatype Adapter = Adapter(mode: Mode, executor: bool, dispatcher: bool, sink: bool)

  /** Without an adapter the processor takes the JSON path. */
  datatype Config = Config(commitFirst: bool, adapter: Option<Adapter>, guard: Option<Guard>)

  predicate Parses(m: Message) {
    m.body.Some? && m.correlationId != "" && m.replyTopic != ""
  }

  predicate MayReply(cfg: Config, m: Message) {
    cfg.guard.Some? ==> cfg.guard.value.allowsTopic(m.replyTopic)
  }

  predicate Admitted(cfg: Config, m: Message)
    requires Parses(m)
  {
    MayReply(cfg, m) && (cfg.guard.Some? ==> cfg.guard.value.admits(m.body.value))
  }

  // ----- Routing in the dual adapter ------------------------------------------------------------

  /** Who gets the message: nobody else once the sink has taken it, or when the one to get it is not there. */
  datatype Route = ToExecutor | Undecodable | ToDispatcher | ToNobody

  /** In dual mode, what does not look like a command is for the dispatcher only if a header says so. */
  predicate TakenForJson(mode: Mode, m: Message) {
    mode.JsonMode? || (mode.DualMode? && (m.looksJson || (m.messageType == "" && m.direction == "")))
  }

  function RouteOf(a: Adapter, m: Message, claimed: bool): Route {
    if a.sink && m.direction == "RESPONSE" && claimed then ToNobody
    else if TakenForJson(a.mode, m) then
      if !a.executor then ToNobody else if m.body.None? then Undecodable else ToExecutor
    else if a.dispatcher then ToDispatcher
    else ToNobody
  }

  /** The adapter hands the message to the executor. */
  predicate Passes(cfg: Config, m: Message, claimed: bool) {
    cfg.adapter.Some? && RouteOf(cfg.adapter.value, m, claimed).ToExecutor?
  }

  // ----- Outcomes and effects -------------------------------------------------------------------

  /** A failed commit call may or may not have reached the broker. */
  datatype CommitResult = Acked | FailedButApplied | FailedAndLost

  /** `Accepted`: a job was started and the response is nil. `PoolFull`: refused with a reply. */
  datatype Reaction = Replied | ExecError | Accepted | PoolFull

  /** `claimed`: the response sink has a pending request for it. This and `protoFails` matter to the adapter only. */
  datatype Outcome = Outcome(reaction: Reaction, claimed: bool, protoFails: bool,
                             published: bool, commit: CommitResult)

  datatype Reply = GuardRejection | ExecutorResponse | ExecutorFailure | JobResult
  datatype Cause = PublishFailed | CommitFailed | ExecuteFailed | ProtoFailed | DecodeFailed
  datatype Reason = Unparseable | ForbiddenTopic

  datatype Effect =
    | Commit(offset: nat, result: CommitResult)
    | Execute(offset: nat, reaction: Reaction)
    | Publish(offset: nat, topic: string, correlationId: string, reply: Reply, ok: bool)
    | Drop(offset: nat, reason: Reason)
    | LogError(offset: nat, cause: Cause)

  /** What a handler still has to do, and the error it will return. */
  datatype Plan = Done(err: Option<Cause>) | Do(effect: Effect, next: Plan)

  function Trace(p: Plan): seq<Effect> {
    if p.Done? then [] else [p.effect] + Trace(p.next)
  }

  function ErrorOf(p: Plan): Option<Cause> {
    if p.Done? then p.err else ErrorOf(p.next)
  }

  /** `Run` logs the error a handler returned and moves on. */
  function Logged(p: Plan, o: nat): Plan {
    match p
    case Done(None) => p
    case Done(Some(c)) => Do(LogError(o, c), Done(None))
    case Do(e, n) => Do(e, Logged(n, o))
  }

  // ----- The handlers as plans ------------------------------------------------------------------

  function CommitPlan(cfg: Config, o: nat, out: Outcome): Plan {
    if cfg.commitFirst then Done(None)
    else Do(Commit(o, out.commit), Done(if out.commit.Acked? then None else Some(CommitFailed)))
  }

  function PublishPlan(m: Message, o: nat, reply: Reply, ok: bool, next: Plan): Plan {
    Do(Publish(o, m.replyTopic, m.correlationId, reply, ok), if ok then next else Done(Some(PublishFailed)))
  }

  function CommitThen(cfg: Config, o: nat, out: Outcome, next: Plan): Plan {
    if !cfg.commitFirst then next
    else Do(Commit(o, out.commit), if out.commit.Acked? then next else Done(Some(CommitFailed)))
  }

  function ExecutePlan(cfg: Config, o: nat, m: Message, out: Outcome): Plan {
    Do(Execute(o, out.reaction),
       match out.reaction
       case ExecError =>
         PublishPlan(m, o, ExecutorFailure, out.published,
                     if cfg.commitFirst then Done(Some(ExecuteFailed))
                     else Do(Commit(o, out.commit), Done(Some(ExecuteFailed))))
       case Accepted => CommitPlan(cfg, o, out)
       case _ => PublishPlan(m, o, ExecutorResponse, out.published, CommitPlan(cfg, o, out)))
  }

  function JsonPlan(cfg: Config, o: nat, m: Message, out: Outcome): Plan {
    if !Parses(m) then Do(Drop(o, Unparseable), CommitPlan(cfg, o, out))
    else if Admitted(cfg, m) then CommitThen(cfg, o, out, ExecutePlan(cfg, o, m, out))
    else if MayReply(cfg, m) then PublishPlan(m, o, GuardRejection, out.published, CommitPlan(cfg, o, out))
    else Do(Drop(o, ForbiddenTopic), CommitPlan(cfg, o, out))
  }

  function DualFailure(cfg: Config, o: nat, out: Outcome, cause: Cause): Plan {
    if cfg.commitFirst then Done(Some(cause)) else Do(Commit(o, out.commit), Done(Some(cause)))
  }

  function DualExecutePlan(cfg: Config, o: nat, m: Message, out: Outcome): Plan {
    Do(Execute(o, out.reaction),
       match out.reaction
       case ExecError => DualFailure(cfg, o, out, ExecuteFailed)
       case Accepted => CommitPlan(cfg, o, out)
       case _ =>
         if m.replyTopic == "" || m.correlationId == "" then CommitPlan(cfg, o, out)
         else PublishPlan(m, o, ExecutorResponse, out.published, CommitPlan(cfg, o, out)))
  }

  function RoutedPlan(cfg: Config, o: nat, m: Message, out: Outcome): Plan
    requires cfg.adapter.Some?
  {
    match RouteOf(cfg.adapter.value, m, out.claimed)
    case ToExecutor => DualExecutePlan(cfg, o, m, out)
    case Undecodable => DualFailure(cfg, o, out, DecodeFailed)
    case ToDispatcher => if out.protoFails then DualFailure(cfg, o, out, ProtoFailed) else CommitPlan(cfg, o, out)
    case ToNobody => CommitPlan(cfg, o, out)
  }

  function DualPlan(cfg: Config, o: nat, m: Message, out: Outcome): Plan
    requires cfg.adapter.Some?
  {
    CommitThen(cfg, o, out, RoutedPlan(cfg, o, m, out))
  }

  function HandlePlan(cfg: Config, o: nat, m: Message, out: Outcome): Plan {
    if cfg.adapter.Some? then DualPlan(cfg, o, m, out) else JsonPlan(cfg, o, m, out)
  }

  function MessagePlan(cfg: Config, o: nat, m: Message, out: Outcome): Plan {
    Logged(HandlePlan(cfg, o, m, out), o)
  }

  // ----- The processor itself -------------------------------------------------------------------

  /** Performs its effects one after the other; `effects` is what the outside world has seen. */
  class Processor {
    const cfg: Config
    var effects: seq<Effect>

    constructor (cfg: Config)
      ensures this.cfg == cfg && effects == []
    {
      this.cfg := cfg;
      effects := [];
    }

    /** Performs the next effect of the plan `p`; `n` is what remains to be done. */
    method Emit(e: Effect, ghost p: Plan) returns (ghost n: Plan)
      requires p.Do? && p.effect == e
      modifies this
      ensures n == p.next
      ensures effects + Trace(n) == old(effects) + Trace(p) && ErrorOf(n) == ErrorOf(p)
    {
      effects := effects + [e];
      n := p.next;
    }

    method CommitAfter(o: nat, out: Outcome) returns (err: Option<Cause>)
      modifies this
      ensures effects == old(effects) + Trace(CommitPlan(cfg, o, out))
      ensures err == ErrorOf(CommitPlan(cfg, o, out))
    {
      if cfg.commitFirst {
        return None;
      }
      ghost var p := Emit(Commit(o, out.commit), CommitPlan(cfg, o, out));
      err := if out.commit.Acked? then None else Some(CommitFailed);
    }

    method HandleJson(o: nat, m: Message, out: Outcome) returns (err: Option<Cause>)
      modifies this
      ensures effects == old(effects) + Trace(JsonPlan(cfg, o, m, out))
      ensures err == ErrorOf(JsonPlan(cfg, o, m, out))
    {
      ghost var p := JsonPlan(cfg, o, m, out);
      if !Parses(m) {
        p := Emit(Drop(o, Unparseable), p);
        err := CommitAfter(o, out);
        return;
      }
      if cfg.guard.Some? && !(cfg.guard.value.admits(m.body.value) && cfg.guard.value.allowsTopic(m.replyTopic)) {
        if cfg.guard.value.allowsTopic(m.replyTopic) {
          p := Emit(Publish(o, m.replyTopic, m.correlationId, GuardRejection, out.published), p);
          if !out.published {
            return Some(PublishFailed);
          }
        } else {
          p := Emit(Drop(o, ForbiddenTopic), p);
        }
        err := CommitAfter(o, out);
        return;
      }
      if cfg.commitFirst {
        p := Emit(Commit(o, out.commit), p);
        if !out.commit.Acked? {
          return Some(CommitFailed);
        }
      }
      err := ExecuteAndReply(o, m, out);
    }

    method ExecuteAndReply(o: nat, m: Message, out: Outcome) returns (err: Option<Cause>)
      modifies this
      ensures effects == old(effects) + Trace(ExecutePlan(cfg, o, m, out))
      ensures err == ErrorOf(ExecutePlan(cfg, o, m, out))
    {
      ghost var p := Emit(Execute(o, out.reaction), ExecutePlan(cfg, o, m, out));
      if out.reaction.ExecError? {
        p := Emit(Publish(o, m.replyTopic, m.correlationId, ExecutorFailure, out.published), p);
        if !out.published {
          return Some(PublishFailed);
        }
        if !cfg.commitFirst {
          p := Emit(Commit(o, out.commit), p);
        }
        return Some(ExecuteFailed);
      }
      if !out.reaction.Accepted? {
        p := Emit(Publish(o, m.replyTopic, m.correlationId, ExecutorResponse, out.published), p);
        if !out.published {
          return Some(PublishFailed);
        }
      }
      err := CommitAfter(o, out);
    }

    method HandleDual(o: nat, m: Message, out: Outcome) returns (err: Option<Cause>)
      requires cfg.adapter.Some?
      modifies this
      ensures effects == old(effects) + Trace(DualPlan(cfg, o, m, out))
      ensures err == ErrorOf(DualPlan(cfg, o, m, out))
    {
      ghost var p := DualPlan(cfg, o, m, out);
      if cfg.commitFirst {
        p := Emit(Commit(o, out.commit), p);
        if !out.commit.Acked? {
          return Some(CommitFailed);
        }
      }
      var replies;
      replies, err, p := Dispatch(o, m, out, p);
      if err.Some? {
        if !cfg.commitFirst {
          p := Emit(Commit(o, out.commit), p);
        }
        return;
      }
      if replies && m.replyTopic != "" && m.correlationId != "" {
        p := Emit(Publish(o, m.replyTopic, m.correlationId, ExecutorResponse, out.published), p);
        if !out.published {
          return Some(PublishFailed);
        }
      }
      err := CommitAfter(o, out);
    }

    /** The adapter's HandleMessage: `replies` when it returns a response, `err` when it returns an error. */
    method Dispatch(o: nat, m: Message, out: Outcome, ghost p: Plan)
      returns (replies: bool, err: Option<Cause>, ghost n: Plan)
      requires cfg.adapter.Some? && p == RoutedPlan(cfg, o, m, out)
      modifies this
      ensures effects + Trace(n) == old(effects) + Trace(p) && ErrorOf(n) == ErrorOf(p)
      ensures n == if Passes(cfg, m, out.claimed) then p.next else p
      ensures replies == (Passes(cfg, m, out.claimed) && (out.reaction.Replied? || out.reaction.PoolFull?))
      ensures err == match RouteOf(cfg.adapter.value, m, out.claimed)
                     case ToExecutor => if out.reaction.ExecError? then Some(ExecuteFailed) else None
                     case Undecodable => Some(DecodeFailed)
                     case ToDispatcher => if out.protoFails then Some(ProtoFailed) else None
                     case ToNobody => None
    {
      var a := cfg.adapter.value;
      replies, err, n := false, None, p;
      if a.sink && m.direction == "RESPONSE" && out.claimed {
        return;
      }
      var json := match a.mode
        case JsonMode => true
        case ProtobufMode => false
        case DualMode => m.looksJson || !(m.messageType != "" || m.direction != "");
      if json && a.executor {
        if m.body.None? {
          err := Some(DecodeFailed);
          return;
        }
        n := Emit(Execute(o, out.reaction), p);
        replies := out.reaction.Replied? || out.reaction.PoolFull?;
        err := if out.reaction.ExecError? then Some(ExecuteFailed) else None;
      } else if !json && a.dispatcher && out.protoFails {
        err := Some(ProtoFailed);
      }
    }

    /** One turn of the loop in `Run`: dispatch, then log the handler's error. */
    method HandleMessage(o: nat, m: Message, out: Outcome)
      modifies this
      ensures effects == old(effects) + Trace(MessagePlan(cfg, o, m, out))
    {
      var err;
      if cfg.adapter.Some? {
        err := HandleDual(o, m, out);
      } else {
        err := HandleJson(o, m, out);
      }
      TraceLogged(HandlePlan(cfg, o, m, out), o);
      if err.Some? {
        effects := effects + [LogError(o, err.value)];
      }
    }

    /** One uninterrupted session from `start`; fetching fails after the last outcome. */
    method Run(start: nat, log: seq<Message>, outs: seq<Outcome>)
      requires start + |outs| <= |log|
      modifies this
      ensures effects == old(effects) + SessionTrace(cfg, start, log, outs)
    {
      var i := 0;
      ghost var done: seq<Effect> := [];
      assert SessionTrace(cfg, start, log, []) == [] && outs[..0] == [];
      hide SessionTrace, MessagePlan, Trace;
      while i < |outs|
        invariant 0 <= i <= |outs| && done == SessionTrace(cfg, start, log, outs[..i])
        invariant effects == old(effects) + done
      {
        HandleMessage(start + i, log[start + i], outs[i]);
        SessionSnoc(cfg, start, log, outs, i);
        done := done + Trace(MessagePlan(cfg, start + i, log[start + i], outs[i]));
        i := i + 1;
      }
      assert outs[..i] == outs;
    }
  }

  function SessionTrace(cfg: Config, start: nat, log: seq<Message>, outs: seq<Outcome>): seq<Effect>
    requires start + |outs| <= |log|
  {
    if outs == [] then []
    else
      var n := |outs| - 1;
      SessionTrace(cfg, start, log, outs[..n]) + Trace(MessagePlan(cfg, start + n, log[start + n], outs[n]))
  }

  lemma SessionSnoc(cfg: Config, start: nat, log: seq<Message>, outs: seq<Outcome>, i: nat)
    requires start + |outs| <= |log| && i < |outs|
    ensures SessionTrace(cfg, start, log, outs[..i + 1]) ==
            SessionTrace(cfg, start, log, outs[..i]) + Trace(MessagePlan(cfg, start + i, log[start + i], outs[i]))
  {
    assert outs[..i + 1][..i] == outs[..i];
  }

  lemma {:induction false} TraceLogged(p: Plan, o: nat)
    ensures Trace(Logged(p, o)) == Trace(p) + (if ErrorOf(p).Some? then [LogError(o, ErrorOf(p).value)] else [])
  {
    if p.Do? {
      TraceLogged(p.next, o);
    } else if p.err.Some? {
      assert Trace(Do(LogError(o, p.err.value), Done(None))) == [LogError(o, p.err.value)];
    }
  }
}
