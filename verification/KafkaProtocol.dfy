/**
 Safety of the processor over whole runs: a partition log, the group's committed position, crashes
 and restarts between any two effects, and logs.collect jobs that run beside the loop.
 A run is any sequence of events; an event that is not enabled changes nothing.
 */
module KafkaProtocol {
  import opened Foundation
  import opened KafkaProcessor

  /** `base` is the group's position when the first consumer starts. */
  datatype Setup = Setup(cfg: Config, log: seq<Message>, base: nat, poolSize: nat)

  /** `slots` is the fill of the jobs channel; a job first collects, then publishes, then frees its slot. */
  datatype Pool = Pool(slots: nat, collecting: set<nat>, finishing: set<nat>)

  /** `history` spans restarts; `first`, `session` and `outcomes` start afresh with each consumer. */
  datatype State = State(committed: nat, position: nat, first: nat, todo: Plan,
                         history: seq<Effect>, session: seq<Effect>,
                         outcomes: map<nat, Outcome>, pool: Pool)

  datatype Event =
    | Fetch(out: Outcome)
    | Perform
    | Crash
    | JobPublish(job: nat, ok: bool)
    | JobEnd(job: nat)

  function Start(committed: nat, history: seq<Effect>): State {
    State(committed, committed, committed, Done(None), history, [], map[], Pool(0, {}, {}))
  }

  function Init(w: Setup): State {
    Start(w.base, [])
  }

  function Applied(r: CommitResult): bool {
    !r.FailedAndLost?
  }

  /** The handler's select: a job is accepted iff the channel has room, refused iff it has none. */
  predicate Ready(poolSize: nat, p: Pool, e: Effect) {
    match e
    case Execute(_, Accepted) => p.slots < poolSize
    case Execute(_, PoolFull) => p.slots >= poolSize
    case _ => true
  }

  function Record(s: State, e: Effect): State {
    s.(history := s.history + [e], session := s.session + [e])
  }

  function PoolAfter(p: Pool, e: Effect): Pool {
    match e
    case Execute(o, Accepted) => Pool(p.slots + 1, p.collecting + {o}, p.finishing)
    case _ => p
  }

  function PublishedJob(p: Pool, o: nat): Pool {
    p.(collecting := p.collecting - {o}, finishing := p.finishing + {o})
  }

  function EndedJob(p: Pool, o: nat): Pool
    requires p.slots > 0
  {
    p.(slots := p.slots - 1, finishing := p.finishing - {o})
  }

  function Apply(w: Setup, s: State, ev: Event): State {
    match ev
    case Fetch(out) =>
      if s.todo.Done? && s.position < |w.log| then
        s.(todo := MessagePlan(w.cfg, s.position, w.log[s.position], out),
           position := s.position + 1, outcomes := s.outcomes[s.position := out])
      else s
    case Perform =>
      if s.todo.Do? && Ready(w.poolSize, s.pool, s.todo.effect) then
        var e := s.todo.effect;
        Record(s, e).(todo := s.todo.next,
                      committed := if e.Commit? && Applied(e.result) then e.offset + 1 else s.committed,
                      pool := PoolAfter(s.pool, e))
      else s
    case Crash => Start(s.committed, s.history)
    case JobPublish(o, ok) =>
      if o in s.pool.collecting && o < |w.log| then
        Record(s, Publish(o, w.log[o].replyTopic, w.log[o].correlationId, JobResult, ok))
        .(pool := PublishedJob(s.pool, o))
      else s
    case JobEnd(o) =>
      if o in s.pool.finishing && s.pool.slots > 0 then
        s.(pool := EndedJob(s.pool, o))
      else s
  }

  function Exec(w: Setup, events: seq<Event>): State {
    if events == [] then Init(w) else Apply(w, Exec(w, events[..|events| - 1]), events[|events| - 1])
  }

  /** The logs.collect handler: its jobs channel, and the goroutines that hold a slot of it. */
  class LogsHandler {
    const poolSize: nat
    var pool: Pool

    constructor (maxJobs: int)
      ensures pool == Pool(0, {}, {}) && poolSize == if maxJobs < 1 then 20 else maxJobs
    {
      poolSize := if maxJobs < 1 then 20 else maxJobs;
      pool := Pool(0, {}, {});
    }

    /** `valid`: the command type, the payload and the namespace are allowed; otherwise a rejection is returned. */
    method Handle(o: nat, valid: bool) returns (r: Reaction)
      modifies this
      ensures valid <==> !r.Replied?
      ensures !r.ExecError? && Ready(poolSize, old(pool), Execute(o, r))
      ensures pool == PoolAfter(old(pool), Execute(o, r))
    {
      if !valid {
        return Replied;
      }
      if pool.slots >= poolSize {
        return PoolFull;
      }
      pool := pool.(slots := pool.slots + 1, collecting := pool.collecting + {o});
      return Accepted;
    }

    /** The job goroutine after its result is out, whatever publishing returned. */
    method Published(o: nat)
      requires o in pool.collecting
      modifies this
      ensures pool == PublishedJob(old(pool), o)
    {
      pool := pool.(collecting := pool.collecting - {o}, finishing := pool.finishing + {o});
    }

    /** The deferred receive; `JobsProgress` shows that it never waits. */
    method Release(o: nat)
      requires o in pool.finishing && pool.slots > 0
      modifies this
      ensures pool == EndedJob(old(pool), o)
    {
      pool := pool.(slots := pool.slots - 1, finishing := pool.finishing - {o});
    }
  }

  // ----- Commit-first: at most one execution per offset -----------------------------------------

  function Executions(h: seq<Effect>, o: nat): nat {
    if h == [] then 0
    else Executions(h[..|h| - 1], o) + (if h[|h| - 1].Execute? && h[|h| - 1].offset == o then 1 else 0)
  }

  lemma ExecutionsSnoc(h: seq<Effect>, e: Effect)
    ensures forall o: nat {:trigger Executions(h + [e], o)} ::
              Executions(h + [e], o) == Executions(h, o) + (if e.Execute? && e.offset == o then 1 else 0)
  {
    assert (h + [e])[..|h|] == h;
  }

  predicate Executes(p: Plan) {
    p.Do? && (p.effect.Execute? || Executes(p.next))
  }

  /** Every effect of `p` is about `o`, and the one execution comes after the group has moved past `o`. */
  predicate CommitGuards(p: Plan, o: nat, committed: nat) {
    match p
    case Done(_) => true
    case Do(Commit(q, r), n) => q == o && CommitGuards(n, o, if Applied(r) then o + 1 else committed)
    case Do(Execute(q, _), n) => q == o && o < committed && !Executes(n) && CommitGuards(n, o, committed)
    case Do(_, n) => CommitGuards(n, o, committed)
  }

  lemma {:induction false} LoggedGuards(p: Plan, o: nat, committed: nat)
    requires CommitGuards(p, o, committed)
    ensures CommitGuards(Logged(p, o), o, committed) && Executes(Logged(p, o)) == Executes(p)
  {
    match p
    case Done(_) =>
    case Do(Commit(_, r), n) => LoggedGuards(n, o, if Applied(r) then o + 1 else committed);
    case Do(_, n) => LoggedGuards(n, o, committed);
  }

  lemma PublishGuards(m: Message, o: nat, reply: Reply, ok: bool, err: Option<Cause>, committed: nat)
    ensures var p := PublishPlan(m, o, reply, ok, Done(err)); CommitGuards(p, o, committed) && !Executes(p)
  {
    var p := PublishPlan(m, o, reply, ok, Done(err));
    assert CommitGuards(p.next, o, committed) && !Executes(p.next);
  }

  /** Once the group has moved past the offset, both ways of executing are safe. */
  lemma ExecuteGuards(cfg: Config, o: nat, m: Message, out: Outcome)
    requires cfg.commitFirst
    ensures CommitGuards(ExecutePlan(cfg, o, m, out), o, o + 1)
    ensures CommitGuards(DualExecutePlan(cfg, o, m, out), o, o + 1)
  {
    var p, q := ExecutePlan(cfg, o, m, out), DualExecutePlan(cfg, o, m, out);
    PublishGuards(m, o, ExecutorFailure, out.published, Some(ExecuteFailed), o + 1);
    PublishGuards(m, o, ExecutorResponse, out.published, None, o + 1);
    assert CommitGuards(p.next, o, o + 1) && !Executes(p.next);
    assert CommitGuards(q.next, o, o + 1) && !Executes(q.next);
  }

  lemma CommitFirstGuards(cfg: Config, o: nat, m: Message, out: Outcome, committed: nat)
    requires cfg.commitFirst
    ensures CommitGuards(MessagePlan(cfg, o, m, out), o, committed)
  {
    var p := HandlePlan(cfg, o, m, out);
    ExecuteGuards(cfg, o, m, out);
    PublishGuards(m, o, GuardRejection, out.published, None, committed);
    assert p.Do? && p.effect.Commit? ==> CommitGuards(p.next, o, if Applied(out.commit) then o + 1 else committed);
    assert CommitGuards(p, o, committed);
    LoggedGuards(p, o, committed);
  }

  ghost predicate AtMostOnceInv(s: State) {
    && s.committed <= s.position
    && (forall o: nat :: Executions(s.history, o) <= 1)
    && (forall o: nat :: Executions(s.history, o) > 0 ==> o < s.committed)
    && (s.todo.Do? ==>
          && s.position > 0
          && CommitGuards(s.todo, s.position - 1, s.committed)
          && (Executes(s.todo) ==> Executions(s.history, s.position - 1) == 0))
  }

  lemma AtMostOnceStep(w: Setup, s: State, ev: Event)
    requires w.cfg.commitFirst && AtMostOnceInv(s)
    ensures AtMostOnceInv(Apply(w, s, ev))
  {
    match ev
    case Fetch(out) =>
      if s.todo.Done? && s.position < |w.log| {
        CommitFirstGuards(w.cfg, s.position, w.log[s.position], out, s.committed);
      }
    case Perform =>
      if s.todo.Do? {
        ExecutionsSnoc(s.history, s.todo.effect);
      }
    case JobPublish(o, ok) =>
      if o < |w.log| {
        ExecutionsSnoc(s.history, Publish(o, w.log[o].replyTopic, w.log[o].correlationId, JobResult, ok));
      }
    case _ =>
  }

  /** Whatever crashes, restarts and commit errors occur, on the JSON and on the dual path. */
  lemma {:induction false} AtMostOnce(w: Setup, events: seq<Event>)
    requires w.cfg.commitFirst
    ensures var s := Exec(w, events);
            forall o: nat :: Executions(s.history, o) <= 1 && (Executions(s.history, o) == 1 ==> o < s.committed)
    ensures AtMostOnceInv(Exec(w, events))
  {
    if events != [] {
      AtMostOnce(w, events[..|events| - 1]);
      AtMostOnceStep(w, Exec(w, events[..|events| - 1]), events[|events| - 1]);
    }
  }

  // ----- Commit-after: nothing is lost silently -------------------------------------------------

  /** The offset was answered, handed to a job, dropped with a warning, or its failed reply was logged by `Run`. */
  predicate Settles(e: Effect, o: nat) {
    e.offset == o &&
    match e
    case Publish(_, _, _, _, ok) => ok
    case Execute(_, r) => r.Accepted?
    case Drop(_, _) => true
    case LogError(_, c) => c.PublishFailed?
    case Commit(_, _) => false
  }

  predicate Settled(h: seq<Effect>, o: nat) {
    exists i :: 0 <= i < |h| && Settles(h[i], o)
  }

  lemma SettledSnoc(h: seq<Effect>, e: Effect, o: nat)
    ensures Settled(h + [e], o) <==> Settled(h, o) || Settles(e, o)
  {
    if Settled(h, o) {
      var i :| 0 <= i < |h| && Settles(h[i], o);
      assert (h + [e])[i] == h[i];
    }
    assert (h + [e])[|h|] == e;
    assert forall i :: 0 <= i < |h| ==> (h + [e])[i] == h[i];
  }

  /** Along `p` the offset is settled before it is committed, and settled when the handler returns. */
  predicate Covered(settled: bool, p: Plan, o: nat)
    decreases p
  {
    match p
    case Done(_) => settled
    case Do(e, n) => (e.Commit? ==> settled && e.offset == o) && Covered(settled || Settles(e, o), n, o)
  }

  lemma {:induction false} CoveredMono(p: Plan, o: nat)
    requires Covered(false, p, o)
    ensures Covered(true, p, o)
  {
    if p.Do? && !Settles(p.effect, o) {
      CoveredMono(p.next, o);
    }
  }

  lemma JsonCovered(cfg: Config, o: nat, m: Message, out: Outcome)
    requires !cfg.commitFirst && cfg.adapter.None?
    ensures Covered(false, MessagePlan(cfg, o, m, out), o)
  {
    var p := HandlePlan(cfg, o, m, out);
    assert Covered(true, Logged(CommitPlan(cfg, o, out), o), o);
    if p.effect.Publish? && !out.published {
      assert Logged(p.next, o) == Do(LogError(o, PublishFailed), Done(None));
    } else if p.effect.Execute? && out.reaction.ExecError? {
      var n := p.next;
      assert Logged(n, o) == Do(n.effect, Logged(n.next, o));
      assert Covered(out.published, Logged(n.next, o), o);
    } else if p.effect.Execute? && !out.reaction.Accepted? {
      var n := p.next;
      assert Logged(n, o) == Do(n.effect, Logged(n.next, o));
      assert Covered(out.published, Logged(n.next, o), o);
    }
  }

  /** Offsets whose handling has finished in this session, and all before. */
  function Handled(s: State): int {
    if s.todo.Done? then s.position else s.position - 1
  }

  ghost predicate NoSilentLossInv(w: Setup, s: State) {
    && w.base <= s.committed <= s.position
    && (forall o: nat :: w.base <= o < Handled(s) || w.base <= o < s.committed ==> Settled(s.history, o))
    && (s.todo.Do? ==>
          s.position > w.base && Covered(Settled(s.history, s.position - 1), s.todo, s.position - 1))
  }

  lemma NoSilentLossStep(w: Setup, s: State, ev: Event)
    requires !w.cfg.commitFirst && w.cfg.adapter.None? && NoSilentLossInv(w, s)
    ensures NoSilentLossInv(w, Apply(w, s, ev))
  {
    var s' := Apply(w, s, ev);
    match ev
    case Fetch(out) =>
      if s.todo.Done? && s.position < |w.log| {
        JsonCovered(w.cfg, s.position, w.log[s.position], out);
        CoveredMono(s'.todo, s.position);
      }
    case Perform =>
      if s.todo.Do? && Ready(w.poolSize, s.pool, s.todo.effect) {
        forall o: nat ensures Settled(s'.history, o) <==> Settled(s.history, o) || Settles(s.todo.effect, o) {
          SettledSnoc(s.history, s.todo.effect, o);
        }
        assert Covered(Settled(s'.history, s.position - 1), s'.todo, s.position - 1);
      }
    case JobPublish(j, ok) =>
      if s' != s {
        var e := s'.history[|s.history|];
        forall o: nat ensures Settled(s'.history, o) <==> Settled(s.history, o) || Settles(e, o) {
          SettledSnoc(s.history, e, o);
        }
        if s.todo.Do? && Covered(false, s.todo, s.position - 1) {
          CoveredMono(s.todo, s.position - 1);
        }
      }
    case _ =>
  }

  /** Every offset the group has moved past since `base` left a trace other than its commit. */
  lemma {:induction false} NoSilentLoss(w: Setup, events: seq<Event>)
    requires !w.cfg.commitFirst && w.cfg.adapter.None?
    ensures var s := Exec(w, events);
            forall o: nat :: w.base <= o < s.committed ==> Settled(s.history, o)
    ensures NoSilentLossInv(w, Exec(w, events))
  {
    if events != [] {
      NoSilentLoss(w, events[..|events| - 1]);
      NoSilentLossStep(w, Exec(w, events[..|events| - 1]), events[|events| - 1]);
    }
  }
}
