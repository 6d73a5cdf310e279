/**
 Request/response correlation: a pending map from correlation id to a one-slot channel. Looking a channel up and
 sending into it are separate steps, so a delivery may land after the request, or even its id, has moved on.
 */
module CoreClient {
  import opened Foundation

  datatype Response = Response(correlationId: string, isResponse: bool, body: string)

  /** Waiting: in the select. Got: returned a response. GaveUp: publish error, cancelled, or timed out. */
  datatype Phase = Waiting | Got(response: Response) | GaveUp

  /** One SendRequest call with its own channel `slot`; `cleaned`: its deferred delete has run. */
  datatype Request = Request(correlationId: string, registeredAt: nat, slot: Option<Response>,
                             phase: Phase, cleaned: bool)

  /** A HandleInboundResponse call that found a channel: the one of request `target`. */
  datatype Delivery = Delivery(response: Response, target: nat, lookedUpAt: nat)

  /** `sends` lists the deliveries whose non-blocking send has happened, in that order. */
  datatype State = State(pending: map<string, nat>, requests: seq<Request>, deliveries: seq<Delivery>,
                         sends: seq<nat>, clock: nat)

  datatype Event =
    | Register(correlationId: string)
    | Lookup(response: Response)
    | Send(delivery: nat)
    | Receive(request: nat)
    | GiveUp(request: nat)
    | Cleanup(request: nat)

  const Init := State(map[], [], [], [], 0)

  predicate Routable(s: State, x: Response) {
    x.isResponse && x.correlationId != "" && x.correlationId in s.pending
  }

  function Step(s: State, e: Event): State {
    match e
    case Register(c) =>
      if c == "" then s
      else s.(requests := s.requests + [Request(c, s.clock, None, Waiting, false)],
              pending := s.pending[c := |s.requests|])
    case Lookup(x) =>
      if Routable(s, x) then s.(deliveries := s.deliveries + [Delivery(x, s.pending[x.correlationId], s.clock)]) else s
    case Send(d) =>
      if d < |s.deliveries| && d !in s.sends then
        var t := s.deliveries[d].target;
        s.(sends := s.sends + [d],
           requests := if t < |s.requests| && s.requests[t].slot.None?
                       then s.requests[t := s.requests[t].(slot := Some(s.deliveries[d].response))] else s.requests)
      else s
    case Receive(r) =>
      if r < |s.requests| && s.requests[r].phase.Waiting? && s.requests[r].slot.Some? then
        s.(requests := s.requests[r := s.requests[r].(phase := Got(s.requests[r].slot.value), slot := None)])
      else s
    case GiveUp(r) =>
      if r < |s.requests| && s.requests[r].phase.Waiting? then
        s.(requests := s.requests[r := s.requests[r].(phase := GaveUp)])
      else s
    case Cleanup(r) =>
      if r < |s.requests| && !s.requests[r].phase.Waiting? && !s.requests[r].cleaned then
        s.(requests := s.requests[r := s.requests[r].(cleaned := true)],
           pending := s.pending - {s.requests[r].correlationId})
      else s
  }

  function Apply(s: State, e: Event): State {
    Step(s, e).(clock := s.clock + 1)
  }

  function Exec(events: seq<Event>): State {
    if events == [] then Init else Apply(Exec(events[..|events| - 1]), events[|events| - 1])
  }

  class Client {
    var pending: map<string, nat>
    var requests: seq<Request>
    var deliveries: seq<Delivery>
    var sends: seq<nat>
    var clock: nat

    ghost function View(): State
      reads this
    {
      State(pending, requests, deliveries, sends, clock)
    }

    constructor ()
      ensures View() == Init
    {
      pending, requests, deliveries, sends, clock := map[], [], [], [], 0;
    }

    /** The start of SendRequest: makes a channel and enters it under its id, whatever was there before. */
    method Register(c: string) returns (request: Option<nat>)
      modifies this
      ensures View() == Apply(old(View()), Event.Register(c))
      ensures request == if c == "" then None else Some(|old(requests)|)
    {
      clock := clock + 1;
      if c == "" {
        return None;
      }
      request := Some(|requests|);
      requests := requests + [Request(c, clock - 1, None, Waiting, false)];
      pending := pending[c := |requests| - 1];
    }

    /** The locked part of HandleInboundResponse. */
    method Lookup(x: Response) returns (found: bool)
      modifies this
      ensures View() == Apply(old(View()), Event.Lookup(x)) && found == Routable(old(View()), x)
    {
      clock := clock + 1;
      if !x.isResponse || x.correlationId == "" || x.correlationId !in pending {
        return false;
      }
      deliveries := deliveries + [Delivery(x, pending[x.correlationId], clock - 1)];
      return true;
    }

    /** The select with a default branch: fills an empty slot, drops the response on a full one. */
    method Send(d: nat)
      requires d < |deliveries| && d !in sends && deliveries[d].target < |requests|
      modifies this
      ensures View() == Apply(old(View()), Event.Send(d))
    {
      clock := clock + 1;
      sends := sends + [d];
      var t := deliveries[d].target;
      if requests[t].slot.None? {
        requests := requests[t := requests[t].(slot := Some(deliveries[d].response))];
      }
    }

    /** The end of SendRequest: take the response if `take`, otherwise give up; then the deferred delete. */
    method Finish(r: nat, take: bool) returns (result: Option<Response>)
      requires r < |requests| && requests[r].phase.Waiting? && !requests[r].cleaned
      requires take ==> requests[r].slot.Some?
      modifies this
      ensures View() == Apply(Apply(old(View()), if take then Event.Receive(r) else Event.GiveUp(r)), Event.Cleanup(r))
      ensures result == if take then old(requests)[r].slot else None
    {
      if take {
        result := requests[r].slot;
        requests := requests[r := requests[r].(phase := Got(result.value), slot := None)];
      } else {
        result := None;
        requests := requests[r := requests[r].(phase := GaveUp)];
      }
      requests := requests[r := requests[r].(cleaned := true)];
      pending := pending - {requests[r].correlationId};
      clock := clock + 2;
    }
  }

  // ----- Safety over every interleaving ---------------------------------------------------------

  function SentTo(ds: seq<Delivery>, sends: seq<nat>, j: nat): int
    requires j < |sends|
  {
    if sends[j] < |ds| then ds[sends[j]].target else -1
  }

  predicate NothingSent(ds: seq<Delivery>, sends: seq<nat>, r: nat) {
    forall j :: 0 <= j < |sends| ==> SentTo(ds, sends, j) != r
  }

  /** `x` is what the first send into request `r`'s channel, number `k`, carried. */
  predicate FirstSend(ds: seq<Delivery>, sends: seq<nat>, r: nat, x: Response, k: nat) {
    && k < |sends| && sends[k] < |ds| && ds[sends[k]].target == r && ds[sends[k]].response == x
    && forall j :: 0 <= j < k ==> SentTo(ds, sends, j) != r
  }

  ghost predicate First(ds: seq<Delivery>, sends: seq<nat>, r: nat, x: Response) {
    exists k: nat :: FirstSend(ds, sends, r, x, k)
  }

  /** What the request has returned, or may still return, is the first response sent to it. */
  ghost predicate RequestSound(ds: seq<Delivery>, sends: seq<nat>, q: Request, r: nat) {
    match q.phase
    case Got(x) => First(ds, sends, r, x)
    case Waiting => !q.cleaned && if q.slot.None? then NothingSent(ds, sends, r) else First(ds, sends, r, q.slot.value)
    case GaveUp => true
  }

  predicate DeliverySound(s: State, d: Delivery) {
    && d.target < |s.requests| && s.requests[d.target].correlationId == d.response.correlationId
    && s.requests[d.target].registeredAt < d.lookedUpAt < s.clock
  }

  predicate PendingSound(s: State) {
    forall c :: c in s.pending ==>
      && s.pending[c] < |s.requests| && s.requests[s.pending[c]].correlationId == c && !s.requests[s.pending[c]].cleaned
  }

  ghost predicate Inv(s: State) {
    && PendingSound(s)
    && (forall d :: 0 <= d < |s.deliveries| ==> DeliverySound(s, s.deliveries[d]))
    && (forall j :: 0 <= j < |s.sends| ==> s.sends[j] < |s.deliveries|)
    && (forall r :: 0 <= r < |s.requests| ==>
          s.requests[r].registeredAt < s.clock && RequestSound(s.deliveries, s.sends, s.requests[r], r))
  }

  /** Appending to `deliveries` and `sends` leaves the first send of a request alone. */
  lemma FirstStays(ds: seq<Delivery>, sends: seq<nat>, ds': seq<Delivery>, sends': seq<nat>, r: nat, x: Response)
    requires First(ds, sends, r, x) && ds <= ds' && sends <= sends' && forall j :: 0 <= j < |sends| ==> sends[j] < |ds|
    ensures First(ds', sends', r, x)
  {
    var k: nat :| FirstSend(ds, sends, r, x, k);
    assert forall j :: 0 <= j < k ==> SentTo(ds', sends', j) == SentTo(ds, sends, j);
    assert FirstSend(ds', sends', r, x, k);
  }

  lemma SendKeeps(s: State, d: nat)
    requires Inv(s) && d < |s.deliveries| && d !in s.sends
    ensures Inv(Apply(s, Send(d)))
  {
    var s' := Apply(s, Send(d));
    var ds, n := s.deliveries, |s.sends|;
    assert DeliverySound(s, ds[d]);
    assert forall j :: 0 <= j < n ==> SentTo(ds, s'.sends, j) == SentTo(ds, s.sends, j);
    forall r | 0 <= r < |s'.requests| ensures RequestSound(ds, s'.sends, s'.requests[r], r) {
      var q := s.requests[r];
      assert RequestSound(ds, s.sends, q, r);
      if q.phase.Got? {
        FirstStays(ds, s.sends, ds, s'.sends, r, q.phase.response);
      } else if q.phase.Waiting? && q.slot.Some? {
        FirstStays(ds, s.sends, ds, s'.sends, r, q.slot.value);
      } else if q.phase.Waiting? && ds[d].target == r {
        assert FirstSend(ds, s'.sends, r, ds[d].response, n);
      }
    }
    forall i | 0 <= i < |ds| ensures DeliverySound(s', ds[i]) {
      assert DeliverySound(s, ds[i]);
    }
  }

  lemma LookupKeeps(s: State, x: Response)
    requires Inv(s)
    ensures Inv(Apply(s, Lookup(x)))
  {
    var s' := Apply(s, Lookup(x));
    forall r | 0 <= r < |s'.requests| ensures RequestSound(s'.deliveries, s'.sends, s'.requests[r], r) {
      var q := s.requests[r];
      assert RequestSound(s.deliveries, s.sends, q, r);
      if q.phase.Got? {
        FirstStays(s.deliveries, s.sends, s'.deliveries, s.sends, r, q.phase.response);
      } else if q.phase.Waiting? && q.slot.Some? {
        FirstStays(s.deliveries, s.sends, s'.deliveries, s.sends, r, q.slot.value);
      } else if q.phase.Waiting? {
        assert forall j :: 0 <= j < |s.sends| ==> SentTo(s'.deliveries, s.sends, j) == SentTo(s.deliveries, s.sends, j);
      }
    }
    forall i | 0 <= i < |s'.deliveries| ensures DeliverySound(s', s'.deliveries[i]) {
      if i < |s.deliveries| {
        assert DeliverySound(s, s.deliveries[i]);
      }
    }
  }

  lemma RegisterKeeps(s: State, c: string)
    requires Inv(s)
    ensures Inv(Apply(s, Register(c)))
  {
    var s' := Apply(s, Register(c));
    forall r | 0 <= r < |s'.requests| ensures RequestSound(s'.deliveries, s'.sends, s'.requests[r], r) {
      if r < |s.requests| {
        assert RequestSound(s.deliveries, s.sends, s.requests[r], r);
      } else {
        forall j | 0 <= j < |s.sends| ensures SentTo(s.deliveries, s.sends, j) != r {
          assert DeliverySound(s, s.deliveries[s.sends[j]]);
        }
      }
    }
    forall i | 0 <= i < |s'.deliveries| ensures DeliverySound(s', s'.deliveries[i]) {
      assert DeliverySound(s, s.deliveries[i]);
    }
  }

  lemma RequestStepKeeps(s: State, e: Event)
    requires Inv(s) && (e.Receive? || e.GiveUp? || e.Cleanup?)
    ensures Inv(Apply(s, e))
  {
    var s' := Apply(s, e);
    forall r | 0 <= r < |s'.requests| ensures RequestSound(s'.deliveries, s'.sends, s'.requests[r], r) {
      assert RequestSound(s.deliveries, s.sends, s.requests[r], r);
    }
    forall i | 0 <= i < |s'.deliveries| ensures DeliverySound(s', s'.deliveries[i]) {
      assert DeliverySound(s, s.deliveries[i]);
    }
  }

  lemma {:induction false} InvAlways(events: seq<Event>)
    ensures Inv(Exec(events))
  {
    if events != [] {
      var s := Exec(events[..|events| - 1]);
      InvAlways(events[..|events| - 1]);
      match events[|events| - 1]
      case Register(c) => RegisterKeeps(s, c);
      case Lookup(x) => LookupKeeps(s, x);
      case Send(d) =>
        if d < |s.deliveries| && d !in s.sends {
          SendKeeps(s, d);
        } else {
          RegisterKeeps(s, "");
        }
      case e => RequestStepKeeps(s, e);
    }
  }

  /**
   With any ids, reused or not: a response only reaches a request with its own correlation id and only the first one
   sent to it counts; a pending entry never outlives its request. That a send is one step whatever the slot holds is by
   construction: the step takes the `default` branch of the select on a full slot.
   */
  lemma CorrelationSafe(events: seq<Event>)
    ensures var s := Exec(events);
            && (forall r :: 0 <= r < |s.requests| && s.requests[r].phase.Got? ==>
                  && s.requests[r].phase.response.correlationId == s.requests[r].correlationId
                  && First(s.deliveries, s.sends, r, s.requests[r].phase.response))
            && PendingSound(s)
            && (forall d: nat :: d < |s.deliveries| && d !in s.sends ==> Apply(s, Send(d)).sends == s.sends + [d])
  {
    InvAlways(events);
    var s := Exec(events);
    forall r | 0 <= r < |s.requests| && s.requests[r].phase.Got?
      ensures s.requests[r].phase.response.correlationId == s.requests[r].correlationId
      ensures First(s.deliveries, s.sends, r, s.requests[r].phase.response)
    {
      assert RequestSound(s.deliveries, s.sends, s.requests[r], r);
      var k: nat :| FirstSend(s.deliveries, s.sends, r, s.requests[r].phase.response, k);
      assert DeliverySound(s, s.deliveries[s.sends[k]]);
    }
  }

  // ----- Distinct ids in flight -----------------------------------------------------------------

  predicate AllCleaned(s: State, c: string) {
    forall r :: 0 <= r < |s.requests| && s.requests[r].correlationId == c ==> s.requests[r].cleaned
  }

  /** No id is registered while a request with the same id has not been cleaned up. */
  predicate DistinctInFlight(events: seq<Event>) {
    events != [] ==>
      var s, e := Exec(events[..|events| - 1]), events[|events| - 1];
      DistinctInFlight(events[..|events| - 1]) && (e.Register? ==> AllCleaned(s, e.correlationId))
  }

  /** A response with the request's id, looked up after the request registered. */
  predicate Matches(q: Request, d: Delivery) {
    d.response.correlationId == q.correlationId && d.lookedUpAt > q.registeredAt
  }

  /** Send `k` carried `x` to the request, and no earlier send carried any response that matches it. */
  predicate FirstMatchAt(ds: seq<Delivery>, sends: seq<nat>, q: Request, r: nat, x: Response, k: nat) {
    && FirstSend(ds, sends, r, x, k)
    && forall j :: 0 <= j < k && sends[j] < |ds| ==> !Matches(q, ds[sends[j]])
  }

  ghost predicate FirstMatch(ds: seq<Delivery>, sends: seq<nat>, q: Request, r: nat, x: Response) {
    exists k: nat :: FirstMatchAt(ds, sends, q, r, x, k)
  }

  ghost predicate AnswerSound(ds: seq<Delivery>, sends: seq<nat>, q: Request, r: nat) {
    && (q.phase.Got? ==> FirstMatch(ds, sends, q, r, q.phase.response))
    && (q.phase.Waiting? && q.slot.Some? ==> FirstMatch(ds, sends, q, r, q.slot.value))
  }

  /** Every in-flight request is found under its id. */
  predicate Reachable(s: State) {
    forall r :: 0 <= r < |s.requests| && !s.requests[r].cleaned ==>
      s.requests[r].correlationId in s.pending && s.pending[s.requests[r].correlationId] == r
  }

  /** Every matching response went to the in-flight request's own channel. */
  predicate Routed(s: State) {
    forall r, d | 0 <= r < |s.requests| && !s.requests[r].cleaned && 0 <= d < |s.deliveries| ::
      Matches(s.requests[r], s.deliveries[d]) ==> s.deliveries[d].target == r
  }

  ghost predicate DistinctInv(s: State) {
    && Reachable(s) && Routed(s)
    && (forall r :: 0 <= r < |s.requests| ==> AnswerSound(s.deliveries, s.sends, s.requests[r], r))
  }

  lemma FirstMatchStays(ds: seq<Delivery>, sends: seq<nat>, ds': seq<Delivery>, sends': seq<nat>,
                        q: Request, q': Request, r: nat, x: Response)
    requires q.correlationId == q'.correlationId && q.registeredAt == q'.registeredAt
    requires FirstMatch(ds, sends, q, r, x) && ds <= ds' && sends <= sends'
    requires forall j :: 0 <= j < |sends| ==> sends[j] < |ds|
    ensures FirstMatch(ds', sends', q', r, x)
  {
    var k: nat :| FirstMatchAt(ds, sends, q, r, x, k);
    assert forall j :: 0 <= j < k ==> SentTo(ds', sends', j) == SentTo(ds, sends, j) && sends'[j] == sends[j];
    assert FirstMatchAt(ds', sends', q', r, x, k);
  }

  /** The first send into the channel of a waiting request is also the first matching one. */
  lemma FirstIsMatch(s: State, d: nat)
    requires Inv(s) && DistinctInv(s) && d < |s.deliveries|
    requires var r := s.deliveries[d].target;
             r < |s.requests| && s.requests[r].phase.Waiting? && s.requests[r].slot.None?
    ensures var r := s.deliveries[d].target;
            FirstMatch(s.deliveries, s.sends + [d], s.requests[r], r, s.deliveries[d].response)
  {
    var ds, r := s.deliveries, s.deliveries[d].target;
    assert RequestSound(ds, s.sends, s.requests[r], r);
    forall j | 0 <= j < |s.sends| ensures SentTo(ds, s.sends + [d], j) != r && !Matches(s.requests[r], ds[s.sends[j]]) {
      assert SentTo(ds, s.sends + [d], j) == SentTo(ds, s.sends, j);
    }
    assert FirstMatchAt(ds, s.sends + [d], s.requests[r], r, ds[d].response, |s.sends|);
  }

  /** What a step `e` from `s` to `s'` may do to request `r` and to the two logs. */
  predicate Evolves(s: State, s': State, e: Event, r: nat) {
    && r < |s.requests| && r < |s'.requests| && s.deliveries <= s'.deliveries && s.sends <= s'.sends
    && var q, q' := s.requests[r], s'.requests[r];
       && q.correlationId == q'.correlationId && q.registeredAt == q'.registeredAt
       && (q'.phase.Got? ==> q.phase == q'.phase || (q.phase.Waiting? && q.slot == Some(q'.phase.response)))
       && (q'.phase.Waiting? && q'.slot.Some? ==> q.phase.Waiting? && (q.slot == q'.slot || Fills(s, s', e, r)))
  }

  predicate Fills(s: State, s': State, e: Event, r: nat)
    requires r < |s.requests| && r < |s'.requests|
  {
    && s.requests[r].slot.None? && e.Send? && e.delivery < |s.deliveries| && s.deliveries[e.delivery].target == r
    && s'.requests[r].slot == Some(s.deliveries[e.delivery].response)
    && s'.deliveries == s.deliveries && s'.sends == s.sends + [e.delivery]
  }

  lemma StepEvolves(s: State, e: Event, r: nat)
    requires r < |s.requests|
    ensures Evolves(s, Apply(s, e), e, r)
  {
  }

  lemma AnswersKeep(s: State, s': State, e: Event, r: nat)
    requires Inv(s) && DistinctInv(s) && Evolves(s, s', e, r)
    ensures AnswerSound(s'.deliveries, s'.sends, s'.requests[r], r)
  {
    var q, q' := s.requests[r], s'.requests[r];
    assert AnswerSound(s.deliveries, s.sends, q, r);
    if q'.phase.Got? {
      FirstMatchStays(s.deliveries, s.sends, s'.deliveries, s'.sends, q, q', r, q'.phase.response);
    } else if q'.phase.Waiting? && q'.slot.Some? && q.slot.Some? {
      FirstMatchStays(s.deliveries, s.sends, s'.deliveries, s'.sends, q, q', r, q'.slot.value);
    } else if q'.phase.Waiting? && q'.slot.Some? {
      FirstIsMatch(s, e.delivery);
      assert forall j :: 0 <= j < |s'.sends| ==> s'.sends[j] < |s.deliveries|;
      FirstMatchStays(s.deliveries, s'.sends, s.deliveries, s'.sends, q, q', r, q'.slot.value);
    }
  }

  lemma ReachableKept(s: State, e: Event)
    requires Inv(s) && Reachable(s) && (e.Register? ==> AllCleaned(s, e.correlationId))
    ensures Reachable(Apply(s, e))
  {
    hide RequestSound, DeliverySound;
  }

  lemma RouteKept(s: State, e: Event, r: nat, d: nat)
    requires Inv(s) && Reachable(s) && Routed(s) && (e.Register? ==> AllCleaned(s, e.correlationId))
    requires r < |Apply(s, e).requests| && !Apply(s, e).requests[r].cleaned && d < |Apply(s, e).deliveries|
    ensures Matches(Apply(s, e).requests[r], Apply(s, e).deliveries[d]) ==> Apply(s, e).deliveries[d].target == r
  {
    hide RequestSound;
    var s' := Apply(s, e);
    if d < |s.deliveries| {
      assert DeliverySound(s, s.deliveries[d]);
      if r < |s.requests| {
        assert Matches(s'.requests[r], s'.deliveries[d]) == Matches(s.requests[r], s.deliveries[d]);
      }
    }
  }

  lemma RoutesKeep(s: State, e: Event)
    requires Inv(s) && DistinctInv(s) && (e.Register? ==> AllCleaned(s, e.correlationId))
    ensures Reachable(Apply(s, e)) && Routed(Apply(s, e))
  {
    ReachableKept(s, e);
    hide Inv, Apply, Reachable;
    var s' := Apply(s, e);
    forall r, d | 0 <= r < |s'.requests| && !s'.requests[r].cleaned && 0 <= d < |s'.deliveries|
      ensures Matches(s'.requests[r], s'.deliveries[d]) ==> s'.deliveries[d].target == r
    {
      RouteKept(s, e, r, d);
    }
  }

  lemma {:induction false} DistinctAlways(events: seq<Event>)
    requires DistinctInFlight(events)
    ensures DistinctInv(Exec(events))
  {
    if events != [] {
      var s, e := Exec(events[..|events| - 1]), events[|events| - 1];
      DistinctAlways(events[..|events| - 1]);
      InvAlways(events[..|events| - 1]);
      RoutesKeep(s, e);
      var s' := Apply(s, e);
      forall r | 0 <= r < |s'.requests| ensures AnswerSound(s'.deliveries, s'.sends, s'.requests[r], r) {
        if r < |s.requests| {
          StepEvolves(s, e, r);
          AnswersKeep(s, s', e, r);
        }
      }
    }
  }

  /**
   If ids in flight are distinct, a returned response is the first matching one sent after registration, every
   in-flight request is found under its id, and every matching response was routed to it.
   */
  lemma FirstMatchingResponseWins(events: seq<Event>)
    requires DistinctInFlight(events)
    ensures var s := Exec(events);
            && (forall r :: 0 <= r < |s.requests| && s.requests[r].phase.Got? ==>
                  FirstMatch(s.deliveries, s.sends, s.requests[r], r, s.requests[r].phase.response))
            && Reachable(s) && Routed(s)
  {
    DistinctAlways(events);
    var s := Exec(events);
    assert forall r :: 0 <= r < |s.requests| ==> AnswerSound(s.deliveries, s.sends, s.requests[r], r);
  }

  lemma {:induction false} IdsGiven(events: seq<Event>)
    ensures forall r :: 0 <= r < |Exec(events).requests| ==> Exec(events).requests[r].correlationId != ""
  {
    if events != [] {
      IdsGiven(events[..|events| - 1]);
    }
  }

  /** Registering an id that is in flight hides the request that has it. */
  lemma ReachableStep(s: State, e: Event)
    requires Inv(s) && Reachable(s) && forall r :: 0 <= r < |s.requests| ==> s.requests[r].correlationId != ""
    ensures Reachable(Apply(s, e)) <==> (e.Register? ==> AllCleaned(s, e.correlationId))
  {
    if e.Register? ==> AllCleaned(s, e.correlationId) {
      ReachableKept(s, e);
    } else {
      var r :| 0 <= r < |s.requests| && s.requests[r].correlationId == e.correlationId && !s.requests[r].cleaned;
      var s' := Apply(s, e);
      assert s'.requests[r] == s.requests[r] && s'.pending[e.correlationId] == |s.requests|;
    }
  }

  /** Over whole runs: every request in flight can be reached at all times iff ids in flight are distinct. */
  lemma {:induction false} ReachableIff(events: seq<Event>)
    ensures (forall n :: 0 <= n <= |events| ==> Reachable(Exec(events[..n]))) <==> DistinctInFlight(events)
  {
    assert events[..|events|] == events;
    if events == [] {
      assert forall n :: 0 <= n <= |events| ==> events[..n] == [];
    } else {
      var init := events[..|events| - 1];
      ReachableIff(init);
      assert forall n :: 0 <= n <= |init| ==> init[..n] == events[..n];
      assert init[..|init|] == init;
      InvAlways(init);
      IdsGiven(init);
      hide Inv, Reachable, Apply, AllCleaned;
      if Reachable(Exec(init)) {
        ReachableStep(Exec(init), events[|events| - 1]);
      }
    }
  }

  /** A request loses its entry exactly when its id is registered again or cleaned up, by itself or by a namesake. */
  lemma EntryLostIff(s: State, r: nat, e: Event)
    requires Inv(s) && r < |s.requests|
    requires s.requests[r].correlationId in s.pending && s.pending[s.requests[r].correlationId] == r
    ensures var c := s.requests[r].correlationId;
            (c in Apply(s, e).pending && Apply(s, e).pending[c] == r) <==>
            !(|| (e.Register? && e.correlationId == c && c != "")
              || (e.Cleanup? && e.request < |s.requests| && s.requests[e.request].correlationId == c
                  && !s.requests[e.request].phase.Waiting? && !s.requests[e.request].cleaned))
  {
  }

  /** Reusing an id in flight can leave a waiting request that no response can reach any more. */
  lemma ReusedIdStarves(c: string)
    requires c != ""
    ensures var s := Exec([Register(c), Register(c), GiveUp(0), Cleanup(0)]);
            && |s.requests| == 2 && s.requests[1].correlationId == c
            && s.requests[1].phase.Waiting? && !s.requests[1].cleaned
            && forall x: Response :: x.correlationId == c ==> Apply(s, Lookup(x)).deliveries == []
  {
    var e1 := [Register(c)];
    var e2 := e1 + [Register(c)];
    var e3 := e2 + [GiveUp(0)];
    var e4 := e3 + [Cleanup(0)];
    assert e1[..0] == [] && e2[..1] == e1 && e3[..2] == e2 && e4[..3] == e3;
    assert Exec([]) == Init;
    assert Exec(e1) == State(map[c := 0], [Request(c, 0, None, Waiting, false)], [], [], 1);
    var first, second := Request(c, 0, None, Waiting, false), Request(c, 1, None, Waiting, false);
    assert Exec(e2) == State(map[c := 1], [first, second], [], [], 2);
    assert e4 == [Register(c), Register(c), GiveUp(0), Cleanup(0)];
  }

  // ----- A request from its registration to its end ---------------------------------------------

  function Ids(requests: seq<Request>): seq<string> {
    seq(|requests|, i requires 0 <= i < |requests| => requests[i].correlationId)
  }

  /** The non-empty ids of the registrations, in order. */
  function Registered(events: seq<Event>): seq<string> {
    if events == [] then []
    else
      var e := events[|events| - 1];
      Registered(events[..|events| - 1]) + if e.Register? && e.correlationId != "" then [e.correlationId] else []
  }

  lemma IdsStep(s: State, e: Event)
    ensures Ids(Apply(s, e).requests) ==
            Ids(s.requests) + if e.Register? && e.correlationId != "" then [e.correlationId] else []
  {
    var ids, ids' := Ids(s.requests), Ids(Apply(s, e).requests);
    assert forall i :: 0 <= i < |ids| ==> ids'[i] == ids[i];
  }

  /** Every registration with an id, and nothing else, makes a request with that id. */
  lemma {:induction false} RequestsExactly(events: seq<Event>)
    ensures Ids(Exec(events).requests) == Registered(events)
  {
    if events != [] {
      RequestsExactly(events[..|events| - 1]);
      IdsStep(Exec(events[..|events| - 1]), events[|events| - 1]);
      hide Apply, Ids;
    }
  }

  /** With distinct ids in flight: a response is delivered to the request with its id, anything else to nobody. */
  lemma ResponsesRouted(events: seq<Event>, r: nat, x: Response)
    requires DistinctInFlight(events) && r < |Exec(events).requests| && !Exec(events).requests[r].cleaned
    requires x.correlationId == Exec(events).requests[r].correlationId
    ensures var s := Exec(events);
            Exec(events + [Lookup(x)]).deliveries ==
            s.deliveries + if x.isResponse then [Delivery(x, r, s.clock)] else []
  {
    FirstMatchingResponseWins(events);
    IdsGiven(events);
    assert (events + [Lookup(x)])[..|events|] == events;
  }

  /** An id no request in flight has is nobody's. */
  lemma StrangersIgnored(events: seq<Event>, x: Response)
    requires AllCleaned(Exec(events), x.correlationId)
    ensures Exec(events + [Lookup(x)]).deliveries == Exec(events).deliveries
  {
    InvAlways(events);
    assert (events + [Lookup(x)])[..|events|] == events;
  }

  /** The response to a waiting request is what the request returns. */
  lemma ResponseArrives(events: seq<Event>, r: nat, x: Response)
    requires DistinctInFlight(events) && r < |Exec(events).requests| && x.isResponse
    requires var q := Exec(events).requests[r];
             q.phase.Waiting? && q.slot.None? && !q.cleaned && x.correlationId == q.correlationId
    ensures var s := Exec(events);
            var t := Exec(events + [Lookup(x), Send(|s.deliveries|), Receive(r)]);
            r < |t.requests| && t.requests[r].phase == Got(x)
  {
    var s := Exec(events);
    ResponsesRouted(events, r, x);
    InvAlways(events);
    var e1 := events + [Lookup(x)];
    var e2 := e1 + [Send(|s.deliveries|)];
    var e3 := e2 + [Receive(r)];
    assert e1[..|events|] == events && e2[..|e1|] == e1 && e3[..|e2|] == e2;
    assert e3 == events + [Lookup(x), Send(|s.deliveries|), Receive(r)];
    assert Exec(e1).requests == s.requests && Exec(e1).sends == s.sends;
    assert Exec(e2).requests[r].slot == Some(x);
  }

  /** A request that gives up is forgotten: its id is free again and its late response goes to nobody. */
  lemma GivenUpForgotten(events: seq<Event>, r: nat, x: Response)
    requires r < |Exec(events).requests| && Exec(events).requests[r].phase.Waiting?
    requires x.correlationId == Exec(events).requests[r].correlationId
    ensures var done := events + [GiveUp(r), Cleanup(r)];
            && r < |Exec(done).requests| && Exec(done).requests[r].phase == GaveUp
            && x.correlationId !in Exec(done).pending
            && Exec(done + [Lookup(x)]).deliveries == Exec(events).deliveries
  {
    InvAlways(events);
    assert RequestSound(Exec(events).deliveries, Exec(events).sends, Exec(events).requests[r], r);
    var e1 := events + [GiveUp(r)];
    var e2 := e1 + [Cleanup(r)];
    assert e1[..|events|] == events && e2[..|e1|] == e1 && e2 == events + [GiveUp(r), Cleanup(r)];
    assert (e2 + [Lookup(x)])[..|e2|] == e2;
    assert Exec(e1).requests[r].phase == GaveUp && !Exec(e1).requests[r].cleaned;
  }
}
