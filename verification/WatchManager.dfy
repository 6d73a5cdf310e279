/**
 Watch subscriptions over shared informers. Handlers are never unregistered from an informer: a replaced,
 removed or expired subscription is silenced only by its cancelled context.
 */
module WatchManager {
  import opened Foundation
  import opened Text

  datatype EventType = Added | Modified | Deleted | Restart | K8sEvent

  /** `events`: the event types its filter allows. */
  datatype Payload = Payload(id: string, group: string, version: string, kind: string, namespace: string,
                             labels: string, fields: string, events: set<EventType>)

  datatype Key = Key(group: string, version: string, kind: string, namespace: string, labels: string, fields: string)

  predicate ClusterScoped(kind: string) {
    TrimSpace(kind) in {"Namespace", "Node", "PersistentVolume", "StorageClass", "ClusterRole", "ClusterRoleBinding"}
  }

  function InformerNamespace(kind: string, namespace: string): string {
    if ClusterScoped(kind) then "" else namespace
  }

  function KeyOf(p: Payload): Key {
    Key(p.group, p.version, p.kind, InformerNamespace(p.kind, p.namespace), p.labels, p.fields)
  }

  /** What an informer lists and watches, and the root context its factory was started on. */
  datatype Informer = Informer(group: string, version: string, kind: string,
                               namespace: string, labels: string, fields: string, root: nat)

  datatype Sub = Sub(payload: Payload, ctx: nat)
  datatype Handler = Handler(ctx: nat, payload: Payload, informer: nat)

  /** Contexts are numbered; `made` lists every informer ever created, `handlers` every handler ever added. */
  datatype State = State(subs: map<string, Sub>, informers: map<Key, nat>, factories: map<Key, nat>,
                         root: nat, cancelled: set<nat>, next: nat,
                         made: seq<Informer>, handlers: seq<Handler>)

  /** How a Subscribe call fares: refused by policy or without a resource mapping, sync timed out, or synced. */
  datatype Outcome = Refused | SyncTimeout | Synced

  datatype Event =
    | Subscribe(payload: Payload, outcome: Outcome)
    | Unsubscribe(id: string)
    | Expire(ctx: nat)
    | StopAll

  const Init := State(map[], map[], map[], 0, {}, 1, [], [])

  function Without(s: State, id: string): State {
    if id in s.subs then s.(cancelled := s.cancelled + {s.subs[id].ctx}, subs := s.subs - {id}) else s
  }

  function WithInformer(s: State, key: Key, p: Payload): State {
    if key in s.informers then s
    else s.(made := s.made + [Informer(p.group, p.version, p.kind, key.namespace, p.labels, p.fields, s.root)],
            informers := s.informers[key := |s.made|], factories := s.factories[key := |s.made|])
  }

  function Contexts(subs: map<string, Sub>): set<nat> {
    set id | id in subs :: subs[id].ctx
  }

  lemma ContextsMinus(subs: map<string, Sub>, id: string)
    requires id in subs
    ensures Contexts(subs) == Contexts(subs - {id}) + {subs[id].ctx} && |subs - {id}| < |subs|
  {
    var rest := subs - {id};
    assert forall k :: k in subs <==> k == id || k in rest;
    assert subs.Keys == rest.Keys + {id} && |subs.Keys| == |rest.Keys| + 1;
  }

  /** The rest of Subscribe once the informer is there: a new context, then a handler unless the sync timed out. */
  function Attach(t: State, p: Payload, inf: nat, outcome: Outcome): State {
    if outcome.Synced? then
      t.(next := t.next + 1, handlers := t.handlers + [Handler(t.next, p, inf)], subs := t.subs[p.id := Sub(p, t.next)])
    else t.(next := t.next + 1, cancelled := t.cancelled + {t.next})
  }

  function Subscribed(s: State, p: Payload, outcome: Outcome): State {
    if outcome.Refused? then s
    else
      var t := WithInformer(Without(s, p.id), KeyOf(p), p);
      Attach(t, p, t.informers[KeyOf(p)], outcome)
  }

  function Apply(s: State, e: Event): State {
    match e
    case Subscribe(p, outcome) => Subscribed(s, p, outcome)
    case Unsubscribe(id) => Without(s, id)
    case Expire(ctx) => if ctx != s.root && ctx < s.next then s.(cancelled := s.cancelled + {ctx}) else s
    case StopAll =>
      s.(subs := map[], informers := map[], factories := map[], cancelled := s.cancelled + Contexts(s.subs) + {s.root},
         root := s.next, next := s.next + 1)
  }

  function Exec(events: seq<Event>): State {
    if events == [] then Init else Apply(Exec(events[..|events| - 1]), events[|events| - 1])
  }

  class Manager {
    var subs: map<string, Sub>
    var informers: map<Key, nat>
    var factories: map<Key, nat>
    var root: nat
    var cancelled: set<nat>
    var next: nat
    var made: seq<Informer>
    var handlers: seq<Handler>

    ghost function View(): State
      reads this
    {
      State(subs, informers, factories, root, cancelled, next, made, handlers)
    }

    constructor ()
      ensures View() == Init
    {
      subs, informers, factories, root, cancelled, next, made, handlers := map[], map[], map[], 0, {}, 1, [], [];
    }

    method GetOrCreateInformer(key: Key, p: Payload) returns (inf: nat)
      modifies this
      ensures View() == WithInformer(old(View()), key, p)
      ensures key in informers && inf == informers[key]
    {
      if key in informers {
        return informers[key];
      }
      inf := |made|;
      made := made + [Informer(p.group, p.version, p.kind, key.namespace, p.labels, p.fields, root)];
      informers := informers[key := inf];
      factories := factories[key := inf];
    }

    method Subscribe(p: Payload, outcome: Outcome) returns (ok: bool)
      modifies this
      ensures View() == Subscribed(old(View()), p, outcome) && ok == outcome.Synced?
    {
      if outcome.Refused? {
        return false;
      }
      if p.id in subs {
        cancelled := cancelled + {subs[p.id].ctx};
        subs := subs - {p.id};
      }
      var inf := GetOrCreateInformer(KeyOf(p), p);
      var ctx := next;
      next := next + 1;
      if outcome.SyncTimeout? {
        cancelled := cancelled + {ctx};
        return false;
      }
      handlers := handlers + [Handler(ctx, p, inf)];
      subs := subs[p.id := Sub(p, ctx)];
      return true;
    }

    method Unsubscribe(id: string) returns (found: bool)
      modifies this
      ensures View() == Without(old(View()), id) && found == (id in old(subs))
    {
      if id !in subs {
        return false;
      }
      cancelled := cancelled + {subs[id].ctx};
      subs := subs - {id};
      return true;
    }

    method StopAll()
      modifies this`subs, this`cancelled, this`informers, this`factories, this`root, this`next
      ensures View() == Apply(old(View()), Event.StopAll)
    {
      while subs != map[]
        invariant cancelled + Contexts(subs) == old(cancelled) + Contexts(old(subs))
        invariant root == old(root) && next == old(next)
        decreases |subs|
      {
        var id :| id in subs;
        ContextsMinus(subs, id);
        cancelled := cancelled + {subs[id].ctx};
        subs := subs - {id};
      }
      cancelled := cancelled + {root};
      informers, factories := map[], map[];
      root, next := next, next + 1;
    }
  }

  // ----- The invariant --------------------------------------------------------------------------

  /** The informer shows exactly what the payload asks for. */
  predicate Filters(inf: Informer, p: Payload) {
    Key(inf.group, inf.version, inf.kind, inf.namespace, inf.labels, inf.fields) == KeyOf(p)
  }

  /** The cache: same keys in both maps, every informer runs on the current root and filters as its key says. */
  predicate CacheSound(s: State) {
    && s.informers == s.factories
    && s.root !in s.cancelled && s.root < s.next
    && forall k :: k in s.informers ==>
         && s.informers[k] < |s.made|
         && var inf := s.made[s.informers[k]];
            Informer(k.group, k.version, k.kind, k.namespace, k.labels, k.fields, s.root) == inf
  }

  predicate HandlerSound(s: State, h: Handler) {
    && h.ctx < s.next && h.ctx != s.root
    && h.informer < |s.made| && Filters(s.made[h.informer], h.payload)
    && (h.ctx !in s.cancelled ==> h.payload.id in s.subs && s.subs[h.payload.id] == Sub(h.payload, h.ctx))
  }

  /** The entry's own handler is registered, on the cached informer of its key. */
  predicate Attached(s: State, id: string)
    requires id in s.subs
  {
    var sub := s.subs[id];
    && sub.payload.id == id && KeyOf(sub.payload) in s.informers
    && Handler(sub.ctx, sub.payload, s.informers[KeyOf(sub.payload)]) in s.handlers
  }

  ghost predicate Inv(s: State) {
    && CacheSound(s)
    && (forall i :: 0 <= i < |s.handlers| ==> HandlerSound(s, s.handlers[i]))
    && (forall i, j :: 0 <= i < j < |s.handlers| ==> s.handlers[i].ctx != s.handlers[j].ctx)
    && (forall id :: id in s.subs ==> Attached(s, id))
    && (forall c :: c in s.cancelled ==> c < s.next)
  }

  lemma WithoutKeeps(s: State, id: string)
    requires Inv(s)
    ensures Inv(Without(s, id))
  {
    hide InformerNamespace;
    if id in s.subs {
      var t := Without(s, id);
      assert Attached(s, id);
      forall k | k in t.subs ensures Attached(t, k) {
        assert Attached(s, k);
      }
    }
  }

  lemma WithInformerSound(s: State, p: Payload)
    requires CacheSound(s)
    ensures CacheSound(WithInformer(s, KeyOf(p), p))
  {
    hide InformerNamespace;
  }

  lemma WithInformerKeeps(s: State, p: Payload)
    requires Inv(s)
    ensures Inv(WithInformer(s, KeyOf(p), p))
  {
    WithInformerSound(s, p);
    hide KeyOf, CacheSound;
    var t := WithInformer(s, KeyOf(p), p);
    forall k | k in t.subs ensures Attached(t, k) {
      assert Attached(s, k);
    }
    forall i | 0 <= i < |t.handlers| ensures HandlerSound(t, t.handlers[i]) {
      assert HandlerSound(s, s.handlers[i]);
    }
  }

  lemma CancelKeeps(s: State, ctx: nat)
    requires Inv(s) && ctx != s.root && ctx < s.next
    ensures Inv(s.(cancelled := s.cancelled + {ctx}))
  {
    hide InformerNamespace;
    var t := s.(cancelled := s.cancelled + {ctx});
    forall k | k in t.subs ensures Attached(t, k) {
      assert Attached(s, k);
    }
    forall i | 0 <= i < |t.handlers| ensures HandlerSound(t, t.handlers[i]) {
      assert HandlerSound(s, s.handlers[i]);
    }
  }

  lemma NextKeeps(s: State)
    requires Inv(s)
    ensures Inv(s.(next := s.next + 1))
  {
    hide InformerNamespace;
    var t := s.(next := s.next + 1);
    forall k | k in t.subs ensures Attached(t, k) {
      assert Attached(s, k);
    }
    forall i | 0 <= i < |t.handlers| ensures HandlerSound(t, t.handlers[i]) {
      assert HandlerSound(s, s.handlers[i]);
    }
  }

  /** A fresh context, with a handler on the cached informer of its key and an entry under its id. */
  lemma SyncedKeeps(t: State, p: Payload, inf: nat)
    requires Inv(t) && p.id !in t.subs && KeyOf(p) in t.informers && t.informers[KeyOf(p)] == inf
    ensures Inv(Attach(t, p, inf, Synced))
  {
    hide KeyOf;
    var h, u := Handler(t.next, p, inf), Attach(t, p, inf, Synced);
    assert Filters(t.made[inf], p);
    hide Filters, CacheSound;
    assert u.handlers[|t.handlers|] == h && h in u.handlers;
    forall k | k in u.subs ensures Attached(u, k) {
      if k != p.id {
        assert Attached(t, k);
      }
    }
    forall i | 0 <= i < |u.handlers| ensures HandlerSound(u, u.handlers[i]) {
      if i < |t.handlers| {
        assert HandlerSound(t, t.handlers[i]);
      }
    }
    assert CacheSound(u) by {
      SameCache(t, u);
    }
  }

  lemma SameCache(t: State, u: State)
    requires CacheSound(t) && u.informers == t.informers && u.factories == t.factories && u.made == t.made
    requires u.root == t.root && u.cancelled == t.cancelled && u.next >= t.next
    ensures CacheSound(u)
  {
  }

  lemma AttachKeeps(t: State, p: Payload, inf: nat, outcome: Outcome)
    requires Inv(t) && p.id !in t.subs && KeyOf(p) in t.informers && t.informers[KeyOf(p)] == inf
    ensures Inv(Attach(t, p, inf, outcome))
  {
    hide Inv, KeyOf;
    if outcome.Synced? {
      SyncedKeeps(t, p, inf);
    } else {
      NextKeeps(t);
      assert t.root < t.next by {
        RootKnown(t);
      }
      CancelKeeps(t.(next := t.next + 1), t.next);
    }
  }

  lemma RootKnown(t: State)
    requires Inv(t)
    ensures t.root < t.next
  {
  }

  lemma SubscribeKeeps(s: State, p: Payload, outcome: Outcome)
    requires Inv(s)
    ensures Inv(Subscribed(s, p, outcome))
  {
    hide InformerNamespace;
    var r := Without(s, p.id);
    var t := WithInformer(r, KeyOf(p), p);
    WithoutKeeps(s, p.id);
    WithInformerKeeps(r, p);
    assert p.id !in r.subs && t.subs == r.subs;
    AttachKeeps(t, p, t.informers[KeyOf(p)], outcome);
  }

  lemma StopAllKeeps(s: State)
    requires Inv(s)
    ensures Inv(Apply(s, StopAll))
  {
    hide KeyOf, Filters;
    var t := Apply(s, StopAll);
    forall i | 0 <= i < |t.handlers| ensures HandlerSound(t, t.handlers[i]) {
      assert HandlerSound(s, s.handlers[i]);
    }
    forall c | c in t.cancelled ensures c < t.next {
      if c in Contexts(s.subs) {
        var id :| id in s.subs && s.subs[id].ctx == c;
        assert Attached(s, id);
      }
    }
  }

  lemma InvStep(s: State, e: Event)
    requires Inv(s)
    ensures Inv(Apply(s, e))
  {
    match e
    case Subscribe(p, outcome) => SubscribeKeeps(s, p, outcome);
    case Unsubscribe(id) => WithoutKeeps(s, id);
    case Expire(ctx) =>
      if ctx != s.root && ctx < s.next {
        CancelKeeps(s, ctx);
      }
    case StopAll => StopAllKeeps(s);
  }

  lemma {:induction false} InvAlways(events: seq<Event>)
    ensures Inv(Exec(events))
  {
    if events != [] {
      InvAlways(events[..|events| - 1]);
      InvStep(Exec(events[..|events| - 1]), events[|events| - 1]);
    }
  }

  /** The informer lists the payload's resource with its selectors, in its namespace unless the kind has none. */
  predicate Shows(inf: Informer, p: Payload) {
    && inf.group == p.group && inf.version == p.version && inf.kind == p.kind
    && inf.labels == p.labels && inf.fields == p.fields
    && inf.namespace ==
       if TrimSpace(p.kind) == "Namespace" || TrimSpace(p.kind) == "Node" || TrimSpace(p.kind) == "PersistentVolume"
          || TrimSpace(p.kind) == "StorageClass" || TrimSpace(p.kind) == "ClusterRole"
          || TrimSpace(p.kind) == "ClusterRoleBinding"
       then "" else p.namespace
  }

  lemma FiltersShow(inf: Informer, p: Payload)
    ensures Filters(inf, p) <==> Shows(inf, p)
  {
    hide TrimSpace;
  }

  /**
   In every reachable state: both maps have the same keys, every cached informer runs on the current, uncancelled
   root, and every informer, cached or not, shows exactly what every subscription ever attached to it asks for.
   */
  lemma InformerCacheSound(events: seq<Event>)
    ensures var s := Exec(events);
            && s.informers.Keys == s.factories.Keys && s.root !in s.cancelled
            && (forall k :: k in s.informers ==> s.informers[k] < |s.made| && s.made[s.informers[k]].root == s.root)
            && (forall i :: 0 <= i < |s.handlers| ==>
                  s.handlers[i].informer < |s.made| && Shows(s.made[s.handlers[i].informer], s.handlers[i].payload))
  {
    InvAlways(events);
    var s := Exec(events);
    hide Filters, Shows;
    forall i | 0 <= i < |s.handlers|
      ensures s.handlers[i].informer < |s.made| && Shows(s.made[s.handlers[i].informer], s.handlers[i].payload)
    {
      assert HandlerSound(s, s.handlers[i]);
      FiltersShow(s.made[s.handlers[i].informer], s.handlers[i].payload);
    }
  }

  // ----- Subscriptions from the calls alone -----------------------------------------------------

  /** The payload of the last subscription to the id that succeeded, unless it has been replaced or removed since. */
  function Standing(events: seq<Event>, id: string): Option<Payload> {
    if events == [] then None
    else
      var init := events[..|events| - 1];
      match events[|events| - 1]
      case Subscribe(p, outcome) =>
        if p.id != id || outcome == Refused then Standing(init, id)
        else if outcome == Synced then Some(p)
        else None
      case Unsubscribe(i) => if i == id then None else Standing(init, id)
      case StopAll => None
      case Expire(_) => Standing(init, id)
  }

  lemma SubsStep(s: State, e: Event, id: string)
    ensures var subs, subs' := s.subs, Apply(s, e).subs;
            match e
            case Subscribe(p, outcome) =>
              if p.id != id || outcome == Refused then SameEntry(subs, subs', id)
              else if outcome == Synced then id in subs' && subs'[id] == Sub(p, s.next)
              else id !in subs'
            case Unsubscribe(i) => if i == id then id !in subs' else SameEntry(subs, subs', id)
            case StopAll => id !in subs'
            case Expire(_) => SameEntry(subs, subs', id)
  {
    hide KeyOf;
  }

  predicate SameEntry(subs: map<string, Sub>, subs': map<string, Sub>, id: string) {
    (id in subs <==> id in subs') && (id in subs ==> subs[id] == subs'[id])
  }

  /** Exactly the standing subscriptions are registered. */
  lemma {:induction false} SubscribedExactly(events: seq<Event>, id: string)
    ensures var s := Exec(events); Standing(events, id) == if id in s.subs then Some(s.subs[id].payload) else None
  {
    if events != [] {
      SubscribedExactly(events[..|events| - 1], id);
      SubsStep(Exec(events[..|events| - 1]), events[|events| - 1], id);
      hide Apply;
    }
  }

  /** Two registered ids never share a context. */
  lemma ContextsDiffer(s: State, i: string, j: string)
    requires Inv(s) && i in s.subs && j in s.subs && s.subs[i].ctx == s.subs[j].ctx
    ensures i == j
  {
    hide KeyOf, CacheSound, HandlerSound;
    assert Attached(s, i) && Attached(s, j);
  }

  /** What a call other than StopAll cancels. */
  lemma CancelledBy(s: State, e: Event, c: nat)
    requires c in Apply(s, e).cancelled && c !in s.cancelled && !e.StopAll?
    ensures match e
            case Subscribe(p, outcome) =>
              (p.id in s.subs && c == s.subs[p.id].ctx) || (outcome == SyncTimeout && c == s.next)
            case Unsubscribe(id) => id in s.subs && c == s.subs[id].ctx
            case Expire(ctx) => c == ctx
            case StopAll => false
  {
    hide KeyOf;
  }

  lemma ContextKnown(s: State, id: string)
    requires Inv(s) && id in s.subs
    ensures s.subs[id].ctx < s.next
  {
    hide KeyOf, CacheSound;
    assert Attached(s, id);
    var k :| 0 <= k < |s.handlers| && s.handlers[k].ctx == s.subs[id].ctx;
    assert HandlerSound(s, s.handlers[k]);
  }

  predicate Silenced(s: State, id: string) {
    id in s.subs && s.subs[id].ctx in s.cancelled
  }

  lemma CancelStep(s: State, e: Event, id: string)
    requires Inv(s) && Silenced(Apply(s, e), id)
    ensures e == Expire(Apply(s, e).subs[id].ctx) || (Silenced(s, id) && s.subs[id] == Apply(s, e).subs[id])
  {
    assert forall c :: c in s.cancelled ==> c < s.next;
    SubsStep(s, e, id);
    var c := Apply(s, e).subs[id].ctx;
    if c !in s.cancelled && !e.StopAll? {
      CancelledBy(s, e, c);
    }
    if id in s.subs {
      ContextKnown(s, id);
    }
    var gone := if e.Subscribe? then e.payload.id else if e.Unsubscribe? then e.id else id;
    if gone in s.subs {
      ContextKnown(s, gone);
      if id in s.subs && s.subs[id].ctx == s.subs[gone].ctx {
        ContextsDiffer(s, id, gone);
      }
    }
    hide Apply, Inv;
  }

  /** A registered subscription is silenced by the expiry of its own context only. */
  lemma {:induction false} SilencedByExpiryOnly(events: seq<Event>, id: string)
    ensures var s := Exec(events);
            Silenced(s, id) ==> Expire(s.subs[id].ctx) in events
  {
    if events != [] {
      var init := events[..|events| - 1];
      var s, s' := Exec(init), Exec(events);
      SilencedByExpiryOnly(init, id);
      InvAlways(init);
      assert events == init + [events[|events| - 1]];
      if Silenced(s', id) {
        CancelStep(s, events[|events| - 1], id);
      }
    }
  }

  // ----- Delivery -------------------------------------------------------------------------------

  /** What an informer hands to its handlers; a final state wraps the last object known before a deletion. */
  datatype Object = Nil | Unstructured | FinalState(last: Object) | Other

  datatype Notice = Notice(eventType: EventType, obj: Object)

  predicate Converts(o: Object) {
    o.Unstructured? || (o.FinalState? && Converts(o.last))
  }

  function Effective(p: Payload, t: EventType): Option<EventType> {
    if p.kind == "Event" && K8sEvent in p.events then Some(K8sEvent)
    else if t in p.events then Some(t)
    else None
  }

  /** The type handleObject publishes under, if it publishes. */
  function Published(p: Payload, n: Notice): Option<EventType> {
    if Converts(n.obj) then Effective(p, n.eventType) else None
  }

  datatype Publication = Publication(id: string, eventType: EventType)

  predicate Fires(s: State, h: Handler, inf: nat, t: Notice) {
    h.informer == inf && h.ctx !in s.cancelled && Published(h.payload, t).Some?
  }

  /** What the handler publishes when it fires. */
  function Says(h: Handler, t: Notice): Publication {
    Publication(h.payload.id, if Published(h.payload, t).Some? then Published(h.payload, t).value else t.eventType)
  }

  /** What is published for one notification of informer `inf`, in handler order. */
  function Deliver(s: State, handlers: seq<Handler>, inf: nat, t: Notice): seq<Publication> {
    if handlers == [] then []
    else
      var h := handlers[|handlers| - 1];
      Deliver(s, handlers[..|handlers| - 1], inf, t) + if Fires(s, h, inf, t) then [Says(h, t)] else []
  }

  lemma {:induction false} DeliveredWhen(s: State, n: nat, inf: nat, t: Notice, p: Publication)
    requires n <= |s.handlers|
    ensures p in Deliver(s, s.handlers[..n], inf, t) <==>
            exists i :: 0 <= i < n && Says(s.handlers[i], t) == p && Fires(s, s.handlers[i], inf, t)
    decreases n
  {
    hide Fires, Says;
    if n > 0 {
      assert s.handlers[..n][..n - 1] == s.handlers[..n - 1];
      DeliveredWhen(s, n - 1, inf, t, p);
    }
  }

  /** Two handlers of one id never fire together. */
  lemma FiringDistinct(s: State, i: nat, j: nat, inf: nat, t: Notice)
    requires Inv(s) && i < j < |s.handlers| && s.handlers[i].payload.id == s.handlers[j].payload.id
    ensures !Fires(s, s.handlers[i], inf, t) || !Fires(s, s.handlers[j], inf, t)
  {
    hide InformerNamespace, Published, Filters;
    assert HandlerSound(s, s.handlers[i]) && HandlerSound(s, s.handlers[j]);
  }

  lemma CountSnoc(ps: seq<Publication>, last: Publication, p: Publication)
    ensures multiset(ps + [last])[p] == multiset(ps)[p] + if last == p then 1 else 0
    ensures p !in ps ==> multiset(ps)[p] == 0
  {
  }

  lemma DeliverSnoc(s: State, n: nat, inf: nat, t: Notice)
    requires n < |s.handlers|
    ensures Deliver(s, s.handlers[..n + 1], inf, t) ==
            Deliver(s, s.handlers[..n], inf, t)
            + if Fires(s, s.handlers[n], inf, t) then [Says(s.handlers[n], t)] else []
  {
    assert s.handlers[..n + 1][..n] == s.handlers[..n];
  }

  /** A handler that fires is the only one of its id, so nothing has been published for its id before. */
  lemma NotDeliveredBefore(s: State, n: nat, inf: nat, t: Notice)
    requires Inv(s) && n < |s.handlers| && Fires(s, s.handlers[n], inf, t)
    ensures Says(s.handlers[n], t) !in Deliver(s, s.handlers[..n], inf, t)
  {
    DeliveredWhen(s, n, inf, t, Says(s.handlers[n], t));
    forall i | 0 <= i < n && Says(s.handlers[i], t) == Says(s.handlers[n], t)
      ensures !Fires(s, s.handlers[i], inf, t)
    {
      FiringDistinct(s, i, n, inf, t);
    }
  }

  lemma {:induction false} DeliverCount(s: State, n: nat, inf: nat, t: Notice, p: Publication)
    requires Inv(s) && n <= |s.handlers|
    ensures multiset(Deliver(s, s.handlers[..n], inf, t))[p] <= 1
    decreases n
  {
    hide Inv, Fires, Says;
    if n > 0 {
      DeliverCount(s, n - 1, inf, t, p);
      DeliverSnoc(s, n - 1, inf, t);
      CountSnoc(Deliver(s, s.handlers[..n - 1], inf, t), Says(s.handlers[n - 1], t), p);
      if Fires(s, s.handlers[n - 1], inf, t) {
        NotDeliveredBefore(s, n - 1, inf, t);
      }
    }
  }

  /** The object under any number of final states. */
  function Unwrapped(o: Object): Object {
    if o.FinalState? then Unwrapped(o.last) else o
  }

  /** The subscription wants to hear of the notification, as an event of type `ty`. */
  predicate Asks(p: Payload, t: Notice, ty: EventType) {
    && Unwrapped(t.obj) == Unstructured
    && if p.kind == "Event" && K8sEvent in p.events then ty == K8sEvent
       else t.eventType in p.events && ty == t.eventType
  }

  lemma {:induction false} ConvertsUnwrapped(o: Object)
    ensures Converts(o) <==> Unwrapped(o) == Unstructured
  {
    if o.FinalState? {
      ConvertsUnwrapped(o.last);
    }
  }

  lemma AsksIsPublished(p: Payload, t: Notice, ty: EventType)
    ensures Asks(p, t, ty) <==> Published(p, t) == Some(ty)
  {
    ConvertsUnwrapped(t.obj);
  }

  /** The subscription is registered, alive, and watches this informer. */
  predicate Listens(s: State, id: string, inf: nat) {
    && id in s.subs && s.subs[id].ctx !in s.cancelled
    && KeyOf(s.subs[id].payload) in s.informers && s.informers[KeyOf(s.subs[id].payload)] == inf
  }

  predicate Wants(s: State, p: Publication, inf: nat, t: Notice) {
    Listens(s, p.id, inf) && Asks(s.subs[p.id].payload, t, p.eventType)
  }

  lemma DeliveredIffWanted(s: State, inf: nat, t: Notice, p: Publication)
    requires Inv(s)
    ensures p in Deliver(s, s.handlers, inf, t) <==> Wants(s, p, inf, t)
  {
    hide InformerNamespace, Published, Filters, Deliver, Asks;
    DeliveredWhen(s, |s.handlers|, inf, t, p);
    assert s.handlers[..|s.handlers|] == s.handlers;
    if p.id in s.subs {
      OwnHandlerFires(s, inf, t, p);
    } else {
      forall i | 0 <= i < |s.handlers| && Says(s.handlers[i], t) == p ensures !Fires(s, s.handlers[i], inf, t) {
        assert HandlerSound(s, s.handlers[i]);
      }
    }
  }

  /** Of the handlers of a registered id only its own can fire, and it does iff the subscription wants the event. */
  lemma OwnHandlerFires(s: State, inf: nat, t: Notice, p: Publication)
    requires Inv(s) && p.id in s.subs
    ensures Wants(s, p, inf, t) <==>
            exists i :: 0 <= i < |s.handlers| && Says(s.handlers[i], t) == p && Fires(s, s.handlers[i], inf, t)
  {
    hide InformerNamespace, Published, Filters, Asks;
    assert Attached(s, p.id);
    var sub := s.subs[p.id];
    AsksIsPublished(sub.payload, t, p.eventType);
    var own := Handler(sub.ctx, sub.payload, s.informers[KeyOf(sub.payload)]);
    var j :| 0 <= j < |s.handlers| && s.handlers[j] == own;
    assert Says(own, t) == p && Fires(s, own, inf, t) <==> Wants(s, p, inf, t);
    forall i | 0 <= i < |s.handlers| && Says(s.handlers[i], t) == p && Fires(s, s.handlers[i], inf, t)
      ensures i == j
    {
      assert HandlerSound(s, s.handlers[i]) && s.handlers[i].ctx == s.handlers[j].ctx;
    }
  }

  /**
   After every history, one notification is published exactly once for each subscription that listens and asks for it,
   under the type it asks for, and not at all otherwise: never twice after a re-subscribe, never for a replaced or
   removed subscription, never under another type.
   */
  lemma DeliveredExactlyOnce(events: seq<Event>, inf: nat, t: Notice, p: Publication)
    ensures var s := Exec(events);
            multiset(Deliver(s, s.handlers, inf, t))[p] ==
            if Listens(s, p.id, inf) && Asks(s.subs[p.id].payload, t, p.eventType) then 1 else 0
  {
    hide InformerNamespace, Asks;
    var s := Exec(events);
    InvAlways(events);
    DeliverCount(s, |s.handlers|, inf, t, p);
    DeliveredIffWanted(s, inf, t, p);
    assert s.handlers[..|s.handlers|] == s.handlers;
  }

  /** From the calls alone: a standing subscription whose context has not expired listens to one informer. */
  lemma StandingListens(events: seq<Event>, id: string) returns (inf: nat)
    requires Standing(events, id).Some?
    ensures var s := Exec(events);
            && id in s.subs && s.subs[id].payload == Standing(events, id).value
            && (Expire(s.subs[id].ctx) !in events ==> Listens(s, id, inf))
            && inf < |s.made| && Shows(s.made[inf], Standing(events, id).value)
  {
    SubscribedExactly(events, id);
    SilencedByExpiryOnly(events, id);
    InvAlways(events);
    var s := Exec(events);
    assert Attached(s, id);
    inf := s.informers[KeyOf(s.subs[id].payload)];
    assert Filters(s.made[inf], s.subs[id].payload);
    FiltersShow(s.made[inf], s.subs[id].payload);
  }
}
