/**
 The in-memory cache with expiry. Only Get removes an expired entry, and only the one it was asked for; everything
 else leaves expired entries where they are. Each operation is one step with its own reading of a clock that never
 goes back. A history of calls has a meaning of its own, against which the stored map is compared.
 */
module CacheStore {
  import opened Foundation

  /** Times are in nanoseconds. */
  datatype Entry = Entry(key: string, value: string, updatedAt: int, expiresAt: Option<int>)

  const Second := 1_000_000_000

  datatype Op =
    | Put(key: string, value: string, ttlSeconds: int)
    | Delete(keys: seq<string>)
    | Get(key: string)
    | List(prefix: string)
    | Clear
    | ClearPrefix(prefix: string)

  datatype Call = Call(op: Op, now: int)

  type Entries = map<string, Entry>

  predicate Expired(e: Entry, now: int) {
    e.expiresAt.Some? && now > e.expiresAt.value
  }

  function NewEntry(key: string, value: string, ttlSeconds: int, now: int): Entry {
    Entry(key, value, now, if ttlSeconds > 0 then Some(now + ttlSeconds * Second) else None)
  }

  function Elements(keys: seq<string>): set<string> {
    set k | k in keys
  }

  lemma ElementsStep(keys: seq<string>, i: nat)
    requires i < |keys|
    ensures Elements(keys[..i + 1]) == Elements(keys[..i]) + {keys[i]}
  {
    assert keys[..i + 1] == keys[..i] + [keys[i]];
  }

  function WithPrefix(m: Entries, prefix: string): set<string> {
    set k | k in m && prefix <= k
  }

  function Apply(m: Entries, c: Call): Entries {
    match c.op
    case Put(key, value, ttl) => m[key := NewEntry(key, value, ttl, c.now)]
    case Delete(keys) => m - Elements(keys)
    case Get(key) => if key in m && Expired(m[key], c.now) then m - {key} else m
    case List(_) => m
    case Clear => map[]
    case ClearPrefix(prefix) => m - WithPrefix(m, prefix)
  }

  function Exec(calls: seq<Call>): Entries {
    if calls == [] then map[] else Apply(Exec(calls[..|calls| - 1]), calls[|calls| - 1])
  }

  /** What Get answers from the stored map. */
  function Answer(m: Entries, key: string, now: int): Option<Entry> {
    if key in m && !Expired(m[key], now) then Some(m[key]) else None
  }

  function Shown(m: Entries, prefix: string, now: int): set<string> {
    set k | k in m && prefix <= k && !Expired(m[k], now)
  }

  /** What ListByPrefix finds in the stored map; the order of a Go map is arbitrary. */
  function Found(m: Entries, prefix: string, now: int): set<Entry> {
    Image(m, Shown(m, prefix, now))
  }

  function Image(m: Entries, keys: set<string>): set<Entry> {
    set k | k in keys && k in m :: m[k]
  }

  lemma ImageGrows(m: Entries, keys: set<string>, key: string)
    requires key in m
    ensures Image(m, keys + {key}) == Image(m, keys) + {m[key]}
  {
  }

  lemma OneRemoved(m: Entries, gone: set<string>, key: string)
    ensures (m - gone) - {key} == m - (gone + {key})
    ensures key in m - gone ==> |m - (gone + {key})| == |m - gone| - 1
    ensures key !in m - gone ==> m - (gone + {key}) == m - gone
  {
    if key in m - gone {
      assert (m - (gone + {key})).Keys == (m - gone).Keys - {key};
    }
  }

  // ----- The store ------------------------------------------------------------------------------

  class Store {
    var entries: Entries

    constructor ()
      ensures entries == map[]
    {
      entries := map[];
    }

    method Put(key: string, value: string, ttlSeconds: int, now: int)
      modifies this
      ensures entries == Apply(old(entries), Call(Op.Put(key, value, ttlSeconds), now))
    {
      var expires := None;
      if ttlSeconds > 0 {
        expires := Some(now + ttlSeconds * Second);
      }
      entries := entries[key := Entry(key, value, now, expires)];
    }

    /** The count is how much the stored map shrank, expired entries included and repeated keys counted once. */
    method Delete(keys: seq<string>) returns (deleted: nat)
      modifies this
      ensures entries == old(entries) - Elements(keys)
      ensures deleted == |old(entries)| - |entries|
    {
      deleted := 0;
      ghost var gone: set<string> := {};
      var i := 0;
      while i < |keys|
        invariant 0 <= i <= |keys| && gone == Elements(keys[..i])
        invariant entries == old(entries) - gone && deleted == |old(entries)| - |entries|
      {
        OneRemoved(old(entries), gone, keys[i]);
        ElementsStep(keys, i);
        if keys[i] in entries {
          entries := entries - {keys[i]};
          deleted := deleted + 1;
        }
        gone := gone + {keys[i]};
        i := i + 1;
      }
      assert keys[..i] == keys;
    }

    method Get(key: string, now: int) returns (found: Option<Entry>)
      modifies this
      ensures found == Answer(old(entries), key, now)
      ensures entries == Apply(old(entries), Call(Op.Get(key), now))
    {
      if key !in entries {
        return None;
      }
      var e := entries[key];
      if Expired(e, now) {
        entries := entries - {key};
        return None;
      }
      return Some(e);
    }

    /** One element for each stored key that has the prefix and has not expired. */
    method ListByPrefix(prefix: string, now: int) returns (out: seq<Entry>)
      ensures forall e :: e in out <==> e in Found(entries, prefix, now)
      ensures |out| == |Shown(entries, prefix, now)|
    {
      out := [];
      var rest := entries.Keys;
      ghost var listed: set<string> := {};
      while rest != {}
        invariant rest <= entries.Keys && listed == Shown(entries, prefix, now) - rest
        invariant forall e :: e in out <==> e in Image(entries, listed)
        invariant |out| == |listed|
        decreases rest
      {
        var k :| k in rest;
        rest := rest - {k};
        var e := entries[k];
        if prefix <= k && !Expired(e, now) {
          ImageGrows(entries, listed, k);
          out := out + [e];
          listed := listed + {k};
        }
      }
    }

    method Clear()
      modifies this
      ensures entries == map[]
    {
      entries := map[];
    }

    method ClearPrefix(prefix: string) returns (removed: nat)
      modifies this
      ensures entries == old(entries) - WithPrefix(old(entries), prefix)
      ensures removed == |old(entries)| - |entries|
    {
      removed := 0;
      ghost var gone: set<string> := {};
      var rest := entries.Keys;
      while rest != {}
        invariant rest <= entries.Keys
        invariant entries == old(entries) - gone && gone <= WithPrefix(old(entries), prefix)
        invariant forall k :: k in WithPrefix(old(entries), prefix) ==> k in gone || k in rest
        invariant removed == |old(entries)| - |entries|
        decreases rest
      {
        var k :| k in rest;
        rest := rest - {k};
        if prefix <= k {
          OneRemoved(old(entries), gone, k);
          entries := entries - {k};
          gone := gone + {k};
          removed := removed + 1;
        }
      }
      assert gone == WithPrefix(old(entries), prefix);
    }

    method Len() returns (n: nat)
      ensures n == |entries.Keys|
    {
      n := |entries|;
    }
  }

  // ----- The meaning of a history ---------------------------------------------------------------

  /** The entry of the last Put to the key, unless a Delete, Clear or ClearPrefix has removed it since. */
  function Latest(calls: seq<Call>, key: string): Option<Entry> {
    if calls == [] then None
    else
      var init, c := calls[..|calls| - 1], calls[|calls| - 1];
      match c.op
      case Put(k, value, ttl) => if k == key then Some(NewEntry(k, value, ttl, c.now)) else Latest(init, key)
      case Delete(keys) => if key in keys then None else Latest(init, key)
      case Clear => None
      case ClearPrefix(prefix) => if prefix <= key then None else Latest(init, key)
      case _ => Latest(init, key)
  }

  /** A Get has come upon the key's latest entry after its expiry. */
  predicate Swept(calls: seq<Call>, key: string) {
    calls != [] &&
      var init, c := calls[..|calls| - 1], calls[|calls| - 1];
      match c.op
      case Put(k, _, _) => k != key && Swept(init, key)
      case Get(k) =>
        Swept(init, key) || (k == key && Latest(init, key).Some? && Expired(Latest(init, key).value, c.now))
      case _ => Swept(init, key)
  }

  /** The stored map is the history's meaning minus what Get has swept; with any clock. */
  lemma {:induction false} StoredExactly(calls: seq<Call>, key: string)
    ensures var m := Exec(calls);
            && (key in m <==> Latest(calls, key).Some? && !Swept(calls, key))
            && (key in m ==> Latest(calls, key) == Some(m[key]) && m[key].key == key)
  {
    if calls != [] {
      StoredExactly(calls[..|calls| - 1], key);
      var c := calls[|calls| - 1];
      if c.op.Delete? {
        assert key in Elements(c.op.keys) <==> key in c.op.keys;
      }
    }
  }

  /** The clock never goes back. */
  predicate Clocked(calls: seq<Call>, now: int) {
    && (forall i, j :: 0 <= i < j < |calls| ==> calls[i].now <= calls[j].now)
    && (calls != [] ==> calls[|calls| - 1].now <= now)
  }

  lemma {:induction false} SweptIsExpired(calls: seq<Call>, key: string, now: int)
    requires Clocked(calls, now) && Swept(calls, key) && Latest(calls, key).Some?
    ensures Expired(Latest(calls, key).value, now)
  {
    var init, c := calls[..|calls| - 1], calls[|calls| - 1];
    assert Clocked(init, c.now);
    if Swept(init, key) && Latest(init, key).Some? {
      SweptIsExpired(init, key, c.now);
    }
  }

  /** The latest entry of the key, while it has not expired. */
  function Visible(calls: seq<Call>, key: string, now: int): Option<Entry> {
    var e := Latest(calls, key);
    if e.Some? && !Expired(e.value, now) then e else None
  }

  lemma AnswerIsVisible(calls: seq<Call>, key: string, now: int)
    requires Clocked(calls, now)
    ensures Answer(Exec(calls), key, now) == Visible(calls, key, now)
    ensures key in Exec(calls) ==> Exec(calls)[key].key == key
  {
    StoredExactly(calls, key);
    if Swept(calls, key) && Latest(calls, key).Some? {
      SweptIsExpired(calls, key, now);
    }
  }

  /** After every history, Get and ListByPrefix show the history's meaning: lazy removal cannot be seen through them. */
  lemma LazyRemovalUnseen(calls: seq<Call>, key: string, prefix: string, now: int)
    requires Clocked(calls, now)
    ensures Answer(Exec(calls), key, now) == Visible(calls, key, now)
    ensures forall e :: e in Found(Exec(calls), prefix, now) <==>
                        prefix <= e.key && Visible(calls, e.key, now) == Some(e)
  {
    var m := Exec(calls);
    forall k ensures Answer(m, k, now) == Visible(calls, k, now) && (k in m ==> m[k].key == k) {
      AnswerIsVisible(calls, k, now);
    }
    forall e ensures e in Found(m, prefix, now) <==> prefix <= e.key && Answer(m, e.key, now) == Some(e) {
      if e in Found(m, prefix, now) {
        var k :| k in m && prefix <= k && !Expired(m[k], now) && m[k] == e;
        assert m[k].key == k;
      }
    }
  }

  // ----- Where lazy removal is seen --------------------------------------------------------------

  /** The map without lazy removal: no Get takes anything out. */
  function Kept(calls: seq<Call>): Entries {
    if calls == [] then map[]
    else
      var m, c := Kept(calls[..|calls| - 1]), calls[|calls| - 1];
      if c.op.Get? then m else Apply(m, c)
  }

  lemma {:induction false} KeptIsLatest(calls: seq<Call>, key: string)
    ensures Latest(calls, key) == if key in Kept(calls) then Some(Kept(calls)[key]) else None
  {
    if calls != [] {
      KeptIsLatest(calls[..|calls| - 1], key);
      var c := calls[|calls| - 1];
      if c.op.Delete? {
        assert key in Elements(c.op.keys) <==> key in c.op.keys;
      }
    }
  }

  lemma SubsetCount(part: set<string>, whole: set<string>)
    requires part <= whole
    ensures |part| <= |whole| && (|part| == |whole| <==> part == whole)
  {
    assert whole == part + (whole - part);
  }

  /** How much taking out the keys makes the map shrink. */
  function Shrinkage(m: Entries, keys: set<string>): (n: nat)
    ensures n == |m.Keys * keys|
  {
    assert m.Keys == (m - keys).Keys + m.Keys * keys;
    |m| - |m - keys|
  }

  /** Of any keys, the stored map has at most as many as without lazy removal, and equally many iff none is swept. */
  lemma StoredAmong(calls: seq<Call>, keys: set<string>)
    ensures var stored, kept := Exec(calls).Keys * keys, Kept(calls).Keys * keys;
            && stored <= kept && |stored| <= |kept|
            && (|stored| == |kept| <==> forall k :: k in kept ==> !Swept(calls, k))
  {
    var stored, kept := Exec(calls).Keys * keys, Kept(calls).Keys * keys;
    forall k ensures k in stored <==> k in kept && !Swept(calls, k) {
      StoredExactly(calls, k);
      KeptIsLatest(calls, k);
    }
    SubsetCount(stored, kept);
  }

  /** Len is at most what it would be without lazy removal, and equal iff no key with a standing write is swept. */
  lemma LenExactIff(calls: seq<Call>)
    ensures |Exec(calls)| <= |Kept(calls)|
    ensures |Exec(calls)| == |Kept(calls)| <==> forall k :: k in Kept(calls) ==> !Swept(calls, k)
  {
    var all := Exec(calls).Keys + Kept(calls).Keys;
    StoredAmong(calls, all);
    assert Exec(calls).Keys * all == Exec(calls).Keys && Kept(calls).Keys * all == Kept(calls).Keys;
  }

  /** The same for the counts that Delete and ClearPrefix return. */
  lemma CountsExactIff(calls: seq<Call>, keys: seq<string>, prefix: string)
    ensures var stored, kept := Exec(calls), Kept(calls);
            && Shrinkage(stored, Elements(keys)) <= Shrinkage(kept, Elements(keys))
            && (Shrinkage(stored, Elements(keys)) == Shrinkage(kept, Elements(keys)) <==>
                forall k :: k in kept && k in keys ==> !Swept(calls, k))
    ensures var stored, kept := Exec(calls), Kept(calls);
            var few, many := Shrinkage(stored, WithPrefix(stored, prefix)), Shrinkage(kept, WithPrefix(kept, prefix));
            few <= many && (few == many <==> forall k :: k in kept && prefix <= k ==> !Swept(calls, k))
  {
    var stored, kept := Exec(calls), Kept(calls);
    StoredAmong(calls, Elements(keys));
    assert forall k :: k in kept.Keys * Elements(keys) <==> k in kept && k in keys;
    var prefixed := WithPrefix(kept, prefix);
    StoredAmong(calls, prefixed);
    StoredAmong(calls, stored.Keys);
    assert stored.Keys * stored.Keys == stored.Keys;
    assert stored.Keys * prefixed == stored.Keys * WithPrefix(stored, prefix);
  }

  /** Two histories that Get cannot tell apart, with different counts: one has asked for the expired entry. */
  lemma LenSeesLazyRemoval(key: string, value: string)
    ensures var put, late := Call(Put(key, value, 1), 0), 2 * Second;
            && |Exec([put])| == 1 && |Exec([put, Call(Get(key), late)])| == 0
            && Shrinkage(Exec([put]), {key}) == 1 && Shrinkage(Exec([put, Call(Get(key), late)]), {key}) == 0
            && Visible([put], key, late) == None == Visible([put, Call(Get(key), late)], key, late)
  {
    var put, get := Call(Put(key, value, 1), 0), Call(Get(key), 2 * Second);
    assert [put][..0] == [] && [put, get][..1] == [put];
    assert Exec([]) == map[];
    var e := NewEntry(key, value, 1, 0);
    assert Exec([put]) == map[key := e];
    assert Exec([put, get]) == map[];
  }

  // ----- What a caller reads back ---------------------------------------------------------------

  /** The call writes or removes the key. */
  predicate Touches(c: Call, key: string) {
    match c.op
    case Put(k, _, _) => k == key
    case Delete(keys) => key in keys
    case Clear => true
    case ClearPrefix(prefix) => prefix <= key
    case _ => false
  }

  lemma {:induction false} LatestUntouched(calls: seq<Call>, after: seq<Call>, key: string)
    requires forall i :: 0 <= i < |after| ==> !Touches(after[i], key)
    ensures Latest(calls + after, key) == Latest(calls, key)
    decreases |after|
  {
    if after == [] {
      assert calls + after == calls;
    } else {
      LatestUntouched(calls, after[..|after| - 1], key);
      assert (calls + after)[..|calls + after| - 1] == calls + after[..|after| - 1];
      assert !Touches(after[|after| - 1], key);
    }
  }

  lemma LatestPut(before: seq<Call>, key: string, value: string, ttl: int, at: int)
    ensures Latest(before + [Call(Put(key, value, ttl), at)], key) ==
            Some(Entry(key, value, at, if ttl <= 0 then None else Some(at + ttl * 1_000_000_000)))
  {
    assert (before + [Call(Put(key, value, ttl), at)])[..|before|] == before;
  }

  /**
   What was put last is read back, with its value and the time of the call, for as many seconds as it was given and
   for ever if it was given none; after that there is no answer.
   */
  lemma PutThenGet(before: seq<Call>, key: string, value: string, ttl: int, at: int, after: seq<Call>, now: int)
    requires Clocked(before + [Call(Put(key, value, ttl), at)] + after, now)
    requires forall i :: 0 <= i < |after| ==> !Touches(after[i], key)
    ensures var m := Exec(before + [Call(Put(key, value, ttl), at)] + after);
            Answer(m, key, now) ==
            if ttl <= 0 then Some(Entry(key, value, at, None))
            else if now <= at + ttl * 1_000_000_000 then Some(Entry(key, value, at, Some(at + ttl * 1_000_000_000)))
            else None
  {
    var calls := before + [Call(Put(key, value, ttl), at)];
    LatestPut(before, key, value, ttl, at);
    LatestUntouched(calls, after, key);
    AnswerIsVisible(calls + after, key, now);
    hide Latest, Exec, Answer, Clocked;
  }

  /** What was removed, or never put, is not read back. */
  lemma RemovedThenGet(before: seq<Call>, c: Call, key: string, after: seq<Call>, now: int)
    requires Touches(c, key) && !c.op.Put? && forall i :: 0 <= i < |after| ==> !Touches(after[i], key)
    requires Clocked(before + [c] + after, now)
    ensures Answer(Exec(before + [c] + after), key, now) == None
  {
    assert (before + [c])[..|before|] == before;
    LatestUntouched(before + [c], after, key);
    AnswerIsVisible(before + [c] + after, key, now);
    hide Exec, Answer, Clocked;
  }
}
