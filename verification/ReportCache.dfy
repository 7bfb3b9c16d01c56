/**
 The report cache: concurrent requests for one report share its load, results
 live for a short time, and at most 32 entries are kept.
 */
module ReportCache {
  import opened Wrappers

  const CAPACITY := 32

  /** One cached promise: `pending` and `expiresAt` are the entry's fields,
      `settled` is when its load finished, either way. */
  datatype Load = Load(key: string, pending: bool, expiresAt: nat, settled: Option<nat>)

  /** The map keeps keys in the order they were set; `id` identifies the entry. */
  datatype Slot = Slot(key: string, id: nat)

  /** `loads` holds every entry ever made, by id. */
  datatype Cache = Cache(entries: seq<Slot>, loads: seq<Load>, now: nat, ttl: nat)

  datatype Event = Get(key: string, refresh: bool) | Settle(id: nat, ok: bool) | Tick(ms: nat)

  function Lookup(entries: seq<Slot>, key: string): Option<nat> {
    if entries == [] then None else if entries[0].key == key then Some(entries[0].id) else Lookup(entries[1..], key)
  }

  function Without(entries: seq<Slot>, key: string): seq<Slot> {
    if entries == [] then [] else (if entries[0].key == key then [] else [entries[0]]) + Without(entries[1..], key)
  }

  /** Drops the oldest entries until one more fits. */
  function Bounded(entries: seq<Slot>): seq<Slot> {
    if |entries| >= CAPACITY then Bounded(entries[1..]) else entries
  }

  /** The entry a call without refresh may share. */
  function Shared(s: Cache, key: string): Option<nat> {
    match Lookup(s.entries, key)
    case None => None
    case Some(id) => if id < |s.loads| && (s.loads[id].pending || s.loads[id].expiresAt > s.now) then Some(id) else None
  }

  /** The entry whose promise a call returns. */
  function Returned(s: Cache, key: string, refresh: bool): nat {
    if !refresh && Shared(s, key).Some? then Shared(s, key).value else |s.loads|
  }

  function AfterGet(s: Cache, key: string, refresh: bool): Cache {
    if !refresh && Shared(s, key).Some? then s
    else s.(entries := Bounded(Without(s.entries, key)) + [Slot(key, |s.loads|)],
            loads := s.loads + [Load(key, true, 0, None)])
  }

  predicate InFlight(s: Cache, id: nat) { id < |s.loads| && s.loads[id].settled.None? }

  function AfterSettle(s: Cache, id: nat, ok: bool): Cache
    requires InFlight(s, id)
  {
    var load := s.loads[id];
    if ok then s.(loads := s.loads[id := load.(pending := false, expiresAt := s.now + s.ttl, settled := Some(s.now))])
    else s.(loads := s.loads[id := load.(settled := Some(s.now))],
            entries := if Lookup(s.entries, load.key) == Some(id) then Without(s.entries, load.key) else s.entries)
  }

  function Step(s: Cache, e: Event): Cache {
    match e
    case Get(key, refresh) => AfterGet(s, key, refresh)
    case Settle(id, ok) => if InFlight(s, id) then AfterSettle(s, id, ok) else s
    case Tick(ms) => s.(now := s.now + ms)
  }

  function Run(s: Cache, events: seq<Event>): Cache
    decreases |events|
  {
    if events == [] then s else Run(Step(s, events[0]), events[1..])
  }

  // ---- The invariant -------------------------------------------------------

  predicate Increasing(entries: seq<Slot>) { forall i, j :: 0 <= i < j < |entries| ==> entries[i].id < entries[j].id }

  predicate DistinctKeys(entries: seq<Slot>) {
    forall i, j :: 0 <= i < j < |entries| ==> entries[i].key != entries[j].key
  }

  /** A stored entry is really being loaded, or holds a result whose age its
      expiry tells. */
  predicate Sound(s: Cache, slot: Slot) {
    slot.id < |s.loads| &&
    var load := s.loads[slot.id];
    && load.key == slot.key
    && match load.settled
       case None => load.pending
       case Some(t) => !load.pending && t <= s.now && load.expiresAt == t + s.ttl
  }

  predicate Inv(s: Cache) {
    && |s.entries| <= CAPACITY && Increasing(s.entries) && DistinctKeys(s.entries)
    && (forall slot :: slot in s.entries ==> Sound(s, slot))
    && (forall id :: 0 <= id < |s.loads| && s.loads[id].settled.None? ==> s.loads[id].pending)
  }

  lemma {:induction false} WithoutHas(entries: seq<Slot>, key: string, slot: Slot)
    ensures slot in Without(entries, key) <==> slot in entries && slot.key != key
  {
    if entries != [] { WithoutHas(entries[1..], key, slot); }
  }

  lemma {:induction false} WithoutIncreases(entries: seq<Slot>, key: string)
    requires Increasing(entries)
    ensures Increasing(Without(entries, key)) && |Without(entries, key)| <= |entries|
  {
    if entries != [] {
      WithoutIncreases(entries[1..], key);
      var rest := Without(entries[1..], key);
      forall k | 0 <= k < |rest| ensures entries[0].id < rest[k].id {
        WithoutHas(entries[1..], key, rest[k]);
        assert rest[k] in entries[1..];
      }
    }
  }

  lemma {:induction false} WithoutDistinct(entries: seq<Slot>, key: string)
    requires DistinctKeys(entries)
    ensures DistinctKeys(Without(entries, key))
  {
    if entries != [] {
      WithoutDistinct(entries[1..], key);
      var rest := Without(entries[1..], key);
      forall k | 0 <= k < |rest| ensures entries[0].key != rest[k].key {
        WithoutHas(entries[1..], key, rest[k]);
        assert rest[k] in entries[1..];
      }
    }
  }

  lemma WithoutOrder(entries: seq<Slot>, key: string)
    requires Increasing(entries) && DistinctKeys(entries)
    ensures Increasing(Without(entries, key)) && DistinctKeys(Without(entries, key))
    ensures |Without(entries, key)| <= |entries|
  {
    WithoutIncreases(entries, key);
    WithoutDistinct(entries, key);
  }

  lemma WithoutShape(entries: seq<Slot>, key: string)
    requires Increasing(entries) && DistinctKeys(entries)
    ensures forall slot :: slot in Without(entries, key) <==> slot in entries && slot.key != key
    ensures Increasing(Without(entries, key)) && DistinctKeys(Without(entries, key))
    ensures |Without(entries, key)| <= |entries|
  {
    WithoutOrder(entries, key);
    forall slot ensures slot in Without(entries, key) <==> slot in entries && slot.key != key {
      WithoutHas(entries, key, slot);
    }
  }

  lemma {:induction false} BoundedShape(entries: seq<Slot>)
    ensures |Bounded(entries)| < CAPACITY
    ensures forall slot :: slot in Bounded(entries) ==> slot in entries
    ensures Increasing(entries) ==> Increasing(Bounded(entries))
    ensures DistinctKeys(entries) ==> DistinctKeys(Bounded(entries))
  {
    if |entries| >= CAPACITY { BoundedShape(entries[1..]); }
  }

  lemma {:induction false} LookupFinds(entries: seq<Slot>, key: string)
    ensures Lookup(entries, key).Some? ==> Slot(key, Lookup(entries, key).value) in entries
    ensures Lookup(entries, key).None? ==> forall slot :: slot in entries ==> slot.key != key
  {
    if entries != [] { LookupFinds(entries[1..], key); }
  }

  lemma {:induction false} LookupStored(entries: seq<Slot>, slot: Slot)
    requires DistinctKeys(entries) && slot in entries
    ensures Lookup(entries, slot.key) == Some(slot.id)
  {
    if entries[0] != slot {
      assert slot in entries[1..];
      var k :| 0 <= k < |entries| && entries[k] == slot;
      LookupStored(entries[1..], slot);
    }
  }

  lemma StoredIsSound(s: Cache, key: string, slot: Slot)
    requires Inv(s) && slot in Bounded(Without(s.entries, key))
    ensures slot.key != key && slot in s.entries && slot.id < |s.loads|
    ensures Sound(s.(loads := s.loads + [Load(key, true, 0, None)]), slot)
  {
    WithoutShape(s.entries, key);
    BoundedShape(Without(s.entries, key));
    assert Sound(s, slot);
  }

  lemma Appended(kept: seq<Slot>, slot: Slot)
    requires Increasing(kept) && DistinctKeys(kept)
    requires forall k :: 0 <= k < |kept| ==> kept[k].key != slot.key && kept[k].id < slot.id
    ensures Increasing(kept + [slot]) && DistinctKeys(kept + [slot])
  {
  }

  lemma GetKeeps(s: Cache, key: string, refresh: bool)
    requires Inv(s)
    ensures Inv(AfterGet(s, key, refresh))
  {
    if refresh || Shared(s, key).None? {
      var kept := Bounded(Without(s.entries, key));
      var slot, load := Slot(key, |s.loads|), Load(key, true, 0, None);
      WithoutShape(s.entries, key);
      BoundedShape(Without(s.entries, key));
      forall k | 0 <= k < |kept| ensures kept[k].key != key && kept[k].id < |s.loads| {
        StoredIsSound(s, key, kept[k]);
      }
      Appended(kept, slot);
      forall x | x in kept + [slot] ensures Sound(s.(loads := s.loads + [load]), x) {
        if x in kept { StoredIsSound(s, key, x); }
      }
      StoreIs(s, kept, slot, load);
    }
  }

  lemma StoreIs(s: Cache, kept: seq<Slot>, slot: Slot, load: Load)
    requires Inv(s) && |kept| < CAPACITY && Increasing(kept + [slot]) && DistinctKeys(kept + [slot]) && load.pending
    requires forall x :: x in kept + [slot] ==> Sound(s.(loads := s.loads + [load]), x)
    ensures Inv(s.(entries := kept + [slot], loads := s.loads + [load]))
  {
  }

  lemma SettleKeeps(s: Cache, id: nat, ok: bool)
    requires Inv(s) && InFlight(s, id)
    ensures Inv(AfterSettle(s, id, ok))
  {
    var t := AfterSettle(s, id, ok);
    var key := s.loads[id].key;
    WithoutShape(s.entries, key);
    forall slot | slot in t.entries ensures Sound(t, slot) {
      assert Sound(s, slot);
      if slot.id == id && !ok { LookupStored(s.entries, slot); }
    }
  }

  lemma StepKeeps(s: Cache, e: Event)
    requires Inv(s)
    ensures Inv(Step(s, e))
  {
    match e
    case Get(key, refresh) => GetKeeps(s, key, refresh);
    case Settle(id, ok) => if InFlight(s, id) { SettleKeeps(s, id, ok); }
    case Tick(ms) => forall slot | slot in s.entries ensures Sound(Step(s, e), slot) { assert Sound(s, slot); }
  }

  lemma {:induction false} RunKeeps(s: Cache, events: seq<Event>)
    requires Inv(s)
    ensures Inv(Run(s, events))
    decreases |events|
  {
    if events != [] {
      StepKeeps(s, events[0]);
      RunKeeps(Step(s, events[0]), events[1..]);
    }
  }

  function Empty(ttl: nat): Cache { Cache([], [], 0, ttl) }

  // ---- What a caller is served ---------------------------------------------

  /** Main result: in every run at most 32 entries are kept, each pending one is
      being loaded, and a call is served a load still running or a result for its
      own key that finished less than the time to live ago; a call that insists
      on a refresh starts a load of its own. */
  lemma ServedIsFresh(ttl: nat, events: seq<Event>, key: string, refresh: bool)
    ensures var s := Run(Empty(ttl), events); var id := Returned(s, key, refresh); var t := AfterGet(s, key, refresh);
      && |t.entries| <= CAPACITY
      && (forall slot :: slot in t.entries && slot.id < |t.loads| && t.loads[slot.id].pending ==> InFlight(t, slot.id))
      && id < |t.loads| && t.loads[id].key == key && t.ttl == ttl
      && (refresh ==> id == |s.loads| && InFlight(t, id))
      && match t.loads[id].settled
         case None => true
         case Some(at) => t.now < at + ttl && at <= t.now
  {
    RunKeeps(Empty(ttl), events);
    var s := Run(Empty(ttl), events);
    TtlStays(Empty(ttl), events);
    GetKeeps(s, key, refresh);
    var t := AfterGet(s, key, refresh);
    forall slot | slot in t.entries ensures Sound(t, slot) { }
    LookupFinds(s.entries, key);
    if !refresh && Shared(s, key).Some? { assert Sound(s, Slot(key, Shared(s, key).value)); }
  }

  lemma {:induction false} TtlStays(s: Cache, events: seq<Event>)
    ensures Run(s, events).ttl == s.ttl
    decreases |events|
  {
    if events != [] { TtlStays(Step(s, events[0]), events[1..]); }
  }

  /** Main result: a load that fails late takes no other entry with it. */
  lemma LateFailureSparesOthers(s: Cache, id: nat, slot: Slot)
    requires Inv(s) && InFlight(s, id)
    ensures slot in AfterSettle(s, id, false).entries <==> slot in s.entries && slot.id != id
  {
    var key := s.loads[id].key;
    WithoutShape(s.entries, key);
    if slot in s.entries {
      assert Sound(s, slot);
      if slot.key == key || slot.id == id { LookupStored(s.entries, slot); }
    }
    LookupFinds(s.entries, key);
    if Lookup(s.entries, key) == Some(id) && slot in s.entries && slot.id == id { assert slot.key == key; }
  }

  // ---- Sharing -------------------------------------------------------------

  predicate Usable(s: Cache, id: nat) {
    id < |s.loads| &&
    match s.loads[id].settled
    case None => true
    case Some(_) => !s.loads[id].pending && s.loads[id].expiresAt > s.now
  }

  predicate NoRefresh(events: seq<Event>, key: string) { forall k :: 0 <= k < |events| ==> events[k] != Get(key, true) }

  lemma {:induction false} Spread(entries: seq<Slot>, k: nat)
    requires Increasing(entries) && k < |entries|
    ensures entries[k].id >= entries[0].id + k
  {
    if k > 0 { Spread(entries, k - 1); }
  }

  /** Only an entry with 31 newer ones behind it is dropped. */
  lemma {:induction false} BoundedKeeps(entries: seq<Slot>, slot: Slot, limit: nat)
    requires Increasing(entries) && slot in entries && (forall x :: x in entries ==> x.id < limit) &&
             limit < slot.id + CAPACITY
    ensures slot in Bounded(entries)
  {
    if |entries| >= CAPACITY {
      assert entries[|entries| - 1] in entries;
      Spread(entries, |entries| - 1);
      assert entries == [entries[0]] + entries[1..];
      BoundedKeeps(entries[1..], slot, limit);
    }
  }

  lemma GetKeepsSlot(s: Cache, slot: Slot, key: string, refresh: bool)
    requires Inv(s) && slot in s.entries && Usable(s, slot.id) && !(key == slot.key && refresh)
    requires |AfterGet(s, key, refresh).loads| <= slot.id + CAPACITY
    ensures slot in AfterGet(s, key, refresh).entries
  {
    assert Sound(s, slot);
    if key == slot.key { LookupStored(s.entries, slot); }
    else {
      var left := Without(s.entries, key);
      WithoutShape(s.entries, key);
      if AfterGet(s, key, refresh) != s {
        forall x | x in left ensures x.id < |s.loads| { assert Sound(s, x); }
        BoundedKeeps(left, slot, |s.loads|);
      }
    }
  }

  lemma UsableBefore(s: Cache, e: Event, slot: Slot)
    requires Inv(s) && slot in s.entries && Usable(Step(s, e), slot.id)
    ensures Usable(s, slot.id)
  {
  }

  lemma StepKeepsSlot(s: Cache, e: Event, slot: Slot)
    requires Inv(s) && slot in s.entries && e != Get(slot.key, true)
    requires Usable(s, slot.id) && Usable(Step(s, e), slot.id) && |Step(s, e).loads| <= slot.id + CAPACITY
    ensures slot in Step(s, e).entries
  {
    match e
    case Get(key, refresh) => GetKeepsSlot(s, slot, key, refresh);
    case Settle(id, ok) =>
      if InFlight(s, id) && !ok {
        LateFailureSparesOthers(s, id, slot);
        assert s.loads[id].pending;
      }
    case Tick(_) =>
  }

  lemma {:induction false} RunGrows(s: Cache, events: seq<Event>)
    ensures |s.loads| <= |Run(s, events).loads|
    decreases |events|
  {
    if events != [] { RunGrows(Step(s, events[0]), events[1..]); }
  }

  lemma {:induction false} UsableThroughout(s: Cache, events: seq<Event>, id: nat)
    requires id < |s.loads| && Usable(Run(s, events), id)
    ensures Usable(s, id)
    decreases |events|
  {
    if events != [] {
      UsableThroughout(Step(s, events[0]), events[1..], id);
    }
  }

  /** Main result: until 32 more loads are started, every call for a key without
      refresh shares the entry stored for it, from its start until its result
      expires, provided no call asked for a refresh of the key meanwhile. */
  lemma {:induction false} CallsShareALoad(s: Cache, slot: Slot, events: seq<Event>)
    requires Inv(s) && slot in s.entries && NoRefresh(events, slot.key)
    requires Usable(Run(s, events), slot.id) && |Run(s, events).loads| <= slot.id + CAPACITY
    ensures slot in Run(s, events).entries
    ensures Returned(Run(s, events), slot.key, false) == slot.id
    decreases |events|
  {
    assert Sound(s, slot);
    if events == [] { LookupStored(s.entries, slot); }
    else {
      var t := Step(s, events[0]);
      StepKeeps(s, events[0]);
      RunGrows(t, events[1..]);
      UsableThroughout(t, events[1..], slot.id);
      UsableBefore(s, events[0], slot);
      StepKeepsSlot(s, events[0], slot);
      CallsShareALoad(t, slot, events[1..]);
    }
  }

  // ---- The class -----------------------------------------------------------

  /** The cache of one process; `loads` are the entry objects its promises hold. */
  class Reports {
    const ttlMs: nat
    var entries: seq<Slot>
    var loads: seq<Load>
    var now: nat

    function State(): Cache
      reads this
    {
      Cache(entries, loads, now, ttlMs)
    }

    constructor (ttl: nat)
      ensures State() == Empty(ttl)
    {
      ttlMs, entries, loads, now := ttl, [], [], 0;
    }

    method Get(key: string, refresh: bool) returns (id: nat)
      modifies this`entries, this`loads
      ensures State() == AfterGet(old(State()), key, refresh) && id == Returned(old(State()), key, refresh)
    {
      var cached := Lookup(entries, key);
      if !refresh && cached.Some? && cached.value < |loads| &&
        (loads[cached.value].pending || loads[cached.value].expiresAt > now) {
        return cached.value;
      }
      assert refresh || Shared(State(), key).None?;
      entries := Without(entries, key);
      ghost var left := entries;
      while |entries| >= CAPACITY
        invariant Bounded(entries) == Bounded(left)
        modifies this`entries
      {
        entries := entries[1..];
      }
      assert entries == Bounded(left);
      id := |loads|;
      loads := loads + [Load(key, true, 0, None)];
      entries := entries + [Slot(key, id)];
    }

    method Completed(id: nat)
      requires InFlight(State(), id)
      modifies this`loads
      ensures State() == AfterSettle(old(State()), id, true)
    {
      loads := loads[id := loads[id].(pending := false, expiresAt := now + ttlMs, settled := Some(now))];
    }

    method Failed(id: nat)
      requires InFlight(State(), id)
      modifies this`loads, this`entries
      ensures State() == AfterSettle(old(State()), id, false)
    {
      var key := loads[id].key;
      loads := loads[id := loads[id].(settled := Some(now))];
      if Lookup(entries, key) == Some(id) { entries := Without(entries, key); }
    }
  }
}
