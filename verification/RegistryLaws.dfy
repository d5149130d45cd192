/**
 What every section run under the mutex keeps true of the registry: entries are
 well formed, the age index lists exactly the registered keys, and, as long as no
 conversation ID is handed out twice, it lists them in the order of reservation.
 */
module RegistryLaws {
  import opened Ids
  import opened Registry
  import opened Wrappers

  ghost predicate EntryOk(r: Reg, id: Id, e: Entry) {
    && e.holdsCapacity
    && 1 <= e.born <= r.warmingSeq
    && match id
       case Warming(n) => e.status == Starting && e.session == None && e.born == n
       case Conv(c) =>
         && e.session.Some? && e.session.value.conv == c
         && (if e.pooled then e.status == Idle else e.status == Leased)
  }

  /** The age index lists exactly the registered keys, and each starting slot once. */
  ghost predicate Indexed(r: Reg) {
    && (forall id :: id in multiset(r.byAge) <==> id in r.entries)
    && (forall id: Id :: id.Warming? ==> multiset(r.byAge)[id] <= 1)
  }

  ghost predicate RegOk(r: Reg) {
    && (forall id :: id in r.entries ==> EntryOk(r, id, r.entries[id]))
    && Indexed(r)
    && (r.refillRequested ==> r.refillRunning)
  }

  /** Oldest reservation first, all after `lo`; in particular no key occurs twice. */
  ghost predicate Sorted(s: seq<Id>, entries: map<Id, Entry>, lo: int) {
    s == [] || (s[0] in entries && lo < entries[s[0]].born && Sorted(s[1..], entries, entries[s[0]].born))
  }

  ghost predicate Ordered(r: Reg) { Sorted(r.byAge, r.entries, 0) }

  /** What `Sorted` says of any two positions. */
  lemma {:induction false} SortedPairs(s: seq<Id>, entries: map<Id, Entry>, lo: int, i: nat, j: nat)
    requires Sorted(s, entries, lo) && i < j < |s|
    ensures s[i] in entries && s[j] in entries && lo < entries[s[i]].born < entries[s[j]].born
  {
    if i == 0 {
      SortedMember(s[1..], entries, entries[s[0]].born, s[j]);
    } else {
      SortedPairs(s[1..], entries, entries[s[0]].born, i - 1, j - 1);
    }
  }

  lemma {:induction false} SortedMember(s: seq<Id>, entries: map<Id, Entry>, lo: int, id: Id)
    requires Sorted(s, entries, lo) && id in s
    ensures id in entries && lo < entries[id].born
  {
    if id != s[0] { SortedMember(s[1..], entries, entries[s[0]].born, id); }
  }

  // ---------- Compact and Replace ----------

  lemma {:induction false} CompactMembers(s: seq<Id>, keys: set<Id>)
    ensures forall id :: multiset(Compact(s, keys))[id] == if id in keys then multiset(s)[id] else 0
  {
    if s != [] {
      CompactMembers(s[1..], keys);
      assert s == [s[0]] + s[1..];
    }
  }

  lemma {:induction false} CompactSorted(s: seq<Id>, keys: set<Id>, entries: map<Id, Entry>, lo: int, lo': int)
    requires Sorted(s, entries, lo) && lo' <= lo
    ensures Sorted(Compact(s, keys), entries, lo')
  {
    if s != [] {
      CompactSorted(s[1..], keys, entries, entries[s[0]].born, if s[0] in keys then entries[s[0]].born else lo');
      assert if s[0] in keys then Compact(s, keys)[1..] == Compact(s[1..], keys) else Compact(s, keys) == Compact(s[1..], keys);
    }
  }

  lemma {:induction false} ReplaceMembers(s: seq<Id>, from: Id, to: Id)
    requires from in multiset(s)
    ensures multiset(Replace(s, from, to)) == multiset(s) - multiset{from} + multiset{to}
  {
    var rest := s[1..];
    assert s == [s[0]] + rest;
    assert multiset(s) == multiset{s[0]} + multiset(rest);
    if s[0] == from {
      assert multiset([to] + rest) == multiset{to} + multiset(rest);
    } else {
      ReplaceMembers(rest, from, to);
      assert multiset([s[0]] + Replace(rest, from, to)) == multiset{s[0]} + multiset(Replace(rest, from, to));
    }
  }

  /** Sortedness depends on the reservation numbers only. */
  lemma {:induction false} SortedFrame(s: seq<Id>, entries: map<Id, Entry>, entries': map<Id, Entry>, lo: int)
    requires Sorted(s, entries, lo)
    requires forall id :: id in s && id in entries ==> id in entries' && entries'[id].born == entries[id].born
    ensures Sorted(s, entries', lo)
  {
    if s != [] { SortedFrame(s[1..], entries, entries', entries[s[0]].born); }
  }

  lemma {:induction false} AppendSorted(s: seq<Id>, id: Id, entries: map<Id, Entry>, lo: int)
    requires Sorted(s, entries, lo) && id in entries && lo < entries[id].born
    requires forall o :: o in s && o in entries ==> entries[o].born < entries[id].born
    ensures Sorted(s + [id], entries, lo)
  {
    if s != [] {
      AppendSorted(s[1..], id, entries, entries[s[0]].born);
      assert (s + [id])[1..] == s[1..] + [id];
    }
  }

  lemma {:induction false} ReplaceSorted(
    s: seq<Id>, from: Id, to: Id, entries: map<Id, Entry>, entries': map<Id, Entry>, lo: int)
    requires Sorted(s, entries, lo) && from in s && from in entries
    requires to in entries' && entries'[to].born == entries[from].born
    requires forall id :: id in s && id != from && id in entries ==> id in entries' && entries'[id].born == entries[id].born
    ensures Sorted(Replace(s, from, to), entries', lo)
  {
    if s[0] == from {
      if from in s[1..] { SortedMember(s[1..], entries, entries[from].born, from); }
      SortedFrame(s[1..], entries, entries', entries[from].born);
      assert Replace(s, from, to)[1..] == s[1..];
    } else {
      ReplaceSorted(s[1..], from, to, entries, entries', entries[s[0]].born);
      assert Replace(s, from, to)[1..] == Replace(s[1..], from, to);
    }
  }

  // ---------- Each section keeps RegOk and, without collisions, Ordered ----------

  lemma WithoutLaws(r: Reg, ids: set<Id>)
    requires RegOk(r)
    ensures RegOk(Without(r, ids))
    ensures Without(r, ids).entries == r.entries - ids
    ensures Ordered(r) ==> Ordered(Without(r, ids))
  {
    if ids !! r.entries.Keys {
      assert r.entries - ids == r.entries;
    } else {
      WithoutOk(r, ids);
      if Ordered(r) { WithoutOrdered(r, ids); }
    }
  }

  lemma WithoutOk(r: Reg, ids: set<Id>)
    requires RegOk(r) && !(ids !! r.entries.Keys)
    ensures RegOk(Without(r, ids))
  {
    var r' := Without(r, ids);
    CompactMembers(r.byAge, r.entries.Keys - ids);
    forall id | id in r'.entries ensures EntryOk(r', id, r'.entries[id]) {
      assert EntryOk(r, id, r.entries[id]);
    }
  }

  lemma WithoutOrdered(r: Reg, ids: set<Id>)
    requires Ordered(r) && !(ids !! r.entries.Keys)
    ensures Ordered(Without(r, ids))
  {
    var keys := r.entries.Keys - ids;
    CompactMembers(r.byAge, keys);
    CompactSorted(r.byAge, keys, r.entries, 0, 0);
    assert forall id :: id in Compact(r.byAge, keys) ==> id in multiset(Compact(r.byAge, keys));
    SortedFrame(Compact(r.byAge, keys), r.entries, r.entries - ids, 0);
  }

  lemma NextSlotIsNew(r: Reg)
    requires RegOk(r)
    ensures Warming(r.warmingSeq + 1) !in r.entries
    ensures Warming(r.warmingSeq + 1) !in multiset(r.byAge)
  {
  }

  lemma ReserveOk(r: Reg, pooled: bool, now: int)
    requires RegOk(r)
    ensures RegOk(Reserve(r, pooled, now))
  {
    NextSlotIsNew(r);
    var n := Warming(r.warmingSeq + 1);
    var r' := Reserve(r, pooled, now);
    assert multiset(r'.byAge) == multiset(r.byAge) + multiset{n};
    forall id | id in r'.entries ensures EntryOk(r', id, r'.entries[id]) {
      assert id != n ==> EntryOk(r, id, r.entries[id]);
    }
  }

  lemma ReserveOrdered(r: Reg, pooled: bool, now: int)
    requires RegOk(r) && Ordered(r)
    ensures Ordered(Reserve(r, pooled, now))
  {
    NextSlotIsNew(r);
    var n := Warming(r.warmingSeq + 1);
    var r' := Reserve(r, pooled, now);
    assert forall id :: id in r.byAge ==> id in multiset(r.byAge);
    SortedFrame(r.byAge, r.entries, r'.entries, 0);
    AppendSorted(r.byAge, n, r'.entries, 0);
  }

  lemma ActivateOk(r: Reg, wid: nat, s: Sess, status: Status, pooled: bool, now: int)
    requires RegOk(r)
    requires Warming(wid) in r.entries
    requires if pooled then status == Idle else status == Leased
    ensures RegOk(Activate(r, wid, s, status, pooled, now))
  {
    var from, to := Warming(wid), Conv(s.conv);
    var r' := Activate(r, wid, s, status, pooled, now);
    ReplaceMembers(r.byAge, from, to);
    assert EntryOk(r, from, r.entries[from]);
    forall id | id in r'.entries ensures EntryOk(r', id, r'.entries[id]) {
      assert id != to ==> EntryOk(r, id, r.entries[id]);
    }
  }

  lemma ActivateOrdered(r: Reg, wid: nat, s: Sess, status: Status, pooled: bool, now: int)
    requires RegOk(r) && Ordered(r)
    requires Warming(wid) in r.entries && Conv(s.conv) !in r.entries
    ensures Ordered(Activate(r, wid, s, status, pooled, now))
  {
    var from, to := Warming(wid), Conv(s.conv);
    assert EntryOk(r, from, r.entries[from]);
    assert from in multiset(r.byAge);
    ReplaceSorted(r.byAge, from, to, r.entries, Activate(r, wid, s, status, pooled, now).entries, 0);
  }

  lemma {:induction false} FirstLeasableLaws(s: seq<Id>, entries: map<Id, Entry>)
    ensures var f := FirstLeasable(s, entries);
      match f
      case None => forall id :: id in s && id in entries ==> !Leasable(entries[id])
      case Some(id) => id in s && id in entries && Leasable(entries[id])
  {
    if s != [] && !(s[0] in entries && Leasable(entries[s[0]])) {
      FirstLeasableLaws(s[1..], entries);
    }
  }

  lemma {:induction false} FirstLeasableOldest(s: seq<Id>, entries: map<Id, Entry>, lo: int, o: Id)
    requires Sorted(s, entries, lo)
    requires o in s && o in entries && Leasable(entries[o])
    ensures var f := FirstLeasable(s, entries);
      f.Some? && f.value in entries && (f.value != o ==> entries[f.value].born < entries[o].born)
  {
    if Leasable(entries[s[0]]) {
      if o != s[0] { SortedMember(s[1..], entries, entries[s[0]].born, o); }
    } else {
      FirstLeasableOldest(s[1..], entries, entries[s[0]].born, o);
    }
  }

  /**
   Leasing fails only if no session is idle, and takes the one reserved first: it is no longer
   pooled, it and its session are touched, and no other entry changes.
   */
  lemma LeasesOldestIdle(r: Reg, now: int)
    requires RegOk(r)
    ensures FirstLeasable(r.byAge, r.entries) == None <==>
            forall id :: id in r.entries ==> r.entries[id].status != Idle
    ensures FirstLeasable(r.byAge, r.entries).Some? ==>
      var id := FirstLeasable(r.byAge, r.entries).value;
      && id in r.entries && r.entries[id].status == Idle
      && (Ordered(r) ==>
            forall o :: o in r.entries && r.entries[o].status == Idle && o != id ==>
                          r.entries[id].born < r.entries[o].born)
      && var e := r.entries[id];
      && e.session.Some?
      && TryActivateIdle(r, now) == r.(entries := r.entries[id :=
           Entry(Leased, Some(Sess(e.session.value.sid, e.session.value.conv, now)), now, true, false, e.born)])
  {
    FirstLeasableLaws(r.byAge, r.entries);
    if FirstLeasable(r.byAge, r.entries).Some? {
      var id := FirstLeasable(r.byAge, r.entries).value;
      assert EntryOk(r, id, r.entries[id]);
    }
    assert forall id :: id in r.entries ==> id in multiset(r.byAge);
    if Ordered(r) {
      forall o | o in r.entries && r.entries[o].status == Idle
        ensures var f := FirstLeasable(r.byAge, r.entries);
          f.Some? && f.value in r.entries && (f.value != o ==> r.entries[f.value].born < r.entries[o].born)
      {
        FirstLeasableOldest(r.byAge, r.entries, 0, o);
      }
    }
  }

  lemma TryActivateLaws(r: Reg, now: int)
    requires RegOk(r)
    ensures RegOk(TryActivateIdle(r, now))
    ensures Ordered(r) ==> Ordered(TryActivateIdle(r, now))
  {
    FirstLeasableLaws(r.byAge, r.entries);
    if Ordered(r) {
      SortedFrame(r.byAge, r.entries, TryActivateIdle(r, now).entries, 0);
    }
  }

  // ---------- Counting the warm pool ----------

  lemma WarmSubset(a: Reg, b: Reg)
    requires WarmIds(b) <= WarmIds(a)
    ensures |WarmIds(b)| <= |WarmIds(a)|
  {
    Cardinality(WarmIds(b), WarmIds(a));
  }

  lemma Cardinality<T>(a: set<T>, b: set<T>)
    requires a <= b
    ensures |a| <= |b|
    ensures |b - a| == |b| - |a|
  {
    assert b == a + (b - a);
  }

  lemma WithoutWarm(r: Reg, ids: set<Id>)
    requires RegOk(r)
    ensures |WarmIds(Without(r, ids))| <= |WarmIds(r)|
  {
    WithoutLaws(r, ids);
    WarmSubset(r, Without(r, ids));
  }

  lemma ReserveWarm(r: Reg, pooled: bool, now: int)
    requires RegOk(r)
    ensures |WarmIds(Reserve(r, pooled, now))| == |WarmIds(r)| + if pooled then 1 else 0
  {
    NextSlotIsNew(r);
    hide RegOk;
    var n, r' := Warming(r.warmingSeq + 1), Reserve(r, pooled, now);
    assert forall id :: id in r.entries ==> id != n && r'.entries[id] == r.entries[id];
    forall id ensures id in WarmIds(r') <==> id in WarmIds(r) || (pooled && id == n) {
      assert id in r'.entries <==> id == n || id in r.entries;
    }
    assert WarmIds(r') == WarmIds(r) + if pooled then {n} else {};
  }

  lemma ActivateLeaseWarm(r: Reg, wid: nat, s: Sess, now: int)
    requires RegOk(r)
    ensures |WarmIds(ActivateLease(r, wid, s, now))| <= |WarmIds(r)|
  {
    WarmSubset(r, ActivateLease(r, wid, s, now));
  }

  lemma ActivateIdleWarm(r: Reg, wid: nat, s: Sess, now: int)
    requires RegOk(r)
    requires Warming(wid) in r.entries ==> r.entries[Warming(wid)].pooled
    ensures |WarmIds(ActivateIdle(r, wid, s, now))| <= |WarmIds(r)|
  {
    if KeepsIdle(r, wid) {
      var before := WarmIds(r);
      var after := WarmIds(ActivateIdle(r, wid, s, now));
      var rest := before - {Warming(wid)};
      assert EntryOk(r, Warming(wid), r.entries[Warming(wid)]);
      assert Warming(wid) in before;
      assert after <= rest + {Conv(s.conv)};
      Cardinality(after, rest + {Conv(s.conv)});
    } else {
      WithoutWarm(r, {Warming(wid)});
    }
  }

  lemma TryActivateWarm(r: Reg, now: int)
    requires RegOk(r)
    ensures |WarmIds(TryActivateIdle(r, now))| <= |WarmIds(r)|
  {
    FirstLeasableLaws(r.byAge, r.entries);
    WarmSubset(r, TryActivateIdle(r, now));
  }

  // ---------- Eviction ----------

  /**
   Eviction removes exactly the idle sessions neither put in place nor used for `ttl`, leaves
   every other entry as it was, and keeps the others in the order of their reservations.
   */
  lemma EvictsExactlyExpired(r: Reg, now: int, ttl: int)
    requires RegOk(r)
    ensures var r' := Without(r, ExpiredIds(r, now, ttl));
      && (forall id :: id in r'.entries <==>
            id in r.entries && var e := r.entries[id];
            e.status != Idle || now - e.updatedAt < ttl || (e.session.Some? && now - e.session.value.lastUsed < ttl))
      && (forall id :: id in r'.entries ==> r'.entries[id] == r.entries[id])
      && (Ordered(r) ==> Ordered(r'))
      && |UnitIds(r, ExpiredIds(r, now, ttl))| == |r.entries| - |r'.entries|
  {
    ExpiredMeans(r, now, ttl);
    var ids := ExpiredIds(r, now, ttl);
    hide RegOk, Without, ExpiredIds, UnitIds;
    WithoutLaws(r, ids);
    TakeCount(r, ids);
  }

  lemma ExpiredMeans(r: Reg, now: int, ttl: int)
    requires RegOk(r)
    ensures forall id :: id in r.entries - ExpiredIds(r, now, ttl) <==>
      id in r.entries && var e := r.entries[id];
      e.status != Idle || now - e.updatedAt < ttl || (e.session.Some? && now - e.session.value.lastUsed < ttl)
  {
    forall id | id in r.entries ensures id in r.byAge {
      assert id in multiset(r.byAge);
    }
    hide RegOk;
  }

  /**
   How long a session stays idle: from the moment it is put in place, or from its last use if
   that is later, an eviction spares it for `ttl` and not a moment longer.
   */
  lemma IdleLivesForTtl(r: Reg, wid: nat, s: Sess, start: int, now: int, ttl: int)
    requires RegOk(r) && Warming(wid) in r.entries && !r.cancelled
    ensures var r1 := ActivateIdle(r, wid, s, start);
      var r2 := Without(r1, ExpiredIds(r1, now, ttl));
      && Conv(s.conv) in r1.entries && Warming(wid) !in r1.entries
      && (Conv(s.conv) in r2.entries <==> now - start < ttl || now - s.lastUsed < ttl)
  {
    var r1 := ActivateIdle(r, wid, s, start);
    PutIdle(r, wid, s, start);
    hide RegOk, Without, ExpiredIds, ActivateIdle, UnitIds, Ordered;
    EvictsExactlyExpired(r1, now, ttl);
  }

  lemma PutIdle(r: Reg, wid: nat, s: Sess, start: int)
    requires RegOk(r) && Warming(wid) in r.entries && !r.cancelled
    ensures var r1 := ActivateIdle(r, wid, s, start);
      RegOk(r1) && r1.entries == (r.entries - {Warming(wid)})[Conv(s.conv) := Entry(Idle, Some(s), start, true, true, wid)]
  {
    hide RegOk, Replace;
    ActivateOk(r, wid, s, Idle, true, start);
  }

  /** As many units as entries: every entry holds one. */
  lemma TakeCount(r: Reg, ids: set<Id>)
    requires RegOk(r)
    ensures |r.entries - ids| == |r.entries| - |UnitIds(r, ids)|
  {
    var taken := UnitIds(r, ids);
    assert forall id :: id in r.entries ==> EntryOk(r, id, r.entries[id]);
    assert (r.entries - ids).Keys == r.entries.Keys - taken;
    Cardinality(taken, r.entries.Keys);
    assert |r.entries - ids| == |(r.entries - ids).Keys|;
  }

  // ---------- What undoes what ----------

  lemma {:induction false} CompactAppend(s: seq<Id>, id: Id, keys: set<Id>)
    ensures Compact(s + [id], keys) == Compact(s, keys) + if id in keys then [id] else []
  {
    if s == [] {
      assert s + [id] == [id];
    } else {
      CompactAppend(s[1..], id, keys);
      assert (s + [id])[1..] == s[1..] + [id];
    }
  }

  lemma {:induction false} CompactAll(s: seq<Id>, keys: set<Id>)
    requires forall id :: id in s ==> id in keys
    ensures Compact(s, keys) == s
  {
    if s != [] { CompactAll(s[1..], keys); }
  }

  lemma {:induction false} ReplaceLast(s: seq<Id>, from: Id, to: Id)
    requires from !in s
    ensures Replace(s + [from], from, to) == s + [to]
  {
    if s == [] {
      assert s + [from] == [from];
    } else {
      ReplaceLast(s[1..], from, to);
      assert (s + [from])[1..] == s[1..] + [from];
    }
  }

  /** Dropping one last key that is not otherwise listed gives the old index back. */
  lemma DropLast(r: Reg, id: Id)
    requires RegOk(r) && id !in r.entries
    ensures Compact(r.byAge + [id], r.entries.Keys) == r.byAge
  {
    assert forall o :: o in r.byAge ==> o in multiset(r.byAge);
    CompactAppend(r.byAge, id, r.entries.Keys);
    CompactAll(r.byAge, r.entries.Keys);
  }

  /** A failed start leaves no trace but its number: removing the slot undoes reserving it. */
  lemma RemoveUndoesReserve(r: Reg, pooled: bool, now: int)
    requires RegOk(r)
    ensures Without(Reserve(r, pooled, now), {Warming(r.warmingSeq + 1)}) == r.(warmingSeq := r.warmingSeq + 1)
  {
    var id := Warming(r.warmingSeq + 1);
    var r' := Reserve(r, pooled, now);
    NextSlotIsNew(r);
    DropLast(r, id);
    assert r'.entries - {id} == r.entries;
    assert r'.entries.Keys - {id} == r.entries.Keys;
    assert id in r'.entries.Keys;
  }

  /** Releasing a lease on a session of its own undoes acquiring it. */
  lemma ReleaseUndoesAcquire(r: Reg, s: Sess, now: int)
    requires RegOk(r) && Conv(s.conv) !in r.entries
    ensures Without(ActivateLease(Reserve(r, false, now), r.warmingSeq + 1, s, now), {Conv(s.conv)})
         == r.(warmingSeq := r.warmingSeq + 1)
  {
    hide RegOk, Replace, Compact;
    var from, to := Warming(r.warmingSeq + 1), Conv(s.conv);
    var r' := ActivateLease(Reserve(r, false, now), r.warmingSeq + 1, s, now);
    NextSlotIsNew(r);
    assert from !in r.byAge by { assert from in r.byAge ==> from in multiset(r.byAge); }
    ReplaceLast(r.byAge, from, to);
    DropLast(r, to);
    assert r'.entries - {to} == r.entries;
    assert r'.entries.Keys - {to} == r.entries.Keys;
    assert to in r'.entries.Keys;
  }

  // ---------- What belongs to somebody ----------

  /** Leased sessions and the slots of acquires: all but the warm pool. */
  function Held(r: Reg): map<Id, Entry> { map id | id in r.entries && !Droppable(r.entries[id]) :: r.entries[id] }

  lemma HeldAfterSetting(r: Reg, r': Reg, id: Id, e: Entry)
    requires r'.entries == r.entries[id := e] && !Droppable(e)
    ensures Held(r') == (Held(r) - {id})[id := e] && DroppableIds(r') == DroppableIds(r) - {id}
    ensures id !in r.entries ==> Held(r) - {id} == Held(r) && DroppableIds(r) - {id} == DroppableIds(r)
  {
  }

  lemma HeldAfterDeleting(r: Reg, r': Reg, ids: set<Id>)
    requires r'.entries == r.entries - ids
    ensures Held(r') == Held(r) - ids && DroppableIds(r') == DroppableIds(r) - ids
  {
  }

  lemma RefillKeepsHeld(l: Limits, r: Reg)
    requires RegOk(r)
    ensures var r' := MaybeRefill(l, r);
      RegOk(r') && r'.entries == r.entries && Held(r') == Held(r) && DroppableIds(r') == DroppableIds(r)
  {
    hide NeedsWarm;
  }

  /** Leasing an idle session makes it held, and changes nothing else that is. */
  lemma LeasingHolds(r: Reg, now: int)
    requires RegOk(r) && FirstLeasable(r.byAge, r.entries).Some?
    ensures var id := FirstLeasable(r.byAge, r.entries).value; var r' := TryActivateIdle(r, now);
      && RegOk(r') && |r'.entries| == |r.entries| && id in r.entries && id !in Held(r)
      && id in r'.entries && r'.entries[id].status == Leased && r'.entries[id].session.Some?
      && Held(r') == Held(r)[id := r'.entries[id]]
  {
    TryActivateLaws(r, now);
    FirstLeasableLaws(r.byAge, r.entries);
    var id := FirstLeasable(r.byAge, r.entries).value;
    assert EntryOk(r, id, r.entries[id]);
    assert TryActivateIdle(r, now).entries.Keys == r.entries.Keys;
    assert |TryActivateIdle(r, now).entries| == |TryActivateIdle(r, now).entries.Keys|;
  }

  /**
   So does registering a session under its conversation ID. An entry already there is lost to
   its holder, and then there is no entry more; nothing else that is held changes.
   */
  lemma StartingHolds(r: Reg, s: Sess, now: int)
    requires RegOk(r)
    ensures var id := Conv(s.conv); var r' := StartLeased(r, Some(s), now);
      && RegOk(r') && |r'.entries| == |r.entries| + (if id in r.entries then 0 else 1)
      && id in r'.entries && r'.entries[id] == Entry(Leased, Some(s), now, true, false, r.warmingSeq + 1)
      && Held(r') == (Held(r) - {id})[id := r'.entries[id]] && DroppableIds(r') == DroppableIds(r) - {id}
      && (id !in r.entries ==> Held(r) - {id} == Held(r))
  {
    hide RegOk, StartLeased, Held, DroppableIds;
    NextSlotIsNew(r);
    StartedOk(r, s, now);
    StartedEntries(r, s, now);
    var r' := StartLeased(r, Some(s), now);
    HeldAfterSetting(r, r', Conv(s.conv), r'.entries[Conv(s.conv)]);
  }

  lemma StartedOk(r: Reg, s: Sess, now: int)
    requires RegOk(r)
    ensures RegOk(StartLeased(r, Some(s), now))
  {
    hide RegOk, Activate;
    ReserveOk(r, false, now);
    ActivateOk(Reserve(r, false, now), r.warmingSeq + 1, s, Leased, false, now);
  }

  lemma StartedEntries(r: Reg, s: Sess, now: int)
    requires Warming(r.warmingSeq + 1) !in r.entries
    ensures var id := Conv(s.conv); var r' := StartLeased(r, Some(s), now);
      && id in r'.entries && r'.entries == r.entries[id := r'.entries[id]]
      && |r'.entries| == |r.entries| + (if id in r.entries then 0 else 1)
      && r'.entries[id] == Entry(Leased, Some(s), now, true, false, r.warmingSeq + 1)
  {
    hide Replace;
    var id := Conv(s.conv);
    var r' := StartLeased(r, Some(s), now);
    assert r'.entries == r.entries[id := r'.entries[id]];
    assert r'.entries.Keys == r.entries.Keys + {id};
    assert |r'.entries| == |r'.entries.Keys| && |r.entries| == |r.entries.Keys|;
  }

  /** A start that fails changes nothing but the number of the next slot. */
  lemma FailedStart(r: Reg, now: int)
    requires RegOk(r)
    ensures var r' := StartLeased(r, None, now);
      RegOk(r') && r'.entries == r.entries && Held(r') == Held(r) && DroppableIds(r') == DroppableIds(r)
  {
    RemoveUndoesReserve(r, false, now);
    var r' := r.(warmingSeq := r.warmingSeq + 1);
    forall id | id in r'.entries ensures EntryOk(r', id, r'.entries[id]) {
      assert EntryOk(r, id, r.entries[id]);
    }
  }

  lemma RetiringHolds(r: Reg, id: Id)
    requires RegOk(r) && id in r.entries
    ensures var r' := Without(r, {id});
      && RegOk(r') && |r'.entries| == |r.entries| - 1 && Held(r') == Held(r) - {id} && DroppableIds(r') == DroppableIds(r) - {id}
  {
    hide Without, RegOk, Held, DroppableIds;
    WithoutLaws(r, {id});
    HeldAfterDeleting(r, Without(r, {id}), {id});
    assert (r.entries - {id}).Keys == r.entries.Keys - {id};
    assert |r.entries - {id}| == |(r.entries - {id}).Keys|;
  }

  /**
   Dropping the warm pool leaves exactly what is held, which is what is not pooled, and gives
   back the units of the rest. Shutdown takes the same.
   */
  lemma DroppingHolds(r: Reg)
    requires RegOk(r)
    ensures var r' := Without(r, DroppableIds(r));
      && RegOk(r') && r'.entries == Held(r) == Held(r') && DroppableIds(r') == {}
      && |r'.entries| == |r.entries| - |UnitIds(r, DroppableIds(r))|
      && (forall id :: id in r'.entries <==> id in r.entries && !r.entries[id].pooled)
      && StoppableIds(r) == DroppableIds(r)
  {
    DroppedArePooled(r);
    hide StoppableIds, DroppableIds, Held;
    hide Without, RegOk, UnitIds;
    WithoutLaws(r, DroppableIds(r));
    TakeCount(r, DroppableIds(r));
    HeldAfterDeleting(r, Without(r, DroppableIds(r)), DroppableIds(r));
  }

  lemma DroppedArePooled(r: Reg)
    requires RegOk(r)
    ensures forall id :: id in r.entries ==> (id in DroppableIds(r) <==> r.entries[id].pooled)
    ensures StoppableIds(r) == DroppableIds(r) && r.entries - DroppableIds(r) == Held(r)
    ensures Held(r) - DroppableIds(r) == Held(r) && DroppableIds(r) - DroppableIds(r) == {}
  {
    assert forall id :: id in r.entries ==> EntryOk(r, id, r.entries[id]);
  }
}
