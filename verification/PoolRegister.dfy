/**
 Registering a fetched session, as a lease or as an idle pooled session, keeps the invariant.
 */
module PoolRegister {
  import opened Ids
  import opened Registry
  import opened Wrappers
  import opened RegistryLaws
  import opened Pool
  import opened PoolInvariant
  import opened PoolSteps

  /** What registering the session `s` from slot `wid` changes. */
  ghost predicate Registers(w: World, w': World, t: nat, wid: nat, s: Sess, e: Entry) {
    && OnlyThread(w, w', t) && s.sid < |w.place|
    && FetchedBy(w.threads[t]) == Some(s) && SlotOf(w.threads[t]) == Some(wid)
    && Units(w.threads[t]) == 0 && Victims(w.threads[t]) == {}
    && LiveLease(w.threads[t]) == None && SpentLease(w.threads[t]) == None
    && Warming(wid) in w.reg.entries
    && FetchedBy(w'.threads[t]) == None && SlotOf(w'.threads[t]) == None
    && Units(w'.threads[t]) == 0 && Victims(w'.threads[t]) == {} && SpentLease(w'.threads[t]) == None
    && !Stopping(w'.threads[t]) && Fills(w'.threads[t]) == Fills(w.threads[t])
    && e.session == Some(s)
    && (e.status == Leased || e.status == Idle)
    && LiveLease(w'.threads[t]) == (if e.status == Leased then Some(LeaseRef(s.conv, s.sid)) else None)
    && w' == Register(w, t, w'.reg, s, if e.status == Leased then Some(t) else None, w'.threads[t])
    && w'.reg.entries == (w.reg.entries - {Warming(wid)})[Conv(s.conv) := e]
    && w'.reg.warmingSeq == w.reg.warmingSeq
    && w'.reg.cancelled == w.reg.cancelled && w'.reg.refillRunning == w.reg.refillRunning
  }

  lemma RegisterKeeps(w: World, w': World, t: nat, wid: nat, s: Sess, e: Entry)
    requires Inv(w) && Registers(w, w', t, wid, s, e)
    requires RegOk(w'.reg) && |WarmIds(w'.reg)| <= |WarmIds(w.reg)|
    requires Ordered(w.reg) && Conv(s.conv) !in w.reg.entries ==> Ordered(w'.reg)
    ensures Inv(w')
  {
    hide Inv, RegOk, UnitsOk, SlotsOk, PlaceOk, HoldersOk, StopOk, LeaseOk, Distinct, Ordered;
    InvParts(w);
    StopStep(w, w', t);
    RegisterCount(w.reg.entries, Warming(wid), Conv(s.conv), e);
    UnitsBound(w);
    UnitsStep(w, w', t);
    FillStep(w, w', t);
    RegisterSlots(w, w', t, wid, s, e);
    RegisterPlaces(w, w', t, wid, s, e);
    RegisterHolders(w, w', t, wid, s, e);
    if Distinct(w.convs) {
      NoCollision(w, t, s);
      RegisterLeases(w, w', t, wid, s, e);
    }
    InvJoin(w');
  }

  lemma RegisterCount(entries: map<Id, Entry>, from: Id, to: Id, e: Entry)
    requires from in entries && from != to
    ensures |(entries - {from})[to := e]| == |entries| - if to in entries then 1 else 0
  {
    var rest := entries - {from};
    assert rest.Keys == entries.Keys - {from};
    assert |rest| == |rest.Keys| == |entries| - 1;
    assert rest[to := e].Keys == rest.Keys + {to};
    assert |rest[to := e]| == |rest.Keys + {to}|;
  }

  lemma RegisterSlots(w: World, w': World, t: nat, wid: nat, s: Sess, e: Entry)
    requires SlotsOk(w) && Registers(w, w', t, wid, s, e)
    ensures SlotsOk(w')
  {
    forall n: nat | Warming(n) in w'.reg.entries ensures SlotHeld(w', n) {
      assert SlotHeld(w, n);
    }
  }

  lemma RegisterPlaces(w: World, w': World, t: nat, wid: nat, s: Sess, e: Entry)
    requires PlaceOk(w) && Registers(w, w', t, wid, s, e)
    ensures PlaceOk(w')
  {
    assert ThreadPlaced(w, t);
    forall id | id in w'.reg.entries ensures EntryPlaced(w', id) {
      if id != Conv(s.conv) {
        assert EntryPlaced(w, id);
      }
    }
    forall i: nat | i < |w'.place| ensures Located(w', i) {
      assert Located(w, i);
    }
    forall u: nat | u < |w'.threads| ensures ThreadPlaced(w', u) {
      assert ThreadPlaced(w, u);
      RegisterThread(w, w', t, wid, s, e, u);
    }
  }

  lemma RegisterThread(w: World, w': World, t: nat, wid: nat, s: Sess, e: Entry, u: nat)
    requires |w.place| == |w.convs| && Registers(w, w', t, wid, s, e) && u < |w.threads|
    requires ThreadPlaced(w, t) && ThreadPlaced(w, u)
    ensures ThreadPlaced(w', u)
  {
  }

  /** With distinct conversation IDs a freshly fetched one is not registered yet. */
  lemma NoCollision(w: World, t: nat, s: Sess)
    requires RegOk(w.reg) && PlaceOk(w) && Distinct(w.convs)
    requires t < |w.threads| && FetchedBy(w.threads[t]) == Some(s)
    ensures Conv(s.conv) !in w.reg.entries
  {
    var id := Conv(s.conv);
    assert ThreadPlaced(w, t);
    if id in w.reg.entries {
      assert EntryOk(w.reg, id, w.reg.entries[id]) && EntryPlaced(w, id);
      var other := w.reg.entries[id].session.value.sid;
      assert w.convs[other] == w.convs[s.sid];
      DistinctIndex(w.convs, other, s.sid);
      assert false;
    }
  }

  lemma DistinctIndex(convs: seq<string>, i: nat, j: nat)
    requires Distinct(convs) && i < |convs| && j < |convs| && convs[i] == convs[j]
    ensures i == j
  {
  }

  lemma RegisterHolders(w: World, w': World, t: nat, wid: nat, s: Sess, e: Entry)
    requires HoldersOk(w) && Registers(w, w', t, wid, s, e)
    ensures HoldersOk(w')
  {
    forall i: nat | i < |w'.place| ensures HolderOk(w', i) {
      assert HolderOk(w, i);
    }
  }

  lemma RegisterLeases(w: World, w': World, t: nat, wid: nat, s: Sess, e: Entry)
    requires PlaceOk(w) && LeaseOk(w) && Registers(w, w', t, wid, s, e)
    requires Conv(s.conv) !in w.reg.entries && Ordered(w'.reg)
    ensures LeaseOk(w')
  {
    assert ThreadPlaced(w, t);
    forall i: nat | i < |w'.place| ensures w'.place[i] != Overwritten {
      assert Located(w, i);
    }
    forall u: nat | u < |w'.threads| ensures LeaseHeld(w', u) {
      assert LeaseHeld(w, u);
      LiveIsLocated(w, u);
    }
  }

  lemma LiveIsLocated(w: World, u: nat)
    requires PlaceOk(w) && u < |w.threads| && LeaseHeld(w, u)
    ensures LiveLease(w.threads[u]).Some? ==> Conv(LiveLease(w.threads[u]).value.name) in w.reg.entries
  {
    if LiveLease(w.threads[u]).Some? { assert Located(w, LiveLease(w.threads[u]).value.sid); }
  }
}
