/**
 The steps that hand a slot, a session or a lease from one owner to the next keep the invariant.
 */
module PoolMoves {
  import opened Ids
  import opened Registry
  import opened Wrappers
  import opened RegistryLaws
  import opened Pool
  import opened PoolInvariant
  import opened PoolSteps

  /** Nothing but units. */
  ghost predicate OwnsUnits(pc: PC) {
    && SlotOf(pc) == None && FetchedBy(pc) == None && Victims(pc) == {}
    && LiveLease(pc) == None && SpentLease(pc) == None && !Stopping(pc)
  }

  // ---------- A slot is reserved ----------

  lemma ReserveKeeps(w: World, t: nat, pooled: bool, now: int, pc: PC)
    requires Inv(w) && t < |w.threads|
    requires OwnsUnits(w.threads[t]) && Units(w.threads[t]) == 1
    requires (pc.AcqStart? || pc.FillStart?) && pc.wid == w.reg.warmingSeq + 1
    requires IsFill(pc) == pooled == RunsFill(w.threads[t])
    requires pooled ==> NeedsWarm(w.limits, w.reg)
    ensures Inv(ReserveSlot(w, t, pooled, now, pc))
  {
    hide Inv, RegOk, UnitsOk, FillOk, SlotsOk, PlaceOk, HoldersOk, StopOk, LeaseOk, Distinct;
    InvParts(w);
    var w' := ReserveSlot(w, t, pooled, now, pc);
    StopStep(w, w', t);
    ReserveOk(w.reg, pooled, now);
    NextSlotIsNew(w.reg);
    UnitsStep(w, w', t);
    ReserveWarm(w.reg, pooled, now);
    FillStep(w, w', t);
    ReserveSlots(w, t, pooled, now, pc);
    ReservePlaces(w, t, pooled, now, pc);
    MoveHolders(w, w', t);
    if Distinct(w.convs) {
      ReserveOrdered(w.reg, pooled, now);
      ReserveLeases(w, t, pooled, now, pc);
    }
    InvJoin(w');
  }

  lemma ReserveSlots(w: World, t: nat, pooled: bool, now: int, pc: PC)
    requires SlotsOk(w) && t < |w.threads| && SlotOf(w.threads[t]) == None
    requires SlotOf(pc) == Some(w.reg.warmingSeq + 1) && IsFill(pc) == pooled
    ensures SlotsOk(ReserveSlot(w, t, pooled, now, pc))
  {
    var w' := ReserveSlot(w, t, pooled, now, pc);
    forall n: nat | Warming(n) in w'.reg.entries ensures SlotHeld(w', n) {
      if n != w'.reg.warmingSeq { assert SlotHeld(w, n); }
    }
  }

  lemma ReservePlaces(w: World, t: nat, pooled: bool, now: int, pc: PC)
    requires PlaceOk(w) && t < |w.threads| && OwnsUnits(w.threads[t])
    requires pc.AcqStart? || pc.FillStart?
    ensures PlaceOk(ReserveSlot(w, t, pooled, now, pc))
  {
    var w' := ReserveSlot(w, t, pooled, now, pc);
    forall id | id in w'.reg.entries ensures EntryPlaced(w', id) {
      assert id in w.reg.entries ==> EntryPlaced(w, id);
    }
    forall s: nat | s < |w'.place| ensures Located(w', s) {
      assert Located(w, s);
    }
    forall u: nat | u < |w'.threads| ensures ThreadPlaced(w', u) {
      assert ThreadPlaced(w, u);
    }
  }

  lemma ReserveLeases(w: World, t: nat, pooled: bool, now: int, pc: PC)
    requires LeaseOk(w) && t < |w.threads| && OwnsUnits(w.threads[t])
    requires pc.AcqStart? || pc.FillStart?
    requires Ordered(Reserve(w.reg, pooled, now))
    ensures LeaseOk(ReserveSlot(w, t, pooled, now, pc))
  {
    var w' := ReserveSlot(w, t, pooled, now, pc);
    forall u: nat | u < |w'.threads| ensures LeaseHeld(w', u) {
      assert LeaseHeld(w, u);
    }
  }

  // ---------- A session is fetched ----------

  lemma FetchKeeps(w: World, t: nat, conv: string, pc: PC)
    requires Inv(w) && t < |w.threads|
    requires w.threads[t].AcqStart? || w.threads[t].FillStart?
    requires if w.threads[t].AcqStart? then pc.AcqActivate? else pc.FillActivate?
    requires pc.wid == w.threads[t].wid && pc.sess.sid == |w.convs| && pc.sess.conv == conv
    ensures Inv(Fetch(w, t, conv, pc))
  {
    hide Inv, RegOk, UnitsOk, FillOk, SlotsOk, PlaceOk, HoldersOk, StopOk, LeaseOk, Distinct;
    InvParts(w);
    var w' := Fetch(w, t, conv, pc);
    StopStep(w, w', t);
    UnitsStep(w, w', t);
    FillStep(w, w', t);
    FetchSlots(w, t, conv, pc);
    FetchPlaces(w, t, conv, pc);
    FetchHolders(w, t, conv, pc);
    DistinctPrefix(w.convs, conv);
    if Distinct(w'.convs) { FetchLeases(w, t, conv, pc); }
    InvJoin(w');
  }

  lemma DistinctPrefix(convs: seq<string>, conv: string)
    ensures Distinct(convs + [conv]) ==> Distinct(convs)
  {
    if Distinct(convs + [conv]) {
      forall i, j | 0 <= i < j < |convs| ensures convs[i] != convs[j] {
        assert (convs + [conv])[i] != (convs + [conv])[j];
      }
    }
  }

  lemma FetchSlots(w: World, t: nat, conv: string, pc: PC)
    requires SlotsOk(w) && t < |w.threads|
    requires SlotOf(pc) == SlotOf(w.threads[t]) && IsFill(pc) == IsFill(w.threads[t])
    ensures SlotsOk(Fetch(w, t, conv, pc))
  {
    var w' := Fetch(w, t, conv, pc);
    forall n: nat | Warming(n) in w'.reg.entries ensures SlotHeld(w', n) {
      assert SlotHeld(w, n);
    }
  }

  lemma FetchPlaces(w: World, t: nat, conv: string, pc: PC)
    requires PlaceOk(w) && t < |w.threads|
    requires w.threads[t].AcqStart? || w.threads[t].FillStart?
    requires pc.AcqActivate? || pc.FillActivate?
    requires pc.sess.sid == |w.convs| && pc.sess.conv == conv
    ensures PlaceOk(Fetch(w, t, conv, pc))
  {
    var w' := Fetch(w, t, conv, pc);
    assert forall s :: 0 <= s < |w.place| ==> w'.place[s] == w.place[s] && w'.convs[s] == w.convs[s];
    forall id | id in w'.reg.entries ensures EntryPlaced(w', id) {
      assert EntryPlaced(w, id);
    }
    forall s: nat | s < |w'.place| ensures Located(w', s) {
      if s < |w.place| { assert Located(w, s); }
    }
    forall u: nat | u < |w'.threads| ensures ThreadPlaced(w', u) {
      assert ThreadPlaced(w, u);
    }
  }

  lemma FetchHolders(w: World, t: nat, conv: string, pc: PC)
    requires HoldersOk(w) && t < |w.threads| && LiveLease(pc) == LiveLease(w.threads[t])
    ensures HoldersOk(Fetch(w, t, conv, pc))
  {
    var w' := Fetch(w, t, conv, pc);
    forall s: nat | s < |w'.place| ensures HolderOk(w', s) {
      if s < |w.place| { assert HolderOk(w, s); }
    }
  }

  lemma FetchLeases(w: World, t: nat, conv: string, pc: PC)
    requires LeaseOk(w) && PlaceOk(w) && t < |w.threads|
    requires w.threads[t].AcqStart? || w.threads[t].FillStart?
    requires pc.AcqActivate? || pc.FillActivate?
    ensures LeaseOk(Fetch(w, t, conv, pc))
  {
    var w' := Fetch(w, t, conv, pc);
    assert forall s :: 0 <= s < |w.place| ==> w'.place[s] == w.place[s] && w'.convs[s] == w.convs[s];
    forall u: nat | u < |w'.threads| ensures LeaseHeld(w', u) {
      assert LeaseHeld(w, u);
    }
  }

  // ---------- An idle session is leased ----------

  lemma ScanKeeps(w: World, t: nat, now: int, units: nat)
    requires Inv(w) && t < |w.threads|
    requires w.threads[t] == if units == 0 then AcqScan else AcqRescan
    requires units <= 1
    ensures Inv(Scan(w, t, now, units))
  {
    hide Inv, RegOk, UnitsOk, FillOk, SlotsOk, PlaceOk, HoldersOk, StopOk, LeaseOk, FirstLeasable;
    InvParts(w);
    UnitsBound(w);
    match FirstLeasable(w.reg.byAge, w.reg.entries)
    case None => Move(w, t, if units == 0 then AcqWait(false) else AcqReserve(false), w.used, w.reg);
    case Some(id) => ScanHit(w, t, now, units, id);
  }

  /** The oldest idle entry is keyed by the conversation ID of the session in it. */
  ghost predicate IdleHit(w: World, id: Id, sid: nat) {
    && FirstLeasable(w.reg.byAge, w.reg.entries) == Some(id)
    && id in w.reg.entries && id.Conv? && w.reg.entries[id].status == Idle
    && w.reg.entries[id].session.Some? && w.reg.entries[id].session.value.sid == sid < |w.place|
    && w.reg.entries[id].session.value.conv == id.name
  }

  lemma FindsIdle(w: World, id: Id) returns (sid: nat)
    requires RegOk(w.reg) && PlaceOk(w) && FirstLeasable(w.reg.byAge, w.reg.entries) == Some(id)
    ensures IdleHit(w, id, sid)
  {
    FirstLeasableLaws(w.reg.byAge, w.reg.entries);
    assert EntryOk(w.reg, id, w.reg.entries[id]) && EntryPlaced(w, id);
    sid := w.reg.entries[id].session.value.sid;
  }

  lemma ScanIsScanned(w: World, t: nat, now: int, units: nat, id: Id, sid: nat)
    requires IdleHit(w, id, sid) && t < |w.threads|
    requires w.threads[t] == if units == 0 then AcqScan else AcqRescan
    ensures var w' := Scan(w, t, now, units);
      && Scanned(w, w', t, id, sid)
      && w'.reg == TryActivateIdle(w.reg, now) && w'.reg.cancelled == w.reg.cancelled
      && w'.reg.warmingSeq == w.reg.warmingSeq && w'.reg.refillRunning == w.reg.refillRunning
      && w'.threads[t] == Refund(units, {}, true, ThenUpload(LeaseRef(id.name, sid)))
      && w'.used == w.used && w'.limits == w.limits && w'.slots == w.slots && w'.convs == w.convs && w'.lost == w.lost
  {
  }

  lemma ScanHit(w: World, t: nat, now: int, units: nat, id: Id)
    requires Inv(w) && t < |w.threads|
    requires w.threads[t] == if units == 0 then AcqScan else AcqRescan
    requires units <= 1 && FirstLeasable(w.reg.byAge, w.reg.entries) == Some(id)
    ensures Inv(Scan(w, t, now, units))
  {
    hide Inv, RegOk, UnitsOk, FillOk, SlotsOk, PlaceOk, HoldersOk, StopOk, LeaseOk, Distinct;
    hide Scan, TryActivateIdle, FirstLeasable, IdleHit;
    InvParts(w);
    var sid := FindsIdle(w, id);
    ScanIsScanned(w, t, now, units, id, sid);
    var w' := Scan(w, t, now, units);
    StopStep(w, w', t);
    TryActivateLaws(w.reg, now);
    assert |w'.reg.entries| == |w'.reg.entries.Keys| == |w.reg.entries|;
    UnitsStep(w, w', t);
    TryActivateWarm(w.reg, now);
    FillStep(w, w', t);
    ScanSlots(w, w', t, id);
    ScanPlaces(w, w', t, id, sid);
    ScanHolders(w, w', t, id, sid);
    if Distinct(w.convs) { ScanLeases(w, w', t, id, sid); }
    InvJoin(w');
  }

  /** What a successful scan changes. */
  ghost predicate Scanned(w: World, w': World, t: nat, id: Id, sid: nat) {
    && t < |w.threads| && OwnsUnits(w.threads[t])
    && id in w.reg.entries && id.Conv? && sid < |w.place|
    && w.reg.entries[id].session.Some? && w.reg.entries[id].session.value.sid == sid
    && w.reg.entries[id].status == Idle
    && w'.reg.entries.Keys == w.reg.entries.Keys
    && (forall o :: o in w.reg.entries && o != id ==> w'.reg.entries[o] == w.reg.entries[o])
    && w'.reg.entries[id].status == Leased
    && w'.reg.entries[id].session.Some?
    && w'.reg.entries[id].session.value.sid == sid
    && w'.reg.entries[id].session.value.conv == w.reg.entries[id].session.value.conv == id.name
    && w'.convs == w.convs && w'.lost == w.lost
    && w'.place == w.place[sid := Registered(id.name, Some(t))]
    && |w'.threads| == |w.threads| && w'.threads == w.threads[t := w'.threads[t]]
    && SlotOf(w'.threads[t]) == None && FetchedBy(w'.threads[t]) == None && Victims(w'.threads[t]) == {}
    && LiveLease(w'.threads[t]) == Some(LeaseRef(id.name, sid)) && SpentLease(w'.threads[t]) == None
  }

  lemma ScanSlots(w: World, w': World, t: nat, id: Id)
    requires SlotsOk(w) && t < |w.threads| && id in w.reg.entries && id.Conv?
    requires w'.reg.entries.Keys == w.reg.entries.Keys
    requires forall o :: o in w.reg.entries && o != id ==> w'.reg.entries[o] == w.reg.entries[o]
    requires w'.reg.warmingSeq == w.reg.warmingSeq && w'.slots == w.slots
    requires |w'.threads| == |w.threads| && w'.threads == w.threads[t := w'.threads[t]]
    requires SlotOf(w.threads[t]) == None && SlotOf(w'.threads[t]) == None
    ensures SlotsOk(w')
  {
    forall n: nat | Warming(n) in w'.reg.entries ensures SlotHeld(w', n) {
      assert SlotHeld(w, n);
    }
  }

  lemma ScanPlaces(w: World, w': World, t: nat, id: Id, sid: nat)
    requires PlaceOk(w) && Scanned(w, w', t, id, sid)
    ensures PlaceOk(w')
  {
    assert EntryPlaced(w, id);
    forall o | o in w'.reg.entries ensures EntryPlaced(w', o) {
      assert EntryPlaced(w, o);
      if o != id && w.reg.entries[o].session.Some? {
        var s := w.reg.entries[o].session.value.sid;
        assert Located(w, s);
      }
    }
    forall s: nat | s < |w'.place| ensures Located(w', s) {
      assert Located(w, s);
    }
    forall u: nat | u < |w'.threads| ensures ThreadPlaced(w', u) {
      assert ThreadPlaced(w, u);
    }
  }

  lemma ScanHolders(w: World, w': World, t: nat, id: Id, sid: nat)
    requires HoldersOk(w) && Scanned(w, w', t, id, sid)
    ensures HoldersOk(w')
  {
    forall s: nat | s < |w'.place| ensures HolderOk(w', s) {
      assert HolderOk(w, s);
    }
  }

  lemma ScanLeases(w: World, w': World, t: nat, id: Id, sid: nat)
    requires PlaceOk(w) && LeaseOk(w) && Scanned(w, w', t, id, sid) && Ordered(w'.reg)
    ensures LeaseOk(w')
  {
    assert EntryPlaced(w, id);
    forall u: nat | u < |w'.threads| ensures LeaseHeld(w', u) {
      assert LeaseHeld(w, u);
    }
  }
}
