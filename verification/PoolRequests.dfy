/**
 The steps of a client request keep the invariant.
 */
module PoolRequests {
  import opened Ids
  import opened Registry
  import opened Wrappers
  import opened RegistryLaws
  import opened Pool
  import opened PoolInvariant
  import opened PoolSteps
  import opened PoolMoves
  import opened PoolRegister
  import opened PoolRetire

  // ---------- Each step keeps the invariant ----------

  lemma SpawnKeeps(w: World, pc: PC)
    requires Inv(w) && Spawnable(pc)
    ensures Inv(Spawn(w, pc))
  {
    hide Inv;
    RunningIfRequested(w);
    Append(w, pc, w.reg);
  }

  lemma RunningIfRequested(w: World)
    requires Inv(w)
    ensures w.reg.refillRequested ==> w.reg.refillRunning
  {
  }

  predicate HoldsLease(pc: PC, l: LeaseRef) {
    (pc.ReqUpload? || pc.ReqSend? || pc.ReqRun? || pc.ReqRelease?) && pc.lease == l
  }

  predicate AfterRetire(pc: PC, l: LeaseRef, next: After) {
    next == ThenDone || next == ThenDrop || (next == ThenRelease(l) && pc.ReqRun?)
  }

  /** `release` or `invalidate` by a thread holding the lease `l`, live or spent. */
  lemma RetireKeeps(w: World, t: nat, l: LeaseRef, next: After)
    requires Inv(w) && t < |w.threads| && HoldsLease(w.threads[t], l) && AfterRetire(w.threads[t], l, next)
    ensures Inv(RetireLease(w, t, l, next))
  {
    hide Inv, Take, Resume;
    if Conv(l.name) in w.reg.entries {
      RetirePresent(w, t, l, next);
    } else {
      RetireAbsent(w, t, l, next);
    }
  }

  lemma RetirePresent(w: World, t: nat, l: LeaseRef, next: After)
    requires Inv(w) && t < |w.threads| && HoldsLease(w.threads[t], l) && AfterRetire(w.threads[t], l, next)
    requires Conv(l.name) in w.reg.entries
    ensures Inv(Take(w, t, {Conv(l.name)}, true, next))
  {
    hide Inv, RegOk, UnitsOk, FillOk, SlotsOk, PlaceOk, HoldersOk, StopOk, LeaseOk, Distinct, Take, OwnLeases;
    InvParts(w);
    if Distinct(w.convs) { RetiresOwn(w, t, l, next); }
    TakeKeeps(w, t, {Conv(l.name)}, true, next);
  }

  lemma RetireAbsent(w: World, t: nat, l: LeaseRef, next: After)
    requires Inv(w) && t < |w.threads| && HoldsLease(w.threads[t], l) && AfterRetire(w.threads[t], l, next)
    requires Conv(l.name) !in w.reg.entries
    ensures Inv(Goto(w, t, Resume(next)))
  {
    hide Inv, RegOk, UnitsOk, FillOk, SlotsOk, PlaceOk, HoldersOk, StopOk, LeaseOk, Distinct;
    InvParts(w);
    UnitsBound(w);
    RunningIfRequested(w);
    if Distinct(w.convs) {
      HeldLease(w, t);
      LiveHasEntry(w, t);
    }
    Move(w, t, Resume(next), w.used, w.reg);
  }

  /** With distinct conversation IDs the entry found is the thread's own leased one. */
  lemma RetiresOwn(w: World, t: nat, l: LeaseRef, next: After)
    requires PlaceOk(w) && LeaseOk(w) && Distinct(w.convs) && t < |w.threads|
    requires HoldsLease(w.threads[t], l) && AfterRetire(w.threads[t], l, next) && Conv(l.name) in w.reg.entries
    ensures OwnLeases(w, t, {Conv(l.name)}, next)
  {
    if w.threads[t].ReqRelease? { SpentIsGone(w, t, l); }
  }

  /** Once invalidated, a conversation is no longer registered, so its later release does nothing. */
  lemma SpentIsGone(w: World, t: nat, l: LeaseRef)
    requires PlaceOk(w) && LeaseOk(w) && Distinct(w.convs) && t < |w.threads|
    requires SpentLease(w.threads[t]) == Some(l)
    ensures Conv(l.name) !in w.reg.entries
  {
    assert LeaseHeld(w, t);
    var id := Conv(l.name);
    if id in w.reg.entries {
      assert EntryPlaced(w, id);
      DistinctIndex(w.convs, w.reg.entries[id].session.value.sid, l.sid);
    }
  }

  lemma HeldLease(w: World, t: nat)
    requires LeaseOk(w) && t < |w.threads|
    ensures LeaseHeld(w, t)
  {
  }

  /** A move that leaves the registry alone. */
  lemma Walk(w: World, t: nat, pc: PC, used: int)
    requires Inv(w) && t < |w.threads|
    requires SameOwnership(w.threads[t], pc) && SameLeases(w.threads[t], pc)
    requires used - Units(pc) == w.used - Units(w.threads[t]) && used <= w.limits.maxSessions
    requires Fills(pc) == Fills(w.threads[t])
    requires Stopping(pc) ==> Stopping(w.threads[t])
    ensures Inv(Goto(w, t, pc).(used := used))
  {
    hide Inv;
    RunningIfRequested(w);
    Move(w, t, pc, used, w.reg);
  }

  lemma UsedBound(w: World)
    requires Inv(w)
    ensures w.used <= w.limits.maxSessions
  {
  }

  lemma ActivateLeaseKeeps(w: World, t: nat, c: Choice)
    requires Inv(w) && Enabled(w, t, c) && w.threads[t].AcqActivate?
    ensures Inv(StepRequest(w, t, c))
  {
    hide Inv, RegOk, UnitsOk, FillOk, SlotsOk, PlaceOk, HoldersOk, StopOk, LeaseOk, Distinct, Ordered;
    hide StepRequest, ActivateLease, Registers;
    InvParts(w);
    var AcqActivate(wid, s, _) := w.threads[t];
    var e := Entry(Leased, Some(s), c.now, true, false, wid);
    OwnSlot(w, t);
    LeaseRegisters(w, t, c, wid, s, e);
    ActivateOk(w.reg, wid, s, Leased, false, c.now);
    ActivateLeaseWarm(w.reg, wid, s, c.now);
    if Ordered(w.reg) && Conv(s.conv) !in w.reg.entries {
      ActivateOrdered(w.reg, wid, s, Leased, false, c.now);
    }
    RegisterKeeps(w, StepRequest(w, t, c), t, wid, s, e);
  }

  lemma LeaseRegisters(w: World, t: nat, c: Choice, wid: nat, s: Sess, e: Entry)
    requires Enabled(w, t, c) && w.threads[t].AcqActivate? && w.threads[t].wid == wid && w.threads[t].sess == s
    requires Warming(wid) in w.reg.entries && e == Entry(Leased, Some(s), c.now, true, false, wid)
    ensures Registers(w, StepRequest(w, t, c), t, wid, s, e)
    ensures StepRequest(w, t, c).reg == ActivateLease(w.reg, wid, s, c.now)
         == Activate(w.reg, wid, s, Leased, false, c.now)
  {
  }

  /** The slot reserved by an acquire is still there when its session arrives. */
  lemma OwnSlot(w: World, t: nat)
    requires SlotsOk(w) && t < |w.threads| && (w.threads[t].AcqStart? || w.threads[t].AcqActivate? || w.threads[t].AcqFail?)
    ensures Warming(w.threads[t].wid) in w.reg.entries
  {
    assert SlotOf(w.threads[t]) == Some(w.threads[t].wid);
  }

  /** Taking the thread's own slot when its start has failed. */
  lemma FailKeeps(w: World, t: nat, wid: nat, next: After)
    requires Inv(w) && t < |w.threads|
    requires (w.threads[t] == AcqFail(wid) && next == ThenDone) || (w.threads[t] == FillFailed(wid) && next == ThenRefillFail)
    ensures Inv(Take(w, t, {Warming(wid)}, false, next))
  {
    hide Inv, RegOk, UnitsOk, FillOk, SlotsOk, PlaceOk, HoldersOk, StopOk, LeaseOk, Distinct, Take, MayTake, OwnLeases;
    InvParts(w);
    MayTakeOwnSlot(w, t, wid, next);
    TakeKeeps(w, t, {Warming(wid)}, false, next);
  }

  lemma MayTakeOwnSlot(w: World, t: nat, wid: nat, next: After)
    requires RegOk(w.reg) && t < |w.threads|
    requires (w.threads[t] == AcqFail(wid) && next == ThenDone) || (w.threads[t] == FillFailed(wid) && next == ThenRefillFail)
    ensures MayTake(w, t, {Warming(wid)}, next) && OwnLeases(w, t, {Warming(wid)}, next)
  {
    if Warming(wid) in w.reg.entries { assert EntryOk(w.reg, Warming(wid), w.reg.entries[Warming(wid)]); }
  }

  /** Taking a class of entries that holds no lease and no slot of an acquire. */
  lemma SweepKeeps(w: World, t: nat, ids: set<Id>, kick: bool, next: After)
    requires Inv(w) && t < |w.threads|
    requires SlotOf(w.threads[t]) == None && LiveLease(w.threads[t]) == None && Units(w.threads[t]) == 0
    requires FetchedBy(w.threads[t]) == None && Victims(w.threads[t]) == {} && !RunsFill(w.threads[t])
    requires next == ThenDone || next == ThenRetry || (next == ThenPoll && Stopping(w.threads[t]))
    requires forall id :: id in ids && id in w.reg.entries ==>
               w.reg.entries[id].status != Leased && (w.reg.entries[id].status == Starting ==> w.reg.entries[id].pooled)
    ensures Inv(Take(w, t, ids, kick, next))
  {
    hide Inv, RegOk, UnitsOk, FillOk, SlotsOk, PlaceOk, HoldersOk, StopOk, LeaseOk, Distinct, Take;
    InvParts(w);
    SlotsAreStarting(w.reg, ids);
    SweepMayTake(w, t, ids, next);
    hide MayTake;
    TakeKeeps(w, t, ids, kick, next);
  }

  lemma SweepMayTake(w: World, t: nat, ids: set<Id>, next: After)
    requires t < |w.threads| && StopOk(w)
    requires SlotOf(w.threads[t]) == None && LiveLease(w.threads[t]) == None && Units(w.threads[t]) == 0
    requires FetchedBy(w.threads[t]) == None && Victims(w.threads[t]) == {} && !RunsFill(w.threads[t])
    requires next == ThenDone || next == ThenRetry || (next == ThenPoll && Stopping(w.threads[t]))
    requires forall id :: id in ids && id in w.reg.entries ==>
               w.reg.entries[id].status != Leased && (w.reg.entries[id].status == Starting ==> w.reg.entries[id].pooled)
    requires forall n: nat :: Warming(n) in ids && Warming(n) in w.reg.entries ==> w.reg.entries[Warming(n)].status == Starting
    ensures MayTake(w, t, ids, next) && OwnLeases(w, t, ids, next)
  {
    hide SlotOf, LiveLease, FetchedBy, Victims, Units;
  }

  lemma SlotsAreStarting(r: Reg, ids: set<Id>)
    requires RegOk(r)
    ensures forall n: nat :: Warming(n) in ids && Warming(n) in r.entries ==> r.entries[Warming(n)].status == Starting
  {
    forall n: nat | Warming(n) in ids && Warming(n) in r.entries ensures r.entries[Warming(n)].status == Starting {
      assert EntryOk(r, Warming(n), r.entries[Warming(n)]);
    }
  }

  lemma DroppableIsClear(r: Reg)
    requires RegOk(r)
    ensures forall id :: id in DroppableIds(r) ==>
              r.entries[id].status != Leased && (r.entries[id].status == Starting ==> r.entries[id].pooled)
    ensures DroppableIds(r) == StoppableIds(r)
  {
    forall id | id in r.entries ensures Stoppable(r.entries[id]) == Droppable(r.entries[id]) {
      assert EntryOk(r, id, r.entries[id]);
    }
  }

  lemma AcquireKeeps(w: World, t: nat, c: Choice)
    requires Inv(w) && Enabled(w, t, c) && IsRequest(w.threads[t]) && LiveLease(w.threads[t]) == None
    requires !w.threads[t].ReqRelease?
    ensures Inv(StepRequest(w, t, c))
  {
    hide Inv, Take, Scan, RetireLease, Register, Fetch, ReserveSlot, Distinct;
    UsedBound(w);
    match w.threads[t]
    case AcqScan => ScanKeeps(w, t, c.now, 0);
    case AcqRescan => ScanKeeps(w, t, c.now, 1);
    case AcqWait(retry) =>
      if c.ok { Walk(w, t, if retry then AcqReserve(true) else AcqRescan, w.used + 1); }
      else { Walk(w, t, Done, w.used); }
    case AcqReserve(retry) => ReserveKeeps(w, t, false, c.now, AcqStart(w.reg.warmingSeq + 1, retry));
    case AcqStart(wid, retry) =>
      if c.ok { FetchKeeps(w, t, c.conv, AcqActivate(wid, Sess(|w.convs|, c.conv, c.now), retry)); }
      else { Walk(w, t, AcqFail(wid), w.used); }
    case AcqFail(wid) => FailKeeps(w, t, wid, ThenDone);
    case AcqActivate(_, _, _) => ActivateLeaseKeeps(w, t, c);
    case ReqDrop => DropKeeps(w, t);
  }

  lemma DropKeeps(w: World, t: nat)
    requires Inv(w) && t < |w.threads| && w.threads[t].ReqDrop?
    ensures Inv(Take(w, t, DroppableIds(w.reg), false, ThenRetry))
  {
    hide Inv, Take, RegOk, DroppableIds, UnitsOk, FillOk, SlotsOk, PlaceOk, HoldersOk, StopOk, LeaseOk, Distinct;
    InvParts(w);
    DroppableIsClear(w.reg);
    SweepKeeps(w, t, DroppableIds(w.reg), false, ThenRetry);
  }

  lemma HoldingKeeps(w: World, t: nat, c: Choice)
    requires Inv(w) && Enabled(w, t, c)
    requires w.threads[t].ReqUpload? || w.threads[t].ReqSend? || w.threads[t].ReqRun? || w.threads[t].ReqRelease?
    ensures Inv(StepRequest(w, t, c))
  {
    hide Inv, RetireLease, Distinct;
    UsedBound(w);
    match w.threads[t]
    case ReqUpload(l, retry) =>
      if c.ok { Walk(w, t, ReqSend(l, retry), w.used); } else { RetireKeeps(w, t, l, ThenDone); }
    case ReqSend(l, retry) =>
      if c.ok { Walk(w, t, ReqRun(l), w.used); }
      else { RetireKeeps(w, t, l, if !retry && c.again then ThenDrop else ThenDone); }
    case ReqRun(l) => RetireKeeps(w, t, l, if c.ok then ThenDone else ThenRelease(l));
    case ReqRelease(l) => RetireKeeps(w, t, l, ThenDone);
  }
}
