/**
 The steps of the refill goroutine, and the tails shared by all threads, keep the invariant.
 */
module PoolRefill {
  import opened Ids
  import opened Registry
  import opened Wrappers
  import opened RegistryLaws
  import opened Pool
  import opened PoolInvariant
  import opened PoolSteps
  import opened PoolMoves
  import opened PoolRegister
  import opened PoolRetire
  import opened PoolRequests

  // ---------- A refill session that arrives too late ----------

  /** What discarding a late session changes: the slot goes, if it is still there, and the session is to be closed. */
  ghost predicate Discards(w: World, w': World, t: nat, wid: nat, s: Sess) {
    && OnlyThread(w, w', t)
    && w.threads[t] == FillActivate(wid, s) && s.sid < |w.place|
    && w'.reg == Without(w.reg, {Warming(wid)})
    && w'.reg.entries == w.reg.entries - {Warming(wid)}
    && w'.reg.warmingSeq == w.reg.warmingSeq
    && w'.reg.refillRunning == w.reg.refillRunning && w'.reg.cancelled == w.reg.cancelled
    && w'.threads[t] == Refund(|UnitIds(w.reg, {Warming(wid)})|, {s.sid}, false, ThenRefillTop)
    && w' == w.(reg := w'.reg, threads := w'.threads, place := w.place[s.sid := Retiring(t)])
  }

  lemma DiscardKeeps(w: World, w': World, t: nat, wid: nat, s: Sess)
    requires Inv(w) && Discards(w, w', t, wid, s)
    ensures Inv(w')
  {
    hide Inv, RegOk, UnitsOk, FillOk, SlotsOk, PlaceOk, HoldersOk, StopOk, LeaseOk, Distinct, Ordered, Without;
    InvParts(w);
    WithoutLaws(w.reg, {Warming(wid)});
    DiscardSums(w, w', t, wid, s);
    DiscardSlots(w, w', t, wid, s);
    DiscardPlaces(w, w', t, wid, s);
    DiscardHolders(w, w', t, wid, s);
    if Distinct(w.convs) { DiscardLeases(w, w', t, wid, s); }
    InvJoin(w');
  }

  lemma DiscardSums(w: World, w': World, t: nat, wid: nat, s: Sess)
    requires RegOk(w.reg) && UnitsOk(w) && FillOk(w) && StopOk(w) && Discards(w, w', t, wid, s)
    ensures UnitsOk(w') && FillOk(w') && StopOk(w')
  {
    hide RegOk, UnitsOk, FillOk, StopOk, Without, UnitIds;
    WithoutLaws(w.reg, {Warming(wid)});
    WithoutWarm(w.reg, {Warming(wid)});
    WarmWithin(w);
    StopStep(w, w', t);
    TakeCount(w.reg, {Warming(wid)});
    UnitsBound(w);
    UnitsStep(w, w', t);
    FillStep(w, w', t);
  }

  lemma DiscardSlots(w: World, w': World, t: nat, wid: nat, s: Sess)
    requires SlotsOk(w) && Discards(w, w', t, wid, s)
    ensures SlotsOk(w')
  {
    forall n: nat | Warming(n) in w'.reg.entries ensures SlotHeld(w', n) {
      assert SlotHeld(w, n);
    }
    assert SlotOf(w.threads[t]) == Some(wid);
  }

  lemma DiscardPlaces(w: World, w': World, t: nat, wid: nat, s: Sess)
    requires PlaceOk(w) && Discards(w, w', t, wid, s)
    ensures PlaceOk(w')
  {
    assert ThreadPlaced(w, t);
    forall id | id in w'.reg.entries ensures EntryPlaced(w', id) {
      assert EntryPlaced(w, id);
    }
    forall i: nat | i < |w'.place| ensures Located(w', i) {
      assert Located(w, i);
    }
    forall u: nat | u < |w'.threads| ensures ThreadPlaced(w', u) {
      assert ThreadPlaced(w, u);
    }
  }

  lemma DiscardHolders(w: World, w': World, t: nat, wid: nat, s: Sess)
    requires HoldersOk(w) && Discards(w, w', t, wid, s)
    ensures HoldersOk(w')
  {
    forall i: nat | i < |w'.place| ensures HolderOk(w', i) {
      assert HolderOk(w, i);
    }
  }

  lemma DiscardLeases(w: World, w': World, t: nat, wid: nat, s: Sess)
    requires PlaceOk(w) && LeaseOk(w) && Discards(w, w', t, wid, s) && Ordered(w'.reg)
    ensures LeaseOk(w')
  {
    assert ThreadPlaced(w, t);
    forall u: nat | u < |w'.threads| ensures LeaseHeld(w', u) {
      assert LeaseHeld(w, u);
    }
  }

  // ---------- The refill goroutine ----------

  lemma FillActivateKeeps(w: World, t: nat, c: Choice)
    requires Inv(w) && Enabled(w, t, c) && w.threads[t].FillActivate?
    ensures Inv(StepFill(w, t, c))
  {
    hide Inv, RegOk, UnitsOk, FillOk, SlotsOk, PlaceOk, HoldersOk, StopOk, LeaseOk, Distinct, Ordered;
    hide StepFill, ActivateIdle, Registers, Discards;
    InvParts(w);
    var FillActivate(wid, s) := w.threads[t];
    var w' := StepFill(w, t, c);
    if KeepsIdle(w.reg, wid) {
      var e := Entry(Idle, Some(s), c.now, true, true, wid);
      IdleRegisters(w, t, c, wid, s, e);
      ActivateOk(w.reg, wid, s, Idle, true, c.now);
      PooledSlot(w, t);
      ActivateIdleWarm(w.reg, wid, s, c.now);
      if Ordered(w.reg) && Conv(s.conv) !in w.reg.entries {
        ActivateOrdered(w.reg, wid, s, Idle, true, c.now);
      }
      RegisterKeeps(w, w', t, wid, s, e);
    } else {
      LateDiscards(w, t, c, wid, s);
      DiscardKeeps(w, w', t, wid, s);
    }
  }

  lemma IdleRegisters(w: World, t: nat, c: Choice, wid: nat, s: Sess, e: Entry)
    requires Enabled(w, t, c) && w.threads[t] == FillActivate(wid, s) && KeepsIdle(w.reg, wid)
    requires e == Entry(Idle, Some(s), c.now, true, true, wid)
    ensures Registers(w, StepFill(w, t, c), t, wid, s, e)
    ensures StepFill(w, t, c).reg == ActivateIdle(w.reg, wid, s, c.now) == Activate(w.reg, wid, s, Idle, true, c.now)
  {
  }

  lemma LateDiscards(w: World, t: nat, c: Choice, wid: nat, s: Sess)
    requires RegOk(w.reg) && Enabled(w, t, c) && w.threads[t] == FillActivate(wid, s) && !KeepsIdle(w.reg, wid)
    ensures Discards(w, StepFill(w, t, c), t, wid, s)
  {
    WithoutLaws(w.reg, {Warming(wid)});
  }

  lemma PooledSlot(w: World, t: nat)
    requires SlotsOk(w) && t < |w.threads| && w.threads[t].FillActivate?
    ensures Warming(w.threads[t].wid) in w.reg.entries ==> w.reg.entries[Warming(w.threads[t].wid)].pooled
  {
    assert SlotOf(w.threads[t]) == Some(w.threads[t].wid);
    if Warming(w.threads[t].wid) in w.reg.entries { assert SlotHeld(w, w.threads[t].wid); }
  }

  /** A thread running the refill code means that the running flag is set. */
  lemma FillingMeansRunning(w: World, t: nat)
    requires FillOk(w) && t < |w.threads| && RunsFill(w.threads[t])
    ensures w.reg.refillRunning
  {
    TotalUpdate(Fills, w.threads, t, Done);
  }

  lemma FlagKeeps(w: World, t: nat, c: Choice)
    requires Inv(w) && Enabled(w, t, c) && (w.threads[t].FillPass? || w.threads[t].FillEnd?)
    ensures Inv(StepFill(w, t, c))
  {
    hide Inv, RegOk, UnitsOk, FillOk, SlotsOk, PlaceOk, HoldersOk, StopOk, LeaseOk, Distinct, NeedsWarm;
    hide ReserveSlot, Register, Take, ActivateIdle, KeepsIdle, Fetch, UnitIds, Sids;
    InvParts(w);
    UnitsBound(w);
    FillingMeansRunning(w, t);
    if w.threads[t].FillEnd? {
      Move(w, t, Done, w.used, FinishFailure(w.reg));
    } else {
      Move(w, t, if PassContinues(w.limits, w.reg) then FillTop else Done, w.used, FinishPass(w.limits, w.reg));
    }
  }

  lemma FillKeeps(w: World, t: nat, c: Choice)
    requires Inv(w) && Enabled(w, t, c) && IsFill(w.threads[t])
    ensures Inv(StepFill(w, t, c))
  {
    hide Inv, StepFill;
    var pc := w.threads[t];
    if pc.FillPass? || pc.FillEnd? {
      FlagKeeps(w, t, c);
    } else if pc.FillActivate? {
      FillActivateKeeps(w, t, c);
    } else if SlotOf(pc).Some? {
      FillStartKeeps(w, t, c);
    } else {
      FillLoopKeeps(w, t, c);
    }
  }

  lemma FillLoopKeeps(w: World, t: nat, c: Choice)
    requires Inv(w) && Enabled(w, t, c)
    requires w.threads[t].FillTop? || w.threads[t].FillCheck? || w.threads[t].FillTry? || w.threads[t].FillReserve?
    ensures Inv(StepFill(w, t, c))
  {
    hide Inv, ReserveSlot, NeedsWarm, Register, Take, ActivateIdle, KeepsIdle, Fetch, UnitIds, Sids, FinishPass;
    var pc := w.threads[t];
    if pc.FillTop? || pc.FillCheck? {
      UsedBound(w);
      Walk(w, t, if pc.FillTop? then (if w.reg.cancelled then FillEnd else FillCheck)
                 else if w.reg.cancelled then FillPass else FillTry, w.used);
    } else {
      FillReserveKeeps(w, t, c);
    }
  }

  lemma FillReserveKeeps(w: World, t: nat, c: Choice)
    requires Inv(w) && Enabled(w, t, c) && (w.threads[t].FillTry? || w.threads[t].FillReserve?)
    ensures Inv(StepFill(w, t, c))
  {
    hide Inv, ReserveSlot, NeedsWarm, Register, Take, ActivateIdle, KeepsIdle, Fetch, UnitIds, Sids, FinishPass;
    UsedBound(w);
    if w.threads[t].FillTry? {
      if w.used < w.limits.maxSessions { Walk(w, t, FillReserve, w.used + 1); } else { Walk(w, t, FillPass, w.used); }
    } else if NeedsWarm(w.limits, w.reg) {
      ReserveKeeps(w, t, true, c.now, FillStart(w.reg.warmingSeq + 1));
    } else {
      Walk(w, t, FillPass, w.used - 1);
    }
  }

  lemma FillStartKeeps(w: World, t: nat, c: Choice)
    requires Inv(w) && Enabled(w, t, c) && (w.threads[t].FillStart? || w.threads[t].FillFailed?)
    ensures Inv(StepFill(w, t, c))
  {
    hide Inv, Take, Fetch;
    UsedBound(w);
    var wid := w.threads[t].wid;
    if w.threads[t].FillFailed? {
      FailKeeps(w, t, wid, ThenRefillFail);
    } else if c.ok {
      FetchKeeps(w, t, c.conv, FillActivate(wid, Sess(|w.convs|, c.conv, c.now)));
    } else {
      Walk(w, t, FillFailed(wid), w.used);
    }
  }

  // ---------- Tails, janitor and shutdown ----------

  lemma KickKeeps(w: World, t: nat, c: Choice)
    requires Inv(w) && Enabled(w, t, c) && w.threads[t].Kick?
    ensures Inv(StepTail(w, t, c))
  {
    hide Inv, NeedsWarm;
    UsedBound(w);
    RunningIfRequested(w);
    var next := w.threads[t].next;
    if Spawns(w.limits, w.reg) {
      var reg := MaybeRefill(w.limits, w.reg);
      Append(w, FillTop, reg);
      var w1 := w.(threads := w.threads + [FillTop], reg := reg);
      Move(w1, t, Resume(next), w.used, reg);
      assert w1.threads[t := Resume(next)] == w.threads[t := Resume(next)] + [FillTop];
    } else {
      Move(w, t, Resume(next), w.used, MaybeRefill(w.limits, w.reg));
    }
  }

  lemma ClosingKeeps(w: World, t: nat, c: Choice)
    requires Inv(w) && Enabled(w, t, c) && w.threads[t].Closing?
    ensures Inv(StepTail(w, t, c))
  {
    hide Inv;
    CloseKeeps(w, StepTail(w, t, c), t, w.threads[t].victims);
  }

  lemma ExpiredIsClear(r: Reg, now: int, ttl: int)
    ensures forall id :: id in ExpiredIds(r, now, ttl) ==> r.entries[id].status == Idle
  {
  }

  lemma StoppableIsClear(w: World)
    requires Inv(w)
    ensures forall id :: id in StoppableIds(w.reg) ==>
              w.reg.entries[id].status != Leased && (w.reg.entries[id].status == Starting ==> w.reg.entries[id].pooled)
  {
    hide Inv;
    hide UnitsOk, FillOk, SlotsOk, PlaceOk, HoldersOk, StopOk, LeaseOk;
    InvParts(w);
    DroppableIsClear(w.reg);
  }

  lemma TailKeeps(w: World, t: nat, c: Choice)
    requires Inv(w) && Enabled(w, t, c) && !IsRequest(w.threads[t]) && !IsFill(w.threads[t])
    ensures Inv(StepTail(w, t, c))
  {
    hide Inv, StepTail;
    var pc := w.threads[t];
    if pc.Closing? {
      ClosingKeeps(w, t, c);
    } else if pc.Kick? {
      KickKeeps(w, t, c);
    } else if pc.EvictTake? || pc.ShutTake? {
      TakingKeeps(w, t, c);
    } else {
      WaitingKeeps(w, t, c);
    }
  }

  lemma TakingKeeps(w: World, t: nat, c: Choice)
    requires Inv(w) && Enabled(w, t, c) && (w.threads[t].EvictTake? || w.threads[t].ShutTake?)
    ensures Inv(StepTail(w, t, c))
  {
    hide Inv, Take, ExpiredIds, StoppableIds;
    UsedBound(w);
    var pc := w.threads[t];
    if pc.ShutTake? {
      StoppableIsClear(w);
      SweepKeeps(w, t, StoppableIds(w.reg), false, ThenPoll);
    } else if pc.ttl <= 0 {
      Walk(w, t, Done, w.used);
    } else {
      var ids := ExpiredIds(w.reg, pc.now, pc.ttl);
      ExpiredIsClear(w.reg, pc.now, pc.ttl);
      SweepKeeps(w, t, ids, |UnitIds(w.reg, ids)| > 0, ThenDone);
    }
  }

  lemma WaitingKeeps(w: World, t: nat, c: Choice)
    requires Inv(w) && Enabled(w, t, c)
    requires w.threads[t].Refund? || w.threads[t].ShutCancel? || w.threads[t].ShutPoll?
    ensures Inv(StepTail(w, t, c))
  {
    hide Inv, Take, MaybeRefill, Spawns, ExpiredIds, StoppableIds, UnitIds;
    var pc := w.threads[t];
    if pc.Refund? {
      UsedBound(w);
      Walk(w, t, Closing(pc.victims, pc.kick, pc.next), w.used - pc.units);
    } else if pc.ShutCancel? {
      CancelKeeps(w, t);
    } else if c.ok || !c.again {
      PollKeeps(w, t, c.ok);
    }
  }

  lemma PollKeeps(w: World, t: nat, ok: bool)
    requires Inv(w) && t < |w.threads| && w.threads[t].ShutPoll?
    ensures Inv(Goto(w, t, ShutReturned(ok)))
  {
    hide Inv;
    UsedBound(w);
    Walk(w, t, ShutReturned(ok), w.used);
  }

  lemma CancelKeeps(w: World, t: nat)
    requires Inv(w) && t < |w.threads| && w.threads[t].ShutCancel?
    ensures Inv(Goto(w, t, ShutTake).(reg := w.reg.(cancelled := true)))
  {
    hide Inv;
    UsedBound(w);
    RunningIfRequested(w);
    Move(w, t, ShutTake, w.used, w.reg.(cancelled := true));
  }
}
