/**
 Progress without deadlines: which threads can be held up, by what, and why nothing is
 held up after a shutdown.
 */
module PoolProgress {
  import opened Ids
  import opened Registry
  import opened Wrappers
  import opened RegistryLaws
  import opened Pool
  import opened PoolInvariant
  import opened PoolTheorems
  import opened PoolLifecycle
  import opened PoolShutdown
  import opened PoolReuse

  /** The only program points that wait: for a unit, and for the registry to empty. */
  predicate Waits(pc: PC) { pc.AcqWait? || pc.ShutPoll? }

  /** A step that is no giving up at a deadline, and no idle poll. */
  predicate Productive(w: World, t: nat, c: Choice) { Enabled(w, t, c) && (Waits(w.threads[t]) ==> c.ok) }

  /** Nobody can go on without giving up. */
  ghost predicate Stalled(w: World) { forall t: nat, c: Choice :: !Productive(w, t, c) }

  predicate HeldUp(w: World, pc: PC) {
    || Finished(pc)
    || (pc.AcqWait? && w.used == w.limits.maxSessions)
    || (pc.ShutPoll? && w.reg.entries != map[])
  }

  /** A thread is held up only where it waits, for units that are all in use or entries that are left. */
  lemma HeldUpExactly(w: World, t: nat)
    requires Inv(w) && t < |w.threads|
    ensures HeldUp(w, w.threads[t]) <==> forall c: Choice :: !Productive(w, t, c)
  {
    hide Inv;
    PlacedThread(w, t);
    UsedWithin(w);
    var c := Choice(!Finished(w.threads[t]), false, 0, "");
    if !HeldUp(w, w.threads[t]) { assert Productive(w, t, c); }
  }

  lemma UsedWithin(w: World)
    requires Inv(w)
    ensures w.used <= w.limits.maxSessions
  {
  }

  /**
   When everything has stalled, only idle sessions are registered, and every unit in use is
   theirs or lost: an acquire that waits then waits for sessions that nobody uses.
   */
  lemma StalledIsIdle(w: World)
    requires Inv(w) && Stalled(w)
    ensures forall t: nat :: t < |w.threads| ==> HeldUp(w, w.threads[t])
    ensures forall id :: id in w.reg.entries ==> w.reg.entries[id].status == Idle && w.reg.entries[id].pooled
    ensures w.used == |w.reg.entries| + w.lost
    ensures Drained(w.reg) ==> w.reg.entries == map[] && w.used == w.lost
  {
    hide Inv, RegOk, UnitsOk, FillOk, SlotsOk, PlaceOk, HoldersOk, StopOk, LeaseOk, Productive, HeldUp;
    forall t: nat | t < |w.threads| ensures HeldUp(w, w.threads[t]) {
      HeldUpExactly(w, t);
    }
    InvParts(w);
    HeldUpHasNothing(w);
    assert forall t: nat :: t < |w.threads| ==> HasNothing(w.threads[t]);
    NoUnits(w.threads);
    UnitsParts(w);
    forall id | id in w.reg.entries ensures w.reg.entries[id].status == Idle && w.reg.entries[id].pooled {
      EntryIsIdle(w, id);
    }
  }

  /** Neither a unit, nor a slot, nor a lease. */
  predicate HasNothing(pc: PC) { Units(pc) == 0 && SlotOf(pc) == None && LiveLease(pc) == None }

  lemma HeldUpHasNothing(w: World)
    requires forall t: nat :: t < |w.threads| ==> HeldUp(w, w.threads[t])
    ensures forall t: nat :: t < |w.threads| ==> HasNothing(w.threads[t])
  {
    forall t: nat | t < |w.threads| ensures HasNothing(w.threads[t]) {
      assert HeldUp(w, w.threads[t]);
    }
  }

  lemma UnitsParts(w: World)
    requires UnitsOk(w)
    ensures w.used == |w.reg.entries| + Total(Units, w.threads) + w.lost
  {
  }

  lemma EntryIsIdle(w: World, id: Id)
    requires RegOk(w.reg) && SlotsOk(w) && PlaceOk(w) && HoldersOk(w) && id in w.reg.entries
    requires forall t: nat :: t < |w.threads| ==> HasNothing(w.threads[t])
    ensures w.reg.entries[id].status == Idle && w.reg.entries[id].pooled
  {
    assert EntryOk(w.reg, id, w.reg.entries[id]);
    if id.Warming? {
      SlotHasOwner(w, id.seqNo);
      assert false;
    } else if w.reg.entries[id].status == Leased {
      LeasedHasOwner(w, id);
      assert false;
    }
  }

  lemma SlotHasOwner(w: World, n: nat)
    requires SlotsOk(w) && Warming(n) in w.reg.entries
    ensures exists t: nat :: t < |w.threads| && !HasNothing(w.threads[t])
  {
    assert SlotHeld(w, n);
    assert !HasNothing(w.threads[w.slots[n - 1]]);
  }

  lemma LeasedHasOwner(w: World, id: Id)
    requires PlaceOk(w) && HoldersOk(w) && id in w.reg.entries && w.reg.entries[id].status == Leased
    requires w.reg.entries[id].session.Some?
    ensures exists t: nat :: t < |w.threads| && !HasNothing(w.threads[t])
  {
    assert EntryPlaced(w, id);
    var s := w.reg.entries[id].session.value.sid;
    assert HolderOk(w, s);
    assert !HasNothing(w.threads[w.place[s].holder.value]);
  }

  // ---------- After a shutdown nothing is held up ----------

  lemma {:induction false} LimitsStay(run: seq<World>, i: nat)
    requires Run(run) && i < |run|
    ensures 1 <= run[i].limits.maxSessions
    decreases i
  {
    hide Next, Enabled, Clamp;
    if i > 0 {
      LimitsStay(run, i - 1);
      RunStep(run, i - 1);
      if ThreadStep(run[i - 1], run[i]) {
        var t: nat, c: Choice :| Enabled(run[i - 1], t, c) && run[i] == Next(run[i - 1], t, c);
        StepKeepsLimits(run[i - 1], t, c);
      }
    }
  }

  lemma StepKeepsLimits(w: World, t: nat, c: Choice)
    requires Enabled(w, t, c)
    ensures Next(w, t, c).limits == w.limits
  {
    hide Without, Reserve, Activate, TryActivateIdle, FirstLeasable, NeedsWarm, DroppableIds, ExpiredIds, StoppableIds;
    hide UnitIds, Sids, Retire;
    if IsFill(w.threads[t]) {
      hide StepRequest, StepTail, Scan, RetireLease;
    } else if !IsRequest(w.threads[t]) {
      hide StepRequest, StepFill, Scan, RetireLease, Register, Fetch, ReserveSlot;
    } else {
      hide StepTail, StepFill;
    }
  }

  /**
   Past the taking of its victims a shutdown is never held up, and neither is anybody else,
   deadlines or not: with distinct IDs everything that has stalled has finished, shutdown
   included, and has left nothing behind.
   */
  lemma StalledHasFinished(run: seq<World>, i: nat, u: nat)
    requires Run(run) && i < |run| && u < |run[i].threads| && PastTake(run[i].threads[u])
    requires Stalled(run[i]) && Distinct(run[i].convs)
    ensures AtRest(run[i]) && run[i].threads[u].ShutReturned?
    ensures run[i].reg.entries == map[] && run[i].used == 0
    ensures forall s: nat :: s < |run[i].place| ==> run[i].place[s] == ClosedByManager
  {
    hide Inv, Run, Productive, Distinct;
    var w := run[i];
    RunKeeps(run, i);
    DrainedOnceTaken(run, i, u);
    StalledIsIdle(w);
    Conservation(run, i);
    LimitsStay(run, i);
    forall t: nat | t < |w.threads| ensures Finished(w.threads[t]) {
      assert HeldUp(w, w.threads[t]);
    }
    assert Finished(w.threads[u]);
    ShutdownLeavesNothing(run, i, u);
  }

  /** A run of steps none of which gives up or polls in vain. */
  ghost predicate Advancing(run: seq<World>) {
    forall i :: 0 <= i < |run| - 1 ==> Advances(run[i], run[i + 1])
  }

  ghost predicate Advances(w: World, w': World) {
    exists t: nat, c: Choice :: Productive(w, t, c) && w' == Next(w, t, c)
  }

  /**
   So shutdown completes: once the refill is cancelled, and if no request arrives, the threads
   can only go on for a bounded number of steps, and when they can go no further without
   somebody giving up they have all finished and nothing is left.
   */
  lemma ShutdownCompletes(run: seq<World>, k: nat, u: nat)
    requires Run(run) && k < |run| && run[k].reg.cancelled && Advancing(run[k..])
    ensures |run| - 1 - k <= Rank(run[k])
    ensures var w := run[|run| - 1];
      Stalled(w) && Distinct(w.convs) && u < |w.threads| && PastTake(w.threads[u]) ==>
        && AtRest(w) && w.threads[u].ShutReturned? && w.reg.entries == map[] && w.used == 0
        && forall s: nat :: s < |w.place| ==> w.place[s] == ClosedByManager
  {
    hide Inv, Run, Stalled, Distinct, Productive, Next;
    RunKeeps(run, k);
    var tail := run[k..];
    forall i | 0 <= i < |tail| - 1 ensures WindStep(tail[i], tail[i + 1]) {
      assert Advances(tail[i], tail[i + 1]);
      ProductiveWinds(tail[i], tail[i + 1]);
    }
    ComesToRest(tail);
    var w := run[|run| - 1];
    if Stalled(w) && Distinct(w.convs) && u < |w.threads| && PastTake(w.threads[u]) {
      StalledHasFinished(run, |run| - 1, u);
    }
  }

  lemma ProductiveWinds(w: World, w': World)
    requires Advances(w, w')
    ensures WindStep(w, w')
  {
    hide Next;
    var t: nat, c: Choice :| Productive(w, t, c) && w' == Next(w, t, c);
    assert !Polls(w, t, c);
  }

  // ---------- Without a shutdown an acquire can be held up ----------

  const SLOT: Entry := Entry(Starting, None, 0, true, true, 1)
  const IDLE: Entry := Entry(Idle, Some(Sess(0, "c", 0)), 0, true, true, 1)

  function Three(a: PC, b: PC): seq<PC> { [Done, a, b] }

  ghost function OneWarm(r: Reg, used: int, fill: PC, req: PC, p: seq<Place>): World {
    World(Limits(1, 1), r, used, Three(fill, req), if p == [] then [] else ["c"], p, if r.warmingSeq == 0 then [] else [1], 0)
  }

  const R0: Reg := EMPTY.(refillRunning := true)
  const R1: Reg := Reg(map[Warming(1) := SLOT], [Warming(1)], 1, true, false, false)
  const R2: Reg := Reg(map[Conv("c") := IDLE], [Conv("c")], 1, true, false, false)

  /** The constructor starts the refill of a pool of one warm session, and a request arrives. */
  lemma RequestArrives() returns (run: seq<World>)
    ensures Run(run) && run[|run| - 1] == OneWarm(R0, 0, FillTop, AcqScan, [])
  {
    run := [Init(Clamp(1, 1))];
    assert Run(run);
    hide Run;
    assert WarmIds(EMPTY) == {};
    run := Extend(run, 0, OK);
    assert run[|run| - 1] == World(Limits(1, 1), R0, 0, [Done, FillTop], [], [], [], 0);
    run := Arrive(run);
  }

  lemma Arrive(run: seq<World>) returns (run': seq<World>)
    requires Run(run)
    ensures Run(run') && |run'| == |run| + 1 && run'[|run|] == Spawn(run[|run| - 1], AcqScan)
  {
    hide Init, Next, Enabled;
    run' := run + [Spawn(run[|run| - 1], AcqScan)];
    assert run'[0] == run[0];
    forall i | 0 <= i < |run'| - 1 ensures Step(run'[i], run'[i + 1]) {
      if i < |run| - 1 { assert Step(run[i], run[i + 1]); }
    }
  }

  /** Steps of the refill that leave the registry alone, up to its reservation or its last pass. */
  lemma FillGoesRound(run: seq<World>, r: Reg, used: int, req: PC, p: seq<Place>) returns (run': seq<World>)
    requires Run(run) && run[|run| - 1] == OneWarm(r, used, FillTop, req, p) && !r.cancelled
    ensures Run(run')
    ensures run'[|run'| - 1] == if used < 1 then OneWarm(r, used + 1, FillReserve, req, p) else OneWarm(r, used, FillPass, req, p)
  {
    hide Run, Next, Enabled;
    GoesRound(r, used, req, p);
    run' := Extend(run, 1, OK);
    run' := Extend(run', 1, OK);
    run' := Extend(run', 1, OK);
  }

  lemma GoesRound(r: Reg, used: int, req: PC, p: seq<Place>)
    requires !r.cancelled
    ensures var w, w1, w2 :=
        OneWarm(r, used, FillTop, req, p), OneWarm(r, used, FillCheck, req, p), OneWarm(r, used, FillTry, req, p);
      && Enabled(w, 1, OK) && Next(w, 1, OK) == w1
      && Enabled(w1, 1, OK) && Next(w1, 1, OK) == w2
      && Enabled(w2, 1, OK)
      && Next(w2, 1, OK) == if used < 1 then OneWarm(r, used + 1, FillReserve, req, p) else OneWarm(r, used, FillPass, req, p)
  {
    hide StepRequest, StepTail, NeedsWarm;
  }

  /** The request finds nothing idle and waits while the refill takes the only unit. */
  lemma RequestWaits() returns (run: seq<World>)
    ensures Run(run) && run[|run| - 1] == OneWarm(R0, 1, FillReserve, AcqWait(false), [])
  {
    hide Run, StepFill, StepTail;
    run := RequestArrives();
    run := Extend(run, 2, OK);
    assert run[|run| - 1] == OneWarm(R0, 0, FillTop, AcqWait(false), []);
    run := FillGoesRound(run, R0, 0, AcqWait(false), []);
  }

  /** The refill starts a session in its slot. */
  lemma SessionStarts() returns (run: seq<World>)
    ensures Run(run)
    ensures run[|run| - 1] == OneWarm(R1, 1, FillActivate(1, Sess(0, "c", 0)), AcqWait(false), [Fetched(1)])
  {
    hide Run, Next, Enabled;
    run := RequestWaits();
    SlotIsReserved();
    run := Extend(run, 1, OK);
    SessionIsFetched();
    run := Extend(run, 1, OK);
  }

  lemma SlotIsReserved()
    ensures var w := OneWarm(R0, 1, FillReserve, AcqWait(false), []);
      Enabled(w, 1, OK) && Next(w, 1, OK) == OneWarm(R1, 1, FillStart(1), AcqWait(false), [])
  {
    hide StepRequest, StepTail;
    assert WarmIds(R0) == {};
  }

  lemma SessionIsFetched()
    ensures var w := OneWarm(R1, 1, FillStart(1), AcqWait(false), []);
      && Enabled(w, 1, OK)
      && Next(w, 1, OK) == OneWarm(R1, 1, FillActivate(1, Sess(0, "c", 0)), AcqWait(false), [Fetched(1)])
  {
    hide StepRequest, StepTail;
  }

  /** The session is pooled, and the refill ends. */
  lemma RefillEnds() returns (run: seq<World>)
    ensures Run(run)
    ensures run[|run| - 1] == OneWarm(R2.(refillRunning := false), 1, Done, AcqWait(false), [Registered("c", None)])
  {
    hide Run, StepRequest, StepTail;
    var p := [Registered("c", None)];
    run := SessionStarts();
    run := Extend(run, 1, OK);
    assert run[|run| - 1] == OneWarm(R2, 1, FillTop, AcqWait(false), p);
    run := FillGoesRound(run, R2, 1, AcqWait(false), p);
    run := Extend(run, 1, OK);
  }

  /** An acquire can wait while the pool it waits for is idle and nobody else does anything. */
  lemma WaiterIsHeldUp() returns (run: seq<World>)
    ensures Run(run)
    ensures var w := run[|run| - 1];
      Stalled(w) && AcqWait(false) in w.threads && Conv("c") in w.reg.entries && w.reg.entries[Conv("c")].status == Idle
  {
    run := RefillEnds();
    assert |run| > 0;
    assert run[|run| - 1].threads[2] == AcqWait(false);
  }
}
