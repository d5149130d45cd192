/**
 Shutting down: no pooled session survives it or appears after it, every thread comes
 to rest, and at rest nothing is registered, no unit is in use and every session is closed.
 */
module PoolShutdown {
  import opened Ids
  import opened Registry
  import opened Wrappers
  import opened RegistryLaws
  import opened Pool
  import opened PoolInvariant
  import opened PoolSteps
  import opened PoolMoves
  import opened PoolTheorems
  import opened PoolLifecycle

  // ---------- No pooled session after shutdown ----------

  /** The refill is cancelled and nothing in the registry belongs to the warm pool. */
  ghost predicate Drained(r: Reg) {
    r.cancelled && forall id :: id in r.entries ==> !r.entries[id].pooled
  }

  lemma DrainedStays(w: World, t: nat, c: Choice)
    requires Enabled(w, t, c) && Drained(w.reg)
    ensures Drained(Next(w, t, c).reg)
  {
    hide Next;
    var pc := w.threads[t];
    if pc.AcqScan? || pc.AcqRescan? { DrainedOnScan(w, t, c); }
    else if IsRequest(pc) { DrainedOnRequest(w, t, c); }
    else if IsFill(pc) { DrainedOnFill(w, t, c); }
    else { DrainedOnTail(w, t, c); }
  }

  lemma DrainedOnRequest(w: World, t: nat, c: Choice)
    requires Enabled(w, t, c) && IsRequest(w.threads[t]) && !w.threads[t].AcqScan? && !w.threads[t].AcqRescan?
    requires Drained(w.reg)
    ensures Drained(Next(w, t, c).reg)
  {
    hide Replace, Compact, DroppableIds, ExpiredIds, StoppableIds, UnitIds, Sids, Retire;
    hide StepTail, StepFill, Scan, MaybeRefill;
  }

  lemma DrainedOnScan(w: World, t: nat, c: Choice)
    requires Enabled(w, t, c) && (w.threads[t].AcqScan? || w.threads[t].AcqRescan?)
    requires Drained(w.reg)
    ensures Drained(Next(w, t, c).reg)
  {
    hide Replace, Compact, DroppableIds, ExpiredIds, StoppableIds, UnitIds, Sids, Retire;
    hide StepTail, StepFill, Take, Register, Fetch, ReserveSlot, RetireLease, MaybeRefill;
    FirstLeasableLaws(w.reg.byAge, w.reg.entries);
  }

  lemma DrainedOnFill(w: World, t: nat, c: Choice)
    requires Enabled(w, t, c) && IsFill(w.threads[t])
    requires Drained(w.reg)
    ensures Drained(Next(w, t, c).reg)
  {
    hide Replace, Compact, DroppableIds, ExpiredIds, StoppableIds, UnitIds, Sids, Retire;
    hide StepRequest, StepTail, Scan, RetireLease, MaybeRefill;
  }

  lemma DrainedOnTail(w: World, t: nat, c: Choice)
    requires Enabled(w, t, c) && !IsRequest(w.threads[t]) && !IsFill(w.threads[t])
    requires Drained(w.reg)
    ensures Drained(Next(w, t, c).reg)
  {
    hide Replace, Compact, DroppableIds, ExpiredIds, StoppableIds, UnitIds, Sids, Retire;
    hide StepRequest, StepFill, Scan, RetireLease, Register, Fetch, ReserveSlot;
  }

  /** `takeShutdownVictims` leaves nothing pooled: only leased entries and the slots of acquires stay. */
  lemma TakeDrains(w: World, t: nat, c: Choice)
    requires Inv(w) && Enabled(w, t, c) && w.threads[t].ShutTake?
    ensures Drained(Next(w, t, c).reg)
  {
    hide Inv, RegOk, UnitsOk, FillOk, SlotsOk, PlaceOk, HoldersOk, StopOk, LeaseOk, StoppableIds, Without, UnitIds;
    hide Sids, Retire;
    InvParts(w);
    StopMeansCancelled(w, t);
    SweepDrains(w.reg);
  }

  lemma StopMeansCancelled(w: World, t: nat)
    requires StopOk(w) && t < |w.threads| && Stopping(w.threads[t])
    ensures w.reg.cancelled
  {
  }

  lemma SweepDrains(r: Reg)
    requires RegOk(r) && r.cancelled
    ensures Drained(Without(r, StoppableIds(r)))
  {
    WithoutLaws(r, StoppableIds(r));
    forall id | id in r.entries - StoppableIds(r) ensures !r.entries[id].pooled {
      assert EntryOk(r, id, r.entries[id]);
    }
  }

  /** Past `takeShutdownVictims`. */
  predicate PastTake(pc: PC) { pc.ShutPoll? || pc.ShutReturned? || TailOf(pc) == Some(ThenPoll) }

  /** A step moves one thread and starts at most a refill goroutine. */
  lemma ThreadFrame(w: World, t: nat, c: Choice, w': World)
    requires Enabled(w, t, c) && w' == Next(w, t, c)
    ensures |w.threads| <= |w'.threads|
    ensures forall u: nat :: u < |w'.threads| && u != t ==>
              w'.threads[u] == if u < |w.threads| then w.threads[u] else FillTop
  {
    hide Without, Reserve, Activate, TryActivateIdle, FirstLeasable, NeedsWarm, DroppableIds, ExpiredIds, StoppableIds;
    hide UnitIds, Sids, Retire;
    if IsFill(w.threads[t]) {
      hide StepRequest, StepTail, Scan, RetireLease;
    } else if !IsRequest(w.threads[t]) {
      hide StepRequest, StepFill, Scan, RetireLease, Register, Fetch, ReserveSlot;
    } else {
      hide StepTail, StepFill;
    }
  }

  lemma PastTakeStep(w: World, t: nat, c: Choice, w': World)
    requires Enabled(w, t, c) && w' == Next(w, t, c) && |w.threads| <= |w'.threads|
    ensures PastTake(w'.threads[t]) ==> PastTake(w.threads[t]) || w.threads[t].ShutTake?
  {
    hide Without, Reserve, Activate, TryActivateIdle, FirstLeasable, NeedsWarm, DroppableIds, ExpiredIds, StoppableIds;
    hide UnitIds, Sids, Retire;
    if IsFill(w.threads[t]) {
      hide StepRequest, StepTail, Scan, RetireLease;
    } else if !IsRequest(w.threads[t]) {
      hide StepRequest, StepFill, Scan, RetireLease, Register, Fetch, ReserveSlot;
    } else {
      hide StepTail, StepFill;
    }
  }

  /** Whenever some call of shutdown is past taking its victims, the pool is drained, and stays so. */
  lemma {:induction false} DrainedOnceTaken(run: seq<World>, i: nat, u: nat)
    requires Run(run) && i < |run| && u < |run[i].threads| && PastTake(run[i].threads[u])
    ensures Drained(run[i].reg)
    decreases i
  {
    hide Inv, Step, Next, Enabled, Drained, PastTake;
    if i == 0 {
      InitNotPast(run[0], u);
    } else {
      var w, w' := run[i - 1], run[i];
      RunStep(run, i - 1);
      if ThreadStep(w, w') {
        var t: nat, c: Choice :| Enabled(w, t, c) && w' == Next(w, t, c);
        PastTakeBack(w, t, c, w', u);
        if PastTake(w.threads[u]) {
          DrainedOnceTaken(run, i - 1, u);
          DrainedStays(w, t, c);
        } else {
          RunKeeps(run, i - 1);
          TakeDrains(w, t, c);
        }
      } else {
        SpawnNotPast(w, w', u);
        DrainedOnceTaken(run, i - 1, u);
      }
    }
  }

  lemma InitNotPast(w: World, u: nat)
    requires exists m: int, n: int :: w == Init(Clamp(m, n))
    ensures u < |w.threads| ==> !PastTake(w.threads[u])
  {
  }

  lemma SpawnNotPast(w: World, w': World, u: nat)
    requires (exists pc: PC :: Spawnable(pc) && w' == Spawn(w, pc)) && u < |w'.threads| && PastTake(w'.threads[u])
    ensures u < |w.threads| && PastTake(w.threads[u]) && w'.reg == w.reg
  {
  }

  lemma PastTakeBack(w: World, t: nat, c: Choice, w': World, u: nat)
    requires Enabled(w, t, c) && w' == Next(w, t, c) && u < |w'.threads| && PastTake(w'.threads[u])
    ensures t < |w.threads| && u < |w.threads| && (PastTake(w.threads[u]) || (u == t && w.threads[t].ShutTake?))
  {
    hide Next;
    ThreadFrame(w, t, c, w');
    PastTakeStep(w, t, c, w');
  }

  /**
   `shutdown` returns nil only at a moment when nothing is registered, every unit in use is
   on its way back, no session is registered, and, with distinct IDs, nobody holds a live lease.
   */
  lemma NilMeansEmpty(run: seq<World>, i: nat, t: nat)
    requires Run(run) && i + 1 < |run| && t < |run[i].threads| && t < |run[i + 1].threads|
    requires run[i].threads[t] == ShutPoll && run[i + 1].threads[t] == ShutReturned(true)
    ensures var w := run[i + 1];
      && w.reg.entries == map[] && Drained(w.reg)
      && w.used == Total(Units, w.threads) + w.lost
      && (forall s: nat :: s < |w.place| ==> !w.place[s].Registered?)
      && (Distinct(w.convs) ==> forall u: nat :: u < |w.threads| ==> LiveLease(w.threads[u]) == None)
  {
    hide Inv, Run, RegOk, UnitsOk, FillOk, SlotsOk, PlaceOk, HoldersOk, StopOk, LeaseOk, Distinct;
    NilPoll(run, i, t);
    var w := run[i + 1];
    DrainedOnceTaken(run, i + 1, t);
    RunKeeps(run, i + 1);
    InvParts(w);
    Conservation(run, i + 1);
    forall s: nat | s < |w.place| ensures !w.place[s].Registered? {
      RegisteredHasEntry(w, s);
    }
    if Distinct(w.convs) {
      forall u: nat | u < |w.threads| ensures LiveLease(w.threads[u]) == None {
        if LiveLease(w.threads[u]).Some? { LeasedIsOpen(run, i + 1, u); }
      }
    }
  }

  lemma NilPoll(run: seq<World>, i: nat, t: nat)
    requires Run(run) && i + 1 < |run| && t < |run[i].threads| && t < |run[i + 1].threads|
    requires run[i].threads[t] == ShutPoll && run[i + 1].threads[t] == ShutReturned(true)
    ensures run[i + 1].reg.entries == map[]
  {
    hide Inv, Run, Step, StepRequest, StepFill;
    RunStep(run, i);
    var w, w' := run[i], run[i + 1];
    if ThreadStep(w, w') {
      var u: nat, c: Choice :| Enabled(w, u, c) && w' == Next(w, u, c);
      ThreadFrame(w, u, c, w');
      assert u == t;
    } else {
      SpawnFrame(w, w', t);
    }
  }

  lemma SpawnFrame(w: World, w': World, t: nat)
    requires !ThreadStep(w, w') && Step(w, w') && t < |w.threads|
    ensures t < |w'.threads| && w'.threads[t] == w.threads[t]
  {
  }

  // ---------- Everything comes to rest ----------

  function AfterRank(next: After): nat {
    match next
    case ThenDone => 0
    case ThenUpload(_) => 23
    case ThenRelease(_) => 4
    case ThenDrop => 18
    case ThenRetry => 14
    case ThenPoll => 1
    case ThenRefillTop => 2
    case ThenRefillFail => 1
  }

  /** A bound on the steps a thread still has to take once the refill is cancelled, not counting idle polls. */
  function PcRank(pc: PC): nat {
    match pc
    case Done => 0
    case AcqScan => 30
    case AcqWait(retry) => if retry then 14 else 29
    case AcqRescan => 28
    case AcqReserve(retry) => if retry then 13 else 27
    case AcqStart(_, retry) => if retry then 12 else 26
    case AcqFail(_) => 4
    case AcqActivate(_, _, retry) => if retry then 11 else 25
    case ReqUpload(_, retry) => if retry then 10 else 23
    case ReqSend(_, retry) => if retry then 9 else 22
    case ReqRun(_) => 8
    case ReqRelease(_) => 4
    case ReqDrop => 18
    case Refund(_, _, _, next) => 3 + AfterRank(next)
    case Closing(_, _, next) => 2 + AfterRank(next)
    case Kick(next) => 1 + AfterRank(next)
    case EvictTake(_, _) => 4
    case ShutCancel => 6
    case ShutTake => 5
    case ShutPoll => 1
    case ShutReturned(_) => 0
    case FillTop => 2
    case FillCheck => 2
    case FillTry => 3
    case FillReserve => 2
    case FillPass => 1
    case FillStart(_) => 7
    case FillFailed(_) => 5
    case FillActivate(_, _) => 6
    case FillEnd => 1
  }

  function Rank(w: World): nat { Total(PcRank, w.threads) }

  /** The polling loop of `shutdown` going round once more. */
  predicate Polls(w: World, t: nat, c: Choice) {
    t < |w.threads| && w.threads[t] == ShutPoll && !c.ok && c.again
  }

  /** After the cancellation every step but an idle poll brings its thread closer to its end. */
  ghost predicate Falls(w: World, t: nat, w': World) {
    && OnlyThread(w, w', t)
    && PcRank(w'.threads[t]) < PcRank(w.threads[t])
    && w'.reg.cancelled
  }

  lemma StepFalls(w: World, t: nat, c: Choice)
    requires Inv(w) && Enabled(w, t, c) && w.reg.cancelled && !Polls(w, t, c)
    ensures Falls(w, t, Next(w, t, c))
  {
    hide Inv, RegOk, UnitsOk, FillOk, SlotsOk, PlaceOk, HoldersOk, StopOk, LeaseOk, Falls, Next;
    InvParts(w);
    if w.threads[t].AcqScan? || w.threads[t].AcqRescan? {
      ScanFalls(w, t, c);
    } else if IsRequest(w.threads[t]) {
      RequestFalls(w, t, c);
    } else if IsFill(w.threads[t]) {
      FillFalls(w, t, c);
    } else {
      TailFalls(w, t, c);
    }
  }

  lemma ScanFalls(w: World, t: nat, c: Choice)
    requires RegOk(w.reg) && PlaceOk(w) && Enabled(w, t, c) && w.reg.cancelled
    requires w.threads[t].AcqScan? || w.threads[t].AcqRescan?
    ensures Falls(w, t, Next(w, t, c))
  {
    hide RegOk, PlaceOk, StepFill, StepTail, Register, Fetch, ReserveSlot, RetireLease, Take;
    match FirstLeasable(w.reg.byAge, w.reg.entries)
    case None =>
    case Some(id) => var _ := FindsIdle(w, id);
  }

  lemma RequestFalls(w: World, t: nat, c: Choice)
    requires Enabled(w, t, c) && w.reg.cancelled && IsRequest(w.threads[t])
    requires !w.threads[t].AcqScan? && !w.threads[t].AcqRescan?
    ensures Falls(w, t, Next(w, t, c))
  {
    hide StepFill, StepTail, Scan, Compact, Replace, DroppableIds, UnitIds, Sids, Retire;
  }

  lemma FillFalls(w: World, t: nat, c: Choice)
    requires Enabled(w, t, c) && w.reg.cancelled && IsFill(w.threads[t])
    ensures Falls(w, t, Next(w, t, c))
  {
    hide StepRequest, StepTail, Compact, Replace, UnitIds, Sids, Retire;
  }

  lemma TailFalls(w: World, t: nat, c: Choice)
    requires Enabled(w, t, c) && w.reg.cancelled && !Polls(w, t, c)
    requires !IsRequest(w.threads[t]) && !IsFill(w.threads[t])
    ensures Falls(w, t, Next(w, t, c))
  {
    hide StepRequest, StepFill, Compact, ExpiredIds, StoppableIds, UnitIds, Sids, Retire;
  }

  /** A run of the existing threads in which shutdown does not go round its polling loop. */
  ghost predicate Winding(run: seq<World>) {
    forall i :: 0 <= i < |run| - 1 ==> WindStep(run[i], run[i + 1])
  }

  ghost predicate WindStep(w: World, w': World) {
    exists t: nat, c: Choice :: Enabled(w, t, c) && !Polls(w, t, c) && w' == Next(w, t, c)
  }

  /** Once the refill is cancelled and no request arrives, the threads take at most `Rank` more steps. */
  lemma {:induction false} ComesToRest(run: seq<World>)
    requires |run| > 0 && Inv(run[0]) && run[0].reg.cancelled && Winding(run)
    ensures |run| - 1 <= Rank(run[0])
  {
    hide Inv, Next, Enabled, Polls;
    if |run| > 1 {
      var w, w' := run[0], run[1];
      assert WindStep(run[0], run[0 + 1]);
      var t: nat, c: Choice :| Enabled(w, t, c) && !Polls(w, t, c) && w' == Next(w, t, c);
      StepFalls(w, t, c);
      TotalUpdate(PcRank, w.threads, t, w'.threads[t]);
      NextKeeps(w, t, c);
      var rest := run[1..];
      forall i | 0 <= i < |rest| - 1 ensures WindStep(rest[i], rest[i + 1]) {
        assert WindStep(run[i + 1], run[i + 1 + 1]);
      }
      ComesToRest(rest);
    }
  }

  predicate Finished(pc: PC) { pc.Done? || pc.ShutReturned? }

  // ---------- At rest ----------

  ghost predicate AtRest(w: World) { forall t: nat :: t < |w.threads| ==> Finished(w.threads[t]) }

  /**
   When every thread has finished, only idle sessions are registered, the semaphore holds
   exactly their units and those lost to repeated conversation IDs, and every session not
   registered is closed or was overwritten.
   */
  lemma RestIsClean(w: World)
    requires Inv(w) && AtRest(w)
    ensures forall id :: id in w.reg.entries ==> w.reg.entries[id].status == Idle
    ensures w.used == |w.reg.entries| + w.lost
    ensures forall s: nat :: s < |w.place| ==>
              w.place[s] == ClosedByManager || w.place[s] == Overwritten || (w.place[s].Registered? && w.place[s].holder == None)
    ensures Distinct(w.convs) ==> w.lost == 0 && forall s: nat :: s < |w.place| ==> w.place[s] != Overwritten
  {
    hide Inv, RegOk, UnitsOk, FillOk, SlotsOk, PlaceOk, HoldersOk, StopOk, LeaseOk, Distinct, AtRest;
    InvParts(w);
    RestHasNoUnits(w);
    RestHasNoSlots(w);
    RestPlaces(w);
    RestEntries(w);
    if Distinct(w.convs) { NothingOverwritten(w); }
  }

  lemma RestHasNoUnits(w: World)
    requires AtRest(w) && UnitsOk(w)
    ensures w.used == |w.reg.entries| + w.lost
  {
    NoUnits(w.threads);
  }

  lemma RestHasNoSlots(w: World)
    requires AtRest(w) && SlotsOk(w)
    ensures forall n: nat :: Warming(n) !in w.reg.entries
  {
    forall n: nat ensures Warming(n) !in w.reg.entries {
      if Warming(n) in w.reg.entries {
        assert false;
      }
    }
  }

  lemma RestPlaces(w: World)
    requires AtRest(w) && PlaceOk(w) && HoldersOk(w)
    ensures forall s: nat :: s < |w.place| ==>
              w.place[s] == ClosedByManager || w.place[s] == Overwritten || (w.place[s].Registered? && w.place[s].holder == None)
  {
    forall s: nat | s < |w.place|
      ensures w.place[s] == ClosedByManager || w.place[s] == Overwritten || (w.place[s].Registered? && w.place[s].holder == None)
    {
      assert Located(w, s) && HolderOk(w, s);
    }
  }

  lemma RestEntries(w: World)
    requires AtRest(w) && RegOk(w.reg) && PlaceOk(w)
    requires forall n: nat :: Warming(n) !in w.reg.entries
    requires forall s: nat :: s < |w.place| && w.place[s].Registered? ==> w.place[s].holder == None
    ensures forall id :: id in w.reg.entries ==> w.reg.entries[id].status == Idle
  {
    forall id | id in w.reg.entries ensures w.reg.entries[id].status == Idle {
      assert id.Conv?;
      assert EntryOk(w.reg, id, w.reg.entries[id]) && EntryPlaced(w, id);
    }
  }

  lemma NothingOverwritten(w: World)
    requires LeaseOk(w)
    ensures w.lost == 0 && forall s: nat :: s < |w.place| ==> w.place[s] != Overwritten
  {
  }

  /** After a shutdown has run to its end with everything else, nothing is left. */
  lemma ShutdownLeavesNothing(run: seq<World>, i: nat, u: nat)
    requires Run(run) && i < |run| && AtRest(run[i])
    requires u < |run[i].threads| && run[i].threads[u].ShutReturned?
    ensures run[i].reg.entries == map[] && run[i].used == run[i].lost
    ensures Distinct(run[i].convs) ==>
              run[i].used == 0 && forall s: nat :: s < |run[i].place| ==> run[i].place[s] == ClosedByManager
  {
    hide Inv, Run, RegOk, UnitsOk, FillOk, SlotsOk, PlaceOk, HoldersOk, StopOk, LeaseOk, Distinct, AtRest;
    var w := run[i];
    RunKeeps(run, i);
    RestIsClean(w);
    DrainedOnceTaken(run, i, u);
    InvParts(w);
    forall id ensures id !in w.reg.entries {
      if id in w.reg.entries { IdleIsPooled(w.reg, id); }
    }
    forall s: nat | s < |w.place| ensures !w.place[s].Registered? {
      RegisteredHasEntry(w, s);
    }
  }

  lemma IdleIsPooled(r: Reg, id: Id)
    requires RegOk(r) && id in r.entries && r.entries[id].status == Idle
    ensures r.entries[id].pooled
  {
    assert EntryOk(r, id, r.entries[id]);
  }

  lemma RegisteredHasEntry(w: World, s: nat)
    requires PlaceOk(w) && s < |w.place|
    ensures w.place[s].Registered? ==> Conv(w.place[s].name) in w.reg.entries
  {
    assert Located(w, s);
  }
}
