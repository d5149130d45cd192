/**
 The invariant holds in every state of every run, and what it says of the pool:
 conservation of semaphore units, the warm bound, the single refill goroutine, the
 age index, and who owns each session and each lease.
 */
module PoolTheorems {
  import opened Ids
  import opened Registry
  import opened Wrappers
  import opened RegistryLaws
  import opened Pool
  import opened PoolInvariant
  import opened PoolRequests
  import opened PoolRefill

  lemma InitOk(m: int, n: int)
    ensures Inv(Init(Clamp(m, n)))
  {
    hide Inv, RegOk, UnitsOk, FillOk, SlotsOk, PlaceOk, HoldersOk, StopOk, LeaseOk, Clamp;
    var w := Init(Clamp(m, n));
    InitSums(w, Clamp(m, n));
    InitOwnership(w, Clamp(m, n));
    InvJoin(w);
  }

  lemma InitSums(w: World, l: Limits)
    requires w == Init(l)
    ensures RegOk(w.reg) && UnitsOk(w) && FillOk(w) && StopOk(w)
  {
    assert Total(Units, w.threads) == Total(Fills, w.threads) == 0 by {
      assert w.threads[1..] == [];
    }
    assert WarmIds(w.reg) == {};
  }

  lemma InitOwnership(w: World, l: Limits)
    requires w == Init(l)
    ensures SlotsOk(w) && PlaceOk(w) && HoldersOk(w) && LeaseOk(w)
  {
  }

  lemma NextKeeps(w: World, t: nat, c: Choice)
    requires Inv(w) && Enabled(w, t, c)
    ensures Inv(Next(w, t, c))
  {
    hide Inv, StepRequest, StepFill, StepTail;
    if IsRequest(w.threads[t]) {
      if LiveLease(w.threads[t]) == None && !w.threads[t].ReqRelease? { AcquireKeeps(w, t, c); } else { HoldingKeeps(w, t, c); }
    } else if IsFill(w.threads[t]) {
      FillKeeps(w, t, c);
    } else {
      TailKeeps(w, t, c);
    }
  }

  lemma StepKeeps(w: World, w': World)
    requires Inv(w) && Step(w, w')
    ensures Inv(w')
  {
    hide Inv, Next, Enabled;
    if ThreadStep(w, w') {
      var t: nat, c: Choice :| Enabled(w, t, c) && w' == Next(w, t, c);
      NextKeeps(w, t, c);
    } else {
      var pc: PC :| Spawnable(pc) && w' == Spawn(w, pc);
      SpawnKeeps(w, pc);
    }
  }

  /** Every state of every run satisfies the invariant. */
  lemma {:induction false} RunKeeps(run: seq<World>, i: nat)
    requires Run(run) && i < |run|
    ensures Inv(run[i])
    decreases i
  {
    hide Inv, Step, Init;
    if i == 0 {
      var m: int, n: int :| run[0] == Init(Clamp(m, n));
      InitOk(m, n);
    } else {
      RunKeeps(run, i - 1);
      assert Step(run[i - 1], run[i - 1 + 1]);
      StepKeeps(run[i - 1], run[i]);
    }
  }

  // ---------- Conservation of units ----------

  /** A unit in use is an entry, is in the hands of a thread, or was lost to a repeated conversation ID. */
  lemma Conservation(run: seq<World>, i: nat)
    requires Run(run) && i < |run|
    ensures var w := run[i];
      && w.used == |w.reg.entries| + Total(Units, w.threads) + w.lost
      && 0 <= w.used <= w.limits.maxSessions && |w.reg.entries| <= w.limits.maxSessions
      && (Distinct(w.convs) ==> w.lost == 0)
  {
    RunKeeps(run, i);
  }

  /** No `Release` of the semaphore ever gives back more than is held. */
  lemma NeverOverReleased(run: seq<World>, i: nat, t: nat)
    requires Run(run) && i < |run| && t < |run[i].threads|
    ensures Units(run[i].threads[t]) <= run[i].used
  {
    hide Inv, Run;
    RunKeeps(run, i);
    UnitsWithin(run[i], t);
  }

  lemma UnitsWithin(w: World, t: nat)
    requires Inv(w) && t < |w.threads|
    ensures Units(w.threads[t]) <= w.used
  {
    hide Inv;
    hide RegOk, FillOk, SlotsOk, PlaceOk, HoldersOk, StopOk, LeaseOk, Units;
    InvParts(w);
    TotalUpdate(Units, w.threads, t, Done);
    assert Units(Done) == 0 by { DoneOwnsNothing(); }
  }

  lemma DoneOwnsNothing()
    ensures Units(Done) == 0 && Fills(Done) == 0
  {
  }

  // ---------- The warm pool and its one goroutine ----------

  lemma WarmBound(run: seq<World>, i: nat)
    requires Run(run) && i < |run|
    ensures |WarmIds(run[i].reg)| <= run[i].limits.warmSessions
    ensures run[i].reg.refillRequested ==> run[i].reg.refillRunning
    ensures run[i].reg.refillRunning <==> exists t: nat :: t < |run[i].threads| && RunsFill(run[i].threads[t])
    ensures forall t: nat, u: nat ::
              t < |run[i].threads| && u < |run[i].threads| && RunsFill(run[i].threads[t]) && RunsFill(run[i].threads[u]) ==> t == u
  {
    hide Inv, Run, RunsFill;
    RunKeeps(run, i);
    var w := run[i];
    RunningIfRequested(w);
    FillParts(w);
    if forall t: nat :: t < |w.threads| ==> !RunsFill(w.threads[t]) { NoFillers(w.threads); }
    forall t: nat, u: nat | t < |w.threads| && u < |w.threads| && RunsFill(w.threads[t]) && RunsFill(w.threads[u])
      ensures t == u && w.reg.refillRunning
    {
      DoneOwnsNothing();
      TotalUpdate(Fills, w.threads, t, Done);
      TotalUpdate(Fills, w.threads[t := Done], u, Done);
    }
  }

  lemma FillParts(w: World)
    requires Inv(w)
    ensures FillOk(w)
  {
  }

  lemma {:induction false} NoFillers(threads: seq<PC>)
    requires forall t: nat :: t < |threads| ==> !RunsFill(threads[t])
    ensures Total(Fills, threads) == 0
  {
    if threads != [] { NoFillers(threads[1..]); }
  }

  // ---------- The age index ----------

  /** The index lists the registered keys; with distinct IDs each once, in order of reservation. */
  lemma IndexAgrees(run: seq<World>, i: nat)
    requires Run(run) && i < |run|
    ensures var r := run[i].reg;
      && (forall id :: id in r.byAge <==> id in r.entries)
      && (Distinct(run[i].convs) ==>
            forall j: nat, k: nat :: j < k < |r.byAge| ==>
              r.byAge[j] in r.entries && r.byAge[k] in r.entries && r.byAge[j] != r.byAge[k]
              && r.entries[r.byAge[j]].born < r.entries[r.byAge[k]].born)
  {
    hide Inv, Run, RegOk, UnitsOk, FillOk, SlotsOk, PlaceOk, HoldersOk, StopOk, Distinct;
    RunKeeps(run, i);
    InvParts(run[i]);
    IndexIsExact(run[i].reg);
    if Distinct(run[i].convs) { IndexIsSorted(run[i].reg); }
  }

  lemma IndexIsExact(r: Reg)
    requires RegOk(r)
    ensures forall id :: id in r.byAge <==> id in r.entries
  {
    forall id ensures id in r.byAge <==> id in r.entries {
      assert id in r.byAge <==> id in multiset(r.byAge);
    }
  }

  lemma IndexIsSorted(r: Reg)
    requires Ordered(r)
    ensures forall j: nat, k: nat :: j < k < |r.byAge| ==>
              r.byAge[j] in r.entries && r.byAge[k] in r.entries && r.byAge[j] != r.byAge[k]
              && r.entries[r.byAge[j]].born < r.entries[r.byAge[k]].born
  {
    forall j: nat, k: nat | j < k < |r.byAge|
      ensures r.byAge[j] in r.entries && r.byAge[k] in r.entries && r.byAge[j] != r.byAge[k]
           && r.entries[r.byAge[j]].born < r.entries[r.byAge[k]].born
    {
      SortedPairs(r.byAge, r.entries, 0, j, k);
    }
  }

  // ---------- Entries between the sections ----------

  /**
   Whenever the mutex is free every entry holds a unit and is a starting slot, an idle
   pooled session or a leased one: none is seen draining or closed.
   */
  lemma EntryStates(run: seq<World>, i: nat, id: Id)
    requires Run(run) && i < |run| && id in run[i].reg.entries
    ensures var e := run[i].reg.entries[id];
      && e.holdsCapacity
      && (id.Warming? <==> e.status == Starting)
      && (id.Conv? <==> (e.status == Idle && e.pooled) || (e.status == Leased && !e.pooled))
      && (id.Conv? <==> e.session.Some?)
  {
    hide Inv, Run, UnitsOk, FillOk, SlotsOk, PlaceOk, HoldersOk, StopOk, LeaseOk, Distinct;
    RunKeeps(run, i);
    InvParts(run[i]);
    assert EntryOk(run[i].reg, id, run[i].reg.entries[id]);
  }

  /** From its reservation to its activation nobody but the acquire itself removes its slot. */
  lemma AcquireFindsItsSlot(run: seq<World>, i: nat, t: nat)
    requires Run(run) && i < |run| && t < |run[i].threads|
    requires var pc := run[i].threads[t]; pc.AcqStart? || pc.AcqFail? || pc.AcqActivate?
    ensures var id := Warming(run[i].threads[t].wid);
      id in run[i].reg.entries && run[i].reg.entries[id].status == Starting && !run[i].reg.entries[id].pooled
  {
    hide Inv, Run, RegOk, UnitsOk, FillOk, PlaceOk, HoldersOk, StopOk, LeaseOk, Distinct;
    RunKeeps(run, i);
    InvParts(run[i]);
    var n := run[i].threads[t].wid;
    assert SlotHeld(run[i], n);
    EntryStates(run, i, Warming(n));
  }
}
