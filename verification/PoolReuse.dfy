/**
 What happens when the upstream hands out a conversation ID that is still registered:
 the entry is overwritten and one unit of capacity is lost, each time and for good.
 */
module PoolReuse {
  import opened Ids
  import opened Registry
  import opened Wrappers
  import opened RegistryLaws
  import opened Pool
  import opened PoolInvariant
  import opened PoolRegister
  import opened PoolTheorems
  import opened PoolLifecycle

  /** The next step of thread `t` registers a session under a conversation ID already registered. */
  predicate Collides(w: World, t: nat) {
    t < |w.threads| &&
    match w.threads[t]
    case AcqActivate(_, s, _) => Conv(s.conv) in w.reg.entries
    case FillActivate(wid, s) => KeepsIdle(w.reg, wid) && Conv(s.conv) in w.reg.entries
    case _ => false
  }

  /** Units in use that belong to no entry and are in no thread's hands. */
  ghost function LostUnits(w: World): int { w.used - |w.reg.entries| - Total(Units, w.threads) }

  lemma LostIsCounted(w: World)
    requires Inv(w)
    ensures LostUnits(w) == w.lost
  {
  }

  /** A unit is lost exactly by those steps. */
  lemma LosesOneUnit(w: World, t: nat, c: Choice)
    requires Inv(w) && Enabled(w, t, c)
    ensures LostUnits(Next(w, t, c)) == LostUnits(w) + if Collides(w, t) then 1 else 0
  {
    hide Inv, Next, LostUnits;
    NextKeeps(w, t, c);
    LostIsCounted(w);
    LostIsCounted(Next(w, t, c));
    CountsLoss(w, t, c);
  }

  lemma CountsLoss(w: World, t: nat, c: Choice)
    requires Enabled(w, t, c)
    ensures Next(w, t, c).lost == w.lost + if Collides(w, t) then 1 else 0
  {
    hide Without, Reserve, Activate, TryActivateIdle, FirstLeasable, NeedsWarm, DroppableIds, ExpiredIds, StoppableIds;
    hide UnitIds, Sids, Retire;
    if IsFill(w.threads[t]) {
      hide StepRequest, StepTail, Scan, RetireLease;
    } else if !IsRequest(w.threads[t]) {
      hide StepRequest, StepFill, Scan, RetireLease, Register, Fetch, ReserveSlot;
    } else {
      hide StepTail, StepFill;
    }
  }

  ghost predicate CollidingStep(w: World, w': World) {
    exists t: nat, c: Choice :: Enabled(w, t, c) && w' == Next(w, t, c) && Collides(w, t)
  }

  ghost function Collisions(run: seq<World>, i: nat): nat
    requires i < |run|
  {
    if i == 0 then 0 else Collisions(run, i - 1) + if CollidingStep(run[i - 1], run[i]) then 1 else 0
  }

  lemma StepLoses(w: World, w': World)
    requires Inv(w) && Step(w, w')
    ensures LostUnits(w') == LostUnits(w) + if CollidingStep(w, w') then 1 else 0
  {
    hide Inv, Next, Enabled, Collides, LostUnits;
    if CollidingStep(w, w') {
      var t: nat, c: Choice :| Enabled(w, t, c) && w' == Next(w, t, c) && Collides(w, t);
      LosesOneUnit(w, t, c);
    } else if ThreadStep(w, w') {
      var t: nat, c: Choice :| Enabled(w, t, c) && w' == Next(w, t, c);
      LosesOneUnit(w, t, c);
    } else {
      StepKeeps(w, w');
      LostIsCounted(w);
      LostIsCounted(w');
    }
  }

  /** At any moment of a run as many units are lost as steps have collided so far, and they stay in use. */
  lemma {:induction false} LostPerCollision(run: seq<World>, i: nat)
    requires Run(run) && i < |run|
    ensures LostUnits(run[i]) == Collisions(run, i)
    ensures |run[i].reg.entries| + Collisions(run, i) <= run[i].used
    decreases i
  {
    hide Inv, Run, Step, Init, LostUnits, CollidingStep;
    RunKeeps(run, i);
    LostIsCounted(run[i]);
    Conservation(run, i);
    if i == 0 {
      NothingLostYet(run);
    } else {
      LostPerCollision(run, i - 1);
      RunKeeps(run, i - 1);
      RunStep(run, i - 1);
      StepLoses(run[i - 1], run[i]);
    }
  }

  /** What was lost is never regained: from then on that much of the semaphore stays in use. */
  lemma {:induction false} NeverRegained(run: seq<World>, i: nat, j: nat)
    requires Run(run) && i <= j < |run|
    ensures LostUnits(run[i]) <= LostUnits(run[j]) && LostUnits(run[i]) + |run[j].reg.entries| <= run[j].used
    decreases j
  {
    hide Inv, Run, LostUnits, CollidingStep;
    LostPerCollision(run, i);
    LostPerCollision(run, j);
    if i < j {
      NeverRegained(run, i, j - 1);
      LostPerCollision(run, j - 1);
    }
  }

  lemma NothingLostYet(run: seq<World>)
    requires Run(run)
    ensures run[0].lost == 0
  {
  }

  /** Nothing is lost in a run exactly if none of its steps collides. */
  lemma {:induction false} NothingLostIff(run: seq<World>, i: nat)
    requires Run(run) && i < |run|
    ensures LostUnits(run[i]) == 0 <==> forall k: nat :: k < i ==> !CollidingStep(run[k], run[k + 1])
  {
    hide Inv, Run, LostUnits, CollidingStep;
    LostPerCollision(run, i);
    NoCollisions(run, i);
  }

  lemma {:induction false} NoCollisions(run: seq<World>, i: nat)
    requires i < |run|
    ensures Collisions(run, i) == 0 <==> forall k: nat :: k < i ==> !CollidingStep(run[k], run[k + 1])
  {
    hide CollidingStep;
    if i > 0 {
      NoCollisions(run, i - 1);
      assert run[i - 1 + 1] == run[i];
    }
  }

  /** Distinct conversation IDs are enough for that. */
  lemma DistinctNeverCollide(w: World, t: nat)
    requires Inv(w) && Distinct(w.convs) && t < |w.threads|
    ensures !Collides(w, t)
  {
    hide Inv, RegOk, UnitsOk, FillOk, SlotsOk, PlaceOk, HoldersOk, StopOk, LeaseOk, Distinct;
    InvParts(w);
    if FetchedBy(w.threads[t]).Some? { NoCollision(w, t, FetchedBy(w.threads[t]).value); }
  }

  // ---------- A run that loses a unit ----------

  lemma Extend(run: seq<World>, t: nat, c: Choice) returns (run': seq<World>)
    requires Run(run) && Enabled(run[|run| - 1], t, c)
    ensures Run(run') && |run'| == |run| + 1 && run'[|run|] == Next(run[|run| - 1], t, c)
  {
    hide Next, Enabled, Init;
    run' := run + [Next(run[|run| - 1], t, c)];
    assert run'[0] == run[0];
    forall i | 0 <= i < |run'| - 1 ensures Step(run'[i], run'[i + 1]) {
      if i < |run| - 1 {
        assert Step(run[i], run[i + 1]);
      } else {
        assert ThreadStep(run'[i], run'[i + 1]);
      }
    }
  }

  const OK: Choice := Choice(true, false, 0, "c")

  function Two(a: PC, b: PC): seq<PC> { [Kick(ThenDone), a, b] }

  const LEASED: Entry := Entry(Leased, Some(Sess(0, "c", 0)), 0, true, false, 1)

  /** Two requests arrive at a pool of two sessions without a warm pool. */
  lemma Arrivals() returns (run: seq<World>)
    ensures Run(run)
    ensures run[|run| - 1] == World(Limits(2, 0), EMPTY, 0, Two(AcqScan, AcqScan), [], [], [], 0)
  {
    var w0 := Init(Clamp(2, 0));
    var w1 := Spawn(w0, AcqScan);
    var w2 := Spawn(w1, AcqScan);
    run := [w0, w1, w2];
    assert Step(w0, w1) && Step(w1, w2);
    assert w2.threads == Two(AcqScan, AcqScan);
  }

  /** The first request leases a session of conversation `c`. */
  lemma FirstLeases() returns (run: seq<World>)
    ensures Run(run)
    ensures run[|run| - 1] == World(Limits(2, 0), Reg(map[Conv("c") := LEASED], [Conv("c")], 1, false, false, false), 1,
      Two(Kick(ThenUpload(LeaseRef("c", 0))), AcqScan), ["c"], [Registered("c", Some(1))], [1], 0)
  {
    hide Run;
    run := Arrivals();
    var l := Limits(2, 0);
    run := Extend(run, 1, OK);
    assert run[|run| - 1] == World(l, EMPTY, 0, Two(AcqWait(false), AcqScan), [], [], [], 0);
    run := Extend(run, 1, OK);
    assert run[|run| - 1] == World(l, EMPTY, 1, Two(AcqRescan, AcqScan), [], [], [], 0);
    run := Extend(run, 1, OK);
    assert run[|run| - 1] == World(l, EMPTY, 1, Two(AcqReserve(false), AcqScan), [], [], [], 0);
    run := Extend(run, 1, OK);
    var r1 := Reg(map[Warming(1) := Entry(Starting, None, 0, true, false, 1)], [Warming(1)], 1, false, false, false);
    assert run[|run| - 1] == World(l, r1, 1, Two(AcqStart(1, false), AcqScan), [], [], [1], 0);
    run := Extend(run, 1, OK);
    assert run[|run| - 1] == World(l, r1, 1, Two(AcqActivate(1, Sess(0, "c", 0), false), AcqScan), ["c"], [Fetched(1)], [1], 0);
    run := Extend(run, 1, OK);
  }

  const FIRST: Reg := Reg(map[Conv("c") := LEASED], [Conv("c")], 1, false, false, false)

  const BOTH: Reg := Reg(
    map[Conv("c") := LEASED, Warming(2) := Entry(Starting, None, 0, true, false, 2)], [Conv("c"), Warming(2)], 2,
    false, false, false)

  lemma FirstIsBusy()
    ensures FirstLeasable(FIRST.byAge, FIRST.entries) == None
  {
    var s := FIRST.byAge;
    assert FirstLeasable(s, FIRST.entries) == FirstLeasable(s[1..], FIRST.entries);
  }

  /** The second request reserves a slot and is given the same conversation. */
  lemma SecondFetches() returns (run: seq<World>)
    ensures Run(run)
    ensures run[|run| - 1] == World(Limits(2, 0), BOTH, 2,
      Two(Kick(ThenUpload(LeaseRef("c", 0))), AcqActivate(2, Sess(1, "c", 0), false)), ["c", "c"],
      [Registered("c", Some(1)), Fetched(2)], [1, 2], 0)
  {
    hide Run;
    run := FirstLeases();
    var l := Limits(2, 0);
    var k := Kick(ThenUpload(LeaseRef("c", 0)));
    var p := [Registered("c", Some(1))];
    FirstIsBusy();
    run := Extend(run, 2, OK);
    assert run[|run| - 1] == World(l, FIRST, 1, Two(k, AcqWait(false)), ["c"], p, [1], 0);
    run := Extend(run, 2, OK);
    assert run[|run| - 1] == World(l, FIRST, 2, Two(k, AcqRescan), ["c"], p, [1], 0);
    run := Extend(run, 2, OK);
    assert run[|run| - 1] == World(l, FIRST, 2, Two(k, AcqReserve(false)), ["c"], p, [1], 0);
    run := Extend(run, 2, OK);
    assert run[|run| - 1] == World(l, BOTH, 2, Two(k, AcqStart(2, false)), ["c"], p, [1, 2], 0);
    run := Extend(run, 2, OK);
  }

  /** With both requests on the same conversation, one entry is left for two units. */
  lemma ReuseLosesCapacity() returns (run: seq<World>)
    ensures Run(run)
    ensures var w := run[|run| - 1]; w.used == 2 && |w.reg.entries| == 1 && Total(Units, w.threads) == 0 && w.lost == 1
  {
    hide Run;
    run := SecondFetches();
    run := Extend(run, 2, OK);
    var w := run[|run| - 1];
    assert w.reg.entries.Keys == {Conv("c")};
    assert |w.reg.entries| == |w.reg.entries.Keys|;
    assert w.threads == Two(Kick(ThenUpload(LeaseRef("c", 0))), Kick(ThenUpload(LeaseRef("c", 1))));
  }
}
