/**
 Every kind of update a step makes keeps the invariant.
 */
module PoolSteps {
  import opened Ids
  import opened Registry
  import opened Wrappers
  import opened RegistryLaws
  import opened Pool
  import opened PoolInvariant

  // ---------- Moves that change no ownership ----------

  ghost predicate SameOwnership(pc: PC, pc': PC) {
    && SlotOf(pc') == SlotOf(pc)
    && (SlotOf(pc).Some? ==> IsFill(pc') == IsFill(pc))
    && FetchedBy(pc') == FetchedBy(pc)
    && Victims(pc') == Victims(pc)
  }

  /** A spent lease may be let go. */
  ghost predicate SameLeases(pc: PC, pc': PC) {
    LiveLease(pc') == LiveLease(pc) && (SpentLease(pc') == SpentLease(pc) || SpentLease(pc') == None)
  }

  /** Only the refill flags and the cancellation may differ. */
  ghost predicate SameEntries(r: Reg, r': Reg) {
    && r'.entries == r.entries && r'.byAge == r.byAge && r'.warmingSeq == r.warmingSeq
    && (r.cancelled ==> r'.cancelled)
  }

  function Running(r: Reg): int { if r.refillRunning then 1 else 0 }

  /** Threads `t` alone moved. */
  ghost predicate OnlyThread(w: World, w': World, t: nat) {
    t < |w.threads| && |w'.threads| == |w.threads| && w'.threads == w.threads[t := w'.threads[t]]
  }

  lemma UnitsStep(w: World, w': World, t: nat)
    requires UnitsOk(w) && OnlyThread(w, w', t)
    requires w'.limits == w.limits && w'.used <= w'.limits.maxSessions
    requires w'.used - |w'.reg.entries| - w'.lost - Units(w'.threads[t])
          == w.used - |w.reg.entries| - w.lost - Units(w.threads[t])
    ensures UnitsOk(w')
  {
    TotalUpdate(Units, w.threads, t, w'.threads[t]);
  }

  lemma FillStep(w: World, w': World, t: nat)
    requires FillOk(w) && OnlyThread(w, w', t)
    requires w'.limits == w.limits && |WarmIds(w'.reg)| <= w'.limits.warmSessions
    requires Running(w'.reg) - Fills(w'.threads[t]) == Running(w.reg) - Fills(w.threads[t])
    ensures FillOk(w')
  {
    TotalUpdate(Fills, w.threads, t, w'.threads[t]);
  }

  lemma UnitsBound(w: World)
    requires UnitsOk(w)
    ensures w.used <= w.limits.maxSessions
  {
  }

  lemma StopStep(w: World, w': World, t: nat)
    requires StopOk(w) && OnlyThread(w, w', t)
    requires w.reg.cancelled ==> w'.reg.cancelled
    requires Stopping(w'.threads[t]) ==> Stopping(w.threads[t]) || w'.reg.cancelled
    ensures StopOk(w')
  {
  }

  /** A lease is let go only when its conversation is no longer registered. */
  ghost predicate LetsGo(w: World, pc: PC, pc': PC) {
    LiveLease(pc') == LiveLease(pc) ||
    (LiveLease(pc') == None && Conv(LiveLease(pc).value.name) !in w.reg.entries)
  }

  lemma Move(w: World, t: nat, pc: PC, used: int, reg: Reg)
    requires Inv(w) && t < |w.threads|
    requires SameOwnership(w.threads[t], pc) && SameEntries(w.reg, reg)
    requires LetsGo(w, w.threads[t], pc)
    requires Distinct(w.convs) ==> SameLeases(w.threads[t], pc)
    requires used - Units(pc) == w.used - Units(w.threads[t]) && used <= w.limits.maxSessions
    requires Running(reg) - Fills(pc) == Running(w.reg) - Fills(w.threads[t])
    requires reg.refillRequested ==> reg.refillRunning
    requires Stopping(pc) ==> Stopping(w.threads[t]) || reg.cancelled
    ensures Inv(Goto(w, t, pc).(used := used, reg := reg))
  {
    hide Inv, RegOk, UnitsOk, FillOk, SlotsOk, PlaceOk, HoldersOk, StopOk, LeaseOk, Distinct;
    InvParts(w);
    var w' := Goto(w, t, pc).(used := used, reg := reg);
    UnitsStep(w, w', t);
    assert WarmIds(w'.reg) == WarmIds(w.reg);
    FillStep(w, w', t);
    FlagsOk(w.reg, reg);
    StopStep(w, w', t);
    MoveSlots(w, w', t);
    MovePlaces(w, w', t);
    MoveHolders(w, w', t);
    if Distinct(w.convs) { MoveLeases(w, w', t); }
    InvJoin(w');
  }

  lemma FlagsOk(r: Reg, r': Reg)
    requires RegOk(r) && SameEntries(r, r') && (r'.refillRequested ==> r'.refillRunning)
    ensures RegOk(r')
  {
  }

  lemma MoveSlots(w: World, w': World, t: nat)
    requires SlotsOk(w) && t < |w.threads|
    requires OnlyThread(w, w', t)
    requires SameOwnership(w.threads[t], w'.threads[t])
    requires SameEntries(w.reg, w'.reg) && w'.slots == w.slots
    ensures SlotsOk(w')
  {
    forall n: nat | Warming(n) in w'.reg.entries ensures SlotHeld(w', n) {
      assert SlotHeld(w, n);
    }
  }

  lemma MovePlaces(w: World, w': World, t: nat)
    requires PlaceOk(w) && t < |w.threads|
    requires OnlyThread(w, w', t)
    requires SameOwnership(w.threads[t], w'.threads[t])
    requires w'.reg.entries == w.reg.entries && w'.place == w.place && w'.convs == w.convs
    ensures PlaceOk(w')
  {
    forall id | id in w'.reg.entries ensures EntryPlaced(w', id) {
      assert EntryPlaced(w, id);
    }
    forall s: nat | s < |w'.place| ensures Located(w', s) {
      assert Located(w, s);
    }
    forall u: nat | u < |w'.threads| ensures ThreadPlaced(w', u) {
      assert ThreadPlaced(w, u);
    }
  }

  lemma MoveLeases(w: World, w': World, t: nat)
    requires LeaseOk(w) && t < |w.threads|
    requires OnlyThread(w, w', t)
    requires SameLeases(w.threads[t], w'.threads[t])
    requires SameEntries(w.reg, w'.reg) && w'.place == w.place && w'.convs == w.convs && w'.lost == w.lost
    ensures LeaseOk(w')
  {
    forall u: nat | u < |w'.threads| ensures LeaseHeld(w', u) {
      assert LeaseHeld(w, u);
    }
  }

  lemma MoveHolders(w: World, w': World, t: nat)
    requires PlaceOk(w) && HoldersOk(w) && OnlyThread(w, w', t) && LetsGo(w, w.threads[t], w'.threads[t])
    requires w'.place == w.place
    ensures HoldersOk(w')
  {
    forall s: nat | s < |w'.place| ensures HolderOk(w', s) {
      assert HolderOk(w, s) && Located(w, s);
    }
  }

  // ---------- New threads ----------

  ghost predicate OwnsNothing(pc: PC) {
    && Units(pc) == 0 && SlotOf(pc) == None && FetchedBy(pc) == None && Victims(pc) == {}
    && LiveLease(pc) == None && SpentLease(pc) == None && !Stopping(pc)
  }

  lemma Append(w: World, pc: PC, reg: Reg)
    requires Inv(w) && OwnsNothing(pc) && SameEntries(w.reg, reg)
    requires Running(reg) == Running(w.reg) + Fills(pc)
    requires reg.refillRequested ==> reg.refillRunning
    ensures Inv(w.(threads := w.threads + [pc], reg := reg))
  {
    hide Inv, RegOk, UnitsOk, FillOk, SlotsOk, PlaceOk, HoldersOk, StopOk, LeaseOk, Distinct;
    InvParts(w);
    var w' := w.(threads := w.threads + [pc], reg := reg);
    TotalAppend(Units, w.threads, pc);
    TotalAppend(Fills, w.threads, pc);
    assert WarmIds(w'.reg) == WarmIds(w.reg);
    AppendSums(w, w');
    FlagsOk(w.reg, reg);
    AppendSlots(w, w');
    AppendPlaces(w, w');
    AppendHolders(w, w');
    if Distinct(w.convs) { AppendLeases(w, w'); }
    InvJoin(w');
  }

  lemma AppendSums(w: World, w': World)
    requires UnitsOk(w) && FillOk(w) && StopOk(w)
    requires w'.limits == w.limits && w'.used == w.used && w'.lost == w.lost && SameEntries(w.reg, w'.reg)
    requires Total(Units, w'.threads) == Total(Units, w.threads)
    requires Total(Fills, w'.threads) - Total(Fills, w.threads) == Running(w'.reg) - Running(w.reg)
    requires WarmIds(w'.reg) == WarmIds(w.reg)
    requires |w'.threads| == |w.threads| + 1 && w'.threads[..|w.threads|] == w.threads
    requires !Stopping(w'.threads[|w.threads|])
    ensures UnitsOk(w') && FillOk(w') && StopOk(w')
  {
    assert forall t :: 0 <= t < |w.threads| ==> w'.threads[t] == w'.threads[..|w.threads|][t] == w.threads[t];
  }

  lemma AppendSlots(w: World, w': World)
    requires SlotsOk(w) && SameEntries(w.reg, w'.reg) && w'.slots == w.slots
    requires |w'.threads| == |w.threads| + 1 && w'.threads[..|w.threads|] == w.threads
    requires OwnsNothing(w'.threads[|w.threads|])
    ensures SlotsOk(w')
  {
    assert forall t :: 0 <= t < |w.threads| ==> w'.threads[t] == w'.threads[..|w.threads|][t] == w.threads[t];
    forall n: nat | Warming(n) in w'.reg.entries ensures SlotHeld(w', n) {
      assert SlotHeld(w, n);
    }
  }

  lemma AppendPlaces(w: World, w': World)
    requires PlaceOk(w) && w'.reg.entries == w.reg.entries && w'.place == w.place && w'.convs == w.convs
    requires |w'.threads| == |w.threads| + 1 && w'.threads[..|w.threads|] == w.threads
    requires OwnsNothing(w'.threads[|w.threads|])
    ensures PlaceOk(w')
  {
    assert forall t :: 0 <= t < |w.threads| ==> w'.threads[t] == w'.threads[..|w.threads|][t] == w.threads[t];
    forall id | id in w'.reg.entries ensures EntryPlaced(w', id) {
      assert EntryPlaced(w, id);
    }
    forall s: nat | s < |w'.place| ensures Located(w', s) {
      assert Located(w, s);
    }
    forall u: nat | u < |w'.threads| ensures ThreadPlaced(w', u) {
      assert u < |w.threads| ==> ThreadPlaced(w, u);
    }
  }

  lemma AppendLeases(w: World, w': World)
    requires LeaseOk(w) && SameEntries(w.reg, w'.reg) && w'.place == w.place && w'.convs == w.convs && w'.lost == w.lost
    requires |w'.threads| == |w.threads| + 1 && w'.threads[..|w.threads|] == w.threads
    requires OwnsNothing(w'.threads[|w.threads|])
    ensures LeaseOk(w')
  {
    assert forall t :: 0 <= t < |w.threads| ==> w'.threads[t] == w'.threads[..|w.threads|][t] == w.threads[t];
    forall u: nat | u < |w'.threads| ensures LeaseHeld(w', u) {
      assert u < |w.threads| ==> LeaseHeld(w, u);
    }
  }

  lemma AppendHolders(w: World, w': World)
    requires HoldersOk(w) && w'.place == w.place
    requires |w'.threads| == |w.threads| + 1 && w'.threads[..|w.threads|] == w.threads
    ensures HoldersOk(w')
  {
    forall s: nat | s < |w'.place| ensures HolderOk(w', s) {
      assert HolderOk(w, s);
      if w.place[s].Registered? && w.place[s].holder.Some? {
        var t := w.place[s].holder.value;
        assert w'.threads[t] == w'.threads[..|w.threads|][t];
      }
    }
  }
}
