/**
 Taking entries out of the registry, and closing the sessions taken, keeps the invariant.
 */
module PoolRetire {
  import opened Ids
  import opened Registry
  import opened Wrappers
  import opened RegistryLaws
  import opened Pool
  import opened PoolInvariant
  import opened PoolSteps

  /** When thread `t` may take `ids` out of the registry. */
  ghost predicate MayTake(w: World, t: nat, ids: set<Id>, next: After) {
    && t < |w.threads|
    && Units(w.threads[t]) == 0 && FetchedBy(w.threads[t]) == None && Victims(w.threads[t]) == {}
    && RunsFill(w.threads[t]) == RunsFill(Kick(next))
    && (Stopping(Kick(next)) ==> Stopping(w.threads[t]) || w.reg.cancelled)
    && (SlotOf(w.threads[t]).Some? ==> Warming(SlotOf(w.threads[t]).value) in ids)
    && (forall n: nat :: Warming(n) in ids && Warming(n) in w.reg.entries ==>
          w.reg.entries[Warming(n)].pooled || SlotOf(w.threads[t]) == Some(n))
    && !next.ThenUpload?
    && (LiveLease(w.threads[t]).Some? ==> Conv(LiveLease(w.threads[t]).value.name) in ids)
  }

  /** The leases touched are the thread's own; not so when conversation IDs repeat. */
  ghost predicate OwnLeases(w: World, t: nat, ids: set<Id>, next: After)
    requires t < |w.threads|
  {
    && (forall id :: id in ids && id in w.reg.entries && w.reg.entries[id].status == Leased ==>
          LiveLease(w.threads[t]).Some? && id == Conv(LiveLease(w.threads[t]).value.name))
    && (next.ThenRelease? ==> LiveLease(w.threads[t]) == Some(next.lease))
  }

  /** What taking `ids` changes. */
  ghost predicate Takes(w: World, w': World, t: nat, ids: set<Id>, next: After) {
    && OnlyThread(w, w', t)
    && w'.reg.entries == w.reg.entries - ids
    && w'.reg.warmingSeq == w.reg.warmingSeq && w'.reg.cancelled == w.reg.cancelled
    && w'.reg.refillRunning == w.reg.refillRunning
    && w'.threads[t].Refund? && w'.threads[t].next == next
    && w'.threads[t].units == |UnitIds(w.reg, ids)| && w'.threads[t].victims == Sids(w.reg, ids)
    && |w'.place| == |w.place|
    && (forall s :: 0 <= s < |w.place| ==>
          w'.place[s] == if w.place[s].Registered? && Conv(w.place[s].name) in ids then Retiring(t) else w.place[s])
    && w' == w.(reg := w'.reg, threads := w'.threads, place := w'.place)
  }

  lemma TakeIsTakes(w: World, t: nat, ids: set<Id>, kick: bool, next: After)
    requires RegOk(w.reg) && t < |w.threads|
    ensures Takes(w, Take(w, t, ids, kick, next), t, ids, next)
    ensures Take(w, t, ids, kick, next).reg == Without(w.reg, ids)
  {
    WithoutLaws(w.reg, ids);
  }

  lemma TakeKeeps(w: World, t: nat, ids: set<Id>, kick: bool, next: After)
    requires Inv(w) && t < |w.threads| && MayTake(w, t, ids, next)
    requires Distinct(w.convs) ==> OwnLeases(w, t, ids, next)
    ensures Inv(Take(w, t, ids, kick, next))
  {
    hide Inv, RegOk, UnitsOk, FillOk, SlotsOk, PlaceOk, HoldersOk, StopOk, LeaseOk;
    hide Distinct, Ordered, OwnLeases, Without, Take, MayTake, Takes;
    InvParts(w);
    var w' := Take(w, t, ids, kick, next);
    TakeIsTakes(w, t, ids, kick, next);
    WithoutLaws(w.reg, ids);
    TakeSums(w, w', t, ids, next);
    TakeSlots(w, w', t, ids, next);
    TakePlaces(w, w', t, ids, next);
    TakeHolders(w, w', t, ids, next);
    if Distinct(w.convs) { TakeLeases(w, w', t, ids, next); }
    InvJoin(w');
  }

  lemma TakeSums(w: World, w': World, t: nat, ids: set<Id>, next: After)
    requires RegOk(w.reg) && UnitsOk(w) && FillOk(w) && StopOk(w)
    requires MayTake(w, t, ids, next) && Takes(w, w', t, ids, next) && w'.reg == Without(w.reg, ids)
    ensures UnitsOk(w') && FillOk(w') && StopOk(w') && w'.limits == w.limits && w'.convs == w.convs
  {
    hide RegOk, UnitsOk, FillOk, StopOk, Without, Units, RunsFill, UnitIds, Sids;
    TakeUnits(w, w', t, ids, next);
    TakeFills(w, w', t, ids, next);
    StopStep(w, w', t);
  }

  lemma TakeUnits(w: World, w': World, t: nat, ids: set<Id>, next: After)
    requires RegOk(w.reg) && UnitsOk(w) && Takes(w, w', t, ids, next)
    requires t < |w.threads| && Units(w.threads[t]) == 0
    ensures UnitsOk(w')
  {
    hide RegOk, UnitsOk, UnitIds, Sids;
    TakeCount(w.reg, ids);
    UnitsBound(w);
    UnitsStep(w, w', t);
  }

  lemma TakeFills(w: World, w': World, t: nat, ids: set<Id>, next: After)
    requires RegOk(w.reg) && FillOk(w) && Takes(w, w', t, ids, next) && w'.reg == Without(w.reg, ids)
    requires t < |w.threads| && RunsFill(w.threads[t]) == RunsFill(Kick(next))
    ensures FillOk(w')
  {
    hide RegOk, FillOk, Without, UnitIds, Sids;
    WithoutWarm(w.reg, ids);
    WarmWithin(w);
    FillStep(w, w', t);
  }

  lemma WarmWithin(w: World)
    requires FillOk(w)
    ensures |WarmIds(w.reg)| <= w.limits.warmSessions
  {
  }

  lemma TakeSlots(w: World, w': World, t: nat, ids: set<Id>, next: After)
    requires SlotsOk(w) && MayTake(w, t, ids, next) && Takes(w, w', t, ids, next)
    ensures SlotsOk(w')
  {
    forall n: nat | Warming(n) in w'.reg.entries ensures SlotHeld(w', n) {
      assert SlotHeld(w, n);
    }
    forall u: nat | u < |w'.threads| && SlotOf(w'.threads[u]).Some?
      ensures var n := SlotOf(w'.threads[u]).value;
        1 <= n <= |w'.slots| && w'.slots[n - 1] == u && (!IsFill(w'.threads[u]) ==> Warming(n) in w'.reg.entries)
    {
      var n := SlotOf(w.threads[u]).value;
      if !IsFill(w.threads[u]) { assert SlotHeld(w, n); }
    }
  }

  lemma TakePlaces(w: World, w': World, t: nat, ids: set<Id>, next: After)
    requires PlaceOk(w) && MayTake(w, t, ids, next) && Takes(w, w', t, ids, next)
    ensures PlaceOk(w')
  {
    forall id | id in w'.reg.entries ensures EntryPlaced(w', id) {
      assert EntryPlaced(w, id);
    }
    forall s: nat | s < |w'.place| ensures Located(w', s) {
      assert Located(w, s);
    }
    forall u: nat | u < |w'.threads| ensures ThreadPlaced(w', u) {
      assert ThreadPlaced(w, u);
      if u == t { TakenAreRetiring(w, w', t, ids, next); }
    }
  }

  lemma TakenAreRetiring(w: World, w': World, t: nat, ids: set<Id>, next: After)
    requires PlaceOk(w) && Takes(w, w', t, ids, next)
    ensures forall s :: s in Sids(w.reg, ids) ==> s < |w'.place| && w'.place[s] == Retiring(t)
  {
    forall s | s in Sids(w.reg, ids) ensures s < |w'.place| && w'.place[s] == Retiring(t) {
      var id :| id in ids && id in w.reg.entries && w.reg.entries[id].session.Some?
                && w.reg.entries[id].session.value.sid == s;
      assert EntryPlaced(w, id);
    }
  }

  lemma TakeHolders(w: World, w': World, t: nat, ids: set<Id>, next: After)
    requires HoldersOk(w) && MayTake(w, t, ids, next) && Takes(w, w', t, ids, next)
    ensures HoldersOk(w')
  {
    forall s: nat | s < |w'.place| ensures HolderOk(w', s) {
      assert HolderOk(w, s);
    }
  }

  lemma TakeLeases(w: World, w': World, t: nat, ids: set<Id>, next: After)
    requires PlaceOk(w) && LeaseOk(w) && MayTake(w, t, ids, next) && OwnLeases(w, t, ids, next)
    requires Takes(w, w', t, ids, next) && Ordered(w'.reg)
    ensures LeaseOk(w')
  {
    hide PlaceOk, Ordered;
    forall u: nat | u < |w'.threads| ensures LeaseHeld(w', u) {
      assert LeaseHeld(w, u);
      if u != t && LiveLease(w.threads[u]).Some? {
        OthersLease(w, t, ids, next, u);
      } else if u == t {
        LiveHasEntry(w, t);
      }
    }
  }

  ghost predicate EntryOfLive(w: World, u: nat)
    requires u < |w.threads| && |w.place| == |w.convs|
  {
    LiveLease(w.threads[u]).Some? ==>
      var l := LiveLease(w.threads[u]).value;
      && Conv(l.name) in w.reg.entries && w.reg.entries[Conv(l.name)].status == Leased
      && l.sid < |w.convs| && w.convs[l.sid] == l.name
      && w.reg.entries[Conv(l.name)].session.Some? && w.reg.entries[Conv(l.name)].session.value.sid == l.sid
  }

  /** A live lease has its entry, leased, under its own conversation ID. */
  lemma LiveHasEntry(w: World, u: nat)
    requires PlaceOk(w) && u < |w.threads| && LeaseHeld(w, u)
    ensures EntryOfLive(w, u)
  {
    if LiveLease(w.threads[u]).Some? {
      var l := LiveLease(w.threads[u]).value;
      assert Located(w, l.sid);
      assert EntryPlaced(w, Conv(l.name));
    }
  }

  /** No thread takes an entry another thread has leased. */
  lemma OthersLease(w: World, t: nat, ids: set<Id>, next: After, u: nat)
    requires PlaceOk(w) && LeaseOk(w) && t < |w.threads| && OwnLeases(w, t, ids, next)
    requires u < |w.threads| && u != t && LiveLease(w.threads[u]).Some?
    ensures Conv(LiveLease(w.threads[u]).value.name) !in ids
  {
    var l := LiveLease(w.threads[u]).value;
    assert LeaseHeld(w, u) && LeaseHeld(w, t);
    LiveHasEntry(w, u);
    if Conv(l.name) in ids {
      LiveHasEntry(w, t);
      assert false;
    }
  }

  // ---------- Closing the sessions taken ----------

  /** What closing the batch `victims` changes. */
  ghost predicate ClosesBatch(w: World, w': World, t: nat, victims: set<nat>) {
    && OnlyThread(w, w', t)
    && w.threads[t].Closing? && w.threads[t].victims == victims
    && |w'.place| == |w.place|
    && (forall s :: 0 <= s < |w.place| ==> w'.place[s] == if s in victims then ClosedByManager else w.place[s])
    && w' == w.(threads := w'.threads, place := w'.place)
    && Units(w'.threads[t]) == 0 && SlotOf(w'.threads[t]) == None && FetchedBy(w'.threads[t]) == None
    && Victims(w'.threads[t]) == {}
    && Fills(w'.threads[t]) == Fills(w.threads[t])
    && LiveLease(w'.threads[t]) == LiveLease(w.threads[t]) && SpentLease(w'.threads[t]) == SpentLease(w.threads[t])
    && (Stopping(w'.threads[t]) ==> Stopping(w.threads[t]))
  }

  lemma CloseKeeps(w: World, w': World, t: nat, victims: set<nat>)
    requires Inv(w) && ClosesBatch(w, w', t, victims)
    ensures Inv(w')
  {
    hide Inv, RegOk, SlotsOk, PlaceOk, HoldersOk, StopOk, LeaseOk, Distinct, Ordered;
    InvParts(w);
    StopStep(w, w', t);
    UnitsStep(w, w', t);
    FillStep(w, w', t);
    CloseSlots(w, w', t, victims);
    ClosePlaces(w, w', t, victims);
    CloseHolders(w, w', t, victims);
    if Distinct(w.convs) { CloseLeases(w, w', t, victims); }
    InvJoin(w');
  }

  lemma CloseSlots(w: World, w': World, t: nat, victims: set<nat>)
    requires SlotsOk(w) && ClosesBatch(w, w', t, victims)
    ensures SlotsOk(w')
  {
    forall n: nat | Warming(n) in w'.reg.entries ensures SlotHeld(w', n) {
      assert SlotHeld(w, n);
    }
  }

  lemma ClosePlaces(w: World, w': World, t: nat, victims: set<nat>)
    requires PlaceOk(w) && ClosesBatch(w, w', t, victims)
    ensures PlaceOk(w')
  {
    assert ThreadPlaced(w, t);
    forall id | id in w'.reg.entries ensures EntryPlaced(w', id) {
      assert EntryPlaced(w, id);
    }
    forall s: nat | s < |w'.place| ensures Located(w', s) {
      assert Located(w, s);
    }
    forall u: nat | u < |w'.threads| ensures ThreadPlaced(w', u) {
      assert ThreadPlaced(w, u);
    }
  }

  lemma CloseHolders(w: World, w': World, t: nat, victims: set<nat>)
    requires HoldersOk(w) && ClosesBatch(w, w', t, victims)
    ensures HoldersOk(w')
  {
    forall s: nat | s < |w'.place| ensures HolderOk(w', s) {
      assert HolderOk(w, s);
    }
  }

  lemma CloseLeases(w: World, w': World, t: nat, victims: set<nat>)
    requires PlaceOk(w) && LeaseOk(w) && ClosesBatch(w, w', t, victims)
    ensures LeaseOk(w')
  {
    assert ThreadPlaced(w, t);
    forall u: nat | u < |w'.threads| ensures LeaseHeld(w', u) {
      assert LeaseHeld(w, u);
    }
  }
}
