/**
 The operations of the manager as wholes: each one, run with no other thread in between,
 takes the pool through steps of its own thread and ends in the state those steps lead to,
 with the sessions closed that those steps close.
 */
module Simulation {
  import opened Ids
  import opened Registry
  import opened Wrappers
  import opened RegistryLaws
  import opened Pool
  import opened PoolInvariant
  import opened PoolMoves
  import opened Implementation
  import S = SessionManager

  ghost predicate CanSolo(w: World, t: nat, cs: seq<Choice>)
    decreases |cs|
  {
    cs == [] || (Enabled(w, t, cs[0]) && CanSolo(Next(w, t, cs[0]), t, cs[1..]))
  }

  /** Steps of thread `t` alone, with these outcomes of the outside world. */
  ghost function Solo(w: World, t: nat, cs: seq<Choice>): World
    requires CanSolo(w, t, cs)
    decreases |cs|
  {
    if cs == [] then w else Solo(Next(w, t, cs[0]), t, cs[1..])
  }

  ghost predicate Reaches(w: World, t: nat, w': World) {
    exists cs: seq<Choice> :: CanSolo(w, t, cs) && Solo(w, t, cs) == w'
  }

  lemma ReachesItself(w: World, t: nat)
    ensures Reaches(w, t, w)
  {
    assert CanSolo(w, t, []) && Solo(w, t, []) == w;
  }

  lemma ReachesMore(w: World, t: nat, c: Choice, w1: World, w': World)
    requires Enabled(w, t, c) && w1 == Next(w, t, c) && Reaches(w1, t, w')
    ensures Reaches(w, t, w')
  {
    hide Enabled, Next;
    var cs: seq<Choice> :| CanSolo(w1, t, cs) && Solo(w1, t, cs) == w';
    var longer := [c] + cs;
    assert longer[1..] == cs;
    assert CanSolo(w, t, longer) && Solo(w, t, longer) == w';
  }

  /** The sessions `victims` have been closed, no other, and no thread has got hold of a session. */
  ghost predicate Closes(w: World, w': World, victims: set<nat>) {
    && |w'.place| == |w.place|
    && (forall s: nat :: s < |w.place| ==>
          (w'.place[s] == ClosedByManager <==> w.place[s] == ClosedByManager || s in victims))
    && (forall u: nat :: u < |w'.threads| && FetchedBy(w'.threads[u]).Some? ==>
          u < |w.threads| && FetchedBy(w'.threads[u]) == FetchedBy(w.threads[u]))
  }

  const ANY: Choice := Choice(true, false, 0, "")

  /** Giving back units, closing the victims and asking for a refill. */
  lemma TailReaches(w: World, t: nat, units: nat, victims: set<nat>, kick: bool, next: After) returns (w': World)
    requires t < |w.threads| && w.threads[t] == Refund(units, victims, kick, next)
    ensures Reaches(w, t, w') && t < |w'.threads| && w'.threads[t] == Resume(next) && w'.limits == w.limits
    ensures w'.used == w.used - units && w'.reg == if kick then MaybeRefill(w.limits, w.reg) else w.reg
    ensures Closes(w, w', victims)
  {
    hide Reaches, Closes, MaybeRefill, Next, Enabled;
    RefundStep(w, t);
    var w1 := Next(w, t, ANY);
    CloseStep(w1, t);
    var w2 := Next(w1, t, ANY);
    if kick {
      w' := KickReaches(w2, t, next);
    } else {
      w' := w2;
      ReachesItself(w2, t);
      ClosesNothing(w2);
    }
    ReachesMore(w1, t, ANY, w2, w');
    ReachesMore(w, t, ANY, w1, w');
    ClosesBoth(w, w1, w2, {}, victims);
    ClosesBoth(w, w2, w', victims, {});
    assert {} + victims == victims && victims + {} == victims;
  }

  lemma RefundStep(w: World, t: nat)
    requires t < |w.threads| && w.threads[t].Refund?
    ensures Enabled(w, t, ANY)
    ensures var pc := w.threads[t]; var w1 := Next(w, t, ANY);
      && t < |w1.threads| && w1.threads[t] == Closing(pc.victims, pc.kick, pc.next) && w1.limits == w.limits
      && w1.reg == w.reg && w1.used == w.used - pc.units && Closes(w, w1, {})
  {
    hide MaybeRefill, Spawns, StepRequest, StepFill;
  }

  lemma CloseStep(w: World, t: nat)
    requires t < |w.threads| && w.threads[t].Closing?
    ensures Enabled(w, t, ANY)
    ensures var pc := w.threads[t]; var w1 := Next(w, t, ANY);
      && t < |w1.threads| && w1.threads[t] == (if pc.kick then Kick(pc.next) else Resume(pc.next)) && w1.limits == w.limits
      && w1.reg == w.reg && w1.used == w.used && Closes(w, w1, pc.victims)
  {
    hide MaybeRefill, Spawns, StepRequest, StepFill;
  }

  lemma ClosesBoth(w: World, w1: World, w2: World, a: set<nat>, b: set<nat>)
    requires Closes(w, w1, a) && Closes(w1, w2, b)
    ensures Closes(w, w2, a + b)
  {
  }

  lemma NothingTwice(w: World, w1: World, w2: World)
    requires Closes(w, w1, {}) && Closes(w1, w2, {})
    ensures Closes(w, w2, {})
  {
  }

  lemma ClosesNothing(w: World)
    ensures Closes(w, w, {})
  {
  }

  lemma KickReaches(w: World, t: nat, next: After) returns (w': World)
    requires t < |w.threads| && w.threads[t] == Kick(next)
    ensures Reaches(w, t, w') && t < |w'.threads| && w'.threads[t] == Resume(next) && w'.limits == w.limits
    ensures w' == Next(w, t, ANY) && w'.used == w.used && w'.reg == MaybeRefill(w.limits, w.reg) && Closes(w, w', {})
  {
    hide Reaches, MaybeRefill, Spawns, StepRequest, StepFill;
    w' := Next(w, t, ANY);
    ReachesItself(w', t);
    ReachesMore(w, t, ANY, w', w');
  }

  /** A section that takes entries out, and its tail. */
  lemma TakeReaches(w: World, t: nat, c: Choice, ids: set<Id>, kick: bool, next: After) returns (w': World)
    requires Enabled(w, t, c) && Next(w, t, c) == Take(w, t, ids, kick, next)
    ensures Reaches(w, t, w') && t < |w'.threads| && w'.threads[t] == Resume(next) && w'.limits == w.limits
    ensures w'.used == w.used - |UnitIds(w.reg, ids)|
    ensures w'.reg == if kick then MaybeRefill(w.limits, Without(w.reg, ids)) else Without(w.reg, ids)
    ensures Closes(w, w', Sids(w.reg, ids))
  {
    hide Next, Reaches, Without, UnitIds, Sids, MaybeRefill;
    var w1 := Next(w, t, c);
    assert Closes(w, w1, {});
    hide Retire;
    w' := TailReaches(w1, t, |UnitIds(w.reg, ids)|, Sids(w.reg, ids), kick, next);
    ReachesMore(w, t, c, w1, w');
  }

  // ---------- Closing ----------

  /** The sessions a sweep of `ids` closes are those the pool knows under these numbers. */
  lemma SameVictims(m: S.Manager, w: World, objs: seq<S.SessionState>, ids: set<Id>)
    requires Represents(m, w, objs) && RegOk(w.reg)
    ensures forall s: nat :: s < |objs| ==> (objs[s] in m.OpenAt(ids) <==> s in Sids(w.reg, ids))
  {
    forall s: nat | s < |objs| ensures objs[s] in m.OpenAt(ids) <==> s in Sids(w.reg, ids) {
      if objs[s] in m.OpenAt(ids) {
        var id :| id in ids && id in m.sessions && m.sessions[id].status != Starting && m.sessions[id].session == objs[s];
        assert w.reg.entries[id] == m.sessions[id].View();
      }
      if s in Sids(w.reg, ids) {
        var id :| id in ids && id in w.reg.entries && w.reg.entries[id].session.Some? && w.reg.entries[id].session.value.sid == s;
        assert w.reg.entries[id] == m.sessions[id].View() && EntryOk(w.reg, id, w.reg.entries[id]);
        assert Known(m.sessions[id].session, objs);
      }
    }
  }

  /** After closing them, and with nothing new in the registry, the sessions are those of the pool again. */
  lemma EmbodiedAfter(sessions: map<Id, S.ManagedSession>, w: World, w': World, objs: seq<S.SessionState>, victims: set<nat>)
    requires |objs| == |w.place| && Closes(w, w', victims)
    requires forall s: nat :: s < |objs| ==> objs[s].sid == s
    requires forall s: nat :: s < |objs| ==> (objs[s].Closed() <==> w.place[s] == ClosedByManager || s in victims)
    requires forall id :: id in sessions ==> Known(sessions[id].session, objs)
    requires forall t: nat :: t < |w.threads| ==> FetchedKnown(FetchedBy(w.threads[t]), objs)
    ensures Embodied(sessions, w', objs)
  {
    hide Known, FetchedKnown;
    forall u: nat | u < |w'.threads| ensures FetchedKnown(FetchedBy(w'.threads[u]), objs) {
      if FetchedBy(w'.threads[u]) == None { NothingFetched(objs); }
    }
  }

  // ---------- The operations ----------

  /** Release, at the end of a request. */
  method Release(m: S.Manager, lease: S.SessionLease, l: LeaseRef, now: int, objs: seq<S.SessionState>, ghost w: World, ghost t: nat)
    returns (ghost w': World)
    requires Represents(m, w, objs) && Inv(w) && t < |w.threads| && w.threads[t] == ReqRelease(l)
    requires lease.manager == m && lease.key == Conv(l.name) && !lease.released
    modifies lease`released, m, m.sessions.Values, objs
    ensures Represents(m, w', objs) && Reaches(w, t, w') && t < |w'.threads| && w'.threads[t] == Done
  {
    hide Inv, Reaches, S.Manager.Valid, S.Manager.Entries, Without, MaybeRefill, Sids, Known, FetchedKnown, Next;
    hide Enabled;
    hide Spawns, NeedsWarm, RegOk, PlaceOk;
    InvGives(w);
    SameVictims(m, w, objs, {lease.key});
    LeaseVictims(m, objs, lease.key);
    var _ := lease.Release(now);
    ReleaseIsRetire(w, t, l);
    w' := RetireLands(m, objs, w, t, ANY, l, ThenDone);
  }

  /** Invalidation of the own conversation, when a request is cancelled. */
  method Invalidate(m: S.Manager, l: LeaseRef, now: int, objs: seq<S.SessionState>, ghost w: World, ghost t: nat)
    returns (ghost w': World)
    requires Represents(m, w, objs) && Inv(w) && t < |w.threads| && w.threads[t] == ReqRun(l)
    modifies m, m.sessions.Values, objs
    ensures Represents(m, w', objs) && Reaches(w, t, w') && t < |w'.threads| && w'.threads[t] == ReqRelease(l)
  {
    hide Inv, Reaches, S.Manager.Valid, S.Manager.Entries, Without, MaybeRefill, Sids, Known, FetchedKnown, Next;
    hide Enabled;
    hide Spawns, NeedsWarm, RegOk, PlaceOk;
    InvGives(w);
    SameVictims(m, w, objs, {Conv(l.name)});
    LeaseVictims(m, objs, Conv(l.name));
    var _ := m.Retire(Conv(l.name), Closed, false, now);
    InvalidateIsRetire(w, t, l);
    w' := RetireLands(m, objs, w, t, ANY.(ok := false), l, ThenRelease(l));
  }

  lemma RetireLands(
    m: S.Manager, objs: seq<S.SessionState>, w: World, t: nat, c: Choice, l: LeaseRef, next: After) returns (w': World)
    requires RegOk(w.reg) && Enabled(w, t, c) && Next(w, t, c) == RetireLease(w, t, l, next) && FetchedBy(Resume(next)) == None
    requires m.Valid() && m.limits == w.limits && |objs| == |w.place|
    requires if Conv(l.name) in w.reg.entries
             then m.View() == MaybeRefill(w.limits, Without(w.reg, {Conv(l.name)})) && m.inUse == w.used - 1
             else m.View() == w.reg && m.inUse == w.used
    requires forall s: nat :: s < |objs| ==> objs[s].sid == s
    requires forall s: nat :: s < |objs| ==>
      (objs[s].Closed() <==> w.place[s] == ClosedByManager || s in Sids(w.reg, {Conv(l.name)}))
    requires forall id :: id in m.sessions ==> Known(m.sessions[id].session, objs)
    requires forall u: nat :: u < |w.threads| ==> FetchedKnown(FetchedBy(w.threads[u]), objs)
    ensures Represents(m, w', objs) && Reaches(w, t, w') && t < |w'.threads| && w'.threads[t] == Resume(next)
  {
    hide Reaches, Closes, S.Manager.Valid, S.Manager.Entries, Without, MaybeRefill, UnitIds, Known, FetchedKnown;
    hide Next, Enabled;
    OneUnit(w.reg, Conv(l.name));
    w' := RetireReaches(w, t, c, l, next);
    assert Conv(l.name) !in w.reg.entries ==> Sids(w.reg, {Conv(l.name)}) == {};
    EmbodiedAfter(m.sessions, w, w', objs, Sids(w.reg, {Conv(l.name)}));
  }

  lemma OneUnit(r: Reg, id: Id)
    requires RegOk(r)
    ensures id in r.entries ==> |UnitIds(r, {id})| == 1
  {
    if id in r.entries {
      assert EntryOk(r, id, r.entries[id]);
      assert UnitIds(r, {id}) == {id};
    }
  }

  lemma ReleaseIsRetire(w: World, t: nat, l: LeaseRef)
    requires t < |w.threads| && w.threads[t] == ReqRelease(l)
    ensures Enabled(w, t, ANY) && Next(w, t, ANY) == RetireLease(w, t, l, ThenDone) && FetchedBy(Done) == None
  {
  }

  lemma InvalidateIsRetire(w: World, t: nat, l: LeaseRef)
    requires t < |w.threads| && w.threads[t] == ReqRun(l)
    ensures var c := ANY.(ok := false); Enabled(w, t, c) && Next(w, t, c) == RetireLease(w, t, l, ThenRelease(l))
    ensures FetchedBy(ReqRelease(l)) == None
  {
  }

  /** A session is retired by closing what a sweep of its key would close. */
  lemma LeaseVictims(m: S.Manager, objs: seq<S.SessionState>, id: Id)
    requires RegOk(m.View()) && forall o :: o in m.sessions ==> Known(m.sessions[o].session, objs)
    ensures id in m.sessions ==>
      m.OpenAt({id}) == if m.sessions[id].session == null || m.sessions[id].status == Starting then {} else {m.sessions[id].session}
    ensures id in m.sessions && m.sessions[id].session != null ==>
      m.sessions[id].status != Starting && m.sessions[id].session in objs
    ensures id !in m.sessions ==> m.OpenAt({id}) == {}
    ensures id in m.sessions <==> id in m.View().entries
  {
    if id in m.sessions {
      assert m.View().entries[id] == m.sessions[id].View();
      assert EntryOk(m.View(), id, m.View().entries[id]);
      assert Known(m.sessions[id].session, objs);
    }
  }

  lemma RetireReaches(w: World, t: nat, c: Choice, l: LeaseRef, next: After) returns (w': World)
    requires Enabled(w, t, c) && Next(w, t, c) == RetireLease(w, t, l, next)
    ensures Reaches(w, t, w') && t < |w'.threads| && w'.threads[t] == Resume(next) && w'.limits == w.limits
    ensures Conv(l.name) !in w.reg.entries ==> w'.reg == w.reg && w'.used == w.used && (FetchedBy(Resume(next)) == None ==> Closes(w, w', {}))
    ensures Conv(l.name) in w.reg.entries ==>
      && w'.reg == MaybeRefill(w.limits, Without(w.reg, {Conv(l.name)}))
      && w'.used == w.used - |UnitIds(w.reg, {Conv(l.name)})|
      && Closes(w, w', Sids(w.reg, {Conv(l.name)}))
  {
    hide Next, Reaches, Without, MaybeRefill, UnitIds, Sids, Retire;
    if Conv(l.name) in w.reg.entries {
      w' := TakeReaches(w, t, c, {Conv(l.name)}, true, next);
    } else {
      w' := Next(w, t, c);
      ReachesItself(w', t);
      ReachesMore(w, t, c, w', w');
    }
  }

  /** Removing the slot of a failed start, by an acquire. */
  method Remove(m: S.Manager, wid: nat, objs: seq<S.SessionState>, ghost w: World, ghost t: nat) returns (ghost w': World)
    requires Represents(m, w, objs) && Inv(w) && t < |w.threads| && w.threads[t] == AcqFail(wid)
    modifies m
    ensures Represents(m, w', objs) && Reaches(w, t, w') && t < |w'.threads| && w'.threads[t] == Done
  {
    hide Inv, Reaches, Closes, S.Manager.Valid, S.Manager.Entries, Without, MaybeRefill, UnitIds, Sids, Known;
    hide FetchedKnown;
    InvGives(w);
    SlotHasNoSession(w.reg, wid);
    m.Remove(Warming(wid));
    w' := RemoveReaches(w, t, wid);
    EmbodiedAfter(m.sessions, w, w', objs, {});
  }

  lemma SlotHasNoSession(r: Reg, wid: nat)
    requires RegOk(r)
    ensures Sids(r, {Warming(wid)}) == {}
  {
    if Warming(wid) in r.entries { assert EntryOk(r, Warming(wid), r.entries[Warming(wid)]); }
  }

  lemma RemoveReaches(w: World, t: nat, wid: nat) returns (w': World)
    requires t < |w.threads| && w.threads[t] == AcqFail(wid)
    ensures Reaches(w, t, w') && t < |w'.threads| && w'.threads[t] == Done && w'.limits == w.limits
    ensures w'.reg == Without(w.reg, {Warming(wid)}) && w'.used == w.used - |UnitIds(w.reg, {Warming(wid)})|
    ensures Closes(w, w', Sids(w.reg, {Warming(wid)}))
  {
    hide Reaches, Closes, Without, MaybeRefill, UnitIds, Sids, Retire, StepFill, StepTail;
    w' := TakeReaches(w, t, ANY, {Warming(wid)}, false, ThenDone);
  }

  /** Asking for a refill, with the goroutine started if one is needed. */
  method MaybeRefillNow(m: S.Manager, objs: seq<S.SessionState>, next: After, ghost w: World, ghost t: nat)
    returns (spawn: bool, ghost w': World)
    requires Represents(m, w, objs) && t < |w.threads| && w.threads[t] == Kick(next)
    modifies m`refillRunning, m`refillRequested
    ensures Represents(m, w', objs) && Reaches(w, t, w') && t < |w'.threads| && w'.threads[t] == Resume(next)
    ensures |w'.threads| == |w.threads| + (if spawn then 1 else 0) && (spawn ==> w'.threads[|w.threads|] == FillTop)
  {
    hide Reaches, Closes, S.Manager.Valid, S.Manager.Entries, MaybeRefill, NeedsWarm, Known, FetchedKnown;
    spawn := m.MaybeRefillNow();
    w' := KickReaches(w, t, next);
    KickSpawns(w, t, next);
    EmbodiedAfter(m.sessions, w, w', objs, {});
  }

  lemma KickSpawns(w: World, t: nat, next: After)
    requires t < |w.threads| && w.threads[t] == Kick(next)
    ensures var w' := Next(w, t, ANY); var spawn := Spawns(w.limits, w.reg);
      |w'.threads| == |w.threads| + (if spawn then 1 else 0) && (spawn ==> w'.threads[|w.threads|] == FillTop)
  {
    hide NeedsWarm, StepRequest, StepFill;
  }

  method FinishRefillFailure(m: S.Manager, objs: seq<S.SessionState>, ghost w: World, ghost t: nat) returns (ghost w': World)
    requires Represents(m, w, objs) && t < |w.threads| && w.threads[t] == FillEnd
    modifies m`refillRunning, m`refillRequested
    ensures Represents(m, w', objs) && Reaches(w, t, w') && t < |w'.threads| && w'.threads[t] == Done
  {
    hide Reaches, S.Manager.Entries, NeedsWarm, StepRequest, StepTail, Known, FetchedKnown;
    m.FinishRefillFailure();
    w' := Next(w, t, ANY);
    ReachesItself(w', t);
    ReachesMore(w, t, ANY, w', w');
    EmbodiedAfter(m.sessions, w, w', objs, {});
  }

  method EvictExpiredIdle(m: S.Manager, now: int, ttl: int, objs: seq<S.SessionState>, ghost w: World, ghost t: nat)
    returns (ghost w': World)
    requires Represents(m, w, objs) && Inv(w) && t < |w.threads| && w.threads[t] == EvictTake(now, ttl)
    modifies m, m.sessions.Values, m.OpenAt(ExpiredIds(m.View(), now, ttl))
    ensures Represents(m, w', objs) && Reaches(w, t, w') && t < |w'.threads| && w'.threads[t] == Done
  {
    hide Inv, Reaches, Closes, S.Manager.Valid, S.Manager.Entries, Without, MaybeRefill, UnitIds, Sids, ExpiredIds;
    hide Known, FetchedKnown;
    ghost var ids := ExpiredIds(w.reg, now, ttl);
    InvGives(w);
    SameVictims(m, w, objs, ids);
    var _ := m.EvictExpiredIdle(now, ttl);
    w' := EvictReaches(w, t, now, ttl);
    EmbodiedAfter(m.sessions, w, w', objs, if ttl > 0 then Sids(w.reg, ids) else {});
  }

  lemma EvictReaches(w: World, t: nat, now: int, ttl: int) returns (w': World)
    requires t < |w.threads| && w.threads[t] == EvictTake(now, ttl)
    ensures Reaches(w, t, w') && t < |w'.threads| && w'.threads[t] == Done && w'.limits == w.limits
    ensures ttl <= 0 ==> w'.reg == w.reg && w'.used == w.used
    ensures ttl > 0 ==>
      var ids := ExpiredIds(w.reg, now, ttl); var units := |UnitIds(w.reg, ids)|;
      && w'.used == w.used - units
      && w'.reg == (if units > 0 then MaybeRefill(w.limits, Without(w.reg, ids)) else Without(w.reg, ids))
      && Closes(w, w', Sids(w.reg, ids))
    ensures ttl <= 0 ==> Closes(w, w', {})
  {
    hide Reaches, Without, MaybeRefill, UnitIds, Sids, Retire, ExpiredIds, StepFill, StepRequest;
    if ttl > 0 {
      var ids := ExpiredIds(w.reg, now, ttl);
      w' := TakeReaches(w, t, ANY, ids, |UnitIds(w.reg, ids)| > 0, ThenDone);
    } else {
      w' := Next(w, t, ANY);
      ReachesItself(w', t);
      ReachesMore(w, t, ANY, w', w');
    }
  }

  method DropIdleSessions(m: S.Manager, objs: seq<S.SessionState>, ghost w: World, ghost t: nat) returns (ghost w': World)
    requires Represents(m, w, objs) && Inv(w) && t < |w.threads| && w.threads[t] == ReqDrop
    modifies m, m.sessions.Values, m.OpenAt(DroppableIds(m.View()))
    ensures Represents(m, w', objs) && Reaches(w, t, w') && t < |w'.threads| && w'.threads[t] == AcqWait(true)
  {
    hide Inv, Reaches, Closes, S.Manager.Valid, S.Manager.Entries, Without, MaybeRefill, UnitIds, Sids, DroppableIds;
    hide Known, FetchedKnown;
    InvGives(w);
    SameVictims(m, w, objs, DroppableIds(w.reg));
    m.DropIdleSessions();
    w' := DropReaches(w, t);
    EmbodiedAfter(m.sessions, w, w', objs, Sids(w.reg, DroppableIds(w.reg)));
  }

  lemma DropReaches(w: World, t: nat) returns (w': World)
    requires t < |w.threads| && w.threads[t] == ReqDrop
    ensures Reaches(w, t, w') && t < |w'.threads| && w'.threads[t] == AcqWait(true) && w'.limits == w.limits
    ensures w'.used == w.used - |UnitIds(w.reg, DroppableIds(w.reg))| && w'.reg == Without(w.reg, DroppableIds(w.reg))
    ensures Closes(w, w', Sids(w.reg, DroppableIds(w.reg)))
  {
    hide Reaches, Without, MaybeRefill, UnitIds, Sids, Retire, DroppableIds, StepFill, StepTail;
    w' := TakeReaches(w, t, ANY, DroppableIds(w.reg), false, ThenRetry);
  }

  method Shutdown(m: S.Manager, objs: seq<S.SessionState>, ghost w: World, ghost t: nat)
    returns (drained: bool, ghost w': World)
    requires Represents(m, w, objs) && Inv(w) && t < |w.threads| && w.threads[t] == ShutCancel
    modifies m, m.sessions.Values, m.OpenAt(StoppableIds(m.View()))
    ensures Represents(m, w', objs) && Reaches(w, t, w') && t < |w'.threads| && w'.threads[t] == ShutPoll
    ensures drained <==> Enabled(w', t, ANY)
  {
    hide Inv, Reaches, Closes, S.Manager.Valid, S.Manager.Entries, Without, MaybeRefill, UnitIds, Sids, StoppableIds;
    hide Known, FetchedKnown, Enabled;
    InvGives(w);
    SameVictims(m, w, objs, StoppableIds(w.reg));
    drained := m.Shutdown();
    w' := ShutdownReaches(w, t);
    PollEnds(w', t);
    EmbodiedAfter(m.sessions, w, w', objs, Sids(w.reg, StoppableIds(w.reg)));
  }

  lemma PollEnds(w: World, t: nat)
    requires t < |w.threads| && w.threads[t] == ShutPoll
    ensures Enabled(w, t, ANY) <==> w.reg.entries == map[]
  {
  }

  lemma ShutdownReaches(w: World, t: nat) returns (w': World)
    requires t < |w.threads| && w.threads[t] == ShutCancel
    ensures Reaches(w, t, w') && t < |w'.threads| && w'.threads[t] == ShutPoll && w'.limits == w.limits
    ensures w'.used == w.used - |UnitIds(w.reg, StoppableIds(w.reg))|
    ensures w'.reg == Without(w.reg.(cancelled := true), StoppableIds(w.reg))
    ensures Closes(w, w', Sids(w.reg, StoppableIds(w.reg)))
  {
    hide Reaches, Closes, Without, MaybeRefill, UnitIds, Sids, Retire, StoppableIds, Next, Enabled;
    S.SameIds(w.reg);
    CancelStep(w, t);
    var w1 := Next(w, t, ANY);
    StopStep(w1, t);
    w' := TakeReaches(w1, t, ANY, StoppableIds(w1.reg), false, ThenPoll);
    ReachesMore(w, t, ANY, w1, w');
    SameSids(w.reg, w1.reg, StoppableIds(w.reg));
    ClosesBoth(w, w1, w', {}, Sids(w.reg, StoppableIds(w.reg)));
    assert {} + Sids(w.reg, StoppableIds(w.reg)) == Sids(w.reg, StoppableIds(w.reg));
  }

  lemma CancelStep(w: World, t: nat)
    requires t < |w.threads| && w.threads[t] == ShutCancel
    ensures Enabled(w, t, ANY)
    ensures var w1 := Next(w, t, ANY);
      && t < |w1.threads| && w1.threads[t] == ShutTake && w1.limits == w.limits && w1.used == w.used
      && w1.reg == w.reg.(cancelled := true) && Closes(w, w1, {})
  {
    hide StepRequest, StepFill;
  }

  lemma StopStep(w: World, t: nat)
    requires t < |w.threads| && w.threads[t] == ShutTake
    ensures Enabled(w, t, ANY) && Next(w, t, ANY) == Take(w, t, StoppableIds(w.reg), false, ThenPoll)
  {
    hide StepRequest, StepFill, Take, StoppableIds;
  }

  lemma SameSids(r: Reg, r': Reg, ids: set<Id>)
    requires r'.entries == r.entries
    ensures Sids(r', ids) == Sids(r, ids)
  {
  }

  method ActivateIdle(m: S.Manager, wid: nat, s: Sess, now: int, objs: seq<S.SessionState>, ghost w: World, ghost t: nat)
    returns (ghost w': World)
    requires Represents(m, w, objs) && Inv(w) && t < |w.threads| && w.threads[t] == FillActivate(wid, s)
    modifies m, objs
    ensures Represents(m, w', objs) && Reaches(w, t, w') && t < |w'.threads| && w'.threads[t] == FillTop
  {
    hide Inv, Reaches, Closes, S.Manager.Valid, S.Manager.Entries, Registry.ActivateIdle, UnitIds, KeepsIdle;
    assert FetchedKnown(FetchedBy(w.threads[t]), objs);
    InvGives(w);
    LateIsOpen(w, t);
    m.ActivateIdle(wid, objs[s.sid], now);
    w' := ActivateReaches(w, t, wid, s, now);
    EmbodiedAfter(m.sessions, w, w', objs, if KeepsIdle(w.reg, wid) then {} else {s.sid});
  }

  lemma LateIsOpen(w: World, t: nat)
    requires PlaceOk(w) && t < |w.threads| && FetchedBy(w.threads[t]).Some?
    ensures FetchedBy(w.threads[t]).value.sid < |w.place|
    ensures w.place[FetchedBy(w.threads[t]).value.sid] == Fetched(t)
  {
    assert ThreadPlaced(w, t);
  }

  lemma ActivateReaches(w: World, t: nat, wid: nat, s: Sess, now: int) returns (w': World)
    requires t < |w.threads| && w.threads[t] == FillActivate(wid, s) && s.sid < |w.place| && w.place[s.sid] == Fetched(t)
    ensures Closes(w, w', if KeepsIdle(w.reg, wid) then {} else {s.sid})
    ensures Reaches(w, t, w') && t < |w'.threads| && w'.threads[t] == FillTop && w'.limits == w.limits
    ensures w'.reg == Registry.ActivateIdle(w.reg, wid, s, now)
    ensures w'.used == w.used - if KeepsIdle(w.reg, wid) then 0 else |UnitIds(w.reg, {Warming(wid)})|
  {
    hide Reaches, Registry.ActivateIdle, UnitIds, KeepsIdle, MaybeRefill, StepRequest, StepTail;
    var c := ANY.(now := now);
    var w1 := Next(w, t, c);
    if KeepsIdle(w.reg, wid) {
      w' := w1;
      ReachesItself(w', t);
    } else {
      w' := TailReaches(w1, t, |UnitIds(w.reg, {Warming(wid)})|, {s.sid}, false, ThenRefillTop);
    }
    ReachesMore(w, t, c, w1, w');
  }

  method FinishRefillPass(m: S.Manager, objs: seq<S.SessionState>, ghost w: World, ghost t: nat)
    returns (continues: bool, ghost w': World)
    requires Represents(m, w, objs) && t < |w.threads| && w.threads[t] == FillPass
    modifies m`refillRunning, m`refillRequested
    ensures Represents(m, w', objs) && Reaches(w, t, w') && t < |w'.threads|
    ensures w'.threads[t] == if continues then FillTop else Done
  {
    hide Reaches, S.Manager.Entries, NeedsWarm, StepRequest, StepTail, Known, FetchedKnown;
    continues := m.FinishRefillPass();
    w' := Next(w, t, ANY);
    ReachesItself(w', t);
    ReachesMore(w, t, ANY, w', w');
    EmbodiedAfter(m.sessions, w, w', objs, {});
  }

  method ReserveWarmIdleSlot(m: S.Manager, now: int, objs: seq<S.SessionState>, ghost w: World, ghost t: nat)
    returns (wid: nat, ok: bool, ghost w': World)
    requires Represents(m, w, objs) && t < |w.threads| && w.threads[t] == FillTry
    modifies m`sessions, m`byAge, m`warmingSeq, m`inUse
    ensures Represents(m, w', objs) && Reaches(w, t, w') && t < |w'.threads|
    ensures w'.threads[t] == if ok then FillStart(wid) else FillPass
  {
    hide Reaches, Closes, S.Manager.Valid, S.Manager.Entries, NeedsWarm, Reserve, FetchedKnown;
    wid, ok := m.ReserveWarmIdleSlot(now);
    w' := ReserveReaches(w, t, now);
    EmbodiedAfter(m.sessions, w, w', objs, {});
  }

  lemma ReserveReaches(w: World, t: nat, now: int) returns (w': World)
    requires t < |w.threads| && w.threads[t] == FillTry
    ensures Reaches(w, t, w') && t < |w'.threads| && w'.limits == w.limits
    ensures var ok := w.used < w.limits.maxSessions && NeedsWarm(w.limits, w.reg);
      && w'.threads[t] == (if ok then FillStart(w.reg.warmingSeq + 1) else FillPass)
      && w'.reg == (if ok then Reserve(w.reg, true, now) else w.reg)
      && w'.used == w.used + if ok then 1 else 0
    ensures Closes(w, w', {})
  {
    hide Reaches, Closes, NeedsWarm, Reserve, Next, Enabled;
    var c := ANY.(now := now);
    TryStep(w, t, c);
    var w1 := Next(w, t, c);
    if w.used < w.limits.maxSessions {
      TakeSlotStep(w1, t, c);
      w' := Next(w1, t, c);
      ReachesItself(w', t);
      ReachesMore(w1, t, c, w', w');
      NothingTwice(w, w1, w');
    } else {
      w' := w1;
      ReachesItself(w', t);
    }
    ReachesMore(w, t, c, w1, w');
  }

  lemma TryStep(w: World, t: nat, c: Choice)
    requires t < |w.threads| && w.threads[t] == FillTry
    ensures Enabled(w, t, c)
    ensures var w1 := Next(w, t, c); var free := w.used < w.limits.maxSessions;
      && t < |w1.threads| && w1.threads[t] == (if free then FillReserve else FillPass) && w1.limits == w.limits
      && w1.reg == w.reg && w1.used == w.used + (if free then 1 else 0) && Closes(w, w1, {})
  {
    hide StepRequest, StepTail;
  }

  lemma TakeSlotStep(w: World, t: nat, c: Choice)
    requires t < |w.threads| && w.threads[t] == FillReserve
    ensures Enabled(w, t, c)
    ensures var w1 := Next(w, t, c); var needs := NeedsWarm(w.limits, w.reg);
      && t < |w1.threads| && w1.threads[t] == (if needs then FillStart(w.reg.warmingSeq + 1) else FillPass)
      && w1.limits == w.limits && w1.reg == (if needs then Reserve(w.reg, true, c.now) else w.reg)
      && w1.used == w.used - (if needs then 0 else 1) && Closes(w, w1, {})
  {
    hide NeedsWarm, Reserve, StepRequest, StepTail;
  }

  // ---------- Acquiring ----------

  /** The session a start would yield at this point of the run: nobody's, open, and next in number. */
  ghost predicate NextSession(started: S.SessionState?, now: int, w: World)
    reads started
  {
    started != null ==> started.Fetched() == Sess(|w.convs|, started.conversationID, now) && !started.Closed()
  }

  /** One session more, open, and no thread holds it as fetched. */
  ghost predicate Opens(w: World, w': World) {
    && |w'.place| == |w.place| + 1 && w'.place[|w.place|] != ClosedByManager
    && (forall s: nat :: s < |w.place| ==> (w'.place[s] == ClosedByManager <==> w.place[s] == ClosedByManager))
    && (forall u: nat :: u < |w'.threads| && FetchedBy(w'.threads[u]).Some? ==>
          u < |w.threads| && FetchedBy(w'.threads[u]) == FetchedBy(w.threads[u]))
  }

  lemma EmbodiedWithNew(
    sessions: map<Id, S.ManagedSession>, before: map<Id, S.ManagedSession>, id: Id, w: World, w': World,
    objs: seq<S.SessionState>, started: S.SessionState)
    requires Embodied(before, w, objs) && Opens(w, w') && started.sid == |objs| && !started.Closed()
    requires id in sessions && sessions[id].session == started
    requires forall o :: o in sessions && o != id ==> o in before && sessions[o] == before[o]
    ensures Embodied(sessions, w', objs + [started])
  {
    var more := objs + [started];
    forall o | o in sessions ensures Known(sessions[o].session, more) {
      if o != id { assert Known(before[o].session, objs); }
    }
    forall u: nat | u < |w'.threads| ensures FetchedKnown(FetchedBy(w'.threads[u]), more) {
      if FetchedBy(w'.threads[u]).Some? { assert FetchedKnown(FetchedBy(w.threads[u]), objs); }
    }
  }

  /** `retry` tells acquireFresh from acquire. */
  ghost predicate Acquired(w': World, t: nat, lease: S.SessionLease?, retry: bool)
    reads lease
  {
    && t < |w'.threads|
    && if lease == null then w'.threads[t] == Done
       else w'.threads[t].ReqUpload? && w'.threads[t].retry == retry && lease.key == Conv(w'.threads[t].lease.name)
            && lease.session != null && lease.session.sid == w'.threads[t].lease.sid
  }

  method Acquire(m: S.Manager, started: S.SessionState?, now: int, ghost objs: seq<S.SessionState>, ghost w: World, ghost t: nat)
    returns (lease: S.SessionLease?, ghost objs': seq<S.SessionState>, ghost w': World)
    requires Represents(m, w, objs) && Inv(w) && t < |w.threads| && w.threads[t] == AcqScan && NextSession(started, now, w)
    modifies m, m.sessions.Values
    ensures Represents(m, w', objs') && Reaches(w, t, w') && Acquired(w', t, lease, false)
    ensures objs' == objs || (started != null && objs' == objs + [started])
  {
    hide Inv, Reaches, Embodied, Acquired, S.Manager.Valid, MaybeRefill, TryActivateIdle, StartLeased;
    InvGives(w);
    ghost var before := m.sessions;
    ghost var idle := FirstLeasable(w.reg.byAge, w.reg.entries);
    IdleSession(m, w, idle);
    hide FirstLeasable, S.Manager.Entries;
    var full, spawn;
    lease, full, spawn := m.Acquire(started, now);
    objs' := objs;
    if idle.Some? {
      w' := LeaseLands(m, lease, objs, w, t, now);
    } else if full || started == null {
      w' := NothingLands(m, before, lease, full, started, objs, w, t, now);
    } else {
      objs', w' := StartLands(m, before, lease, started, objs, w, t, now);
    }
  }

  lemma LeaseLands(m: S.Manager, lease: S.SessionLease, objs: seq<S.SessionState>, w: World, t: nat, now: int)
    returns (w': World)
    requires Inv(w) && t < |w.threads| && w.threads[t] == AcqScan && m.Valid() && m.limits == w.limits && m.inUse == w.used
    requires var idle := FirstLeasable(w.reg.byAge, w.reg.entries);
      && idle.Some? && m.LeaseOn(lease, idle.value) && lease.session != null
      && idle.value in w.reg.entries && w.reg.entries[idle.value].session.Some?
      && lease.session.sid == w.reg.entries[idle.value].session.value.sid
    requires m.View() == MaybeRefill(w.limits, TryActivateIdle(w.reg, now)) && Embodied(m.sessions, w, objs)
    ensures Represents(m, w', objs) && Reaches(w, t, w') && Acquired(w', t, lease, false)
  {
    hide Inv, Reaches, Closes, S.Manager.Valid, S.Manager.Entries, MaybeRefill, TryActivateIdle, Known, FetchedKnown;
    hide FirstLeasable;
    w' := LeaseReaches(w, t, now);
    EmbodiedAfter(m.sessions, w, w', objs, {});
  }

  lemma NothingLands(
    m: S.Manager, before: map<Id, S.ManagedSession>, lease: S.SessionLease?, full: bool, started: S.SessionState?,
    objs: seq<S.SessionState>, w: World, t: nat, now: int)
    returns (w': World)
    requires Inv(w) && t < |w.threads| && w.threads[t] == AcqScan && m.Valid() && m.limits == w.limits && m.inUse == w.used
    requires FirstLeasable(w.reg.byAge, w.reg.entries) == None && lease == null
    requires full == (w.used >= w.limits.maxSessions) && (full || started == null)
    requires m.View() == if full then w.reg else StartLeased(w.reg, None, now)
    requires Embodied(before, w, objs) && forall id :: id in m.sessions ==> id in before && m.sessions[id] == before[id]
    ensures Represents(m, w', objs) && Reaches(w, t, w') && Acquired(w', t, lease, false)
  {
    hide Inv, Reaches, Closes, Opens, S.Manager.Valid, S.Manager.Entries, MaybeRefill, StartLeased, Known;
    hide FetchedKnown, FirstLeasable;
    w' := StartReaches(w, t, false, "", now);
    EmbodiedAfter(m.sessions, w, w', objs, {});
  }

  lemma StartLands(
    m: S.Manager, before: map<Id, S.ManagedSession>, lease: S.SessionLease, started: S.SessionState,
    objs: seq<S.SessionState>, w: World, t: nat, now: int)
    returns (objs': seq<S.SessionState>, w': World)
    requires Inv(w) && t < |w.threads| && w.threads[t] == AcqScan && m.Valid() && m.limits == w.limits
    requires FirstLeasable(w.reg.byAge, w.reg.entries) == None && w.used < w.limits.maxSessions && m.inUse == w.used + 1
    requires NextSession(started, now, w)
    requires lease.key == Conv(started.conversationID) && lease.session == started
    requires lease.key in m.sessions && m.sessions[lease.key].session == started
    requires m.View() == MaybeRefill(w.limits, StartLeased(w.reg, Some(started.Fetched()), now))
    requires Embodied(before, w, objs)
    requires forall id :: id in m.sessions && id != lease.key ==> id in before && m.sessions[id] == before[id]
    ensures Represents(m, w', objs') && Reaches(w, t, w') && Acquired(w', t, lease, false) && objs' == objs + [started]
  {
    hide Inv, Reaches, Closes, Opens, S.Manager.Valid, S.Manager.Entries, MaybeRefill, StartLeased, Known;
    hide FetchedKnown, FirstLeasable;
    InvGives(w);
    w' := StartReaches(w, t, true, started.conversationID, now);
    objs' := objs + [started];
    EmbodiedWithNew(m.sessions, before, lease.key, w, w', objs, started);
  }

  /** A leasable entry has a session, and it is the one the pool knows. */
  lemma IdleSession(m: S.Manager, w: World, idle: Option<Id>)
    requires m.View() == w.reg && RegOk(w.reg) && idle == FirstLeasable(w.reg.byAge, w.reg.entries)
    ensures idle.Some? ==>
      && idle.value in w.reg.entries && idle.value in m.sessions && w.reg.entries[idle.value].session.Some?
      && m.sessions[idle.value].session != null
      && m.sessions[idle.value].session.sid == w.reg.entries[idle.value].session.value.sid
  {
    FirstLeasableLaws(w.reg.byAge, w.reg.entries);
    if idle.Some? {
      assert w.reg.entries[idle.value] == m.sessions[idle.value].View();
      assert EntryOk(w.reg, idle.value, w.reg.entries[idle.value]);
    }
  }

  method AcquireFresh(m: S.Manager, started: S.SessionState?, now: int, ghost objs: seq<S.SessionState>, ghost w: World, ghost t: nat)
    returns (lease: S.SessionLease?, ghost objs': seq<S.SessionState>, ghost w': World)
    requires Represents(m, w, objs) && Inv(w) && t < |w.threads| && w.threads[t] == AcqWait(true) && NextSession(started, now, w)
    modifies m
    ensures Represents(m, w', objs') && Reaches(w, t, w') && Acquired(w', t, lease, true)
    ensures lease != null ==> lease.session == started && objs' == objs + [started]
    ensures lease == null ==> objs' == objs
  {
    hide Inv, Reaches, Closes, Opens, S.Manager.Valid, S.Manager.Entries, StartLeased, Known, FetchedKnown;
    InvGives(w);
    ghost var before := m.sessions;
    ghost var conv := if started == null then "" else started.conversationID;
    var full;
    lease, full := m.AcquireFresh(started, now);
    w' := WaitReaches(w, t, true, started != null, conv, now);
    objs' := objs;
    if lease == null {
      EmbodiedAfter(m.sessions, w, w', objs, {});
    } else {
      objs' := objs + [started];
      EmbodiedWithNew(m.sessions, before, lease.key, w, w', objs, started);
    }
  }

  lemma LeaseReaches(w: World, t: nat, now: int) returns (w': World)
    requires Inv(w) && t < |w.threads| && w.threads[t] == AcqScan && FirstLeasable(w.reg.byAge, w.reg.entries).Some?
    ensures Reaches(w, t, w') && t < |w'.threads| && w'.limits == w.limits && w'.used == w.used && Closes(w, w', {})
    ensures w'.threads[t].ReqUpload? && !w'.threads[t].retry
    ensures var id := Conv(w'.threads[t].lease.name);
      && FirstLeasable(w.reg.byAge, w.reg.entries) == Some(id)
      && id in w.reg.entries && w.reg.entries[id].session.Some?
      && w.reg.entries[id].session.value.sid == w'.threads[t].lease.sid
    ensures w'.reg == MaybeRefill(w.limits, TryActivateIdle(w.reg, now))
  {
    hide Inv, RegOk, PlaceOk, Reaches, MaybeRefill, TryActivateIdle, StepTail, StepFill;
    InvGives(w);
    var c := ANY.(now := now);
    var id := FirstLeasable(w.reg.byAge, w.reg.entries).value;
    var sid := FindsIdle(w, id);
    IdlePlaced(w, id);
    var w1 := Next(w, t, c);
    assert Closes(w, w1, {});
    w' := TailReaches(w1, t, 0, {}, true, ThenUpload(LeaseRef(id.name, sid)));
    ReachesMore(w, t, c, w1, w');
  }

  /** What an acquire that finds nothing idle comes to. */
  ghost predicate Begun(w: World, w': World, t: nat, retry: bool, ok: bool, conv: string, now: int) {
    && t < |w'.threads| && w'.limits == w.limits
    && if w.used >= w.limits.maxSessions then
         w'.threads[t] == Done && w'.reg == w.reg && w'.used == w.used && Closes(w, w', {})
       else if !ok then
         w'.threads[t] == Done && w'.reg == StartLeased(w.reg, None, now) && w'.used == w.used && Closes(w, w', {})
       else
         var r := StartLeased(w.reg, Some(Sess(|w.convs|, conv, now)), now);
         && w'.threads[t] == ReqUpload(LeaseRef(conv, |w.convs|), retry) && w'.used == w.used + 1 && Opens(w, w')
         && w'.reg == if retry then r else MaybeRefill(w.limits, r)
  }

  lemma StartReaches(w: World, t: nat, ok: bool, conv: string, now: int) returns (w': World)
    requires Inv(w) && t < |w.threads| && w.threads[t] == AcqScan && FirstLeasable(w.reg.byAge, w.reg.entries) == None
    ensures Reaches(w, t, w') && Begun(w, w', t, false, ok, conv, now)
  {
    hide Inv, Reaches, MaybeRefill, StartLeased, StepTail, StepFill;
    InvGives(w);
    var c := ANY.(now := now);
    var w1 := Next(w, t, c);
    assert w1 == Goto(w, t, AcqWait(false));
    w' := WaitReaches(w1, t, false, ok, conv, now);
    ReachesMore(w, t, c, w1, w');
  }

  lemma WaitReaches(w: World, t: nat, retry: bool, ok: bool, conv: string, now: int) returns (w': World)
    requires t < |w.threads| && w.threads[t] == AcqWait(retry) && |w.place| == |w.convs|
    requires retry || FirstLeasable(w.reg.byAge, w.reg.entries) == None
    ensures Reaches(w, t, w') && Begun(w, w', t, retry, ok, conv, now)
  {
    hide Reaches, MaybeRefill, StartLeased, StepTail, StepFill;
    var c := Choice(w.used < w.limits.maxSessions, false, now, conv);
    var w1 := Next(w, t, c);
    if w.used >= w.limits.maxSessions {
      assert w1 == Goto(w, t, Done);
      w' := w1;
      ReachesItself(w', t);
    } else if retry {
      assert w1 == Goto(w, t, AcqReserve(true)).(used := w.used + 1);
      w' := UnitReaches(w1, t, true, ok, conv, now);
    } else {
      assert w1 == Goto(w, t, AcqRescan).(used := w.used + 1);
      var w2 := Next(w1, t, c);
      assert w2 == Goto(w1, t, AcqReserve(false));
      w' := UnitReaches(w2, t, false, ok, conv, now);
      ReachesMore(w1, t, c, w2, w');
    }
    ReachesMore(w, t, c, w1, w');
  }

  /** From the moment the unit is in hand. */
  lemma UnitReaches(w: World, t: nat, retry: bool, ok: bool, conv: string, now: int) returns (w': World)
    requires t < |w.threads| && w.threads[t] == AcqReserve(retry) && |w.place| == |w.convs|
    ensures Reaches(w, t, w') && t < |w'.threads| && w'.limits == w.limits
    ensures !ok ==>
      && w'.threads[t] == Done && w'.reg == StartLeased(w.reg, None, now) && w'.used == w.used - 1 && Closes(w, w', {})
    ensures ok ==>
      var r := StartLeased(w.reg, Some(Sess(|w.convs|, conv, now)), now);
      && w'.threads[t] == ReqUpload(LeaseRef(conv, |w.convs|), retry) && w'.used == w.used && Opens(w, w')
      && w'.reg == if retry then r else MaybeRefill(w.limits, r)
  {
    hide Reaches, Closes, Opens, MaybeRefill, Without, Reserve, Activate, UnitIds, Sids, Next, Enabled;
    var c := Choice(ok, false, now, conv);
    var wid := w.reg.warmingSeq + 1;
    SlotStep(w, t, retry, c);
    var w1 := Next(w, t, c);
    StartStep(w1, t, wid, retry, c);
    var w2 := Next(w1, t, c);
    if ok {
      w' := SessionReaches(w2, t, wid, Sess(|w.convs|, conv, now), retry, now);
      OpensBetween(w, w1, w2, w', t);
    } else {
      FailStep(w2, t, wid, c);
      NewSlot(w.reg, now);
      w' := TakeReaches(w2, t, c, {Warming(wid)}, false, ThenDone);
      NothingTwice(w, w1, w2);
      NothingTwice(w, w2, w');
    }
    ReachesMore(w1, t, c, w2, w');
    ReachesMore(w, t, c, w1, w');
  }

  lemma SlotStep(w: World, t: nat, retry: bool, c: Choice)
    requires t < |w.threads| && w.threads[t] == AcqReserve(retry)
    ensures Enabled(w, t, c)
    ensures var w1 := Next(w, t, c);
      && t < |w1.threads| && w1.threads[t] == AcqStart(w.reg.warmingSeq + 1, retry) && w1.limits == w.limits
      && w1.reg == Reserve(w.reg, false, c.now) && w1.used == w.used && w1.convs == w.convs && w1.place == w.place
      && Closes(w, w1, {})
  {
    hide Reserve, StepTail, StepFill;
  }

  lemma StartStep(w: World, t: nat, wid: nat, retry: bool, c: Choice)
    requires t < |w.threads| && w.threads[t] == AcqStart(wid, retry) && |w.place| == |w.convs|
    ensures Enabled(w, t, c)
    ensures var w1 := Next(w, t, c);
      && t < |w1.threads| && w1.limits == w.limits && w1.reg == w.reg && w1.used == w.used
      && (!c.ok ==> w1.threads[t] == AcqFail(wid) && Closes(w, w1, {}))
      && (c.ok ==>
            && w1.threads == w.threads[t := AcqActivate(wid, Sess(|w.convs|, c.conv, c.now), retry)]
            && w1.place == w.place + [Fetched(t)])
  {
    hide StepTail, StepFill;
  }

  lemma FailStep(w: World, t: nat, wid: nat, c: Choice)
    requires t < |w.threads| && w.threads[t] == AcqFail(wid)
    ensures Enabled(w, t, c) && Next(w, t, c) == Take(w, t, {Warming(wid)}, false, ThenDone)
  {
    hide Take, StepTail, StepFill;
  }

  /** A session started and handed over to the registry. */
  lemma OpensBetween(w: World, w1: World, w2: World, w': World, t: nat)
    requires Closes(w, w1, {}) && w1.place == w.place && t < |w1.threads| && |w2.threads| == |w1.threads|
    requires w2.threads == w1.threads[t := w2.threads[t]] && w2.place == w1.place + [Fetched(t)]
    requires Closes(w2, w', {}) && t < |w'.threads| && FetchedBy(w'.threads[t]) == None
    ensures Opens(w, w')
  {
  }

  /** A slot just reserved holds one unit and no session. */
  lemma NewSlot(r: Reg, now: int)
    ensures |UnitIds(Reserve(r, false, now), {Warming(r.warmingSeq + 1)})| == 1
    ensures Sids(Reserve(r, false, now), {Warming(r.warmingSeq + 1)}) == {}
  {
    assert UnitIds(Reserve(r, false, now), {Warming(r.warmingSeq + 1)}) == {Warming(r.warmingSeq + 1)};
  }

  lemma SessionReaches(w: World, t: nat, wid: nat, s: Sess, retry: bool, now: int) returns (w': World)
    requires t < |w.threads| && w.threads[t] == AcqActivate(wid, s, retry)
    requires s.sid == |w.place| - 1 && w.place[s.sid] == Fetched(t)
    ensures Reaches(w, t, w') && t < |w'.threads| && w'.limits == w.limits && w'.used == w.used && Closes(w, w', {})
    ensures FetchedBy(w'.threads[t]) == None && w'.threads[t] == ReqUpload(LeaseRef(s.conv, s.sid), retry)
    ensures var r := ActivateLease(w.reg, wid, s, now); w'.reg == if retry then r else MaybeRefill(w.limits, r)
  {
    hide Reaches, MaybeRefill, Activate, StepTail, StepFill;
    var c := ANY.(now := now);
    var w1 := Next(w, t, c);
    assert Closes(w, w1, {});
    if retry {
      w' := w1;
      ReachesItself(w', t);
    } else {
      w' := KickReaches(w1, t, ThenUpload(LeaseRef(s.conv, s.sid)));
    }
    ReachesMore(w, t, c, w1, w');
  }
}
