/**
 The life of a session over a whole run, and of the lease on it.
 */
module PoolLifecycle {
  import opened Ids
  import opened Registry
  import opened Wrappers
  import opened RegistryLaws
  import opened Pool
  import opened PoolInvariant
  import opened PoolMoves
  import opened PoolRetire
  import opened PoolRequests
  import opened PoolTheorems

  /** Fetched, then idle, then leased, then in the hands of whoever took it out, then closed. */
  function Phase(p: Place): nat {
    match p
    case Fetched(_) => 0
    case Registered(_, None) => 1
    case Registered(_, Some(_)) => 2
    case Retiring(_) => 3
    case ClosedByManager => 4
    case Overwritten => 4
  }

  /**
   `q` may follow `p`: phases only grow, so a session is leased at most once, by one
   thread, taken out at most once, by one thread, and closed at most once; and it is
   registered under one conversation ID only.
   */
  predicate Later(p: Place, q: Place) {
    && Phase(p) <= Phase(q)
    && (Phase(p) == Phase(q) ==> p == q)
    && (p.Registered? && q.Registered? ==> p.name == q.name)
    && (q == Overwritten ==> p == Overwritten || Phase(p) <= 2)
  }

  /** Sessions move on; only the thread that took a session out closes it. */
  ghost predicate MovesOn(w: World, w': World, t: nat) {
    && |w.place| <= |w'.place| && |w.convs| <= |w'.convs| && w'.convs[..|w.convs|] == w.convs
    && forall s: nat :: s < |w.place| ==>
        && Later(w.place[s], w'.place[s])
        && (w.place[s] != w'.place[s] && w'.place[s] == ClosedByManager ==> w.place[s] == Retiring(t))
        && (w.place[s] != w'.place[s] && w'.place[s].Retiring? ==> w'.place[s] == Retiring(t))
  }

  lemma StepMovesOn(w: World, t: nat, c: Choice)
    requires Inv(w) && Enabled(w, t, c)
    ensures MovesOn(w, Next(w, t, c), t)
  {
    hide Inv, StepRequest, StepFill, StepTail, MovesOn;
    if IsRequest(w.threads[t]) {
      RequestMovesOn(w, t, c);
    } else if IsFill(w.threads[t]) {
      FillMovesOn(w, t, c);
    } else {
      TailMovesOn(w, t, c);
    }
  }

  lemma RequestMovesOn(w: World, t: nat, c: Choice)
    requires Inv(w) && Enabled(w, t, c) && IsRequest(w.threads[t])
    ensures MovesOn(w, StepRequest(w, t, c), t)
  {
    hide Inv, Take, Scan, Register, Fetch, MovesOn, ActivateLease, Reserve, DroppableIds;
    PlaceLengths(w);
    var pc := w.threads[t];
    var w' := StepRequest(w, t, c);
    if pc.AcqScan? {
      ScanMovesOn(w, t, c.now, 0);
    } else if pc.AcqRescan? {
      ScanMovesOn(w, t, c.now, 1);
    } else if pc.AcqStart? && c.ok {
      FetchMovesOn(w, t, c.conv, AcqActivate(pc.wid, Sess(|w.convs|, c.conv, c.now), pc.retry));
    } else if pc.AcqFail? {
      TakeMovesOn(w, t, {Warming(pc.wid)}, false, ThenDone);
    } else if pc.AcqActivate? {
      var l := LeaseRef(pc.sess.conv, pc.sess.sid);
      RegisterMovesOn(w, t, ActivateLease(w.reg, pc.wid, pc.sess, c.now), pc.sess, Some(t),
                      if pc.retry then ReqUpload(l, true) else Kick(ThenUpload(l)));
    } else if pc.ReqDrop? {
      TakeMovesOn(w, t, DroppableIds(w.reg), false, ThenRetry);
    } else if pc.ReqRun? {
      RetireMovesOn(w, t, pc.lease, if c.ok then ThenDone else ThenRelease(pc.lease));
    } else if (pc.ReqUpload? && !c.ok) || pc.ReqRelease? {
      RetireMovesOn(w, t, pc.lease, ThenDone);
    } else if pc.ReqSend? && !c.ok {
      RetireMovesOn(w, t, pc.lease, if !pc.retry && c.again then ThenDrop else ThenDone);
    } else {
      StandStill(w, w', t);
    }
  }

  lemma FillMovesOn(w: World, t: nat, c: Choice)
    requires Inv(w) && Enabled(w, t, c) && IsFill(w.threads[t])
    ensures MovesOn(w, StepFill(w, t, c), t)
  {
    hide Inv, Take, Register, Fetch, MovesOn, ActivateIdle, Reserve, NeedsWarm, FinishPass, KeepsIdle;
    PlaceLengths(w);
    var pc := w.threads[t];
    if pc.FillStart? && c.ok {
      FetchMovesOn(w, t, c.conv, FillActivate(pc.wid, Sess(|w.convs|, c.conv, c.now)));
    } else if pc.FillFailed? {
      TakeMovesOn(w, t, {Warming(pc.wid)}, false, ThenRefillFail);
    } else if pc.FillActivate? && KeepsIdle(w.reg, pc.wid) {
      RegisterMovesOn(w, t, ActivateIdle(w.reg, pc.wid, pc.sess, c.now), pc.sess, None, FillTop);
    } else if pc.FillActivate? {
      DiscardMovesOn(w, t, c, pc.wid, pc.sess);
    } else {
      StandStill(w, StepFill(w, t, c), t);
    }
  }

  lemma TailMovesOn(w: World, t: nat, c: Choice)
    requires Inv(w) && Enabled(w, t, c) && !IsRequest(w.threads[t]) && !IsFill(w.threads[t])
    ensures MovesOn(w, StepTail(w, t, c), t)
  {
    hide Inv, Take, MovesOn, ExpiredIds, StoppableIds, MaybeRefill, Spawns;
    PlaceLengths(w);
    var pc := w.threads[t];
    if pc.Closing? {
      CloseMovesOn(w, t, c);
    } else if pc.EvictTake? && pc.ttl > 0 {
      var ids := ExpiredIds(w.reg, pc.now, pc.ttl);
      TakeMovesOn(w, t, ids, |UnitIds(w.reg, ids)| > 0, ThenDone);
    } else if pc.ShutTake? {
      TakeMovesOn(w, t, StoppableIds(w.reg), false, ThenPoll);
    } else {
      StandStill(w, StepTail(w, t, c), t);
    }
  }

  lemma PlaceLengths(w: World)
    requires Inv(w)
    ensures |w.place| == |w.convs|
  {
  }

  lemma StandStill(w: World, w': World, t: nat)
    requires w'.place == w.place && w'.convs == w.convs
    ensures MovesOn(w, w', t)
  {
  }

  lemma FetchMovesOn(w: World, t: nat, conv: string, pc: PC)
    requires t < |w.threads|
    ensures MovesOn(w, Fetch(w, t, conv, pc), t)
  {
  }

  lemma TakeMovesOn(w: World, t: nat, ids: set<Id>, kick: bool, next: After)
    requires t < |w.threads|
    ensures MovesOn(w, Take(w, t, ids, kick, next), t)
  {
  }

  lemma RetireMovesOn(w: World, t: nat, l: LeaseRef, next: After)
    requires t < |w.threads|
    ensures MovesOn(w, RetireLease(w, t, l, next), t)
  {
    hide Take, MovesOn;
    if Conv(l.name) in w.reg.entries { TakeMovesOn(w, t, {Conv(l.name)}, true, next); }
    else { StandStill(w, RetireLease(w, t, l, next), t); }
  }

  lemma PlacedThread(w: World, t: nat)
    requires Inv(w) && t < |w.threads|
    ensures |w.place| == |w.convs| && ThreadPlaced(w, t)
  {
  }

  lemma RegisterMovesOn(w: World, t: nat, reg: Reg, s: Sess, holder: Option<nat>, pc: PC)
    requires Inv(w) && t < |w.threads| && FetchedBy(w.threads[t]) == Some(s) && s.sid < |w.place|
    ensures MovesOn(w, Register(w, t, reg, s, holder, pc), t)
  {
    hide Inv;
    PlacedThread(w, t);
  }

  lemma DiscardMovesOn(w: World, t: nat, c: Choice, wid: nat, s: Sess)
    requires Inv(w) && Enabled(w, t, c) && w.threads[t] == FillActivate(wid, s) && !KeepsIdle(w.reg, wid)
    ensures MovesOn(w, StepFill(w, t, c), t)
  {
    hide Inv;
    PlacedThread(w, t);
  }

  lemma CloseMovesOn(w: World, t: nat, c: Choice)
    requires Inv(w) && Enabled(w, t, c) && w.threads[t].Closing?
    ensures MovesOn(w, StepTail(w, t, c), t)
  {
    hide Inv;
    PlacedThread(w, t);
  }

  lemma ScanMovesOn(w: World, t: nat, now: int, units: nat)
    requires Inv(w) && t < |w.threads|
    ensures MovesOn(w, Scan(w, t, now, units), t)
  {
    hide Inv, RegOk, UnitsOk, FillOk, SlotsOk, StopOk, LeaseOk;
    InvParts(w);
    match FirstLeasable(w.reg.byAge, w.reg.entries)
    case None =>
    case Some(id) =>
      var sid := FindsIdle(w, id);
      assert EntryPlaced(w, id);
  }

  // ---------- Over whole runs ----------

  lemma WorldStepMovesOn(w: World, w': World)
    requires Inv(w) && Step(w, w')
    ensures exists t: nat :: MovesOn(w, w', t)
  {
    hide Inv, Next, Enabled, MovesOn;
    if ThreadStep(w, w') {
      var t: nat, c: Choice :| Enabled(w, t, c) && w' == Next(w, t, c);
      StepMovesOn(w, t, c);
    } else {
      StandStill(w, w', 0);
    }
  }

  /**
   The life of a session: at any later moment of a run it is in a later phase, in the
   same one under the same owner, and never registered again once it was taken out.
   */
  lemma {:induction false} Lifecycle(run: seq<World>, i: nat, j: nat, s: nat)
    requires Run(run) && i <= j < |run| && s < |run[i].place|
    ensures s < |run[j].place| && Later(run[i].place[s], run[j].place[s])
    decreases j
  {
    hide Inv, Run, Step;
    if i < j {
      Lifecycle(run, i, j - 1, s);
      RunKeeps(run, j - 1);
      RunStep(run, j - 1);
      WorldStepMovesOn(run[j - 1], run[j]);
    }
  }

  lemma RunStep(run: seq<World>, i: nat)
    requires Run(run) && i + 1 < |run|
    ensures Step(run[i], run[i + 1])
  {
  }

  // ---------- Leases ----------

  /** With distinct conversation IDs, a live lease is on a session that is registered, leased, and open. */
  lemma LeasedIsOpen(run: seq<World>, i: nat, t: nat)
    requires Run(run) && i < |run| && t < |run[i].threads| && Distinct(run[i].convs)
    requires LiveLease(run[i].threads[t]).Some?
    ensures var w := run[i]; var l := LiveLease(w.threads[t]).value;
      && Conv(l.name) in w.reg.entries && w.reg.entries[Conv(l.name)].status == Leased
      && w.reg.entries[Conv(l.name)].session.Some? && w.reg.entries[Conv(l.name)].session.value.sid == l.sid
      && l.sid < |w.place| && w.place[l.sid] == Registered(l.name, Some(t))
  {
    hide Inv, Run, RegOk, UnitsOk, FillOk, SlotsOk, PlaceOk, HoldersOk, StopOk, LeaseOk, Distinct;
    RunKeeps(run, i);
    InvParts(run[i]);
    HeldLease(run[i], t);
    LiveHasEntry(run[i], t);
  }

  /** Thread `t` holds a live lease under the conversation ID `name`. */
  predicate Holds(w: World, t: nat, name: string) {
    t < |w.threads| && LiveLease(w.threads[t]).Some? && LiveLease(w.threads[t]).value.name == name
  }

  /** Every leased entry has exactly one thread that holds a live lease on it. */
  lemma LeasedHasOneHolder(run: seq<World>, i: nat, id: Id)
    requires Run(run) && i < |run| && Distinct(run[i].convs)
    requires id in run[i].reg.entries && run[i].reg.entries[id].status == Leased
    ensures id.Conv? && exists t: nat :: Holds(run[i], t, id.name)
    ensures forall t: nat, u: nat :: Holds(run[i], t, id.name) && Holds(run[i], u, id.name) ==> t == u
  {
    hide Inv, Run, UnitsOk, FillOk, SlotsOk, StopOk, LeaseOk, Distinct;
    var w := run[i];
    RunKeeps(run, i);
    InvParts(w);
    LeasedIsConv(w, id);
    var s := w.reg.entries[id].session.value.sid;
    assert EntryPlaced(w, id);
    HolderIs(w, s);
    assert Holds(w, w.place[s].holder.value, id.name);
    forall t: nat, u: nat | Holds(w, t, id.name) && Holds(w, u, id.name) ensures t == u {
      HeldLease(w, t);
      HeldLease(w, u);
      LiveHasEntry(w, t);
      LiveHasEntry(w, u);
    }
  }

  lemma LeasedIsConv(w: World, id: Id)
    requires RegOk(w.reg) && id in w.reg.entries && w.reg.entries[id].status == Leased
    ensures id.Conv? && w.reg.entries[id].session.Some?
  {
    assert EntryOk(w.reg, id, w.reg.entries[id]);
  }

  lemma HolderIs(w: World, s: nat)
    requires HoldersOk(w) && s < |w.place|
    ensures HolderOk(w, s)
  {
  }

  /**
   A thread has at most one session registered in its name, and has one only while it
   holds a live lease on it. A request that has returned, with an error or without,
   therefore has none, and neither has one that is still acquiring.
   */
  lemma GivesBack(run: seq<World>, i: nat, t: nat, s: nat)
    requires Run(run) && i < |run| && s < |run[i].place|
    requires run[i].place[s].Registered? && run[i].place[s].holder == Some(t)
    ensures t < |run[i].threads| && LiveLease(run[i].threads[t]) == Some(LeaseRef(run[i].place[s].name, s))
    ensures run[i].threads[t] != Done
  {
    hide Inv, Run, RegOk, UnitsOk, FillOk, SlotsOk, PlaceOk, StopOk, LeaseOk;
    RunKeeps(run, i);
    InvParts(run[i]);
    HolderIs(run[i], s);
  }

  predicate Uploads(w: World, t: nat) { t < |w.threads| && w.threads[t].ReqUpload? && w.threads[t].retry }

  /** The second attempt of a request leases the session it has itself just fetched, never a pooled one. */
  lemma RetryIsFresh(w: World, t: nat, c: Choice, w': World)
    requires Inv(w) && Enabled(w, t, c) && w' == Next(w, t, c) && Uploads(w', t)
    ensures w.threads[t].AcqActivate? && w.threads[t].retry
    ensures w'.threads[t].lease.sid == w.threads[t].sess.sid < |w.place|
    ensures w.place[w.threads[t].sess.sid] == Fetched(t)
  {
    hide Inv, StepRequest, StepFill, StepTail;
    if IsRequest(w.threads[t]) {
      RequestUploads(w, t, c, w');
      PlacedThread(w, t);
    } else {
      OthersNeverUpload(w, t, c, w');
    }
  }

  lemma RequestUploads(w: World, t: nat, c: Choice, w': World)
    requires Enabled(w, t, c) && IsRequest(w.threads[t]) && w' == StepRequest(w, t, c) && Uploads(w', t)
    ensures w.threads[t].AcqActivate? && w.threads[t].retry && w'.threads[t].lease.sid == w.threads[t].sess.sid
  {
    hide Without, Reserve, Activate, TryActivateIdle, FirstLeasable, DroppableIds, UnitIds, Sids, Retire;
  }

  lemma OthersNeverUpload(w: World, t: nat, c: Choice, w': World)
    requires Enabled(w, t, c) && !IsRequest(w.threads[t])
    requires w' == if IsFill(w.threads[t]) then StepFill(w, t, c) else StepTail(w, t, c)
    ensures !Uploads(w', t)
  {
    hide Without, Reserve, Activate, NeedsWarm, ExpiredIds, StoppableIds, UnitIds, Sids, Retire;
  }

  // ---------- Slots dropped while their session was starting ----------

  /** A slot is registered once, when it is reserved. */
  lemma SlotsNeverReturn(w: World, t: nat, c: Choice, n: nat)
    requires Enabled(w, t, c) && Warming(n) !in w.reg.entries && n != w.reg.warmingSeq + 1
    ensures Warming(n) !in Next(w, t, c).reg.entries
  {
    hide Next;
    var pc := w.threads[t];
    if pc.AcqScan? || pc.AcqRescan? { GoneOnScan(w, t, c, n); }
    else if IsRequest(pc) { GoneOnRequest(w, t, c, n); }
    else if IsFill(pc) { GoneOnFill(w, t, c, n); }
    else { GoneOnTail(w, t, c, n); }
  }

  lemma GoneOnRequest(w: World, t: nat, c: Choice, n: nat)
    requires Enabled(w, t, c) && IsRequest(w.threads[t]) && !w.threads[t].AcqScan? && !w.threads[t].AcqRescan?
    requires Warming(n) !in w.reg.entries && n != w.reg.warmingSeq + 1
    ensures Warming(n) !in Next(w, t, c).reg.entries
  {
    hide Replace, Compact, NeedsWarm, DroppableIds, ExpiredIds, StoppableIds, UnitIds, Sids, Retire, FirstLeasable;
    hide StepTail, StepFill, Scan, MaybeRefill;
  }

  lemma GoneOnScan(w: World, t: nat, c: Choice, n: nat)
    requires Enabled(w, t, c) && (w.threads[t].AcqScan? || w.threads[t].AcqRescan?)
    requires Warming(n) !in w.reg.entries && n != w.reg.warmingSeq + 1
    ensures Warming(n) !in Next(w, t, c).reg.entries
  {
    hide Replace, Compact, NeedsWarm, DroppableIds, ExpiredIds, StoppableIds, UnitIds, Sids, Retire, FirstLeasable;
    hide StepTail, StepFill, Take, Register, Fetch, ReserveSlot, RetireLease, MaybeRefill;
  }

  lemma GoneOnFill(w: World, t: nat, c: Choice, n: nat)
    requires Enabled(w, t, c) && IsFill(w.threads[t])
    requires Warming(n) !in w.reg.entries && n != w.reg.warmingSeq + 1
    ensures Warming(n) !in Next(w, t, c).reg.entries
  {
    hide Replace, Compact, NeedsWarm, DroppableIds, ExpiredIds, StoppableIds, UnitIds, Sids, Retire, FirstLeasable;
    hide StepRequest, StepTail, Scan, RetireLease, MaybeRefill;
  }

  lemma GoneOnTail(w: World, t: nat, c: Choice, n: nat)
    requires Enabled(w, t, c) && !IsRequest(w.threads[t]) && !IsFill(w.threads[t])
    requires Warming(n) !in w.reg.entries && n != w.reg.warmingSeq + 1
    ensures Warming(n) !in Next(w, t, c).reg.entries
  {
    hide Replace, Compact, NeedsWarm, DroppableIds, ExpiredIds, StoppableIds, UnitIds, Sids, Retire, FirstLeasable;
    hide StepRequest, StepFill, Scan, RetireLease, Register, Fetch, ReserveSlot;
  }

  ghost predicate Late(w: World, t: nat, wid: nat, s: Sess) {
    t < |w.threads| && w.threads[t] == FillActivate(wid, s) && Warming(wid) !in w.reg.entries
  }

  /** Another thread's step leaves the late thread late; its own step discards the session and owes no unit. */
  lemma LateStep(w: World, u: nat, c: Choice, t: nat, wid: nat, s: Sess)
    requires Inv(w) && Enabled(w, u, c) && Late(w, t, wid, s)
    ensures u != t ==> Late(Next(w, u, c), t, wid, s)
    ensures u == t ==>
      && Next(w, u, c).threads[t] == Refund(0, {s.sid}, false, ThenRefillTop)
      && Next(w, u, c).reg.entries == w.reg.entries
      && s.sid < |w.place| && Next(w, u, c).place[s.sid] == Retiring(t)
  {
    hide Inv;
    PlacedThread(w, t);
    if u != t {
      KnownSlot(w, t);
      SlotsNeverReturn(w, u, c, wid);
      OtherThreads(w, u, c, t);
    } else {
      assert UnitIds(w.reg, {Warming(wid)}) == {};
    }
  }

  lemma KnownSlot(w: World, t: nat)
    requires Inv(w) && t < |w.threads| && w.threads[t].FillActivate?
    ensures w.threads[t].wid <= w.reg.warmingSeq
  {
    assert SlotOf(w.threads[t]) == Some(w.threads[t].wid);
  }

  lemma OtherThreads(w: World, u: nat, c: Choice, t: nat)
    requires Enabled(w, u, c) && t < |w.threads| && t != u
    ensures t < |Next(w, u, c).threads| && Next(w, u, c).threads[t] == w.threads[t]
  {
    hide Without, Reserve, Activate, TryActivateIdle, FirstLeasable, NeedsWarm, DroppableIds, ExpiredIds, StoppableIds;
    hide UnitIds, Sids, Retire;
    if IsFill(w.threads[u]) {
      hide StepRequest, StepTail, Scan, RetireLease;
    } else if !IsRequest(w.threads[u]) {
      hide StepRequest, StepFill, Scan, RetireLease, Register, Fetch, ReserveSlot;
    } else {
      hide StepTail, StepFill;
    }
  }

  /** The session of a slot that shutdown or drop-idle removed under it is never registered, and then closed. */
  lemma {:induction false} LateNeverRegistered(run: seq<World>, i: nat, j: nat, t: nat, wid: nat, s: Sess)
    requires Run(run) && i <= j < |run| && Late(run[i], t, wid, s)
    ensures s.sid < |run[j].place| && !run[j].place[s.sid].Registered?
    ensures Late(run[j], t, wid, s) || run[j].place[s.sid] == Retiring(t) || run[j].place[s.sid] == ClosedByManager
    decreases j
  {
    hide Inv, Run, Step, Late, Next, Enabled;
    RunKeeps(run, i);
    if i == j {
      LateIsFetched(run[i], t, wid, s);
    } else {
      LateNeverRegistered(run, i, j - 1, t, wid, s);
      RunKeeps(run, j - 1);
      RunStep(run, j - 1);
      Lifecycle(run, j - 1, j, s.sid);
      if Late(run[j - 1], t, wid, s) { LateWorldStep(run[j - 1], run[j], t, wid, s); }
      if Late(run[j], t, wid, s) {
        RunKeeps(run, j);
        LateIsFetched(run[j], t, wid, s);
      }
    }
  }

  lemma LateIsFetched(w: World, t: nat, wid: nat, s: Sess)
    requires Inv(w) && Late(w, t, wid, s)
    ensures s.sid < |w.place| && w.place[s.sid] == Fetched(t)
  {
    hide Inv;
    PlacedThread(w, t);
  }

  lemma LateWorldStep(w: World, w': World, t: nat, wid: nat, s: Sess)
    requires Inv(w) && Step(w, w') && Late(w, t, wid, s) && s.sid < |w'.place|
    ensures Late(w', t, wid, s) || w'.place[s.sid] == Retiring(t)
  {
    hide Inv, Next, Enabled;
    if ThreadStep(w, w') {
      var u: nat, c: Choice :| Enabled(w, u, c) && w' == Next(w, u, c);
      LateStep(w, u, c, t, wid, s);
    }
  }

  // ---------- The unit of a slot ----------

  lemma SeqNeverFalls(w: World, t: nat, c: Choice)
    requires Enabled(w, t, c)
    ensures w.reg.warmingSeq <= Next(w, t, c).reg.warmingSeq
  {
    hide Replace, Compact, NeedsWarm, DroppableIds, ExpiredIds, StoppableIds, UnitIds, Sids, Retire, FirstLeasable;
    if IsFill(w.threads[t]) {
      hide StepRequest, StepTail, Scan, RetireLease;
    } else if !IsRequest(w.threads[t]) {
      hide StepRequest, StepFill, Scan, RetireLease, Register, Fetch, ReserveSlot;
    } else {
      hide StepTail, StepFill;
    }
  }

  lemma SlotGoneStep(w: World, w': World, n: nat)
    requires Step(w, w') && n <= w.reg.warmingSeq && Warming(n) !in w.reg.entries
    ensures n <= w'.reg.warmingSeq && Warming(n) !in w'.reg.entries
  {
    hide Next, Enabled;
    if ThreadStep(w, w') {
      var t: nat, c: Choice :| Enabled(w, t, c) && w' == Next(w, t, c);
      SeqNeverFalls(w, t, c);
      SlotsNeverReturn(w, t, c, n);
    }
  }

  /** Once a slot that was reserved is gone, it is gone for the rest of the run. */
  lemma {:induction false} SlotGoneForGood(run: seq<World>, i: nat, j: nat, n: nat)
    requires Run(run) && i <= j < |run| && n <= run[i].reg.warmingSeq && Warming(n) !in run[i].reg.entries
    ensures n <= run[j].reg.warmingSeq && Warming(n) !in run[j].reg.entries
    decreases j
  {
    hide Run, Step;
    if i < j {
      SlotGoneForGood(run, i, j - 1, n);
      RunStep(run, j - 1);
      SlotGoneStep(run[j - 1], run[j], n);
    }
  }

  /** Thread `t` registers the session it has fetched for slot `n`, and the unit stays with it. */
  ghost predicate ActivatesSlot(w: World, w': World, t: nat, n: nat) {
    && t < |w.threads| && SlotOf(w.threads[t]) == Some(n) && FetchedBy(w.threads[t]).Some?
    && t < |w'.threads| && SlotOf(w'.threads[t]) == None && Units(w'.threads[t]) == 0 && w'.used == w.used
    && var s := FetchedBy(w.threads[t]).value;
    && Conv(s.conv) in w'.reg.entries && w'.reg.entries[Conv(s.conv)].session == Some(s)
    && w'.reg.entries[Conv(s.conv)].holdsCapacity
    && s.sid < |w'.place| && w'.place[s.sid].Registered? && w'.place[s.sid].name == s.conv
  }

  /** Thread `t` takes entries out of the registry and owes one unit for each, no more. */
  ghost predicate TakesOver(w: World, w': World, t: nat) {
    && t < |w.threads| && t < |w'.threads| && Units(w.threads[t]) == 0
    && w'.threads[t].Refund? && w'.threads[t].units == |w.reg.entries| - |w'.reg.entries| > 0
    && w'.used == w.used
  }

  ghost predicate SlotLeaves(w: World, w': World, n: nat) {
    exists t: nat :: ActivatesSlot(w, w', t, n) || TakesOver(w, w', t)
  }

  /** A slot leaves the registry in one of two ways. */
  lemma SlotLeavesStep(w: World, t: nat, c: Choice, n: nat)
    requires Inv(w) && Enabled(w, t, c) && Warming(n) in w.reg.entries && Warming(n) !in Next(w, t, c).reg.entries
    ensures ActivatesSlot(w, Next(w, t, c), t, n) || TakesOver(w, Next(w, t, c), t)
  {
    hide Inv;
    RegistryOk(w);
    hide RegOk, Next;
    var pc := w.threads[t];
    if pc.AcqScan? || pc.AcqRescan? {
      ScanKeepsSlots(w, t, c, n);
    } else if IsRequest(pc) {
      RequestDropsSlot(w, t, c, n);
    } else if IsFill(pc) {
      FillDropsSlot(w, t, c, n);
    } else {
      TailDropsSlot(w, t, c, n);
    }
  }

  lemma RegistryOk(w: World)
    requires Inv(w)
    ensures RegOk(w.reg)
  {
  }

  lemma ScanKeepsSlots(w: World, t: nat, c: Choice, n: nat)
    requires Enabled(w, t, c) && (w.threads[t].AcqScan? || w.threads[t].AcqRescan?) && Warming(n) in w.reg.entries
    ensures Warming(n) in Next(w, t, c).reg.entries
  {
    hide Replace, Compact, UnitIds, Sids, Retire, FirstLeasable;
    hide StepTail, StepFill, Take, Register, Fetch, ReserveSlot, RetireLease, MaybeRefill;
  }

  /** A section that deletes `ids` and with them the slot hands over their units. */
  lemma TakeDropsSlot(w: World, t: nat, ids: set<Id>, kick: bool, next: After, n: nat)
    requires RegOk(w.reg) && t < |w.threads| && Units(w.threads[t]) == 0
    requires Warming(n) in w.reg.entries && Warming(n) !in Take(w, t, ids, kick, next).reg.entries
    ensures TakesOver(w, Take(w, t, ids, kick, next), t)
  {
    hide RegOk, Without, UnitIds, Sids, Retire;
    WithoutLaws(w.reg, ids);
    TakeCount(w.reg, ids);
    Smaller(w.reg, ids, Warming(n));
  }

  lemma Smaller(r: Reg, ids: set<Id>, id: Id)
    requires id in r.entries && id !in r.entries - ids
    ensures |r.entries - ids| < |r.entries|
  {
    assert (r.entries - ids).Keys <= r.entries.Keys - {id};
    Cardinality((r.entries - ids).Keys, r.entries.Keys - {id});
    assert |r.entries - ids| == |(r.entries - ids).Keys|;
  }

  lemma RequestDropsSlot(w: World, t: nat, c: Choice, n: nat)
    requires RegOk(w.reg) && Enabled(w, t, c) && IsRequest(w.threads[t]) && !w.threads[t].AcqScan? && !w.threads[t].AcqRescan?
    requires Warming(n) in w.reg.entries && Warming(n) !in Next(w, t, c).reg.entries
    ensures ActivatesSlot(w, Next(w, t, c), t, n) || TakesOver(w, Next(w, t, c), t)
  {
    hide RegOk, Take, Scan, StepFill, StepTail, Replace, Compact, DroppableIds, Retire;
    var pc := w.threads[t];
    if pc.AcqFail? {
      TakeDropsSlot(w, t, {Warming(pc.wid)}, false, ThenDone, n);
    } else if pc.ReqDrop? {
      TakeDropsSlot(w, t, DroppableIds(w.reg), false, ThenRetry, n);
    } else if pc.ReqUpload? || pc.ReqSend? || pc.ReqRun? || pc.ReqRelease? {
      LeaseDropsNoSlot(w, pc.lease, n);
      assert false;
    }
  }

  lemma LeaseDropsNoSlot(w: World, l: LeaseRef, n: nat)
    requires Warming(n) in w.reg.entries
    ensures forall t: nat, kick: bool, next: After :: t < |w.threads| ==>
      Warming(n) in Take(w, t, {Conv(l.name)}, kick, next).reg.entries
  {
    hide Compact, UnitIds, Sids, Retire;
  }

  lemma FillDropsSlot(w: World, t: nat, c: Choice, n: nat)
    requires RegOk(w.reg) && Enabled(w, t, c) && IsFill(w.threads[t])
    requires Warming(n) in w.reg.entries && Warming(n) !in Next(w, t, c).reg.entries
    ensures ActivatesSlot(w, Next(w, t, c), t, n) || TakesOver(w, Next(w, t, c), t)
  {
    hide RegOk, Take, Scan, StepRequest, StepTail, Replace, Compact, NeedsWarm, Retire;
    var pc := w.threads[t];
    if pc.FillFailed? {
      TakeDropsSlot(w, t, {Warming(pc.wid)}, false, ThenRefillFail, n);
    } else if pc.FillActivate? && !KeepsIdle(w.reg, pc.wid) {
      hide StepFill;
      DiscardDropsSlot(w, t, c, n);
    }
  }

  lemma DiscardDropsSlot(w: World, t: nat, c: Choice, n: nat)
    requires RegOk(w.reg) && Enabled(w, t, c) && w.threads[t].FillActivate? && !KeepsIdle(w.reg, w.threads[t].wid)
    requires Warming(n) in w.reg.entries && Warming(n) !in Next(w, t, c).reg.entries
    ensures TakesOver(w, Next(w, t, c), t)
  {
    hide RegOk, Without, UnitIds, Sids, StepRequest, StepTail;
    var ids := {Warming(w.threads[t].wid)};
    WithoutLaws(w.reg, ids);
    TakeCount(w.reg, ids);
    Smaller(w.reg, ids, Warming(n));
  }

  lemma TailDropsSlot(w: World, t: nat, c: Choice, n: nat)
    requires RegOk(w.reg) && Enabled(w, t, c) && !IsRequest(w.threads[t]) && !IsFill(w.threads[t])
    requires Warming(n) in w.reg.entries && Warming(n) !in Next(w, t, c).reg.entries
    ensures TakesOver(w, Next(w, t, c), t)
  {
    hide RegOk, Take, StepRequest, StepFill, NeedsWarm, ExpiredIds, StoppableIds, Retire;
    var pc := w.threads[t];
    if pc.EvictTake? && pc.ttl > 0 {
      var ids := ExpiredIds(w.reg, pc.now, pc.ttl);
      TakeDropsSlot(w, t, ids, |UnitIds(w.reg, ids)| > 0, ThenDone, n);
    } else if pc.ShutTake? {
      TakeDropsSlot(w, t, StoppableIds(w.reg), false, ThenPoll, n);
    }
  }

  /**
   Between a moment a slot is registered and a later one at which it is not, it leaves once:
   its session takes its place with the unit, or one thread takes it out and owes the unit.
   */
  lemma {:induction false} SlotLeavesOnce(run: seq<World>, i: nat, j: nat, n: nat) returns (k: nat)
    requires Run(run) && i <= j < |run| && Warming(n) in run[i].reg.entries && Warming(n) !in run[j].reg.entries
    ensures i <= k < j && SlotLeaves(run[k], run[k + 1], n)
    ensures forall m: nat :: i <= m <= j ==> (Warming(n) in run[m].reg.entries <==> m <= k)
    decreases j
  {
    hide Inv, Run, Step, Next, Enabled, ActivatesSlot, TakesOver;
    RunKeeps(run, i);
    SlotIsNumbered(run[i], n);
    if Warming(n) in run[j - 1].reg.entries {
      k := j - 1;
      RunKeeps(run, k);
      RunStep(run, k);
      StepDropsSlot(run[k], run[j], n);
      forall m: nat | i <= m <= k ensures Warming(n) in run[m].reg.entries {
        if Warming(n) !in run[m].reg.entries {
          StaysNumbered(run, i, m, n);
          SlotGoneForGood(run, m, k, n);
        }
      }
    } else {
      k := SlotLeavesOnce(run, i, j - 1, n);
    }
  }

  lemma StepDropsSlot(w: World, w': World, n: nat)
    requires Inv(w) && Step(w, w') && Warming(n) in w.reg.entries && Warming(n) !in w'.reg.entries
    ensures SlotLeaves(w, w', n)
  {
    hide Inv, Next, Enabled, ActivatesSlot, TakesOver;
    if ThreadStep(w, w') {
      var t: nat, c: Choice :| Enabled(w, t, c) && w' == Next(w, t, c);
      SlotLeavesStep(w, t, c, n);
    }
  }

  lemma SlotIsNumbered(w: World, n: nat)
    requires Inv(w) && Warming(n) in w.reg.entries
    ensures n <= w.reg.warmingSeq
  {
    hide Inv;
    RegistryOk(w);
    assert EntryOk(w.reg, Warming(n), w.reg.entries[Warming(n)]);
  }

  lemma {:induction false} StaysNumbered(run: seq<World>, i: nat, j: nat, n: nat)
    requires Run(run) && i <= j < |run| && n <= run[i].reg.warmingSeq
    ensures n <= run[j].reg.warmingSeq
    decreases j
  {
    hide Run, Next, Enabled;
    if i < j {
      StaysNumbered(run, i, j - 1, n);
      RunStep(run, j - 1);
      if ThreadStep(run[j - 1], run[j]) {
        var t: nat, c: Choice :| Enabled(run[j - 1], t, c) && run[j] == Next(run[j - 1], t, c);
        SeqNeverFalls(run[j - 1], t, c);
      }
    }
  }

  /** What a thread owes it gives back in one step of its own, and owes nothing afterwards. */
  ghost predicate PaysBack(w: World, w': World, t: nat, debt: PC) {
    && debt.Refund? && t < |w.threads| && t < |w'.threads|
    && w.threads[t] == debt && w'.threads[t] == Closing(debt.victims, debt.kick, debt.next)
    && w'.used == w.used - debt.units && w'.reg == w.reg
  }

  lemma DebtStep(w: World, w': World, t: nat)
    requires Step(w, w') && t < |w.threads| && w.threads[t].Refund?
    ensures t < |w'.threads| && (w'.threads[t] == w.threads[t] || PaysBack(w, w', t, w.threads[t]))
  {
    hide Next, Enabled;
    if ThreadStep(w, w') {
      var u: nat, c: Choice :| Enabled(w, u, c) && w' == Next(w, u, c);
      if u == t { DebtPaid(w, t, c); } else { OtherThreads(w, u, c, t); }
    }
  }

  lemma DebtPaid(w: World, t: nat, c: Choice)
    requires Enabled(w, t, c) && w.threads[t].Refund?
    ensures PaysBack(w, Next(w, t, c), t, w.threads[t])
  {
    hide StepRequest, StepFill, Take, MaybeRefill, ExpiredIds, StoppableIds;
  }

  /** Step `p` of the run is the first after `k` in which thread `t` moves, and in it the thread pays its debt. */
  ghost predicate PaysFirst(run: seq<World>, k: nat, p: nat, t: nat) {
    && k < p < |run| - 1 && t < |run[k + 1].threads|
    && PaysBack(run[p], run[p + 1], t, run[k + 1].threads[t])
    && forall m: nat :: k < m <= p ==> t < |run[m].threads| && run[m].threads[t] == run[k + 1].threads[t]
  }

  /** So the units a thread took out with a slot go back once, in the first step in which it moves on. */
  lemma {:induction false} DebtPaidOnce(run: seq<World>, i: nat, j: nat, t: nat) returns (k: nat)
    requires Run(run) && i <= j < |run| && t < |run[i].threads| && run[i].threads[t].Refund?
    requires t < |run[j].threads| && run[j].threads[t] != run[i].threads[t]
    ensures i <= k < j && PaysBack(run[k], run[k + 1], t, run[i].threads[t])
    ensures forall m: nat :: i <= m <= k ==> t < |run[m].threads| && run[m].threads[t] == run[i].threads[t]
    decreases j - i
  {
    hide Run, Step, PaysBack;
    RunStep(run, i);
    DebtStep(run[i], run[i + 1], t);
    if run[i + 1].threads[t] == run[i].threads[t] {
      k := DebtPaidOnce(run, i + 1, j, t);
    } else {
      k := i;
    }
  }

  lemma StepGrows(w: World, w': World)
    requires Step(w, w')
    ensures |w.threads| <= |w'.threads|
  {
    if ThreadStep(w, w') {
      var t: nat, c: Choice :| Enabled(w, t, c) && w' == Next(w, t, c);
      GrowsByOne(w, t, c);
    }
  }

  lemma GrowsByOne(w: World, t: nat, c: Choice)
    requires Enabled(w, t, c)
    ensures |w.threads| <= |Next(w, t, c).threads| <= |w.threads| + 1
  {
    hide Without, Reserve, Activate, TryActivateIdle, FirstLeasable, NeedsWarm, DroppableIds, ExpiredIds, StoppableIds;
    hide UnitIds, Sids, Retire;
    if IsFill(w.threads[t]) {
      hide StepRequest, StepTail, Scan, RetireLease;
    } else if !IsRequest(w.threads[t]) {
      hide StepRequest, StepFill, Scan, RetireLease, Register, Fetch, ReserveSlot;
    } else {
      hide StepTail, StepFill;
    }
  }

  lemma {:induction false} ThreadsStay(run: seq<World>, i: nat, j: nat)
    requires Run(run) && i <= j < |run|
    ensures |run[i].threads| <= |run[j].threads|
    decreases j
  {
    hide Run, Step;
    if i < j {
      ThreadsStay(run, i, j - 1);
      RunStep(run, j - 1);
      StepGrows(run[j - 1], run[j]);
    }
  }

  /**
   The unit of a slot comes back once: the slot leaves in one step, in which its own thread
   registers the session with the unit or some thread takes the unit over; and by the time
   that thread has moved on it has paid in exactly one step, the first in which it moved.
   */
  lemma SlotUnitReturnsOnce(run: seq<World>, i: nat, j: nat, n: nat) returns (k: nat, t: nat)
    requires Run(run) && i <= j < |run| && Warming(n) in run[i].reg.entries && Warming(n) !in run[j].reg.entries
    ensures i <= k < j && t < |run[k + 1].threads| <= |run[j].threads|
    ensures forall m: nat :: i <= m <= j ==> (Warming(n) in run[m].reg.entries <==> m <= k)
    ensures ActivatesSlot(run[k], run[k + 1], t, n)
         || (TakesOver(run[k], run[k + 1], t)
             && (run[j].threads[t] == run[k + 1].threads[t]
                 || exists p: nat :: p < j && PaysFirst(run, k, p, t)))
  {
    hide Run, PaysBack;
    k := SlotLeavesOnce(run, i, j, n);
    t :| ActivatesSlot(run[k], run[k + 1], t, n) || TakesOver(run[k], run[k + 1], t);
    ThreadsStay(run, k, k + 1);
    ThreadsStay(run, k + 1, j);
    if TakesOver(run[k], run[k + 1], t) && run[j].threads[t] != run[k + 1].threads[t] {
      var p := DebtPaidOnce(run, k + 1, j, t);
      assert PaysFirst(run, k, p, t);
    }
  }
}
