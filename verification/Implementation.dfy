/**
 The class carries out the transition system: every step of every thread of the pool is a
 call of the section of the class that it stands for. As the steps may come from any threads
 in any order, this covers every interleaving, including the sessions that are closed.
 */
module Implementation {
  import opened Ids
  import opened Registry
  import opened Wrappers
  import opened RegistryLaws
  import opened Pool
  import opened PoolInvariant
  import opened PoolMoves
  import opened PoolLifecycle
  import opened PoolTheorems
  import S = SessionManager

  /** Entries and threads hold the session objects that the pool knows by number; the closed ones are closed. */
  ghost predicate Embodied(sessions: map<Id, S.ManagedSession>, w: World, objs: seq<S.SessionState>)
    reads objs
  {
    && |objs| == |w.place|
    && (forall s: nat :: s < |objs| ==> objs[s].sid == s && (objs[s].Closed() <==> w.place[s] == ClosedByManager))
    && (forall id :: id in sessions ==> Known(sessions[id].session, objs))
    && (forall t: nat :: t < |w.threads| ==> FetchedKnown(FetchedBy(w.threads[t]), objs))
  }

  ghost predicate Known(session: S.SessionState?, objs: seq<S.SessionState>) {
    session != null ==> session.sid < |objs| && objs[session.sid] == session
  }

  ghost predicate FetchedKnown(s: Option<Sess>, objs: seq<S.SessionState>) {
    s.Some? ==> s.value.sid < |objs| && objs[s.value.sid].Fetched() == s.value
  }

  /** The manager's registry, semaphore and sessions are those of the pool. */
  ghost predicate Represents(m: S.Manager, w: World, objs: seq<S.SessionState>)
    reads m, m.sessions.Values, objs
  {
    m.Valid() && m.limits == w.limits && m.View() == w.reg && m.inUse == w.used && Embodied(m.sessions, w, objs)
  }

  // ---------- What a step does to sessions and threads ----------

  predicate Starts(pc: PC) { pc.AcqStart? || pc.FillStart? }

  /** A step closes what its thread was to close, and nothing else. */
  ghost predicate ClosesVictims(w: World, t: nat, c: Choice, w': World)
    requires t < |w.threads|
  {
    && |w'.place| == |w.place| + (if Starts(w.threads[t]) && c.ok then 1 else 0)
    && (forall s: nat :: s < |w.place| ==>
          (w'.place[s] == ClosedByManager <==>
             w.place[s] == ClosedByManager || (w.threads[t].Closing? && s in w.threads[t].victims)))
    && (|w'.place| > |w.place| ==> w'.place[|w.place|] != ClosedByManager)
  }

  /** Only a successful start gives a thread a session it did not have. */
  ghost predicate FetchesOwn(w: World, t: nat, c: Choice, w': World)
    requires t < |w.threads|
  {
    forall u: nat :: u < |w'.threads| && FetchedBy(w'.threads[u]).Some? ==>
      || (u < |w.threads| && FetchedBy(w'.threads[u]) == FetchedBy(w.threads[u]))
      || (Starts(w.threads[t]) && c.ok && FetchedBy(w'.threads[u]).value == Sess(|w.convs|, c.conv, c.now))
  }

  ghost predicate Frames(w: World, t: nat, c: Choice, w': World) {
    && t < |w.threads| && ClosesVictims(w, t, c, w') && FetchesOwn(w, t, c, w') && w'.limits == w.limits
  }

  lemma StepFrames(w: World, t: nat, c: Choice)
    requires Inv(w) && Enabled(w, t, c)
    ensures Frames(w, t, c, Next(w, t, c))
  {
    hide Inv, Frames, StepRequest, StepFill, StepTail;
    PlacedThread(w, t);
    var pc := w.threads[t];
    if pc.AcqScan? || pc.AcqRescan? {
      ScanFrames(w, t, c);
    } else if IsRequest(pc) {
      RequestFrames(w, t, c);
    } else if IsFill(pc) {
      FillFrames(w, t, c);
    } else {
      TailFrames(w, t, c);
    }
  }

  lemma ScanFrames(w: World, t: nat, c: Choice)
    requires Inv(w) && Enabled(w, t, c) && (w.threads[t].AcqScan? || w.threads[t].AcqRescan?)
    ensures Frames(w, t, c, StepRequest(w, t, c))
  {
    hide Inv, RegOk, PlaceOk, TryActivateIdle, Take, Register, Fetch, ReserveSlot, RetireLease;
    InvGives(w);
    if FirstLeasable(w.reg.byAge, w.reg.entries).Some? {
      var id := FirstLeasable(w.reg.byAge, w.reg.entries).value;
      var sid := FindsIdle(w, id);
      IdlePlaced(w, id);
    }
  }

  lemma InvGives(w: World)
    requires Inv(w)
    ensures RegOk(w.reg) && PlaceOk(w) && |w.place| == |w.convs|
  {
  }

  lemma IdlePlaced(w: World, id: Id)
    requires PlaceOk(w) && id in w.reg.entries && w.reg.entries[id].session.Some?
    ensures w.reg.entries[id].session.value.sid < |w.place|
    ensures w.place[w.reg.entries[id].session.value.sid].Registered?
  {
    assert EntryPlaced(w, id);
  }

  lemma RequestFrames(w: World, t: nat, c: Choice)
    requires Enabled(w, t, c) && IsRequest(w.threads[t]) && !w.threads[t].AcqScan? && !w.threads[t].AcqRescan?
    requires |w.place| == |w.convs| && ThreadPlaced(w, t)
    ensures Frames(w, t, c, StepRequest(w, t, c))
  {
    hide Scan, Without, Reserve, ActivateLease, DroppableIds, UnitIds, Sids;
  }

  lemma FillFrames(w: World, t: nat, c: Choice)
    requires Enabled(w, t, c) && IsFill(w.threads[t]) && |w.place| == |w.convs| && ThreadPlaced(w, t)
    ensures Frames(w, t, c, StepFill(w, t, c))
  {
    hide Without, Reserve, ActivateIdle, NeedsWarm, FinishPass, KeepsIdle, UnitIds, Sids;
  }

  lemma TailFrames(w: World, t: nat, c: Choice)
    requires Enabled(w, t, c) && !IsRequest(w.threads[t]) && !IsFill(w.threads[t])
    requires |w.place| == |w.convs| && ThreadPlaced(w, t)
    ensures Frames(w, t, c, StepTail(w, t, c))
  {
    hide Without, MaybeRefill, Spawns, ExpiredIds, StoppableIds, UnitIds, Sids;
  }

  // ---------- What a step does to the registry and the semaphore ----------

  /** The state the mutex and the semaphore protect. */
  ghost predicate Shared(w: World, reg: Reg, used: int) { w.reg == reg && w.used == used }

  /** The steps that neither the mutex nor the semaphore sees. */
  predicate Unseen(pc: PC, c: Choice) {
    || (pc.AcqWait? && !c.ok) || (pc.ReqUpload? && c.ok) || (pc.ReqSend? && c.ok) || Starts(pc)
    || pc.FillTop? || pc.FillCheck? || pc.Closing? || pc.ShutPoll?
  }

  lemma UnseenShares(w: World, t: nat, c: Choice)
    requires Enabled(w, t, c) && Unseen(w.threads[t], c)
    ensures Shared(Next(w, t, c), w.reg, w.used)
  {
    hide Take, Scan, RetireLease, Register, ReserveSlot, Retire;
  }

  predicate Deletes(pc: PC, c: Choice) {
    || pc.AcqFail? || pc.FillFailed? || pc.ReqRun? || pc.ReqRelease? || (pc.ReqUpload? && !c.ok) || (pc.ReqSend? && !c.ok)
  }

  function DeletedId(pc: PC): Id
    requires pc.AcqFail? || pc.FillFailed? || pc.ReqRun? || pc.ReqRelease? || pc.ReqUpload? || pc.ReqSend?
  {
    if pc.AcqFail? || pc.FillFailed? then Warming(pc.wid) else Conv(pc.lease.name)
  }

  lemma DeleteShares(w: World, t: nat, c: Choice)
    requires Enabled(w, t, c) && Deletes(w.threads[t], c)
    ensures Shared(Next(w, t, c), Without(w.reg, {DeletedId(w.threads[t])}), w.used)
  {
    hide Scan, Register, Fetch, ReserveSlot, UnitIds, Sids, Retire, Compact;
  }

  // ---------- The steps carried out ----------

  /** Enough of a step to carry the representation over: the new entries are known sessions, the closed ones are closed. */
  lemma StillEmbodied(sessions: map<Id, S.ManagedSession>, w: World, t: nat, c: Choice, objs: seq<S.SessionState>)
    requires Inv(w) && Enabled(w, t, c) && !(Starts(w.threads[t]) && c.ok)
    requires |objs| == |w.place|
    requires forall id :: id in sessions ==> Known(sessions[id].session, objs)
    requires forall u: nat :: u < |w.threads| ==> FetchedKnown(FetchedBy(w.threads[u]), objs)
    requires forall s: nat :: s < |objs| ==> objs[s].sid == s
    requires forall s: nat :: s < |objs| ==>
      (objs[s].Closed() <==>
         w.place[s] == ClosedByManager || (w.threads[t].Closing? && s in w.threads[t].victims))
    ensures Embodied(sessions, Next(w, t, c), objs) && Next(w, t, c).limits == w.limits
  {
    hide Inv, Next, Known, FetchedKnown;
    StepFrames(w, t, c);
    var w' := Next(w, t, c);
    forall u: nat | u < |w'.threads| ensures FetchedKnown(FetchedBy(w'.threads[u]), objs) {
      if FetchedBy(w'.threads[u]) == None { NothingFetched(objs); }
    }
  }

  lemma NothingFetched(objs: seq<S.SessionState>)
    ensures FetchedKnown(None, objs)
  {
  }

  /** Outside the mutex and the semaphore: only closing and starting sessions do anything. */
  method PerformUnseen(m: S.Manager, objs: seq<S.SessionState>, pc: PC, c: Choice, ghost w: World, ghost t: nat)
    returns (objs': seq<S.SessionState>)
    requires Represents(m, w, objs) && Inv(w) && Enabled(w, t, c) && w.threads[t] == pc && Unseen(pc, c)
    modifies objs
    ensures Represents(m, Next(w, t, c), objs') && objs <= objs' && forall s :: s in objs'[|objs|..] ==> fresh(s)
  {
    hide Inv, Next, S.Manager.Valid, S.Manager.Entries, Known, FetchedKnown;
    UnseenShares(w, t, c);
    if Starts(pc) && c.ok {
      var session := new S.SessionState(|objs|, c.conv, c.now);
      objs' := objs + [session];
      StartEmbodied(m.sessions, w, t, c, objs, session);
    } else {
      if pc.Closing? {
        CloseVictims(objs, pc.victims);
        VictimsPlaced(w, t);
      }
      objs' := objs;
      StillEmbodied(m.sessions, w, t, c, objs);
    }
  }

  lemma VictimsPlaced(w: World, t: nat)
    requires Inv(w) && t < |w.threads|
    ensures forall s :: s in Victims(w.threads[t]) ==> s < |w.place|
  {
    hide Inv;
    PlacedThread(w, t);
  }

  /** Closes the victims, in any order. */
  method CloseVictims(objs: seq<S.SessionState>, victims: set<nat>)
    requires forall i: nat, j: nat :: i < j < |objs| ==> objs[i] != objs[j]
    modifies objs
    ensures forall s: nat :: s < |objs| ==> (objs[s].Closed() <==> old(objs[s].Closed()) || s in victims)
  {
    var todo := victims;
    while todo != {}
      invariant todo <= victims
      invariant forall s: nat :: s < |objs| ==>
        (objs[s].Closed() <==> old(objs[s].Closed()) || s in victims - todo)
      decreases |todo|
    {
      var s :| s in todo;
      if s < |objs| {
        S.CloseSession(objs[s]);
      }
      todo := todo - {s};
    }
  }

  lemma StartEmbodied(
    sessions: map<Id, S.ManagedSession>, w: World, t: nat, c: Choice, objs: seq<S.SessionState>, session: S.SessionState)
    requires Inv(w) && Enabled(w, t, c) && Starts(w.threads[t]) && c.ok && Embodied(sessions, w, objs)
    requires session.Fetched() == Sess(|objs|, c.conv, c.now) && session.sid == |objs| && !session.Closed()
    ensures Embodied(sessions, Next(w, t, c), objs + [session]) && Next(w, t, c).limits == w.limits
  {
    hide Inv, Next;
    StepFrames(w, t, c);
    InvGives(w);
    var more := objs + [session];
    var w' := Next(w, t, c);
    forall u: nat | u < |w'.threads| ensures FetchedKnown(FetchedBy(w'.threads[u]), more) {
      if u < |w.threads| { assert FetchedKnown(FetchedBy(w.threads[u]), objs); }
    }
    forall id | id in sessions ensures Known(sessions[id].session, more) {
      assert Known(sessions[id].session, objs);
    }
  }

  /** The locked section of `release`, `invalidate` and `remove`; the unit is given back later. */
  method PerformDelete(m: S.Manager, objs: seq<S.SessionState>, pc: PC, c: Choice, ghost w: World, ghost t: nat)
    requires Represents(m, w, objs) && Inv(w) && Enabled(w, t, c) && w.threads[t] == pc && Deletes(pc, c)
    modifies m`sessions, m`byAge, m.sessions.Values
    ensures Represents(m, Next(w, t, c), objs) && m.sessions.Values <= old(m.sessions.Values)
  {
    hide Inv, Next, S.Manager.Valid, S.Manager.Entries, Without, Known, FetchedKnown;
    DeleteShares(w, t, c);
    var id := DeletedId(pc);
    m.UnitOf(id);
    if id in m.sessions {
      var entry := m.DeleteAndCompact(id);
      var _ := entry.Surrender(if pc.ReqRelease? || pc.ReqUpload? then Draining else Closed, pc.ReqRelease?, c.now);
    }
    StillEmbodied(m.sessions, w, t, c, objs);
  }

  // ---------- Scanning ----------

  lemma ScanShares(w: World, t: nat, c: Choice)
    requires Inv(w) && Enabled(w, t, c) && (w.threads[t].AcqScan? || w.threads[t].AcqRescan?)
    ensures Shared(Next(w, t, c), TryActivateIdle(w.reg, c.now), w.used)
  {
    hide Inv, Take, Register, Fetch, ReserveSlot, RetireLease, StepFill, StepTail;
    InvGives(w);
    if FirstLeasable(w.reg.byAge, w.reg.entries).Some? {
      var _ := FindsIdle(w, FirstLeasable(w.reg.byAge, w.reg.entries).value);
    }
  }

  method PerformScan(m: S.Manager, objs: seq<S.SessionState>, pc: PC, c: Choice, ghost w: World, ghost t: nat)
    requires Represents(m, w, objs) && Inv(w) && Enabled(w, t, c) && w.threads[t] == pc && (pc.AcqScan? || pc.AcqRescan?)
    modifies m.sessions.Values
    ensures Represents(m, Next(w, t, c), objs)
  {
    hide Inv, Next, S.Manager.Valid, S.Manager.Entries, TryActivateIdle, Known, FetchedKnown;
    ScanShares(w, t, c);
    var _ := m.TryActivateIdleLease(c.now);
    StillEmbodied(m.sessions, w, t, c, objs);
  }

  // ---------- Sweeping ----------

  predicate Sweeps(pc: PC) { pc.ReqDrop? || pc.ShutTake? || pc.EvictTake? }

  ghost function SweptIds(r: Reg, pc: PC): set<Id>
    requires Sweeps(pc)
  {
    match pc
    case ReqDrop => DroppableIds(r)
    case ShutTake => StoppableIds(r)
    case EvictTake(now, ttl) => if ttl <= 0 then {} else ExpiredIds(r, now, ttl)
  }

  lemma SweepShares(w: World, t: nat, c: Choice)
    requires Enabled(w, t, c) && Sweeps(w.threads[t])
    ensures Shared(Next(w, t, c), Without(w.reg, SweptIds(w.reg, w.threads[t])), w.used)
  {
    hide DroppableIds, StoppableIds, ExpiredIds, UnitIds, Sids, Retire, Compact, MaybeRefill, StepFill;
  }

  method PerformSweep(m: S.Manager, objs: seq<S.SessionState>, pc: PC, c: Choice, ghost w: World, ghost t: nat)
    requires Represents(m, w, objs) && Inv(w) && Enabled(w, t, c) && w.threads[t] == pc && Sweeps(pc)
    modifies m`sessions, m`byAge, m.sessions.Values
    ensures Represents(m, Next(w, t, c), objs) && m.sessions.Values <= old(m.sessions.Values)
  {
    hide Inv, Next, S.Manager.Valid, S.Manager.Entries, Without, Known, FetchedKnown, DroppableIds, StoppableIds;
    hide ExpiredIds;
    SweepShares(w, t, c);
    ghost var swept := SweptIds(w.reg, pc);
    match pc {
      case ReqDrop => var _, _ := m.TakeIdleVictims();
      case ShutTake => var _, _ := m.TakeShutdownVictims();
      case EvictTake(now, ttl) =>
        if ttl > 0 {
          var _, _ := m.TakeExpiredIdle(now, ttl);
        } else {
          NothingTaken(w.reg);
          assert m.sessions - {} == m.sessions;
        }
    }
    StillEmbodied(m.sessions, w, t, c, objs);
  }

  lemma NothingTaken(r: Reg)
    ensures Without(r, {}) == r
  {
  }

  // ---------- Units, slots and flags ----------

  predicate TakesUnit(pc: PC, c: Choice) { (pc.AcqWait? && c.ok) || pc.FillTry? }

  lemma UnitShares(w: World, t: nat, c: Choice)
    requires Enabled(w, t, c) && (TakesUnit(w.threads[t], c) || w.threads[t].Refund?)
    ensures Shared(Next(w, t, c), w.reg,
      if w.threads[t].Refund? then w.used - w.threads[t].units
      else if w.used < w.limits.maxSessions then w.used + 1 else w.used)
  {
    hide Take, Scan, RetireLease, Register, Fetch, ReserveSlot, MaybeRefill;
  }

  method PerformUnit(m: S.Manager, objs: seq<S.SessionState>, pc: PC, c: Choice, ghost w: World, ghost t: nat)
    requires Represents(m, w, objs) && Inv(w) && Enabled(w, t, c) && w.threads[t] == pc
    requires TakesUnit(pc, c) || pc.Refund?
    modifies m`inUse
    ensures Represents(m, Next(w, t, c), objs)
  {
    hide Inv, Next, S.Manager.Valid, S.Manager.Entries, Known, FetchedKnown;
    UnitShares(w, t, c);
    if pc.Refund? {
      m.ReleaseCapacity(pc.units);
    } else {
      var _ := m.TryAcquireCapacity();
    }
    StillEmbodied(m.sessions, w, t, c, objs);
  }

  lemma ReserveShares(w: World, t: nat, c: Choice)
    requires Enabled(w, t, c) && (w.threads[t].AcqReserve? || w.threads[t].FillReserve?)
    ensures if w.threads[t].AcqReserve? then Shared(Next(w, t, c), Reserve(w.reg, false, c.now), w.used)
            else if NeedsWarm(w.limits, w.reg) then Shared(Next(w, t, c), Reserve(w.reg, true, c.now), w.used)
            else Shared(Next(w, t, c), w.reg, w.used - 1)
  {
    hide Take, Scan, RetireLease, Register, Fetch, NeedsWarm, Reserve, StepTail;
  }

  method PerformReserve(m: S.Manager, objs: seq<S.SessionState>, pc: PC, c: Choice, ghost w: World, ghost t: nat)
    requires Represents(m, w, objs) && Inv(w) && Enabled(w, t, c) && w.threads[t] == pc
    requires pc.AcqReserve? || pc.FillReserve?
    modifies m`sessions, m`byAge, m`warmingSeq, m`inUse
    ensures Represents(m, Next(w, t, c), objs) && fresh(m.sessions.Values - old(m.sessions.Values))
  {
    hide Inv, Next, S.Manager.Valid, S.Manager.Entries, Reserve, NeedsWarm, FetchedKnown;
    ReserveShares(w, t, c);
    var needs := true;
    if pc.FillReserve? {
      needs := m.NeedsWarmIdle();
    }
    if needs {
      var _ := m.ReserveWarming(pc.FillReserve?, c.now);
    } else {
      m.ReleaseCapacity(1);
    }
    StillEmbodied(m.sessions, w, t, c, objs);
  }

  predicate SetsFlags(pc: PC) { pc.Kick? || pc.FillPass? || pc.FillEnd? || pc.ShutCancel? }

  lemma FlagShares(w: World, t: nat, c: Choice)
    requires Enabled(w, t, c) && SetsFlags(w.threads[t])
    ensures Shared(Next(w, t, c),
      match w.threads[t]
      case Kick(_) => MaybeRefill(w.limits, w.reg)
      case FillPass => FinishPass(w.limits, w.reg)
      case FillEnd => FinishFailure(w.reg)
      case _ => w.reg.(cancelled := true), w.used)
  {
    hide Take, Scan, RetireLease, Register, Fetch, ReserveSlot, NeedsWarm, StepRequest;
  }

  method PerformFlags(m: S.Manager, objs: seq<S.SessionState>, pc: PC, c: Choice, ghost w: World, ghost t: nat)
    requires Represents(m, w, objs) && Inv(w) && Enabled(w, t, c) && w.threads[t] == pc && SetsFlags(pc)
    modifies m`refillRunning, m`refillRequested, m`cancelled
    ensures Represents(m, Next(w, t, c), objs)
  {
    hide Inv, Next, S.Manager.Valid, S.Manager.Entries, NeedsWarm, MaybeRefill, FinishPass, Known, FetchedKnown;
    FlagShares(w, t, c);
    match pc {
      case Kick(_) => var _ := m.MaybeRefillNow();
      case FillPass => var _ := m.FinishRefillPass();
      case FillEnd => m.FinishRefillFailure();
      case ShutCancel => m.StopRefill();
    }
    StillEmbodied(m.sessions, w, t, c, objs);
  }

  // ---------- Activating ----------

  lemma ActivateShares(w: World, t: nat, c: Choice)
    requires Enabled(w, t, c) && (w.threads[t].AcqActivate? || w.threads[t].FillActivate?)
    ensures var pc := w.threads[t];
      Shared(Next(w, t, c),
        if pc.AcqActivate? then ActivateLease(w.reg, pc.wid, pc.sess, c.now) else ActivateIdle(w.reg, pc.wid, pc.sess, c.now),
        w.used)
  {
    hide Take, Scan, RetireLease, Fetch, ReserveSlot, Activate, Without, KeepsIdle, NeedsWarm, StepTail;
  }

  method PerformActivate(m: S.Manager, objs: seq<S.SessionState>, pc: PC, c: Choice, ghost w: World, ghost t: nat)
    requires Represents(m, w, objs) && Inv(w) && Enabled(w, t, c) && w.threads[t] == pc
    requires pc.AcqActivate? || pc.FillActivate?
    modifies m`sessions, m`byAge
    ensures Represents(m, Next(w, t, c), objs) && fresh(m.sessions.Values - old(m.sessions.Values))
  {
    hide Inv, Next, S.Manager.Valid, S.Manager.Entries, Activate, Without;
    ActivateShares(w, t, c);
    assert FetchedKnown(FetchedBy(w.threads[t]), objs);
    var session := objs[pc.sess.sid];
    var id := Warming(pc.wid);
    if pc.AcqActivate? {
      var _ := m.ActivateLease(pc.wid, session, c.now);
    } else if id in m.sessions && !m.cancelled {
      m.UnitOf(id);
      m.Register(pc.wid, session, Idle, true, c.now);
    } else {
      m.UnitOf(id);
      if id in m.sessions {
        var _ := m.DeleteAndCompact(id);
      }
    }
    StillEmbodied(m.sessions, w, t, c, objs);
  }

  // ---------- Every step ----------

  /**
   Whatever thread `t` does next, the class can do: it goes from a state that represents the
   pool to one that represents the pool after that step.
   */
  method Perform(m: S.Manager, objs: seq<S.SessionState>, pc: PC, c: Choice, ghost w: World, ghost t: nat)
    returns (objs': seq<S.SessionState>)
    requires Represents(m, w, objs) && Inv(w) && Enabled(w, t, c) && w.threads[t] == pc
    modifies m, m.sessions.Values, objs
    ensures Represents(m, Next(w, t, c), objs') && objs <= objs'
    ensures fresh(m.sessions.Values - old(m.sessions.Values)) && forall s :: s in objs'[|objs|..] ==> fresh(s)
  {
    hide Inv, Next, Represents;
    objs' := objs;
    if Unseen(pc, c) {
      objs' := PerformUnseen(m, objs, pc, c, w, t);
    } else if Deletes(pc, c) {
      PerformDelete(m, objs, pc, c, w, t);
    } else if pc.AcqScan? || pc.AcqRescan? {
      PerformScan(m, objs, pc, c, w, t);
    } else if Sweeps(pc) {
      PerformSweep(m, objs, pc, c, w, t);
    } else if TakesUnit(pc, c) || pc.Refund? {
      PerformUnit(m, objs, pc, c, w, t);
    } else if pc.AcqReserve? || pc.FillReserve? {
      PerformReserve(m, objs, pc, c, w, t);
    } else if SetsFlags(pc) {
      PerformFlags(m, objs, pc, c, w, t);
    } else {
      PerformActivate(m, objs, pc, c, w, t);
    }
  }

  // ---------- Whole runs ----------

  /** What happens next: a step of a thread, or a new thread. */
  datatype Move = Thread(t: nat, c: Choice) | Arrives(pc: PC)

  predicate Possible(w: World, move: Move) {
    match move
    case Thread(t, c) => Enabled(w, t, c)
    case Arrives(pc) => Spawnable(pc)
  }

  function Outcome(w: World, move: Move): World
    requires Possible(w, move)
  {
    match move
    case Thread(t, c) => Next(w, t, c)
    case Arrives(pc) => Spawn(w, pc)
  }

  predicate Schedule(w: World, moves: seq<Move>)
    decreases |moves|
  {
    moves == [] || (Possible(w, moves[0]) && Schedule(Outcome(w, moves[0]), moves[1..]))
  }

  function After(w: World, moves: seq<Move>): World
    requires Schedule(w, moves)
    decreases |moves|
  {
    if moves == [] then w else After(Outcome(w, moves[0]), moves[1..])
  }

  lemma MoveKeeps(w: World, move: Move)
    requires Inv(w) && Possible(w, move)
    ensures Inv(Outcome(w, move))
  {
    hide Inv, Next, Enabled;
    match move {
      case Thread(t, c) => NextKeeps(w, t, c);
      case Arrives(pc) => StepKeeps(w, Spawn(w, pc));
    }
  }

  /** A manager as its constructor leaves it is where every run starts. */
  lemma StartRepresents(m: S.Manager)
    requires m.Valid() && m.View() == EMPTY && m.inUse == 0
    ensures Represents(m, Init(m.limits), [])
  {
    m.EntryKeys();
    assert m.sessions.Keys == {};
  }

  /** A thread that arrives has nothing yet. */
  lemma SpawnRepresents(m: S.Manager, w: World, pc: PC, objs: seq<S.SessionState>)
    requires Represents(m, w, objs) && Spawnable(pc)
    ensures Represents(m, Spawn(w, pc), objs)
  {
    hide S.Manager.Valid, S.Manager.Entries, Known;
    var w' := Spawn(w, pc);
    forall u: nat | u < |w'.threads| ensures FetchedKnown(FetchedBy(w'.threads[u]), objs) {
      if u < |w.threads| { assert FetchedKnown(FetchedBy(w.threads[u]), objs); }
    }
  }

  /** Carries out any number of moves of any threads, in the order in which they come. */
  method Execute(m: S.Manager, objs: seq<S.SessionState>, w: World, moves: seq<Move>) returns (objs': seq<S.SessionState>)
    requires Represents(m, w, objs) && Inv(w) && Schedule(w, moves)
    modifies m, m.sessions.Values, objs
    ensures Represents(m, After(w, moves), objs') && objs <= objs'
  {
    hide Inv, Represents, Possible, Outcome;
    objs' := objs;
    var now := w;
    var i := 0;
    while i < |moves|
      invariant i <= |moves| && Inv(now) && Represents(m, now, objs') && objs <= objs'
      invariant Schedule(now, moves[i..]) && After(now, moves[i..]) == After(w, moves)
      invariant forall e :: e in m.sessions.Values ==> e in old(m.sessions.Values) || fresh(e)
      invariant forall s :: s in objs' ==> s in objs || fresh(s)
    {
      assert moves[i..][1..] == moves[i + 1..];
      assert forall k: nat :: k < |objs'| ==> objs'[k] in objs || fresh(objs'[k]);
      MoveKeeps(now, moves[i]);
      objs' := Make(m, objs', now, moves[i]);
      now := Outcome(now, moves[i]);
      i := i + 1;
    }
  }

  method Make(m: S.Manager, objs: seq<S.SessionState>, w: World, move: Move) returns (objs': seq<S.SessionState>)
    requires Represents(m, w, objs) && Inv(w) && Possible(w, move)
    modifies m, m.sessions.Values, objs
    ensures Represents(m, Outcome(w, move), objs') && objs <= objs'
    ensures forall e :: e in m.sessions.Values ==> e in old(m.sessions.Values) || fresh(e)
    ensures forall s :: s in objs' ==> s in objs || fresh(s)
  {
    hide Inv, Next, Represents;
    match move {
      case Thread(t, c) => objs' := Perform(m, objs, w.threads[t], c, w, t);
      case Arrives(pc) =>
        SpawnRepresents(m, w, pc, objs);
        objs' := objs;
    }
    assert objs' == objs + objs'[|objs|..];
  }

  /** And there is no run but of such moves. */
  lemma {:induction false} RunIsSchedule(run: seq<World>) returns (moves: seq<Move>)
    requires |run| > 0 && forall i :: 0 <= i < |run| - 1 ==> Step(run[i], run[i + 1])
    ensures |moves| == |run| - 1 && Schedule(run[0], moves) && After(run[0], moves) == run[|run| - 1]
    decreases |run|
  {
    hide Step;
    if |run| == 1 {
      moves := [];
    } else {
      var rest := run[1..];
      assert Step(run[0], run[0 + 1]);
      var move := StepIsMove(run[0], run[1]);
      forall i | 0 <= i < |rest| - 1 ensures Step(rest[i], rest[i + 1]) {
        assert Step(run[i + 1], run[i + 1 + 1]);
      }
      var others := RunIsSchedule(rest);
      moves := [move] + others;
      assert moves[1..] == others;
    }
  }

  lemma StepIsMove(w: World, w': World) returns (move: Move)
    requires Step(w, w')
    ensures Possible(w, move) && Outcome(w, move) == w'
  {
    hide Next, Enabled;
    if ThreadStep(w, w') {
      var t: nat, c: Choice :| Enabled(w, t, c) && w' == Next(w, t, c);
      move := Thread(t, c);
    } else {
      var pc: PC :| Spawnable(pc) && w' == Spawn(w, pc);
      move := Arrives(pc);
    }
  }
}
