/**
 A request on the manager itself: the retrying start, then collecting or forwarding its
 events, with no other thread in between. That no other thread touches a leased session
 meanwhile is proved in `PoolLifecycle.dfy`.
 */
module Requests {
  import opened Ids
  import opened Registry
  import opened Wrappers
  import opened RegistryLaws
  import opened Errors
  import opened Protocol
  import C = Completion
  import S = SessionManager

  /**
   What an attempt meets: the conversation its start would yield, or the error, the context's
   error if there is no unit, the outcomes of upload and send, and the context after the send.
   */
  datatype Attempt = Attempt(
    conv: Option<string>, startErr: Err, expiry: Err, upload: Option<Err>, send: Option<Err>, ctxDone: bool)

  predicate ShouldRetrySend(ctxDone: bool, e: Err, attempt: nat) {
    attempt == 0 && !ctxDone && !Is(e, Canceled) && !Is(e, DeadlineExceeded)
  }

  // ---------- What an attempt comes to ----------

  /** A second attempt never looks at the idle sessions. */
  predicate TakesIdle(r: Reg, attempt: nat) { attempt == 0 && FirstLeasable(r.byAge, r.entries).Some? }

  function LeaseError(l: Limits, r: Reg, used: int, a: Attempt, attempt: nat): Option<Err> {
    if TakesIdle(r, attempt) then None
    else if used >= l.maxSessions then
      Some(Wrap("get session", Capacity("session capacity exhausted", Some(a.expiry))))
    else if a.conv == None then Some(Wrap("get session", a.startErr))
    else None
  }

  function AttemptError(l: Limits, r: Reg, used: int, a: Attempt, attempt: nat): Option<Err> {
    if LeaseError(l, r, used, a, attempt).Some? then LeaseError(l, r, used, a, attempt)
    else if a.upload.Some? then a.upload
    else if a.send.Some? then Some(Wrap("copilot websocket send", a.send.value))
    else None
  }

  /** The attempt got as far as sending and failed there, in a way worth another one. */
  predicate Resends(l: Limits, r: Reg, used: int, a: Attempt, attempt: nat) {
    && LeaseError(l, r, used, a, attempt) == None && a.upload == None
    && a.send.Some? && ShouldRetrySend(a.ctxDone, a.send.value, attempt)
  }

  /** The registered key that the session of this attempt is going to overwrite, if there is one. */
  function Overwrites(l: Limits, r: Reg, used: int, conv: Option<string>, attempt: nat): set<Id> {
    if !TakesIdle(r, attempt) && used < l.maxSessions && conv.Some? && Conv(conv.value) in r.entries then {Conv(conv.value)}
    else {}
  }

  /** What the second attempt finds: the warm pool is gone, and so is what the first one overwrote. */
  function SecondReg(l: Limits, r: Reg, used: int, a: Attempt): Reg {
    r.(entries := Held(r) - Overwrites(l, r, used, a.conv, 0))
  }

  function SecondUsed(l: Limits, r: Reg, used: int, a: Attempt): int {
    used - |r.entries| + |Overwrites(l, r, used, a.conv, 0)| + |SecondReg(l, r, used, a).entries|
  }

  /** What the request comes to: its first attempt, or its second. */
  function RequestError(l: Limits, r: Reg, used: int, world: nat -> Attempt): Option<Err> {
    if Resends(l, r, used, world(0), 0) then
      AttemptError(l, SecondReg(l, r, used, world(0)), SecondUsed(l, r, used, world(0)), world(1), 1)
    else AttemptError(l, r, used, world(0), 0)
  }

  function SecondOverwrites(l: Limits, r: Reg, used: int, world: nat -> Attempt): set<Id> {
    if Resends(l, r, used, world(0), 0) then
      Overwrites(l, SecondReg(l, r, used, world(0)), SecondUsed(l, r, used, world(0)), world(1).conv, 1)
    else {}
  }

  /** The entries that others lose to the request, and the units that are lost with them. */
  function TakenFrom(l: Limits, r: Reg, used: int, world: nat -> Attempt): set<Id> {
    Overwrites(l, r, used, world(0).conv, 0) + SecondOverwrites(l, r, used, world)
  }

  function UnitsLost(l: Limits, r: Reg, used: int, world: nat -> Attempt): nat {
    |Overwrites(l, r, used, world(0).conv, 0)| + |SecondOverwrites(l, r, used, world)|
  }

  /** Nobody loses anything exactly if no session is started under a conversation ID that is registered then. */
  lemma TakesNothing(l: Limits, r: Reg, used: int, world: nat -> Attempt)
    ensures UnitsLost(l, r, used, world) == 0 <==> TakenFrom(l, r, used, world) == {}
    ensures (forall k: nat :: k < 2 && world(k).conv.Some? ==> Conv(world(k).conv.value) !in r.entries) ==>
      UnitsLost(l, r, used, world) == 0
  {
    hide LeaseError, TakesIdle;
  }

  // ---------- What a request comes to, case by case ----------

  ghost predicate AnyIdle(r: Reg) { exists id :: id in r.entries && r.entries[id].status == Idle }

  ghost function PooledIds(r: Reg): set<Id> { set id | id in r.entries && r.entries[id].pooled }

  /** A send that fails is not worth another attempt. */
  ghost predicate Final(a: Attempt) {
    a.send.Some? && (a.ctxDone || Canceled in Chain(a.send.value) || DeadlineExceeded in Chain(a.send.value))
  }

  const NO_UNIT := "session capacity exhausted"

  /** What becomes of an attempt that has a session. */
  ghost predicate Served(a: Attempt, err: Option<Err>) {
    err == if a.upload.Some? then a.upload
           else if a.send.Some? then Some(Wrap("copilot websocket send", a.send.value))
           else None
  }

  /** What becomes of an attempt that has no session yet, with or without a unit for it. */
  ghost predicate Begun(unit: bool, a: Attempt, err: Option<Err>) {
    if !unit then err == Some(Wrap("get session", Capacity(NO_UNIT, Some(a.expiry))))
    else if a.conv == None then err == Some(Wrap("get session", a.startErr))
    else Served(a, err)
  }

  /**
   The error of a request: whether a session is idle and a unit free decides how the first
   attempt gets a session, and whether one is free once the warm pool is gone, the second.
   */
  ghost predicate Verdict(idle: bool, unit: bool, unitAgain: bool, world: nat -> Attempt, err: Option<Err>) {
    var a := world(0);
    if (idle || (unit && a.conv.Some?)) && a.upload == None && a.send.Some? && !Final(a) then Begun(unitAgain, world(1), err)
    else if idle then Served(a, err)
    else Begun(unit, a, err)
  }

  ghost predicate Outcome(l: Limits, r: Reg, used: int, world: nat -> Attempt, err: Option<Err>) {
    Verdict(AnyIdle(r), used < l.maxSessions, used - |PooledIds(r)| < l.maxSessions, world, err)
  }

  lemma IdleIsTaken(r: Reg)
    requires RegOk(r)
    ensures TakesIdle(r, 0) <==> AnyIdle(r)
  {
    LeasesOldestIdle(r, 0);
  }

  /** When the first attempt is sent again, the units of the whole warm pool have come back. */
  lemma UnitsAgain(l: Limits, r: Reg, used: int, a: Attempt)
    requires RegOk(r)
    ensures SecondUsed(l, r, used, a) == used - |PooledIds(r)|
  {
    var lost := Overwrites(l, r, used, a.conv, 0);
    DroppedArePooled(r);
    assert PooledIds(r) == DroppableIds(r);
    IdleIsTaken(r);
    OverwrittenAreHeld(l, r, used, a.conv);
    assert Held(r).Keys == r.entries.Keys - DroppableIds(r);
    Cardinality(DroppableIds(r), r.entries.Keys);
    Cardinality(lost, Held(r).Keys);
    assert (Held(r) - lost).Keys == Held(r).Keys - lost;
    assert |Held(r) - lost| == |(Held(r) - lost).Keys| && |r.entries| == |r.entries.Keys|;
  }

  lemma OverwrittenAreHeld(l: Limits, r: Reg, used: int, conv: Option<string>)
    requires RegOk(r)
    ensures Overwrites(l, r, used, conv, 0) <= Held(r).Keys
  {
    IdleIsTaken(r);
    if conv.Some? && Conv(conv.value) in r.entries {
      assert EntryOk(r, Conv(conv.value), r.entries[Conv(conv.value)]);
    }
  }

  lemma RequestOutcome(l: Limits, r: Reg, used: int, world: nat -> Attempt)
    requires RegOk(r)
    ensures Outcome(l, r, used, world, RequestError(l, r, used, world))
  {
    hide RegOk, Is, AnyIdle, TakesIdle, SecondReg, SecondUsed, Overwrites;
    IdleIsTaken(r);
    UnitsAgain(l, r, used, world(0));
    assert !TakesIdle(SecondReg(l, r, used, world(0)), 1) by { NeverAgain(SecondReg(l, r, used, world(0))); }
    if world(0).send.Some? {
      SentinelInChain(world(0).send.value, Canceled);
      SentinelInChain(world(0).send.value, DeadlineExceeded);
    }
  }

  lemma NeverAgain(r: Reg)
    ensures !TakesIdle(r, 1)
  {
  }

  /** A second attempt is never short of a unit: the first one had a session, and it is given back by then. */
  lemma RetryHasUnit(l: Limits, r: Reg, used: int)
    requires used <= l.maxSessions && (AnyIdle(r) || used < l.maxSessions) && RegOk(r)
    ensures used - |PooledIds(r)| < l.maxSessions
  {
    if AnyIdle(r) {
      var id :| id in r.entries && r.entries[id].status == Idle;
      assert EntryOk(r, id, r.entries[id]);
      assert id in PooledIds(r);
    }
  }

  // ---------- The state of the manager ----------

  ghost predicate Ready(m: S.Manager)
    reads m, m.sessions.Values, m.Sessions()
  {
    m.Valid() && RegOk(m.View()) && forall s :: s in m.Sessions() ==> !s.Closed()
  }

  /** Units in use beyond those of the entries: what other requests hold between two sections. */
  ghost function Slack(m: S.Manager): int
    reads m, m.sessions.Values
  {
    m.inUse - |m.View().entries|
  }

  /** The lease is live, on an open session that is registered and leased. */
  ghost predicate HasLease(m: S.Manager, lease: S.SessionLease)
    reads m, m.sessions.Values, lease, lease.session
  {
    && m.LeaseOn(lease, lease.key) && lease.session != null && !lease.session.Closed()
    && lease.key in m.View().entries && m.View().entries[lease.key].status == Leased
  }

  /** The entries somebody holds are the same as before, but for the lease. */
  ghost predicate HoldsAlso(m: S.Manager, held: map<Id, Entry>, lease: S.SessionLease)
    reads m, m.sessions.Values
  {
    && lease.key !in held && lease.key in m.View().entries
    && Held(m.View()) == held[lease.key := m.View().entries[lease.key]]
  }

  /** No two registered sessions are the same. */
  lemma DistinctSessions(m: S.Manager)
    requires RegOk(m.View())
    ensures forall a, b :: a in m.sessions && b in m.sessions && a != b && m.sessions[a].session != null ==>
                             m.sessions[a].session != m.sessions[b].session
  {
    forall a, b | a in m.sessions && b in m.sessions && a != b && m.sessions[a].session != null
      ensures m.sessions[a].session != m.sessions[b].session
    {
      assert m.View().entries[a] == m.sessions[a].View() && m.View().entries[b] == m.sessions[b].View();
      assert EntryOk(m.View(), a, m.View().entries[a]) && EntryOk(m.View(), b, m.View().entries[b]);
    }
  }

  lemma IdleIsOpen(m: S.Manager)
    requires Ready(m) && TakesIdle(m.View(), 0)
    ensures var id := FirstLeasable(m.View().byAge, m.View().entries).value;
      id in m.sessions && m.sessions[id].session != null && m.sessions[id].session in m.Sessions()
  {
    FirstLeasableLaws(m.View().byAge, m.View().entries);
    var id := FirstLeasable(m.View().byAge, m.View().entries).value;
    assert m.View().entries[id] == m.sessions[id].View();
    assert EntryOk(m.View(), id, m.View().entries[id]);
  }

  // ---------- Taking and giving back a lease ----------

  method TakeLease(m: S.Manager, a: Attempt, attempt: nat, now: int) returns (lease: S.SessionLease?, err: Option<Err>)
    requires Ready(m)
    modifies m, m.sessions.Values
    ensures Ready(m)
    ensures var lost := Overwrites(m.limits, old(m.View()), old(m.inUse), a.conv, attempt);
      && Slack(m) == old(Slack(m)) + |lost|
      && (lease != null ==> fresh(lease) && HasLease(m, lease) && HoldsAlso(m, old(Held(m.View())) - lost, lease))
    ensures err == LeaseError(m.limits, old(m.View()), old(m.inUse), a, attempt)
    ensures lease == null <==> err.Some?
    ensures lease == null ==> Held(m.View()) == old(Held(m.View()))
    ensures lease != null && attempt > 0 ==> fresh(lease.session) && a.conv == Some(lease.session.conversationID)
    ensures attempt > 0 ==> DroppableIds(m.View()) <= old(DroppableIds(m.View()))
    ensures fresh(m.sessions.Values - old(m.sessions.Values)) && fresh(m.Sessions() - old(m.Sessions()))
  {
    hide S.Manager.Valid, S.Manager.Entries, RegOk, Held, DroppableIds, FirstLeasable, Slack, HasLease, HoldsAlso;
    var started: S.SessionState? := null;
    if a.conv.Some? {
      started := new S.SessionState(0, a.conv.value, now);
    }
    var full;
    if attempt == 0 {
      lease, full := TakeAny(m, started, now);
    } else {
      lease, full := TakeFresh(m, started, now);
    }
    err := if lease != null then None
           else Some(Wrap("get session",
                          if full then Capacity("session capacity exhausted", Some(a.expiry)) else a.startErr));
  }

  method TakeFresh(m: S.Manager, started: S.SessionState?, now: int) returns (lease: S.SessionLease?, full: bool)
    requires Ready(m) && (started != null ==> !started.Closed())
    modifies m
    ensures Ready(m) && full == (old(m.inUse) >= m.limits.maxSessions)
    ensures lease == null <==> full || started == null
    ensures lease == null ==> Held(m.View()) == old(Held(m.View()))
    ensures var lost := Overwrites(m.limits, old(m.View()), old(m.inUse), ConvOf(started), 1);
      && Slack(m) == old(Slack(m)) + |lost|
      && (lease != null ==> fresh(lease) && HasLease(m, lease) && HoldsAlso(m, old(Held(m.View())) - lost, lease))
    ensures lease != null ==> lease.session == started
    ensures DroppableIds(m.View()) <= old(DroppableIds(m.View()))
    ensures fresh(m.sessions.Values - old(m.sessions.Values))
    ensures forall s :: s in m.Sessions() ==> s in old(m.Sessions()) || s == started
  {
    hide S.Manager.Valid, S.Manager.Entries, StartLeased, RegOk, Held, DroppableIds;
    FailedStart(m.View(), now);
    if started != null {
      StartingHolds(m.View(), started.Fetched(), now);
      assert Held(m.View()) - {} == Held(m.View());
    }
    ghost var before := m.sessions;
    assert forall s :: s in S.SessionsOf(before) ==> allocated(s);
    hide S.SessionsOf;
    lease, full := m.AcquireFresh(started, now);
    if lease == null {
      S.NoMoreSessions(before, m.sessions);
    } else {
      S.OneMoreSession(before, m.sessions, lease.key);
    }
  }

  ghost function ConvOf(session: S.SessionState?): Option<string> {
    if session == null then None else Some(session.conversationID)
  }

  /** The registry after an acquire, as the class promises it. */
  ghost predicate AfterAcquire(l: Limits, r: Reg, used: int, s: Option<Sess>, now: int, r': Reg) {
    if TakesIdle(r, 0) then r' == MaybeRefill(l, TryActivateIdle(r, now))
    else if used >= l.maxSessions then r' == r
    else if s == None then r' == StartLeased(r, None, now)
    else r' == MaybeRefill(l, StartLeased(r, s, now))
  }

  /** The key of the lease an acquire ends in. */
  function LeaseKey(l: Limits, r: Reg, used: int, s: Option<Sess>): Option<Id> {
    if TakesIdle(r, 0) then FirstLeasable(r.byAge, r.entries)
    else if used >= l.maxSessions || s == None then None
    else Some(Conv(s.value.conv))
  }

  lemma AcquireHolds(l: Limits, r: Reg, used: int, s: Option<Sess>, now: int, r': Reg)
    requires RegOk(r) && AfterAcquire(l, r, used, s, now, r')
    ensures RegOk(r')
    ensures var lost := Overwrites(l, r, used, SessConv(s), 0);
      && |r'.entries| == |r.entries| - |lost| + (if LeaseKey(l, r, used, s).Some? && !TakesIdle(r, 0) then 1 else 0)
      && match LeaseKey(l, r, used, s)
         case None => Held(r') == Held(r) && lost == {}
         case Some(id) =>
           && id !in Held(r) - lost && id in r'.entries && r'.entries[id].status == Leased
           && Held(r') == (Held(r) - lost)[id := r'.entries[id]]
  {
    hide RegOk, Held, MaybeRefill, TryActivateIdle, StartLeased, FirstLeasable;
    assert Held(r) - {} == Held(r);
    if TakesIdle(r, 0) {
      LeasingHolds(r, now);
      RefillKeepsHeld(l, TryActivateIdle(r, now));
    } else if used < l.maxSessions && s == None {
      FailedStart(r, now);
    } else if used < l.maxSessions {
      StartingHolds(r, s.value, now);
      HeldIsRegistered(r);
      RefillKeepsHeld(l, StartLeased(r, s, now));
    }
  }

  lemma HeldIsRegistered(r: Reg)
    ensures Held(r).Keys <= r.entries.Keys
  {
  }

  function SessConv(s: Option<Sess>): Option<string> { if s == None then None else Some(s.value.conv) }

  method TakeAny(m: S.Manager, started: S.SessionState?, now: int) returns (lease: S.SessionLease?, full: bool)
    requires Ready(m) && (started != null ==> !started.Closed())
    modifies m, m.sessions.Values
    ensures Ready(m)
    ensures full == (!TakesIdle(old(m.View()), 0) && old(m.inUse) >= m.limits.maxSessions)
    ensures lease == null <==> full || (started == null && !TakesIdle(old(m.View()), 0))
    ensures lease == null ==> Held(m.View()) == old(Held(m.View()))
    ensures var lost := Overwrites(m.limits, old(m.View()), old(m.inUse), ConvOf(started), 0);
      && Slack(m) == old(Slack(m)) + |lost|
      && (lease != null ==> fresh(lease) && HasLease(m, lease) && HoldsAlso(m, old(Held(m.View())) - lost, lease))
    ensures fresh(m.sessions.Values - old(m.sessions.Values))
    ensures forall s :: s in m.Sessions() ==> s in old(m.Sessions()) || s == started
  {
    hide S.Manager.Valid, S.Manager.Entries, S.Manager.Sessions, RegOk, Held, FirstLeasable, AfterAcquire, LeaseKey;
    ghost var r, used := m.View(), m.inUse;
    lease, full := AcquireFramed(m, started, now);
    AcquireHolds(m.limits, r, used, S.Yielded(started), now, m.View());
  }

  /** What acquiring does to the sessions themselves: none is closed, and at most the new one is added. */
  method AcquireFramed(m: S.Manager, started: S.SessionState?, now: int) returns (lease: S.SessionLease?, full: bool)
    requires Ready(m) && (started != null ==> !started.Closed())
    modifies m, m.sessions.Values
    ensures m.Valid() && AfterAcquire(m.limits, old(m.View()), old(m.inUse), S.Yielded(started), now, m.View())
    ensures var key := LeaseKey(m.limits, old(m.View()), old(m.inUse), S.Yielded(started));
      && (lease == null <==> key == None)
      && (lease != null ==> fresh(lease) && m.LeaseOn(lease, key.value) && lease.session != null && !lease.session.Closed())
      && m.inUse == old(m.inUse) + (if key.Some? && !TakesIdle(old(m.View()), 0) then 1 else 0)
    ensures full == (!TakesIdle(old(m.View()), 0) && old(m.inUse) >= m.limits.maxSessions)
    ensures lease == null <==> full || (started == null && !TakesIdle(old(m.View()), 0))
    ensures fresh(m.sessions.Values - old(m.sessions.Values))
    ensures forall s :: s in m.Sessions() ==> !s.Closed() && (s in old(m.Sessions()) || s == started)
  {
    hide S.Manager.Valid, S.Manager.Entries, StartLeased, RegOk, MaybeRefill, TryActivateIdle, FirstLeasable;
    ghost var r, before := m.View(), m.sessions;
    assert forall s :: s in S.SessionsOf(before) ==> allocated(s);
    hide S.SessionsOf;
    if TakesIdle(r, 0) { IdleIsOpen(m); }
    var spawn;
    lease, full, spawn := m.Acquire(started, now);
    assert forall s :: s in S.SessionsOf(before) ==> !s.Closed();
    if TakesIdle(r, 0) || lease == null {
      S.NoMoreSessions(before, m.sessions);
    } else {
      S.OneMoreSession(before, m.sessions, lease.key);
    }
  }

  /** Deleting a key, in terms of what is held. */
  lemma DeletingHolds(l: Limits, r: Reg, id: Id)
    requires RegOk(r)
    ensures var r' := MaybeRefill(l, Without(r, {id}));
      id in r.entries ==>
        && RegOk(r') && |r'.entries| == |r.entries| - 1 && Held(r') == Held(r) - {id}
        && DroppableIds(r') <= DroppableIds(r)
    ensures id !in r.entries ==> Held(r) - {id} == Held(r)
  {
    hide Without, RegOk, MaybeRefill, DroppableIds;
    if id in r.entries {
      RetiringHolds(r, id);
      RefillKeepsHeld(l, Without(r, {id}));
    } else {
      assert Held(r) - {id} == Held(r);
    }
  }

  /** `InvalidateSession`: whatever is registered under the key is taken out and closed. */
  method Invalidate(m: S.Manager, key: Id, now: int)
    requires Ready(m)
    modifies m, m.sessions.Values, m.Sessions()
    ensures Ready(m) && Slack(m) == old(Slack(m)) && Held(m.View()) == old(Held(m.View())) - {key}
    ensures m.sessions == old(m.sessions) - {key} && DroppableIds(m.View()) <= old(DroppableIds(m.View()))
    ensures old(key in m.sessions && m.sessions[key].session != null) ==> old(m.sessions[key].session).Closed()
    ensures forall s :: s in old(m.Sessions()) && !(old(key in m.sessions) && s == old(m.sessions[key].session)) ==>
      s.Closed() == old(s.Closed())
  {
    hide S.Manager.Valid, S.Manager.Entries, Without, RegOk, MaybeRefill, Held, DroppableIds;
    m.EntryKeys();
    DeletingHolds(m.limits, m.View(), key);
    DistinctSessions(m);
    var _ := m.Retire(key, Closed, false, now);
  }

  /** `releaseSession` of a lease not released before: the same, unless the session is gone already. */
  method Release(m: S.Manager, lease: S.SessionLease, now: int)
    requires Ready(m) && lease.manager == m && !lease.released
    modifies lease`released, m, m.sessions.Values, m.Sessions()
    ensures Ready(m) && Slack(m) == old(Slack(m)) && Held(m.View()) == old(Held(m.View())) - {lease.key}
    ensures m.sessions == old(m.sessions) - {lease.key} && DroppableIds(m.View()) <= old(DroppableIds(m.View()))
    ensures old(lease.key in m.sessions && m.sessions[lease.key].session != null) ==>
      old(m.sessions[lease.key].session).Closed()
    ensures lease.released
  {
    hide S.Manager.Valid, S.Manager.Entries, Without, RegOk, MaybeRefill, Held, DroppableIds;
    m.EntryKeys();
    DeletingHolds(m.limits, m.View(), lease.key);
    DistinctSessions(m);
    var _ := lease.Release(now);
  }

  /** `dropIdleSessions`: the warm pool is gone, and what is held stays. */
  method DropIdle(m: S.Manager)
    requires Ready(m)
    modifies m, m.sessions.Values, m.Sessions()
    ensures Ready(m) && Slack(m) == old(Slack(m))
    ensures Held(m.View()) == m.View().entries == old(Held(m.View())) && DroppableIds(m.View()) == {}
    ensures m.Sessions() <= old(m.Sessions()) && m.sessions.Values <= old(m.sessions.Values)
  {
    hide S.Manager.Valid, S.Manager.Entries, Without, RegOk, MaybeRefill, Held, DroppableIds, UnitIds;
    DroppingHolds(m.View());
    DistinctSessions(m);
    ghost var before := m.sessions;
    m.DropIdleSessions();
    S.NoMoreSessions(before, m.sessions);
  }

  // ---------- The request ----------

  datatype Tried = Sent(lease: S.SessionLease) | GaveUp(err: Err) | Again

  ghost function LeaseParts(o: Tried): set<object?>
    reads if o.Sent? then {o.lease} else {}
  {
    if o.Sent? then {o.lease, o.lease.session} else {}
  }

  /** An attempt leaves the lease held in addition, or nothing, and then its session is closed. */
  ghost predicate Leaves(m: S.Manager, held: map<Id, Entry>, o: Tried, took: S.SessionState?)
    reads m, m.sessions.Values, if o.Sent? then {o.lease} else {}, LeaseParts(o), took
  {
    if o.Sent? then HasLease(m, o.lease) && HoldsAlso(m, held, o.lease) && took == o.lease.session && took != null
    else Held(m.View()) == held && (took != null ==> took.Closed())
  }

  /** One attempt; `took` is the session it leased, which is closed again unless the attempt succeeds. */
  method TryOnce(m: S.Manager, a: Attempt, attempt: nat, now: int) returns (o: Tried, took: S.SessionState?)
    requires Ready(m)
    modifies m, m.sessions.Values, m.Sessions()
    ensures Ready(m)
    ensures var l, r, used := m.limits, old(m.View()), old(m.inUse); var lost := Overwrites(l, r, used, a.conv, attempt);
      && Slack(m) == old(Slack(m)) + |lost|
      && Leaves(m, old(Held(m.View())) - lost, o, took) && (o.Sent? ==> fresh(o.lease))
      && (o.Sent? <==> AttemptError(l, r, used, a, attempt) == None)
      && (o.Again? <==> Resends(l, r, used, a, attempt))
      && (o.GaveUp? ==> AttemptError(l, r, used, a, attempt) == Some(o.err))
      && (took == null <==> LeaseError(l, r, used, a, attempt).Some?)
    ensures attempt > 0 ==> DroppableIds(m.View()) <= old(DroppableIds(m.View()))
    ensures attempt > 0 && took != null ==> fresh(took) && a.conv == Some(took.conversationID)
    ensures fresh(m.sessions.Values - old(m.sessions.Values)) && fresh(m.Sessions() - old(m.Sessions()))
  {
    hide S.Manager.Valid, S.Manager.Entries, RegOk, Held, DroppableIds, FirstLeasable, Slack, Is;
    ghost var held, lost := Held(m.View()), Overwrites(m.limits, m.View(), m.inUse, a.conv, attempt);
    hide Overwrites;
    NothingOverwritten(m.limits, m.View(), m.inUse, a, attempt);
    var lease, err := TakeLease(m, a, attempt, now);
    if lease == null {
      assert held - {} == held;
      return GaveUp(err.value), null;
    }
    took := lease.session;
    Undone(m, held - lost, lease);
    if a.upload.Some? {
      Release(m, lease, now);
      return GaveUp(a.upload.value), took;
    }
    if a.send == None {
      return Sent(lease), took;
    }
    Invalidate(m, lease.key, now);
    o := if ShouldRetrySend(a.ctxDone, a.send.value, attempt) then Again
         else GaveUp(Wrap("copilot websocket send", a.send.value));
  }

  lemma NothingOverwritten(l: Limits, r: Reg, used: int, a: Attempt, attempt: nat)
    ensures LeaseError(l, r, used, a, attempt).Some? ==> Overwrites(l, r, used, a.conv, attempt) == {}
  {
    hide TakesIdle;
  }

  /** Giving the lease back restores what was held before. */
  lemma Undone(m: S.Manager, held: map<Id, Entry>, lease: S.SessionLease)
    requires HoldsAlso(m, held, lease)
    ensures Held(m.View()) - {lease.key} == held
  {
    hide Held;
    S.SetThenRemove(held, lease.key, m.View().entries[lease.key]);
    assert held - {lease.key} == held;
  }

  /** A first attempt that is sent again leaves the registry `r'` with only what others still hold, and `used'` units. */
  ghost predicate GoesOn(l: Limits, r: Reg, used: int, a: Attempt, r': Reg, used': int) {
    var lost := Overwrites(l, r, used, a.conv, 0);
    && Resends(l, r, used, a, 0)
    && r'.entries == Held(r') == Held(r) - lost && DroppableIds(r') == {}
    && used' - |r'.entries| == used - |r.entries| + |lost|
  }

  /** One round of the loop: the attempt and, if it is to be sent again, the end of the warm pool. */
  method Turn(m: S.Manager, a: Attempt, attempt: nat, now: int) returns (o: Tried, took: S.SessionState?)
    requires Ready(m)
    modifies m, m.sessions.Values, m.Sessions()
    ensures Ready(m)
    ensures var l, r, used := m.limits, old(m.View()), old(m.inUse); var lost := Overwrites(l, r, used, a.conv, attempt);
      && (o.Again? <==> Resends(l, r, used, a, attempt))
      && (!o.Again? ==> AttemptError(l, r, used, a, attempt) == if o.Sent? then None else Some(o.err))
      && Slack(m) == old(Slack(m)) + |lost|
      && Leaves(m, old(Held(m.View())) - lost, o, took) && (o.Sent? ==> fresh(o.lease))
    ensures o.Again? ==> attempt == 0 && GoesOn(m.limits, old(m.View()), old(m.inUse), a, m.View(), m.inUse)
    ensures o.Again? ==> took != null && took.Closed() && DroppableIds(m.View()) == {}
    ensures attempt > 0 ==> DroppableIds(m.View()) <= old(DroppableIds(m.View()))
    ensures attempt > 0 && took != null ==> fresh(took) && a.conv == Some(took.conversationID)
    ensures fresh(m.sessions.Values - old(m.sessions.Values)) && fresh(m.Sessions() - old(m.Sessions()))
  {
    hide S.Manager.Valid, S.Manager.Entries, RegOk, Held, DroppableIds, Slack, HasLease, HoldsAlso;
    hide AttemptError, LeaseError, Overwrites, Ready, Is;
    SlackIs(m);
    o, took := TryOnce(m, a, attempt, now);
    ClosedIsGone(m);
    if o.Again? {
      DropIdle(m);
      SlackIs(m);
    }
  }

  datatype Started = Started(lease: S.SessionLease) | Refused(err: Err)

  /**
   An error leaves held what was held before, but for the entries that were overwritten; success
   adds exactly the lease it returns. Every other session leased on the way is closed. Only a
   failed send is tried again, once: then no idle session is left and the lease is on the
   session just started.
   */
  method StartPromptEvents(m: S.Manager, world: nat -> Attempt, now: int)
    returns (r: Started, took: seq<S.SessionState>)
    requires Ready(m)
    modifies m, m.sessions.Values, m.Sessions()
    ensures Ready(m) && Slack(m) == old(Slack(m)) + UnitsLost(m.limits, old(m.View()), old(m.inUse), world)
    ensures var err := if r.Refused? then Some(r.err) else None;
      && err == RequestError(m.limits, old(m.View()), old(m.inUse), world)
      && Outcome(m.limits, old(m.View()), old(m.inUse), world, err)
    ensures var rest := old(Held(m.View())) - TakenFrom(m.limits, old(m.View()), old(m.inUse), world);
      && (r.Refused? ==> Held(m.View()) == rest && forall s :: s in took ==> s.Closed())
      && (r.Started? ==> HoldsAlso(m, rest, r.lease))
    ensures r.Started? ==>
      && fresh(r.lease) && HasLease(m, r.lease)
      && |took| > 0 && took[|took| - 1] == r.lease.session && forall s :: s in took[..|took| - 1] ==> s.Closed()
    ensures Resends(m.limits, old(m.View()), old(m.inUse), world(0), 0) ==>
      && DroppableIds(m.View()) == {}
      && (r.Started? ==> fresh(r.lease.session) && world(1).conv == Some(r.lease.session.conversationID))
    ensures fresh(m.sessions.Values - old(m.sessions.Values)) && fresh(m.Sessions() - old(m.Sessions()))
  {
    hide S.Manager.Valid, S.Manager.Entries, RegOk, Held, DroppableIds, HasLease, HoldsAlso, Ready;
    hide AttemptError, LeaseError, Resends, RequestError, TakenFrom, UnitsLost, Overwrites, Reached, Outcome;
    ghost var r0, used0 := m.View(), m.inUse;
    OutcomeAhead(m, world);
    var o, last, attempt;
    ghost var r1, used1;
    o, took, last, attempt, r1, used1 := Attempts(m, world, now);
    if last != null {
      took := took + [last];
      assert took == took[..|took| - 1] + [last];
    }
    FinalError(m.limits, r0, used0, r1, used1, world, attempt);
    r := if o.Sent? then Started(o.lease) else Refused(o.err);
  }

  lemma OutcomeAhead(m: S.Manager, world: nat -> Attempt)
    requires Ready(m)
    ensures Outcome(m.limits, m.View(), m.inUse, world, RequestError(m.limits, m.View(), m.inUse, world))
  {
    hide Outcome, RequestError, RegOk;
    RequestOutcome(m.limits, m.View(), m.inUse, world);
  }

  /** Attempt number `attempt` of the request finds the registry `r1` and `used1` units in use. */
  ghost predicate Reached(l: Limits, r0: Reg, used0: int, r1: Reg, used1: int, world: nat -> Attempt, attempt: nat) {
    && attempt < 2
    && (attempt == 0 ==> r1 == r0 && used1 == used0)
    && (attempt == 1 ==> GoesOn(l, r0, used0, world(0), r1, used1))
  }

  /** The loop over the attempts; the last one finds `r1` and `used1`, and all before it closed their sessions. */
  method Attempts(m: S.Manager, world: nat -> Attempt, now: int)
    returns (o: Tried, before: seq<S.SessionState>, last: S.SessionState?, attempt: nat, ghost r1: Reg, ghost used1: int)
    requires Ready(m)
    modifies m, m.sessions.Values, m.Sessions()
    ensures Ready(m) && !o.Again?
    ensures Reached(m.limits, old(m.View()), old(m.inUse), r1, used1, world, attempt)
    ensures !Resends(m.limits, r1, used1, world(attempt), attempt)
    ensures AttemptError(m.limits, r1, used1, world(attempt), attempt) == if o.Sent? then None else Some(o.err)
    ensures var lost := Overwrites(m.limits, r1, used1, world(attempt).conv, attempt);
      && Slack(m) == used1 - |r1.entries| + |lost|
      && Leaves(m, Held(r1) - lost, o, last) && (o.Sent? ==> fresh(o.lease))
    ensures forall s :: s in before ==> s.Closed()
    ensures attempt == 1 ==>
      && DroppableIds(m.View()) == {}
      && (last != null ==> fresh(last) && world(1).conv == Some(last.conversationID))
    ensures fresh(m.sessions.Values - old(m.sessions.Values)) && fresh(m.Sessions() - old(m.Sessions()))
  {
    hide S.Manager.Valid, S.Manager.Entries, RegOk, Held, DroppableIds, HasLease, HoldsAlso, Leaves, LeaseParts;
    hide AttemptError, LeaseError, Resends, Overwrites, Ready, Reached, GoesOn, Slack;
    ghost var r0, used0 := m.View(), m.inUse;
    before, attempt := [], 0;
    AttemptReached(m.limits, r0, used0, r0, used0, world);
    while attempt < 2
      invariant attempt < 2 && Ready(m) && Reached(m.limits, r0, used0, m.View(), m.inUse, world, attempt)
      invariant attempt == 0 ==> m.View() == r0 && m.inUse == used0
      invariant attempt > 0 ==> DroppableIds(m.View()) == {}
      invariant forall s :: s in before ==> s.Closed() && s !in m.Sessions()
      invariant fresh(m.sessions.Values - old(m.sessions.Values)) && fresh(m.Sessions() - old(m.Sessions()))
    {
      r1, used1 := m.View(), m.inUse;
      SecondIsLast(m.limits, r1, used1, world, attempt);
      SlackIs(m);
      o, last := Turn(m, world(attempt), attempt, now);
      assert forall s :: s in before ==> s.Closed();
      if !o.Again? {
        return;
      }
      before := before + [last];
      ClosedIsGone(m);
      AttemptReached(m.limits, r0, used0, m.View(), m.inUse, world);
      attempt := attempt + 1;
    }
    assert false;   // "exhausted retries" is never reported
    o := GaveUp(Plain("copilot websocket send: exhausted retries"));
  }

  lemma SlackIs(m: S.Manager)
    ensures Slack(m) == m.inUse - |m.View().entries|
  {
  }

  lemma AttemptReached(l: Limits, r0: Reg, used0: int, r1: Reg, used1: int, world: nat -> Attempt)
    ensures Reached(l, r0, used0, r0, used0, world, 0)
    ensures GoesOn(l, r0, used0, world(0), r1, used1) ==> Reached(l, r0, used0, r1, used1, world, 1)
  {
    hide GoesOn;
  }

  lemma SecondIsLast(l: Limits, r: Reg, used: int, world: nat -> Attempt, attempt: nat)
    requires attempt < 2
    ensures attempt == 1 ==> !Resends(l, r, used, world(1), 1)
  {
  }

  /** The first attempt decides unless it is sent again, and the second one always does. */
  lemma FinalError(l: Limits, r0: Reg, used0: int, r1: Reg, used1: int, world: nat -> Attempt, attempt: nat)
    requires Reached(l, r0, used0, r1, used1, world, attempt) && !Resends(l, r1, used1, world(attempt), attempt)
    ensures Resends(l, r0, used0, world(0), 0) <==> attempt == 1
    ensures var here := Overwrites(l, r1, used1, world(attempt).conv, attempt);
      && RequestError(l, r0, used0, world) == AttemptError(l, r1, used1, world(attempt), attempt)
      && used1 - |r1.entries| + |here| == used0 - |r0.entries| + UnitsLost(l, r0, used0, world)
      && Held(r1) - here == Held(r0) - TakenFrom(l, r0, used0, world)
  {
    hide Held, DroppableIds, Overwrites, AttemptError, Resends, RequestError, UnitsLost, TakenFrom, SecondReg, SecondUsed;
    var first := Overwrites(l, r0, used0, world(0).conv, 0);
    if attempt == 0 {
      FinalFirst(l, r0, used0, world);
    } else {
      FinalSecond(l, r0, used0, world);
      SecondIsSame(l, r1, SecondReg(l, r0, used0, world(0)), used1, world(1));
      MinusBoth(Held(r0), first, Overwrites(l, r1, used1, world(1).conv, 1));
    }
  }

  lemma MinusBoth<V>(m: map<Id, V>, a: set<Id>, b: set<Id>)
    ensures m - a - b == m - (a + b)
  {
  }

  lemma FinalFirst(l: Limits, r: Reg, used: int, world: nat -> Attempt)
    ensures var first := Overwrites(l, r, used, world(0).conv, 0);
      !Resends(l, r, used, world(0), 0) ==>
        && RequestError(l, r, used, world) == AttemptError(l, r, used, world(0), 0)
        && UnitsLost(l, r, used, world) == |first| && TakenFrom(l, r, used, world) == first
  {
    hide Overwrites, AttemptError, Resends;
  }

  lemma FinalSecond(l: Limits, r: Reg, used: int, world: nat -> Attempt)
    ensures var first := Overwrites(l, r, used, world(0).conv, 0);
      Resends(l, r, used, world(0), 0) ==>
        var r2, used2 := SecondReg(l, r, used, world(0)), SecondUsed(l, r, used, world(0));
        var second := Overwrites(l, r2, used2, world(1).conv, 1);
        && RequestError(l, r, used, world) == AttemptError(l, r2, used2, world(1), 1)
        && UnitsLost(l, r, used, world) == |first| + |second| && TakenFrom(l, r, used, world) == first + second
        && r2.entries == Held(r) - first && used2 == used - |r.entries| + |first| + |r2.entries|
  {
    hide Overwrites, AttemptError, Resends, Held;
  }

  /** A second attempt depends on the entries and the units only. */
  lemma SecondIsSame(l: Limits, r: Reg, r': Reg, used: int, a: Attempt)
    requires r.entries == r'.entries
    ensures AttemptError(l, r, used, a, 1) == AttemptError(l, r', used, a, 1)
    ensures Overwrites(l, r, used, a.conv, 1) == Overwrites(l, r', used, a.conv, 1)
    ensures !Resends(l, r, used, a, 1)
  {
    hide FirstLeasable, Is;
  }

  lemma ClosedIsGone(m: S.Manager)
    requires Ready(m)
    ensures forall s :: s in m.Sessions() ==> !s.Closed()
  {
  }

  // ---------- Collecting and forwarding ----------

  /**
   The end of a request that has a lease: on cancellation the conversation is invalidated
   first. What was held before is held again, the unit is given back once, and the session closed.
   */
  method Finish(m: S.Manager, lease: S.SessionLease, ghost held: map<Id, Entry>, cancelled: bool, now: int)
    requires Ready(m) && HasLease(m, lease) && HoldsAlso(m, held, lease)
    modifies lease`released, m, m.sessions.Values, m.Sessions()
    ensures Ready(m) && Slack(m) == old(Slack(m)) && Held(m.View()) == held
    ensures m.sessions == old(m.sessions) - {lease.key} && lease.session.Closed() && lease.released
    ensures DroppableIds(m.View()) <= old(DroppableIds(m.View()))
  {
    hide S.Manager.Valid, S.Manager.Entries, RegOk, Held, DroppableIds, Slack, Ready;
    Undone(m, held, lease);
    ghost var before := m.sessions;
    if cancelled {
      Invalidate(m, lease.key, now);
      assert held - {lease.key} == held;
      assert before - {lease.key} - {lease.key} == before - {lease.key};
      ClosedIsGone(m);
    }
    Release(m, lease, now);
  }

  /** Gives back everything it took, on every exit, and returns what the events say. */
  method Complete(m: S.Manager, world: nat -> Attempt, events: seq<StreamEvent>, ending: C.Ending, now: int)
    returns (text: string, messageId: string, err: Option<Err>, took: seq<S.SessionState>)
    requires Ready(m)
    modifies m, m.sessions.Values, m.Sessions()
    ensures Ready(m) && Slack(m) == old(Slack(m)) + UnitsLost(m.limits, old(m.View()), old(m.inUse), world)
    ensures Held(m.View()) == old(Held(m.View())) - TakenFrom(m.limits, old(m.View()), old(m.inUse), world)
    ensures forall s :: s in took ==> s.Closed()
    ensures var refused := RequestError(m.limits, old(m.View()), old(m.inUse), world);
      && Outcome(m.limits, old(m.View()), old(m.inUse), world, refused)
      && if refused.Some? then text == "" && messageId == "" && err == refused
         else text == C.TextOf(events) && messageId == C.LastMessage(events, "") && C.EndsWith(events, ending, err)
  {
    hide S.Manager.Valid, S.Manager.Entries, RegOk, Held, DroppableIds, Slack, HasLease, HoldsAlso;
    hide AttemptError, LeaseError, Resends, RequestError, TakenFrom, UnitsLost, Outcome;
    ghost var held := Held(m.View()) - TakenFrom(m.limits, m.View(), m.inUse, world);
    var started;
    started, took := StartPromptEvents(m, world, now);
    if started.Refused? {
      return "", "", Some(started.err), took;
    }
    text, messageId, err := C.Complete(events, ending);
    Finish(m, started.lease, held, C.FirstTerminal(events) == None && ending.Cancelled?, now);
    assert took == took[..|took| - 1] + [started.lease.session];
  }

  /** The channel is closed before the lease is released; everything taken is given back here too. */
  method StreamEvents(m: S.Manager, world: nat -> Attempt, events: seq<StreamEvent>, interruptedAfter: Option<nat>, now: int)
    returns (out: seq<StreamEvent>, closed: bool, err: Option<Err>, took: seq<S.SessionState>)
    requires Ready(m)
    modifies m, m.sessions.Values, m.Sessions()
    ensures Ready(m) && Slack(m) == old(Slack(m)) + UnitsLost(m.limits, old(m.View()), old(m.inUse), world)
    ensures Held(m.View()) == old(Held(m.View())) - TakenFrom(m.limits, old(m.View()), old(m.inUse), world)
    ensures forall s :: s in took ==> s.Closed()
    ensures err == RequestError(m.limits, old(m.View()), old(m.inUse), world) && closed == (err == None)
    ensures Outcome(m.limits, old(m.View()), old(m.inUse), world, err)
    ensures err == None ==> out <= C.Cut(events) && (interruptedAfter == None ==> out == C.Cut(events))
  {
    hide S.Manager.Valid, S.Manager.Entries, RegOk, Held, DroppableIds, Slack, HasLease, HoldsAlso;
    hide AttemptError, LeaseError, Resends, RequestError, TakenFrom, UnitsLost, Outcome;
    ghost var held := Held(m.View()) - TakenFrom(m.limits, m.View(), m.inUse, world);
    out, closed := [], false;
    var started;
    started, took := StartPromptEvents(m, world, now);
    if started.Refused? {
      return [], false, Some(started.err), took;
    }
    out := C.Forward(events, interruptedAfter);
    closed := true;
    Finish(m, started.lease, held, false, now);
    assert took == took[..|took| - 1] + [started.lease.session];
    err := None;
  }

  // ---------- How a request fails ----------

  /**
   A request that finds neither an idle session nor a unit before its deadline is told to come
   back, and one whose client has gone is not answered.
   */
  lemma NoUnitIsRetryAfter(world: nat -> Attempt, unitAgain: bool, err: Option<Err>)
    requires Verdict(false, false, unitAgain, world, err)
    requires world(0).expiry == DeadlineExceeded || world(0).expiry == Canceled
    ensures Classify(err) ==
      if world(0).expiry == Canceled then Response(0, "", "", "", true)
      else Response(503, "server_error", "get session: " + "session capacity exhausted", "1", false)
  {
    hide Is, IsBlocked, IsCapacity, IsTimeout, Text, Classify;
    var e := Capacity(NO_UNIT, Some(world(0).expiry));
    assert Layers(["get session"], e) == Wrap("get session", e) by {
      assert Layers(["get session"], e) == Layers([], Wrap("get session", e));
    }
    NoUnitText(Some(world(0).expiry));
    AcquireGivesUp(["get session"], world(0).expiry);
  }

  lemma NoUnitText(cause: Option<Err>)
    ensures Text(Wrap("get session", Capacity(NO_UNIT, cause))) == "get session: " + "session capacity exhausted"
  {
  }

  /** A start that fails is answered by its own error, whatever that is, and not as a lack of capacity. */
  lemma StartErrorShows(world: nat -> Attempt, unitAgain: bool, err: Option<Err>)
    requires Verdict(false, true, unitAgain, world, err) && world(0).conv == None
    ensures var own, shown := Classify(Some(world(0).startErr)), Classify(err);
      && shown.(message := "") == own.(message := "")
      && (!own.swallow ==> shown.message == "get session: " + own.message)
  {
    hide Is, IsBlocked, IsCapacity, IsTimeout;
    LayerKeepsClass("get session", world(0).startErr);
  }

  /** Whether a send is tried again does not depend on how its error is wrapped. */
  lemma ResendByChain(ctxDone: bool, prefixes: seq<string>, e: Err, attempt: nat)
    ensures ShouldRetrySend(ctxDone, Layers(prefixes, e), attempt)
      <==> attempt == 0 && !ctxDone && Canceled !in Chain(e) && DeadlineExceeded !in Chain(e)
  {
    hide Is, IsBlocked, IsCapacity, IsTimeout, Chain;
    WrappingKeepsClass(prefixes, e);
    SentinelInChain(e, Canceled);
    SentinelInChain(e, DeadlineExceeded);
  }
}
