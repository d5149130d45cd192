/**
 The session manager itself, in the program's own form: a map of entry objects and an
 age index that its methods update in place. Each method is proved to change the
 registry exactly as the function of the same section in `Registry.dfy` says, and the
 semaphore and the sessions it closes as the steps in `Pool.dfy` say.
 */
module SessionManager {
  import opened Ids
  import opened Registry
  import opened Wrappers

  /** The websocket connection of a session, if it has one. */
  datatype Conn = NoConn | Open | HungUp

  class SessionState {
    const sid: nat
    const conversationID: string
    const startedAt: int
    var connected: bool
    var conn: Conn

    constructor (sid: nat, conversationID: string, now: int)
      ensures this.sid == sid && this.conversationID == conversationID && startedAt == now && IsOpen() && !Closed()
    {
      this.sid := sid;
      this.conversationID := conversationID;
      this.startedAt := now;
      this.connected := true;
      this.conn := Open;
    }

    predicate IsOpen() reads this { connected && conn == Open }

    /** What closing leaves of a session: not connected, and its connection, if it has one, hung up. */
    predicate Closed() reads this { !connected && conn != Open }

    /** The session as it comes from the upstream. */
    ghost function Fetched(): Sess { Sess(sid, conversationID, startedAt) }
  }

  /** The session as it came from the upstream, if it came. */
  ghost function Yielded(session: SessionState?): Option<Sess> {
    if session == null then None else Some(session.Fetched())
  }

  method CloseSession(session: SessionState?)
    modifies if session == null then {} else {session}
    ensures session != null ==> session.Closed() && (session.conn == NoConn <==> old(session.conn) == NoConn)
  {
    if session != null {
      session.connected := false;
      if session.conn != NoConn {
        session.conn := HungUp;
      }
    }
  }

  /** An entry; it keeps the session's last use, which only the manager reads and writes. */
  class ManagedSession {
    const session: SessionState?
    var lastUsedAt: int
    var status: Status
    var updatedAt: int
    var holdsCapacity: bool
    var pooled: bool
    ghost const born: nat

    constructor (session: SessionState?, status: Status, now: int, pooled: bool, ghost born: nat)
      ensures this.session == session && (session != null ==> lastUsedAt == session.startedAt)
      ensures this.status == status && updatedAt == now && holdsCapacity && this.pooled == pooled && this.born == born
    {
      this.session := session;
      this.lastUsedAt := if session == null then 0 else session.startedAt;
      this.status := status;
      this.updatedAt := now;
      this.holdsCapacity := true;
      this.pooled := pooled;
      this.born := born;
    }

    ghost function View(): Entry reads this {
      var s := if session == null then None else Some(Sess(session.sid, session.conversationID, lastUsedAt));
      Entry(status, s, updatedAt, holdsCapacity, pooled, born)
    }

    /** Marks the entry as leased. */
    method MarkLeased(now: int)
      modifies this
      ensures View() == Lease(old(View()), now)
    {
      status := Leased;
      pooled := false;
      updatedAt := now;
      if session != null {
        lastUsedAt := updatedAt;
      }
    }

    /** Marks an entry that leaves the registry and gives up its unit, if it holds one. */
    method Surrender(status: Status, touch: bool, now: int) returns (held: bool)
      modifies this
      ensures held == old(holdsCapacity) && !holdsCapacity && this.status == status
    {
      this.status := status;
      updatedAt := now;
      if touch && session != null {
        lastUsedAt := updatedAt;
      }
      held := holdsCapacity;
      holdsCapacity := false;
    }
  }

  /** The sessions of these entries. */
  ghost function SessionsOf(entries: map<Id, ManagedSession>): set<SessionState> {
    set id | id in entries && entries[id].session != null :: entries[id].session
  }

  ghost function SessionAt(entries: map<Id, ManagedSession>, id: Id): SessionState? {
    if id in entries then entries[id].session else null
  }

  lemma NoMoreSessions(before: map<Id, ManagedSession>, after: map<Id, ManagedSession>)
    requires forall id :: id in after ==> id in before && after[id] == before[id]
    ensures SessionsOf(after) <= SessionsOf(before) && after.Values <= before.Values
  {
  }

  lemma OneMoreSession(before: map<Id, ManagedSession>, after: map<Id, ManagedSession>, id: Id)
    requires id in after && forall o :: o in after && o != id ==> o in before && after[o] == before[o]
    ensures forall s :: s in SessionsOf(after) ==> s in SessionsOf(before) || s == after[id].session
    ensures after.Values <= before.Values + {after[id]}
  {
  }

  class SessionLease {
    const manager: Manager
    const key: Id
    const session: SessionState?
    var released: bool

    constructor (manager: Manager, key: Id, session: SessionState?)
      ensures this.manager == manager && this.key == key && this.session == session && !released
    {
      this.manager := manager;
      this.key := key;
      this.session := session;
      this.released := false;
    }

    /** Retires the session the first time it is called, and does nothing afterwards. */
    method Release(now: int) returns (spawn: bool)
      requires manager.Valid()
      modifies this`released
      modifies manager`sessions, manager`byAge, manager`inUse, manager`refillRunning, manager`refillRequested
      modifies if key in manager.sessions then {manager.sessions[key]} else {}
      modifies if key in manager.sessions && manager.sessions[key].session != null then {manager.sessions[key].session} else {}
      ensures released && manager.Valid()
      ensures old(released) || old(key !in manager.sessions) ==>
        manager.View() == old(manager.View()) && manager.inUse == old(manager.inUse) && !spawn
      ensures manager.sessions == old(manager.sessions) - if old(released) then {} else {key}
      ensures forall s :: s in old(manager.Sessions()) && (old(released) || s != old(SessionAt(manager.sessions, key))) ==>
        s.Closed() == old(s.Closed())
      ensures !old(released) && old(key in manager.sessions) ==>
        && manager.View() == MaybeRefill(manager.limits, Without(old(manager.View()), {key}))
        && manager.inUse == old(manager.inUse) - 1
        && (old(manager.sessions[key].session) != null ==> old(manager.sessions[key].session).Closed())
    {
      hide Manager.Valid, Manager.Entries, Without, MaybeRefill;
      if released {
        return false;
      }
      released := true;
      spawn := manager.Retire(key, Draining, true, now);
    }
  }

  class Manager {
    var sessions: map<Id, ManagedSession>
    var byAge: seq<Id>
    const limits: Limits
    var inUse: int            // units taken from the semaphore
    var warmingSeq: nat
    var refillRunning: bool
    var refillRequested: bool
    var cancelled: bool       // refillCtx

    /** Every entry holds its unit, and no object stands for two entries. */
    ghost predicate Valid() reads this`sessions, sessions.Values {
      && (forall a :: a in sessions ==> sessions[a].holdsCapacity)
      && (forall a, b :: a in sessions && b in sessions && a != b ==> sessions[a] != sessions[b])
    }

    ghost function Entries(): map<Id, Entry> reads this`sessions, sessions.Values {
      map id | id in sessions :: sessions[id].View()
    }

    ghost function View(): Reg
      reads this`sessions, this`byAge, this`warmingSeq, this`refillRunning, this`refillRequested, this`cancelled
      reads sessions.Values
    {
      Reg(Entries(), byAge, warmingSeq, refillRunning, refillRequested, cancelled)
    }

    lemma EntryKeys()
      ensures Entries().Keys == sessions.Keys && |Entries()| == |sessions|
    {
      assert |Entries()| == |Entries().Keys| && |sessions| == |sessions.Keys|;
    }

    /** The registered sessions. */
    ghost function Sessions(): set<SessionState> reads this`sessions { SessionsOf(sessions) }

    constructor (maxSessions: int, warmSessions: int)
      ensures Valid() && View() == EMPTY && inUse == 0 && limits == Clamp(maxSessions, warmSessions)
    {
      limits := Clamp(maxSessions, warmSessions);
      sessions, byAge, inUse, warmingSeq := map[], [], 0, 0;
      refillRunning, refillRequested, cancelled := false, false, false;
    }

    // ---------- The semaphore ----------

    method TryAcquireCapacity() returns (ok: bool)
      modifies this`inUse
      ensures ok == (old(inUse) < limits.maxSessions) && inUse == old(inUse) + if ok then 1 else 0
    {
      ok := inUse < limits.maxSessions;
      if ok {
        inUse := inUse + 1;
      }
    }

    method ReleaseCapacity(n: nat)
      modifies this`inUse
      ensures inUse == old(inUse) - n
    {
      inUse := inUse - n;
    }

    // ---------- The age index ----------

    method CompactLocked()
      modifies this`byAge
      ensures byAge == Compact(old(byAge), sessions.Keys)
    {
      var alive: seq<Id> := [];
      var i := 0;
      while i < |byAge|
        invariant i <= |byAge|
        invariant alive + Compact(byAge[i..], sessions.Keys) == Compact(byAge, sessions.Keys)
      {
        var rest := byAge[i..];
        assert rest[1..] == byAge[i + 1..];
        if byAge[i] in sessions {
          alive := alive + [byAge[i]];
        }
        i := i + 1;
      }
      byAge := alive;
    }

    method ReplaceByAgeLocked(from: Id, to: Id)
      modifies this`byAge
      ensures byAge == Replace(old(byAge), from, to)
    {
      hide Replace;
      var i := 0;
      assert byAge[..0] == [] && byAge[0..] == byAge;
      while i < |byAge|
        invariant i <= |byAge| && byAge == old(byAge)
        invariant byAge[..i] + Replace(byAge[i..], from, to) == Replace(byAge, from, to)
      {
        ReplaceStep(byAge, i, from, to);
        if byAge[i] == from {
          byAge := byAge[i := to];
          return;
        }
        i := i + 1;
      }
      ReplaceNothing(byAge, from, to);
      byAge := byAge + [to];
    }

    // ---------- The map ----------

    method Insert(id: Id, entry: ManagedSession)
      requires Valid() && entry !in sessions.Values && entry.holdsCapacity
      modifies this`sessions
      ensures Valid() && Entries() == old(Entries())[id := entry.View()]
      ensures sessions == old(sessions)[id := entry]
    {
      sessions := sessions[id := entry];
    }

    method Delete(id: Id)
      requires Valid()
      modifies this`sessions
      ensures Valid() && Entries() == old(Entries()) - {id}
      ensures sessions == old(sessions) - {id}
      ensures old(id in sessions) ==> old(sessions[id]) !in sessions.Values
    {
      sessions := sessions - {id};
    }

    /** One new entry object, under `id` and for `session`; all others are where they were. */
    twostate predicate Adds(before: map<Id, ManagedSession>, id: Id, session: SessionState?)
      reads this`sessions
    {
      && id in sessions && fresh(sessions[id]) && sessions[id].session == session
      && sessions == before[id := sessions[id]]
    }

    /** Deletes a registered key and rebuilds the index. */
    method DeleteAndCompact(id: Id) returns (entry: ManagedSession)
      requires Valid() && id in sessions
      modifies this`sessions, this`byAge
      ensures Valid() && View() == Without(old(View()), {id}) && sessions == old(sessions) - {id}
      ensures entry == old(sessions[id]) && entry !in sessions.Values
    {
      hide Valid, Compact, Entries;
      EntryKeys();
      entry := sessions[id];
      Delete(id);
      CompactLocked();
      EntryKeys();
    }

    // ---------- Reserving, activating, leasing ----------

    method ReserveWarming(pooled: bool, now: int) returns (wid: nat)
      requires Valid()
      modifies this`sessions, this`byAge, this`warmingSeq
      ensures Valid() && View() == Reserve(old(View()), pooled, now)
      ensures wid == warmingSeq == old(warmingSeq) + 1
      ensures Adds(old(sessions), Warming(wid), null)
      ensures var e := sessions[Warming(wid)]; e.status == Starting && e.pooled == pooled && e.updatedAt == now
    {
      hide Valid, Entries;
      warmingSeq := warmingSeq + 1;
      wid := warmingSeq;
      var entry := new ManagedSession(null, Starting, now, pooled, wid);
      Insert(Warming(wid), entry);
      byAge := byAge + [Warming(wid)];
    }

    /** Replaces the slot `wid` by an entry for `session`; what activateLease and activateIdle share. */
    method Register(wid: nat, session: SessionState, status: Status, pooled: bool, now: int)
      requires Valid()
      modifies this`sessions, this`byAge
      ensures Valid() && View() == Activate(old(View()), wid, session.Fetched(), status, pooled, now)
      ensures Adds(old(sessions) - {Warming(wid)}, Conv(session.conversationID), session)
    {
      hide Valid, Entries, Replace;
      Delete(Warming(wid));
      ReplaceByAgeLocked(Warming(wid), Conv(session.conversationID));
      var entry := new ManagedSession(session, status, now, pooled, wid);
      Insert(Conv(session.conversationID), entry);
    }

    method ActivateLease(wid: nat, session: SessionState, now: int) returns (lease: SessionLease)
      requires Valid()
      modifies this`sessions, this`byAge
      ensures Valid() && View() == Registry.ActivateLease(old(View()), wid, session.Fetched(), now)
      ensures Adds(old(sessions) - {Warming(wid)}, Conv(session.conversationID), session)
      ensures fresh(lease) && lease.manager == this && !lease.released
      ensures lease.key == Conv(session.conversationID) && lease.session == session
    {
      hide Valid, Entries;
      Register(wid, session, Leased, false, now);
      lease := new SessionLease(this, Conv(session.conversationID), session);
    }

    /** A slot dropped while its session was starting, or a cancelled refill, sends the session away. */
    method ActivateIdle(wid: nat, session: SessionState, now: int)
      requires Valid()
      modifies this`sessions, this`byAge, this`inUse, session
      ensures Valid() && View() == Registry.ActivateIdle(old(View()), wid, session.Fetched(), now)
      ensures var kept := KeepsIdle(old(View()), wid);
        && inUse == old(inUse) - (if kept then 0 else |UnitIds(old(View()), {Warming(wid)})|)
        && (if kept then Adds(old(sessions) - {Warming(wid)}, Conv(session.conversationID), session)
            else sessions == old(sessions) - {Warming(wid)})
        && (if kept then session.connected == old(session.connected) && session.conn == old(session.conn)
            else session.Closed())
    {
      hide Valid, Without, Entries;
      var id := Warming(wid);
      UnitOf(id);
      if id !in sessions || cancelled {
        var releaseCapacity := id in sessions && sessions[id].holdsCapacity;
        if id in sessions {
          var _ := DeleteAndCompact(id);
        }
        if releaseCapacity {
          ReleaseCapacity(1);
        }
        CloseSession(session);
        return;
      }
      Register(wid, session, Idle, true, now);
    }

    /** One unit for a registered key, none otherwise. */
    lemma UnitOf(id: Id)
      requires Valid()
      ensures |UnitIds(View(), {id})| == if id in sessions then 1 else 0
      ensures id !in sessions ==> Without(View(), {id}) == View()
      ensures id in sessions ==> sessions[id].holdsCapacity
      ensures id in View().entries <==> id in sessions
    {
      assert UnitIds(View(), {id}) == if id in sessions then {id} else {};
    }

    method TryActivateIdleLease(now: int) returns (lease: SessionLease?)
      requires Valid()
      modifies sessions.Values
      ensures Valid() && View() == TryActivateIdle(old(View()), now)
      ensures lease == null <==> FirstLeasable(old(View()).byAge, old(View()).entries) == None
      ensures lease != null ==>
        && fresh(lease) && lease.manager == this && !lease.released
        && FirstLeasable(old(View()).byAge, old(View()).entries) == Some(lease.key)
        && lease.key in sessions && lease.session == sessions[lease.key].session
      ensures forall id :: lease != null && id == lease.key ==>
        old(id in sessions && sessions[id].status == Idle && sessions[id].pooled)
      ensures lease == null ==>
        forall id :: id in byAge && id in sessions ==> !(sessions[id].status == Idle && sessions[id].pooled)
    {
      ghost var r := View();
      var i := 0;
      while i < |byAge|
        invariant i <= |byAge| && View() == r && Valid()
        invariant FirstLeasable(byAge[i..], r.entries) == FirstLeasable(byAge, r.entries)
        invariant forall id :: id in byAge[..i] && id in sessions ==> !(sessions[id].status == Idle && sessions[id].pooled)
      {
        var rest := byAge[i..];
        assert rest[1..] == byAge[i + 1..];
        var id := byAge[i];
        if id in sessions && sessions[id].status == Idle && sessions[id].pooled {
          assert FirstLeasable(byAge, r.entries) == Some(id);
          LeaseEntry(id, now);
          lease := new SessionLease(this, id, sessions[id].session);
          return;
        }
        assert byAge[..i + 1] == byAge[..i] + [id];
        i := i + 1;
      }
      assert byAge[..i] == byAge;
      lease := null;
    }

    method LeaseEntry(id: Id, now: int)
      requires Valid() && id in sessions
      modifies sessions[id]
      ensures Valid() && Entries() == old(Entries())[id := Lease(old(Entries())[id], now)]
    {
      sessions[id].MarkLeased(now);
    }

    // ---------- Refill bookkeeping ----------

    /** The warm pool is below its target, and there is room for one more entry. */
    ghost predicate Short() reads this`sessions, this`cancelled, sessions.Values {
      && !cancelled && 0 < limits.warmSessions && |sessions| < limits.maxSessions
      && |set id | id in sessions && sessions[id].pooled && sessions[id].status in {Idle, Starting}| < limits.warmSessions
    }

    lemma ShortOfWarm()
      ensures NeedsWarm(limits, View()) <==> Short()
    {
      EntryKeys();
      assert WarmIds(View()) == set id | id in sessions && sessions[id].pooled && sessions[id].status in {Idle, Starting};
    }

    method NeedsWarmIdle() returns (needs: bool)
      ensures needs == NeedsWarm(limits, View()) == Short()
    {
      EntryKeys();
      ShortOfWarm();
      if cancelled || limits.warmSessions <= 0 || |sessions| >= limits.maxSessions {
        return false;
      }
      ghost var warm := WarmIds(View());
      var pooled := 0;
      var todo := sessions.Keys;
      assert warm * todo == warm;
      while todo != {}
        invariant todo <= sessions.Keys
        invariant pooled + |warm * todo| == |warm|
        decreases |todo|
      {
        var id :| id in todo;
        assert warm * (todo - {id}) == (warm * todo) - {id};
        if sessions[id].pooled && (sessions[id].status == Idle || sessions[id].status == Starting) {
          pooled := pooled + 1;
        }
        todo := todo - {id};
      }
      assert warm * todo == {};
      needs := pooled < limits.warmSessions;
    }

    /** `spawn` tells whether a refill goroutine is to be started. */
    method MaybeRefillNow() returns (spawn: bool)
      modifies this`refillRunning, this`refillRequested
      ensures View() == MaybeRefill(limits, old(View())) && spawn == Spawns(limits, old(View()))
      ensures spawn == old(Short() && !refillRunning)
      ensures refillRunning == old(refillRunning || Short())
      ensures refillRequested == old(refillRequested || (Short() && refillRunning))
    {
      hide Entries, NeedsWarm, Short;
      var needs := NeedsWarmIdle();
      if cancelled || !needs {
        CancelledNeedsNothing();
        return false;
      }
      if refillRunning {
        refillRequested := true;
        return false;
      }
      refillRunning := true;
      spawn := true;
    }

    lemma CancelledNeedsNothing()
      ensures cancelled ==> !NeedsWarm(limits, View())
    {
    }

    method FinishRefillPass() returns (continues: bool)
      modifies this`refillRunning, this`refillRequested
      ensures View() == FinishPass(limits, old(View())) && continues == PassContinues(limits, old(View()))
      ensures continues == old(refillRequested && Short())
      ensures !refillRequested && refillRunning == (old(refillRunning) && continues)
    {
      hide Entries, NeedsWarm, Short;
      ShortOfWarm();
      CancelledNeedsNothing();
      if cancelled {
        refillRequested := false;
        refillRunning := false;
        return false;
      }
      var needs := NeedsWarmIdle();
      if refillRequested && needs {
        refillRequested := false;
        return true;
      }
      refillRequested := false;
      refillRunning := false;
      continues := false;
    }

    method FinishRefillFailure()
      modifies this`refillRunning, this`refillRequested
      ensures View() == FinishFailure(old(View()))
    {
      hide Entries;
      refillRequested := false;
      refillRunning := false;
    }

    method ReserveWarmIdleSlot(now: int) returns (wid: nat, ok: bool)
      requires Valid()
      modifies this`sessions, this`byAge, this`warmingSeq, this`inUse
      ensures Valid()
      ensures ok == (old(inUse) < limits.maxSessions && NeedsWarm(limits, old(View())))
      ensures ok == old(inUse < limits.maxSessions && Short())
      ensures ok ==>
        && View() == Reserve(old(View()), true, now) && inUse == old(inUse) + 1 && wid == old(warmingSeq) + 1
        && Adds(old(sessions), Warming(wid), null)
      ensures !ok ==> View() == old(View()) && inUse == old(inUse) && sessions == old(sessions)
    {
      hide Valid, Entries, NeedsWarm, Short;
      CancelledNeedsNothing();
      ShortOfWarm();
      wid := 0;
      if cancelled {
        return wid, false;
      }
      var taken := TryAcquireCapacity();
      if !taken {
        return wid, false;
      }
      var needs := NeedsWarmIdle();
      if cancelled || !needs {
        ReleaseCapacity(1);
        return wid, false;
      }
      wid := ReserveWarming(true, now);
      ok := true;
    }

    // ---------- Retiring one entry ----------

    /**
     What release and invalidate share: release marks the entry as draining and touches the
     session's last use, invalidate marks it as closed.
     */
    method Retire(id: Id, status: Status, touch: bool, now: int) returns (spawn: bool)
      requires Valid()
      modifies this`sessions, this`byAge, this`inUse, this`refillRunning, this`refillRequested
      modifies if id in sessions then {sessions[id]} else {}
      modifies if id in sessions && sessions[id].session != null then {sessions[id].session} else {}
      ensures Valid() && sessions == old(sessions) - {id}
      ensures old(id !in sessions) ==> View() == old(View()) && inUse == old(inUse) && !spawn
      ensures old(id in sessions) ==>
        && View() == MaybeRefill(limits, Without(old(View()), {id}))
        && spawn == Spawns(limits, Without(old(View()), {id}))
        && inUse == old(inUse) - 1
        && (old(sessions[id].session) != null ==> old(sessions[id].session).Closed())
    {
      hide Valid, Without, NeedsWarm, Short, Entries;
      if id !in sessions {
        return false;
      }
      UnitOf(id);
      var entry := DeleteAndCompact(id);
      var releaseCapacity := entry.Surrender(status, touch, now);
      if releaseCapacity {
        ReleaseCapacity(1);
      }
      CloseSession(entry.session);
      spawn := MaybeRefillNow();
    }

    /** Drops a slot whose start has failed. */
    method Remove(id: Id)
      requires Valid()
      modifies this`sessions, this`byAge, this`inUse
      ensures Valid() && View() == Without(old(View()), {id}) && sessions == old(sessions) - {id}
      ensures inUse == old(inUse) - |UnitIds(old(View()), {id})|
    {
      hide Valid, Without, Entries;
      UnitOf(id);
      if id in sessions {
        var entry := DeleteAndCompact(id);
        if entry.holdsCapacity {
          ReleaseCapacity(1);
        }
      }
    }

    // ---------- Acquiring, with no other thread in between ----------

    /** A lease that has not been released, on the session registered under `id`. */
    ghost predicate LeaseOn(lease: SessionLease?, id: Id) reads this`sessions, lease {
      && lease != null && lease.manager == this && lease.key == id && !lease.released
      && id in sessions && lease.session == sessions[id].session
    }

    /** With a unit in hand: registers the session `started`, or gives the unit back if none has started. */
    method StartLease(started: SessionState?, now: int) returns (lease: SessionLease?)
      requires Valid()
      modifies this`sessions, this`byAge, this`warmingSeq, this`inUse
      ensures Valid() && View() == StartLeased(old(View()), Yielded(started), now)
      ensures started == null ==>
        lease == null && inUse == old(inUse) - 1 && sessions == old(sessions) - {Warming(warmingSeq)}
      ensures started != null ==>
        && LeaseOn(lease, Conv(started.conversationID)) && lease.session == started && fresh(lease) && inUse == old(inUse)
        && Adds(old(sessions) - {Warming(warmingSeq)}, Conv(started.conversationID), started)
    {
      hide Valid, Entries, Without, Reserve, Activate;
      var wid := ReserveWarming(false, now);
      SetThenRemove(old(sessions), Warming(wid), sessions[Warming(wid)]);
      if started == null {
        UnitOf(Warming(wid));
        Remove(Warming(wid));
        return null;
      }
      lease := ActivateLease(wid, started, now);
    }

    /**
     Leases the oldest idle session; failing that takes a unit and registers the session
     `started`, if the start succeeds. Without a unit, or without a session, nothing is kept.
     The interleaved form is the path from `AcqScan` in `Pool.dfy`.
     */
    method Acquire(started: SessionState?, now: int) returns (lease: SessionLease?, full: bool, spawn: bool)
      requires Valid()
      modifies this`sessions, this`byAge, this`warmingSeq, this`inUse, this`refillRunning, this`refillRequested
      modifies sessions.Values
      ensures Valid()
      ensures var idle := FirstLeasable(old(View()).byAge, old(View()).entries);
        && full == (idle == None && old(inUse) >= limits.maxSessions)
        && (idle.Some? ==>
              && LeaseOn(lease, idle.value) && fresh(lease) && inUse == old(inUse) && sessions == old(sessions)
              && View() == MaybeRefill(limits, TryActivateIdle(old(View()), now)))
        && (full ==> lease == null && View() == old(View()) && inUse == old(inUse) && sessions == old(sessions))
        && (idle == None && !full && started == null ==>
              && lease == null && inUse == old(inUse) && sessions == old(sessions) - {Warming(warmingSeq)}
              && View() == StartLeased(old(View()), None, now))
        && (idle == None && !full && started != null ==>
              && LeaseOn(lease, Conv(started.conversationID)) && lease.session == started && fresh(lease)
              && inUse == old(inUse) + 1 && Adds(old(sessions) - {Warming(warmingSeq)}, Conv(started.conversationID), started)
              && View() == MaybeRefill(limits, StartLeased(old(View()), Some(started.Fetched()), now)))
    {
      hide Valid, Entries, NeedsWarm, Short, FirstLeasable, TryActivateIdle, MaybeRefill, StartLeased;
      spawn, full := false, false;
      NothingLeased(now);
      lease := TryActivateIdleLease(now);
      if lease != null {
        spawn := MaybeRefillNow();
        return;
      }
      var ok := TryAcquireCapacity();
      if !ok {
        full := true;
        return;
      }
      lease := TryActivateIdleLease(now);
      assert lease == null;   // only another thread could have made a session idle
      lease := StartLease(started, now);
      if lease != null {
        spawn := MaybeRefillNow();
      }
    }

    /** Never looks at the idle sessions, and asks for no refill. */
    method AcquireFresh(started: SessionState?, now: int) returns (lease: SessionLease?, full: bool)
      requires Valid()
      modifies this`sessions, this`byAge, this`warmingSeq, this`inUse
      ensures Valid() && full == (old(inUse) >= limits.maxSessions)
      ensures full ==> lease == null && View() == old(View()) && inUse == old(inUse) && sessions == old(sessions)
      ensures !full ==> View() == StartLeased(old(View()), Yielded(started), now)
      ensures !full && started == null ==>
        lease == null && inUse == old(inUse) && sessions == old(sessions) - {Warming(warmingSeq)}
      ensures !full && started != null ==>
        && LeaseOn(lease, Conv(started.conversationID)) && lease.session == started && fresh(lease)
        && inUse == old(inUse) + 1 && Adds(old(sessions) - {Warming(warmingSeq)}, Conv(started.conversationID), started)
    {
      hide Valid, Entries, StartLeased;
      var ok := TryAcquireCapacity();
      full := !ok;
      if full {
        return null, full;
      }
      lease := StartLease(started, now);
    }

    lemma NothingLeased(now: int)
      ensures FirstLeasable(View().byAge, View().entries) == None ==> TryActivateIdle(View(), now) == View()
    {
    }

    // ---------- Sweeping many entries ----------

    ghost function Owned(): map<Id, SessionState?> reads this`sessions {
      map id | id in sessions :: sessions[id].session
    }

    /**
     How far a sweep has come: `taken` of the registry `r` have left it with their units, and
     `victims` are the sessions among them that are open.
     */
    ghost predicate Swept(r: Reg, owned: map<Id, SessionState?>, taken: set<Id>, victims: seq<SessionState?>, released: int)
      reads this`sessions, this`byAge, this`warmingSeq, this`refillRunning, this`refillRequested, this`cancelled
      reads sessions.Values
    {
      && Valid()
      && View() == r.(entries := r.entries - taken) && Owned() == owned - taken
      && taken <= r.entries.Keys == owned.Keys
      && released == |taken|
      && (victims == [] <==> NotStarting(r, taken) == {})
      && Elements(victims) == SessionsAt(owned, NotStarting(r, taken))
    }

    /** Takes one more entry out; its session, if it has one, joins the victims. */
    method Sweep(id: Id, victims: seq<SessionState?>, released: nat, ghost r: Reg,
                 ghost owned: map<Id, SessionState?>, ghost taken: set<Id>)
      returns (victims': seq<SessionState?>, released': nat)
      requires Swept(r, owned, taken, victims, released) && id in sessions
      modifies this`sessions, sessions[id]
      ensures Swept(r, owned, taken + {id}, victims', released')
      ensures sessions == old(sessions) - {id}
    {
      hide Valid, Entries, Owned, Elements, SessionsAt, NotStarting;
      SweptIds(r, owned, taken, victims, released);
      MinusMinus(r.entries, taken, id);
      MinusMinus(owned, taken, id);
      var starting := sessions[id].status == Starting;
      var session, held := Unregister(id);
      released' := released + if held then 1 else 0;
      victims' := if starting then victims else victims + [session];
      OneMoreSwept(r, owned, taken, victims, released, id, victims');
    }

    lemma OneMoreSwept(r: Reg, owned: map<Id, SessionState?>, taken: set<Id>, victims: seq<SessionState?>, released: nat,
                       id: Id, victims': seq<SessionState?>)
      requires Valid() && View() == r.(entries := r.entries - (taken + {id})) && Owned() == owned - (taken + {id})
      requires taken <= r.entries.Keys == owned.Keys && id in r.entries && id !in taken && released == |taken|
      requires victims == [] <==> NotStarting(r, taken) == {}
      requires Elements(victims) == SessionsAt(owned, NotStarting(r, taken))
      requires victims' == if r.entries[id].status == Starting then victims else victims + [owned[id]]
      ensures Swept(r, owned, taken + {id}, victims', released + 1)
    {
      hide Valid, Entries, Owned, Elements, SessionsAt, NotStarting;
      GrowVictims(r, owned, taken, id, victims);
    }

    lemma SweptIds(r: Reg, owned: map<Id, SessionState?>, taken: set<Id>, victims: seq<SessionState?>, released: int)
      requires Swept(r, owned, taken, victims, released)
      ensures sessions.Keys == r.entries.Keys - taken
      ensures forall id :: id in sessions ==> sessions[id].View() == r.entries[id] && sessions[id].session == owned[id]
    {
      EntryKeys();
      forall id | id in sessions ensures sessions[id].View() == r.entries[id] && sessions[id].session == owned[id] {
        assert Entries()[id] == sessions[id].View() && Owned()[id] == sessions[id].session;
      }
    }

    method Unregister(id: Id) returns (session: SessionState?, held: bool)
      requires Valid() && id in sessions
      modifies this`sessions, sessions[id]
      ensures Valid() && Entries() == old(Entries()) - {id} && Owned() == old(Owned()) - {id}
      ensures sessions == old(sessions) - {id}
      ensures held && session == old(sessions[id].session)
    {
      var entry := sessions[id];
      session := entry.session;
      if entry.status != Starting {
        entry.status := Closed;
      }
      sessions := sessions - {id};
      held := entry.holdsCapacity;
      entry.holdsCapacity := false;
    }

    /** The end of a sweep: the index is rebuilt if anything was taken. */
    method FinishSweep(victims: seq<SessionState?>, released: nat, ghost r: Reg, ghost owned: map<Id, SessionState?>,
                       ghost taken: set<Id>)
      requires Swept(r, owned, taken, victims, released)
      requires forall id :: id in r.entries ==> r.entries[id].holdsCapacity
      modifies this`byAge
      ensures Valid() && View() == Without(r, taken)
      ensures released == |UnitIds(r, taken)| && Elements(victims) == SessionsAt(owned, NotStarting(r, taken))
    {
      hide Valid, Compact;
      SweptIds(r, owned, taken, victims, released);
      assert UnitIds(r, taken) == taken;
      if |victims| > 0 || released > 0 {
        CompactLocked();
      } else {
        assert r.entries - taken == r.entries;
      }
    }

    lemma HoldCapacity()
      requires Valid()
      ensures forall id :: id in View().entries ==> View().entries[id].holdsCapacity
      ensures View().entries.Keys == Owned().Keys == sessions.Keys
    {
    }

    method TakeExpiredIdle(now: int, ttl: int) returns (victims: seq<SessionState?>, released: nat)
      requires Valid()
      modifies this`sessions, this`byAge, sessions.Values
      ensures var ids := ExpiredIds(old(View()), now, ttl);
        && Valid() && View() == Without(old(View()), ids) && sessions == old(sessions) - ids
        && released == |UnitIds(old(View()), ids)|
        && Elements(victims) == SessionsAt(old(Owned()), NotStarting(old(View()), ids))
    {
      hide Valid, Swept, Without, Elements, SessionsAt, NotStarting, UnitIds, ExpiredAmong, ExpiredIds;
      HoldCapacity();
      AllExpired(View(), now, ttl);
      ghost var r, owned, all := View(), Owned(), sessions;
      ghost var taken: set<Id> := {};
      victims, released := [], 0;
      NothingSwept();
      var i := 0;
      while i < |byAge|
        invariant i <= |byAge| && byAge == r.byAge && sessions == all - taken
        invariant Swept(r, owned, taken, victims, released)
        invariant taken == ExpiredAmong(r, byAge[..i], now, ttl)
      {
        var id := byAge[i];
        assert byAge[..i + 1] == byAge[..i] + [id];
        OneMoreExpired(r, byAge[..i], id, now, ttl);
        SweptIds(r, owned, taken, victims, released);
        if id in sessions && sessions[id].status == Idle {
          var entry := sessions[id];
          var lastTouched := entry.updatedAt;
          if entry.session != null && entry.lastUsedAt > lastTouched {
            lastTouched := entry.lastUsedAt;
          }
          if now - lastTouched >= ttl {
            MinusMinus(all, taken, id);
            victims, released := Sweep(id, victims, released, r, owned, taken);
            taken := taken + {id};
          }
        }
        i := i + 1;
      }
      assert byAge[..|byAge|] == byAge;
      FinishSweep(victims, released, r, owned, taken);
    }

    /** The victims of shutdown, in whatever order the map yields its keys. */
    method TakeShutdownVictims() returns (victims: seq<SessionState?>, released: nat)
      requires Valid()
      modifies this`sessions, this`byAge, sessions.Values
      ensures var ids := StoppableIds(old(View()));
        && Valid() && View() == Without(old(View()), ids) && sessions == old(sessions) - ids
        && released == |UnitIds(old(View()), ids)|
        && Elements(victims) == SessionsAt(old(Owned()), NotStarting(old(View()), ids))
    {
      hide Valid, Swept, Without, Elements, SessionsAt, NotStarting, UnitIds, StoppableIds, DroppableIds;
      HoldCapacity();
      SubsetOfKeys(View());
      ghost var r, owned, all := View(), Owned(), sessions;
      ghost var taken: set<Id> := {};
      victims, released := [], 0;
      NothingSwept();
      var todo := sessions.Keys;
      while todo != {}
        invariant todo <= all.Keys && sessions == all - taken && todo <= sessions.Keys
        invariant Swept(r, owned, taken, victims, released)
        invariant taken == StoppableIds(r) - todo
        decreases |todo|
      {
        var id :| id in todo;
        SweptIds(r, owned, taken, victims, released);
        OneOf(StoppableIds(r), todo, id);
        StoppableMember(r, id);
        var entry := sessions[id];
        if entry.status == Idle || entry.status == Draining || entry.status == Closed
           || (entry.status == Starting && entry.pooled) {
          MinusMinus(all, taken, id);
          victims, released := Sweep(id, victims, released, r, owned, taken);
          taken := taken + {id};
        }
        todo := todo - {id};
      }
      assert StoppableIds(r) - {} == StoppableIds(r);
      FinishSweep(victims, released, r, owned, taken);
    }

    /** The victims of dropIdleSessions, in whatever order the map yields its keys. */
    method TakeIdleVictims() returns (victims: seq<SessionState?>, released: nat)
      requires Valid()
      modifies this`sessions, this`byAge, sessions.Values
      ensures var ids := DroppableIds(old(View()));
        && Valid() && View() == Without(old(View()), ids) && sessions == old(sessions) - ids
        && released == |UnitIds(old(View()), ids)|
        && Elements(victims) == SessionsAt(old(Owned()), NotStarting(old(View()), ids))
    {
      hide Valid, Swept, Without, Elements, SessionsAt, NotStarting, UnitIds, StoppableIds, DroppableIds;
      HoldCapacity();
      SubsetOfKeys(View());
      ghost var r, owned, all := View(), Owned(), sessions;
      ghost var taken: set<Id> := {};
      victims, released := [], 0;
      NothingSwept();
      var todo := sessions.Keys;
      while todo != {}
        invariant todo <= all.Keys && sessions == all - taken && todo <= sessions.Keys
        invariant Swept(r, owned, taken, victims, released)
        invariant taken == DroppableIds(r) - todo
        decreases |todo|
      {
        var id :| id in todo;
        SweptIds(r, owned, taken, victims, released);
        OneOf(DroppableIds(r), todo, id);
        DroppableMember(r, id);
        var entry := sessions[id];
        if entry.status == Idle || (entry.status == Starting && entry.pooled) {
          MinusMinus(all, taken, id);
          victims, released := Sweep(id, victims, released, r, owned, taken);
          taken := taken + {id};
        }
        todo := todo - {id};
      }
      assert DroppableIds(r) - {} == DroppableIds(r);
      FinishSweep(victims, released, r, owned, taken);
    }

    // ---------- Janitor, drop-idle and shutdown ----------

    /** The sessions of the entries `ids` that a sweep closes. */
    ghost function OpenAt(ids: set<Id>): set<SessionState> reads this`sessions, sessions.Values {
      set id | id in ids && id in sessions && sessions[id].status != Starting && sessions[id].session != null
        :: sessions[id].session
    }

    /** What each sweep leaves, read off the entry objects. */
    lemma SweptKeys(now: int, ttl: int)
      ensures sessions.Keys - ExpiredIds(View(), now, ttl) ==
        set id | id in sessions
                 && !(id in byAge && sessions[id].status == Idle && now - sessions[id].updatedAt >= ttl
                      && (sessions[id].session != null ==> now - sessions[id].lastUsedAt >= ttl))
      ensures sessions.Keys - DroppableIds(View()) ==
        set id | id in sessions && sessions[id].status != Idle && !(sessions[id].status == Starting && sessions[id].pooled)
      ensures sessions.Keys - StoppableIds(View()) ==
        set id | id in sessions && (sessions[id].status == Leased || (sessions[id].status == Starting && !sessions[id].pooled))
    {
      EntryKeys();
      assert forall id :: id in sessions ==> View().entries[id] == sessions[id].View();
    }

    method EvictExpiredIdle(now: int, ttl: int) returns (spawn: bool)
      requires Valid()
      modifies this`sessions, this`byAge, this`inUse, this`refillRunning, this`refillRequested, sessions.Values
      modifies OpenAt(ExpiredIds(View(), now, ttl))
      ensures Valid()
      ensures ttl <= 0 ==>
        && View() == old(View()) && inUse == old(inUse) && sessions == old(sessions) && !spawn
        && forall s :: s in old(OpenAt(ExpiredIds(View(), now, ttl))) ==> s.Closed() == old(s.Closed())
      ensures ttl > 0 ==>
        var r, ids := old(View()), ExpiredIds(old(View()), now, ttl);
        var r', units := Without(r, ids), |UnitIds(r, ids)|;
        && View() == (if units > 0 then MaybeRefill(limits, r') else r')
        && spawn == (units > 0 && Spawns(limits, r'))
        && sessions == old(sessions) - ids
        && inUse == old(inUse) - units
        && forall s :: s in old(OpenAt(ids)) ==> s.Closed()
      ensures ttl > 0 ==> sessions.Keys == old(
        set id | id in sessions
                 && !(id in byAge && sessions[id].status == Idle && now - sessions[id].updatedAt >= ttl
                      && (sessions[id].session != null ==> now - sessions[id].lastUsedAt >= ttl)))
    {
      hide Valid, Without, NeedsWarm, Short, Entries, ExpiredIds, UnitIds;
      spawn := false;
      if ttl > 0 {
        SweptKeys(now, ttl);
        var released := CloseExpired(now, ttl);
        if released > 0 {
          spawn := MaybeRefillNow();
        }
      }
    }

    method CloseExpired(now: int, ttl: int) returns (released: nat)
      requires Valid()
      modifies this`sessions, this`byAge, this`inUse, sessions.Values, OpenAt(ExpiredIds(View(), now, ttl))
      ensures var r, ids := old(View()), ExpiredIds(old(View()), now, ttl);
        && Valid() && View() == Without(r, ids) && sessions == old(sessions) - ids
        && released == |UnitIds(r, ids)| && inUse == old(inUse) - released
        && forall s :: s in old(OpenAt(ids)) ==> s.Closed()
    {
      hide Valid, Without, NeedsWarm, Short, Entries, Elements, SessionsAt, NotStarting, ExpiredIds, OpenAt, Owned;
      VictimsAreOpen(ExpiredIds(View(), now, ttl));
      var victims;
      victims, released := TakeExpiredIdle(now, ttl);
      if released > 0 {
        ReleaseCapacity(released);
      }
      CloseSessions(victims);
    }

    lemma VictimsAreOpen(ids: set<Id>)
      ensures SessionsAt(Owned(), NotStarting(View(), ids)) - {null} == OpenAt(ids)
    {
      var owned, open := Owned(), NotStarting(View(), ids);
      assert forall id :: id in sessions ==> View().entries[id].status == sessions[id].status;
      assert forall id :: id in open <==> id in ids && id in sessions && sessions[id].status != Starting;
      assert forall id :: id in open ==> owned[id] == sessions[id].session;
      forall s: SessionState ensures s in SessionsAt(owned, open) <==> s in OpenAt(ids) {
        if s in SessionsAt(owned, open) {
          var id :| id in open && id in owned && owned[id] == s;
          assert sessions[id].session == s;
        }
        if s in OpenAt(ids) {
          var id :| id in ids && id in sessions && sessions[id].status != Starting && sessions[id].session == s;
          assert id in open && owned[id] == s;
        }
      }
    }

    method DropIdleSessions()
      requires Valid()
      modifies this`sessions, this`byAge, this`inUse, sessions.Values, OpenAt(DroppableIds(View()))
      ensures var r, ids := old(View()), DroppableIds(old(View()));
        && Valid() && View() == Without(r, ids) && sessions == old(sessions) - ids
        && inUse == old(inUse) - |UnitIds(r, ids)|
        && forall s :: s in old(OpenAt(ids)) ==> s.Closed()
      ensures sessions.Keys == old(
        set id | id in sessions && sessions[id].status != Idle && !(sessions[id].status == Starting && sessions[id].pooled))
    {
      hide Valid, Without, NeedsWarm, Short, Entries, Elements, SessionsAt, NotStarting, DroppableIds, OpenAt, Owned;
      SweptKeys(0, 0);
      VictimsAreOpen(DroppableIds(View()));
      var victims, released := TakeIdleVictims();
      if released > 0 {
        ReleaseCapacity(released);
      }
      CloseSessions(victims);
    }

    /** Takes out and closes everything that is neither leased nor an acquire's slot. */
    method CloseStoppable()
      requires Valid()
      modifies this`sessions, this`byAge, this`inUse, sessions.Values, OpenAt(StoppableIds(View()))
      ensures var r, ids := old(View()), StoppableIds(old(View()));
        && Valid() && View() == Without(r, ids) && sessions == old(sessions) - ids
        && inUse == old(inUse) - |UnitIds(r, ids)|
        && forall s :: s in old(OpenAt(ids)) ==> s.Closed()
    {
      hide Valid, Without, NeedsWarm, Short, Entries, Elements, SessionsAt, NotStarting, StoppableIds, OpenAt, Owned, UnitIds;
      VictimsAreOpen(StoppableIds(View()));
      var victims, released := TakeShutdownVictims();
      if released > 0 {
        ReleaseCapacity(released);
      }
      CloseSessions(victims);
    }

    method StopRefill()
      modifies this`cancelled
      ensures View() == old(View()).(cancelled := true)
    {
      cancelled := true;
    }

    /** Up to the first look at the registry; waiting for the rest to drain is interleaved in `Pool.dfy`. */
    method Shutdown() returns (drained: bool)
      requires Valid()
      modifies this`sessions, this`byAge, this`inUse, this`cancelled, sessions.Values, OpenAt(StoppableIds(View()))
      ensures var r, ids := old(View()), StoppableIds(old(View()));
        && Valid() && View() == Without(r.(cancelled := true), ids) && sessions == old(sessions) - ids
        && inUse == old(inUse) - |UnitIds(r, ids)|
        && (forall s :: s in old(OpenAt(ids)) ==> s.Closed())
        && (drained <==> View().entries == map[])
      ensures cancelled && sessions.Keys == old(
        set id | id in sessions && (sessions[id].status == Leased || (sessions[id].status == Starting && !sessions[id].pooled)))
    {
      hide Valid, Without, Entries, StoppableIds, OpenAt, UnitIds;
      SweptKeys(0, 0);
      SameIds(View());
      ghost var open := OpenAt(StoppableIds(View()));
      StopRefill();
      assert open == OpenAt(StoppableIds(View()));
      CloseStoppable();
      EntryKeys();
      drained := |sessions| == 0;
    }

    lemma NothingSwept()
      requires Valid()
      ensures Swept(View(), Owned(), {}, [], 0)
    {
      assert View().entries - {} == View().entries && Owned() - {} == Owned();
    }
  }

  /** The next key is replaced, or the search goes on behind it. */
  lemma ReplaceStep(s: seq<Id>, i: nat, from: Id, to: Id)
    requires i < |s|
    ensures s[..i] + Replace(s[i..], from, to) ==
      if s[i] == from then s[i := to] else s[..i + 1] + Replace(s[i + 1..], from, to)
  {
    var rest := s[i..];
    assert rest[1..] == s[i + 1..];
    if s[i] == from {
      assert s[..i] + ([to] + s[i + 1..]) == s[i := to];
    } else {
      assert s[..i] + ([s[i]] + Replace(s[i + 1..], from, to)) == s[..i + 1] + Replace(s[i + 1..], from, to);
    }
  }

  lemma ReplaceNothing(s: seq<Id>, from: Id, to: Id)
    ensures s[..|s|] + Replace(s[|s|..], from, to) == s + [to]
  {
  }

  lemma SetThenRemove<V>(m: map<Id, V>, id: Id, v: V)
    ensures m[id := v] - {id} == m - {id}
  {
  }

  lemma MinusMinus<V>(m: map<Id, V>, ids: set<Id>, id: Id)
    ensures m - ids - {id} == m - (ids + {id})
  {
  }

  function ExpiredAmong(r: Reg, s: seq<Id>, now: int, ttl: int): set<Id> {
    set id | id in r.entries && id in s && Expired(r.entries[id], now, ttl)
  }

  lemma OneMoreExpired(r: Reg, s: seq<Id>, id: Id, now: int, ttl: int)
    ensures ExpiredAmong(r, s + [id], now, ttl)
         == ExpiredAmong(r, s, now, ttl) + if id in r.entries && Expired(r.entries[id], now, ttl) then {id} else {}
  {
  }

  lemma AllExpired(r: Reg, now: int, ttl: int)
    ensures ExpiredAmong(r, [], now, ttl) == {} && ExpiredAmong(r, r.byAge, now, ttl) == ExpiredIds(r, now, ttl)
  {
  }

  /** The entries among `ids` that are no starting slots. */
  ghost function NotStarting(r: Reg, ids: set<Id>): set<Id> {
    set id | id in ids && id in r.entries && r.entries[id].status != Starting
  }

  lemma GrowVictims(r: Reg, owned: map<Id, SessionState?>, taken: set<Id>, id: Id, victims: seq<SessionState?>)
    requires id in r.entries && id in owned
    ensures Elements(victims + [owned[id]]) == Elements(victims) + {owned[id]}
    ensures NotStarting(r, taken + {id}) == NotStarting(r, taken) + if r.entries[id].status == Starting then {} else {id}
    ensures SessionsAt(owned, NotStarting(r, taken) + {id}) == SessionsAt(owned, NotStarting(r, taken)) + {owned[id]}
  {
  }

  lemma OneOf(ids: set<Id>, todo: set<Id>, id: Id)
    requires id in todo
    ensures id in ids ==> ids - (todo - {id}) == (ids - todo) + {id}
    ensures id !in ids ==> ids - (todo - {id}) == ids - todo
  {
  }

  lemma StoppableMember(r: Reg, id: Id)
    ensures id in StoppableIds(r) <==> id in r.entries && Stoppable(r.entries[id])
  {
  }

  lemma DroppableMember(r: Reg, id: Id)
    ensures id in DroppableIds(r) <==> id in r.entries && Droppable(r.entries[id])
  {
  }

  lemma SubsetOfKeys(r: Reg)
    ensures StoppableIds(r) - r.entries.Keys == {} && DroppableIds(r) - r.entries.Keys == {}
  {
  }

  lemma SameIds(r: Reg)
    ensures StoppableIds(r.(cancelled := true)) == StoppableIds(r)
    ensures forall ids :: UnitIds(r.(cancelled := true), ids) == UnitIds(r, ids)
    ensures forall ids :: NotStarting(r.(cancelled := true), ids) == NotStarting(r, ids)
  {
  }

  method CloseSessions(victims: seq<SessionState?>)
    modifies Elements(victims) - {null}
    ensures forall s :: s in Elements(victims) && s != null ==> s.Closed()
  {
    for i := 0 to |victims|
      invariant forall j :: 0 <= j < i && victims[j] != null ==> victims[j].Closed()
    {
      CloseSession(victims[i]);
    }
  }

  function Elements(s: seq<SessionState?>): set<SessionState?> { set x | x in s }

  function SessionsAt(owned: map<Id, SessionState?>, ids: set<Id>): set<SessionState?> {
    set id | id in ids && id in owned :: owned[id]
  }

  /** A manager as the program makes it: with a refill asked for, and its goroutine to be started if there is a target. */
  method NewManager(maxSessions: int, warmSessions: int) returns (m: Manager, spawn: bool)
    ensures fresh(m) && m.Valid() && m.limits == Clamp(maxSessions, warmSessions) && m.inUse == 0
    ensures m.View() == EMPTY.(refillRunning := m.limits.warmSessions > 0) && spawn == (m.limits.warmSessions > 0)
  {
    m := new Manager(maxSessions, warmSessions);
    assert WarmIds(EMPTY) == {};
    spawn := m.MaybeRefillNow();
  }
}
