/**
 The refill goroutine run to its end with every other thread at rest and every start
 succeeding: it stops, and leaves as many warm sessions as the target and the free
 units allow.
 */
module RefillLoop {
  import opened Ids
  import opened Registry
  import opened RegistryLaws
  import opened SessionManager

  function Min(a: int, b: int): int { if a <= b then a else b }

  /** Conversation IDs not in use, from the `k`-th on; no two are equal. */
  ghost predicate Unused(ids: nat -> string, k: nat, r: Reg) {
    && (forall i: nat, j: nat :: i < j ==> ids(i) != ids(j))
    && (forall i: nat :: k <= i ==> Conv(ids(i)) !in r.entries)
  }

  /** What the loop keeps true: every unit it takes becomes one more warm session. */
  ghost predicate Filling(l: Limits, r: Reg, used: int, spare: int) {
    && RegOk(r) && !r.cancelled
    && |r.entries| <= used <= l.maxSessions
    && |WarmIds(r)| <= l.warmSessions <= l.maxSessions
    && |WarmIds(r)| - used == spare
  }

  /** One round with a session that arrives in time adds one warm session for one unit. */
  lemma FillsOne(l: Limits, r: Reg, used: int, spare: int, now: int, s: Sess, ids: nat -> string, k: nat)
    requires Filling(l, r, used, spare) && Unused(ids, k, r) && s.conv == ids(k)
    requires used < l.maxSessions && NeedsWarm(l, r)
    ensures var r1 := Reserve(r, true, now);
      && KeepsIdle(r1, r.warmingSeq + 1)
      && Filling(l, ActivateIdle(r1, r.warmingSeq + 1, s, now), used + 1, spare)
      && Unused(ids, k + 1, ActivateIdle(r1, r.warmingSeq + 1, s, now))
      && ActivateIdle(r1, r.warmingSeq + 1, s, now).refillRunning == r.refillRunning
      && ActivateIdle(r1, r.warmingSeq + 1, s, now).refillRequested == r.refillRequested
  {
    hide Replace, Unused, RegOk;
    var wid := r.warmingSeq + 1;
    var r1 := Reserve(r, true, now);
    ReserveOk(r, true, now);
    ReserveWarm(r, true, now);
    ActivateOk(r1, wid, s, Idle, true, now);
    NextSlotIsNew(r);
    FillCounts(r, now, s, ids, k);
  }

  lemma FillCounts(r: Reg, now: int, s: Sess, ids: nat -> string, k: nat)
    requires Warming(r.warmingSeq + 1) !in r.entries && Unused(ids, k, r) && s.conv == ids(k)
    ensures var r1 := Reserve(r, true, now); var r2 := Activate(r1, r.warmingSeq + 1, s, Idle, true, now);
      && |WarmIds(r2)| == |WarmIds(r1)| && |r2.entries| == |r.entries| + 1 && Unused(ids, k + 1, r2)
  {
    hide Replace, Unused, WarmIds;
    var r1 := Reserve(r, true, now);
    var r2 := Activate(r1, r.warmingSeq + 1, s, Idle, true, now);
    FillKeys(r, now, s);
    StillUnused(ids, k, r, r2);
    hide Activate;
    KeyCount(r, r2, Conv(s.conv));
    WarmSwap(r1, r.warmingSeq + 1, s, now);
  }

  lemma FillKeys(r: Reg, now: int, s: Sess)
    requires Warming(r.warmingSeq + 1) !in r.entries
    ensures Activate(Reserve(r, true, now), r.warmingSeq + 1, s, Idle, true, now).entries.Keys
         == r.entries.Keys + {Conv(s.conv)}
  {
    hide Replace;
  }

  lemma KeyCount(r: Reg, r2: Reg, id: Id)
    requires r2.entries.Keys == r.entries.Keys + {id} && id !in r.entries
    ensures |r2.entries| == |r.entries| + 1
  {
    assert |r2.entries| == |r2.entries.Keys| == |r.entries.Keys| + 1;
  }

  /** A slot of the warm pool that becomes an idle session under a new key leaves the count as it was. */
  lemma WarmSwap(r: Reg, wid: nat, s: Sess, now: int)
    requires Warming(wid) in r.entries && Warm(r.entries[Warming(wid)]) && Conv(s.conv) !in r.entries
    ensures |WarmIds(Activate(r, wid, s, Idle, true, now))| == |WarmIds(r)|
  {
    var from, to := Warming(wid), Conv(s.conv);
    assert WarmIds(Activate(r, wid, s, Idle, true, now)) == WarmIds(r) - {from} + {to};
    assert from in WarmIds(r) && to !in WarmIds(r);
  }

  lemma StillUnused(ids: nat -> string, k: nat, r: Reg, r2: Reg)
    requires Unused(ids, k, r) && r2.entries.Keys == r.entries.Keys + {Conv(ids(k))}
    ensures Unused(ids, k + 1, r2) && Conv(ids(k)) !in r.entries
  {
  }

  /** When no further slot can be reserved, the pool is as full as target and capacity allow. */
  lemma StopsFull(l: Limits, r: Reg, used: int, spare: int)
    requires Filling(l, r, used, spare) && !(used < l.maxSessions && NeedsWarm(l, r))
    ensures |WarmIds(r)| == Min(l.warmSessions, spare + l.maxSessions)
  {
  }

  lemma PassFilling(l: Limits, r: Reg, used: int, spare: int)
    requires Filling(l, r, used, spare)
    ensures Filling(l, FinishPass(l, r), used, spare)
    ensures forall ids: nat -> string, k: nat :: Unused(ids, k, r) ==> Unused(ids, k, FinishPass(l, r))
    ensures WarmIds(FinishPass(l, r)) == WarmIds(r)
  {
  }

  method RunRefill(m: Manager, ids: nat -> string, now: int)
    requires m.Valid() && m.refillRunning
    requires Filling(m.limits, m.View(), m.inUse, |WarmIds(m.View())| - m.inUse)
    requires Unused(ids, 0, m.View())
    modifies m
    ensures m.Valid() && !m.refillRunning && !m.refillRequested
    ensures |WarmIds(m.View())| ==
            Min(m.limits.warmSessions, old(|WarmIds(m.View())|) + (m.limits.maxSessions - old(m.inUse)))
    ensures m.inUse - old(m.inUse) == |WarmIds(m.View())| - old(|WarmIds(m.View())|)
  {
    hide Filling, Unused, WarmIds, NeedsWarm, Manager.Entries, Manager.Valid, ActivateIdle, Reserve, KeepsIdle;
    ghost var spare := |WarmIds(m.View())| - m.inUse;
    var k: nat := 0;
    while true
      invariant m.Valid() && m.refillRunning
      invariant Filling(m.limits, m.View(), m.inUse, spare) && Unused(ids, k, m.View())
      decreases m.limits.maxSessions - m.inUse, m.refillRequested
    {
      ghost var r, used := m.View(), m.inUse;
      Bounds(m.limits, r, used, spare);
      var wid, ok := m.ReserveWarmIdleSlot(now);
      if ok {
        var session := new SessionState(k, ids(k), now);
        FillsOne(m.limits, r, used, spare, now, session.Fetched(), ids, k);
        m.ActivateIdle(wid, session, now);
        k := k + 1;
      } else {
        StopsFull(m.limits, r, used, spare);
        PassFilling(m.limits, r, used, spare);
        var continues := m.FinishRefillPass();
        if !continues {
          return;
        }
      }
    }
  }

  lemma Bounds(l: Limits, r: Reg, used: int, spare: int)
    requires Filling(l, r, used, spare)
    ensures used <= l.maxSessions && |WarmIds(r)| - used == spare
  {
  }
}
