/**
 The session registry as a value: what the manager's mutex protects, and what each
 section run under that mutex does to it. `SessionManager.dfy` proves the methods of
 the program's own class against these functions; `Pool.dfy` interleaves them.
 */
module Registry {
  import opened Ids
  import opened Wrappers

  datatype Status = Starting | Idle | Leased | Draining | Closed

  /** An upstream session; `sid` stands for the identity of the session object. */
  datatype Sess = Sess(sid: nat, conv: string, lastUsed: int)

  /** A registry entry; `born` is the number of the reservation that created its slot. */
  datatype Entry = Entry(
    status: Status, session: Option<Sess>, updatedAt: int, holdsCapacity: bool, pooled: bool, born: nat)

  datatype Limits = Limits(maxSessions: nat, warmSessions: nat)

  datatype Reg = Reg(
    entries: map<Id, Entry>, byAge: seq<Id>, warmingSeq: nat,
    refillRunning: bool, refillRequested: bool, cancelled: bool)

  const EMPTY: Reg := Reg(map[], [], 0, false, false, false)

  /** The constructor's clamping of the two configured sizes. */
  function Clamp(maxSessions: int, warmSessions: int): (l: Limits)
    ensures 1 <= l.maxSessions && l.warmSessions <= l.maxSessions
    ensures l.maxSessions == maxSessions || (maxSessions < 1 && l.maxSessions == 1)
    ensures l.warmSessions == warmSessions || (warmSessions < 0 && l.warmSessions == 0)
         || (warmSessions > l.maxSessions && l.warmSessions == l.maxSessions)
  {
    var m := if maxSessions <= 0 then 1 else maxSessions;
    var w := if warmSessions < 0 then 0 else warmSessions;
    Limits(m, if w > m then m else w)
  }

  // ---------- Entry classes ----------

  /** Counts towards the warm pool: an idle pooled session or a pooled slot still starting. */
  predicate Warm(e: Entry) { e.pooled && (e.status == Idle || e.status == Starting) }

  predicate Leasable(e: Entry) { e.status == Idle && e.pooled }

  function LastTouched(e: Entry): int {
    if e.session.Some? && e.session.value.lastUsed > e.updatedAt then e.session.value.lastUsed else e.updatedAt
  }

  predicate Expired(e: Entry, now: int, ttl: int) { e.status == Idle && now - LastTouched(e) >= ttl }

  predicate Droppable(e: Entry) { e.status == Idle || (e.status == Starting && e.pooled) }

  predicate Stoppable(e: Entry) { e.status == Draining || e.status == Closed || Droppable(e) }

  // ---------- Views of a registry ----------

  function WarmIds(r: Reg): set<Id> { set id | id in r.entries && Warm(r.entries[id]) }

  function ExpiredIds(r: Reg, now: int, ttl: int): set<Id> {
    set id | id in r.entries && id in r.byAge && Expired(r.entries[id], now, ttl)
  }

  function DroppableIds(r: Reg): set<Id> { set id | id in r.entries && Droppable(r.entries[id]) }

  function StoppableIds(r: Reg): set<Id> { set id | id in r.entries && Stoppable(r.entries[id]) }

  /** The units held by the entries `ids`. */
  function UnitIds(r: Reg, ids: set<Id>): set<Id> {
    set id | id in ids && id in r.entries && r.entries[id].holdsCapacity
  }

  function Sids(r: Reg, ids: set<Id>): set<nat> {
    set id | id in ids && id in r.entries && r.entries[id].session.Some? :: r.entries[id].session.value.sid
  }

  predicate NeedsWarm(l: Limits, r: Reg) {
    !r.cancelled && l.warmSessions > 0 && |r.entries| < l.maxSessions && |WarmIds(r)| < l.warmSessions
  }

  // ---------- The age index ----------

  function Compact(s: seq<Id>, keys: set<Id>): (c: seq<Id>) {
    if s == [] then [] else (if s[0] in keys then [s[0]] else []) + Compact(s[1..], keys)
  }

  function Replace(s: seq<Id>, from: Id, to: Id): seq<Id> {
    if s == [] then [to] else if s[0] == from then [to] + s[1..] else [s[0]] + Replace(s[1..], from, to)
  }

  /** The first id in `s` whose entry may be leased out. */
  function FirstLeasable(s: seq<Id>, entries: map<Id, Entry>): Option<Id> {
    if s == [] then None
    else if s[0] in entries && Leasable(entries[s[0]]) then Some(s[0])
    else FirstLeasable(s[1..], entries)
  }

  // ---------- The sections run under the mutex ----------

  /** Deletes `ids` and rebuilds the age index if anything was deleted. */
  function Without(r: Reg, ids: set<Id>): Reg {
    if ids !! r.entries.Keys then r
    else r.(entries := r.entries - ids, byAge := Compact(r.byAge, r.entries.Keys - ids))
  }

  function Reserve(r: Reg, pooled: bool, now: int): Reg {
    var n := r.warmingSeq + 1;
    r.(warmingSeq := n,
       entries := r.entries[Warming(n) := Entry(Starting, None, now, true, pooled, n)],
       byAge := r.byAge + [Warming(n)])
  }

  /** Turns the starting slot `wid` into an entry for `s`, keyed by its conversation ID. */
  function Activate(r: Reg, wid: nat, s: Sess, status: Status, pooled: bool, now: int): Reg {
    r.(entries := (r.entries - {Warming(wid)})[Conv(s.conv) := Entry(status, Some(s), now, true, pooled, wid)],
       byAge := Replace(r.byAge, Warming(wid), Conv(s.conv)))
  }

  function ActivateLease(r: Reg, wid: nat, s: Sess, now: int): Reg {
    Activate(r, wid, s, Leased, false, now)
  }

  /** Reserving a slot of one's own and putting the session into it, or, if it does not start, dropping the slot. */
  function StartLeased(r: Reg, s: Option<Sess>, now: int): Reg {
    var r1 := Reserve(r, false, now);
    match s
    case Some(sess) => ActivateLease(r1, r.warmingSeq + 1, sess, now)
    case None => Without(r1, {Warming(r.warmingSeq + 1)})
  }

  predicate KeepsIdle(r: Reg, wid: nat) { Warming(wid) in r.entries && !r.cancelled }

  function ActivateIdle(r: Reg, wid: nat, s: Sess, now: int): Reg {
    if KeepsIdle(r, wid) then Activate(r, wid, s, Idle, true, now) else Without(r, {Warming(wid)})
  }

  function Lease(e: Entry, now: int): Entry {
    e.(status := Leased, pooled := false, updatedAt := now,
       session := if e.session.Some? then Some(e.session.value.(lastUsed := now)) else None)
  }

  function TryActivateIdle(r: Reg, now: int): Reg {
    match FirstLeasable(r.byAge, r.entries)
    case None => r
    case Some(id) => if id in r.entries then r.(entries := r.entries[id := Lease(r.entries[id], now)]) else r
  }

  function MaybeRefill(l: Limits, r: Reg): Reg {
    if !NeedsWarm(l, r) then r
    else if r.refillRunning then r.(refillRequested := true)
    else r.(refillRunning := true)
  }

  predicate Spawns(l: Limits, r: Reg) { NeedsWarm(l, r) && !r.refillRunning }

  predicate PassContinues(l: Limits, r: Reg) { r.refillRequested && NeedsWarm(l, r) }

  function FinishPass(l: Limits, r: Reg): Reg {
    r.(refillRequested := false, refillRunning := r.refillRunning && PassContinues(l, r))
  }

  function FinishFailure(r: Reg): Reg { r.(refillRequested := false, refillRunning := false) }
}
