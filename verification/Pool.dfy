/**
 The session pool as a transition system. Any number of threads run the program's
 own code: client requests, the refill goroutine, the janitor's eviction and shutdown.
 A step runs one section under the mutex, one semaphore operation, one outcome of
 something outside the manager, or the closing of one batch of sessions.

 The fields `convs`, `place`, `slots` and `lost` record history and are never read by
 a step's guard; everything else is the program's state.
 */
module Pool {
  import opened Ids
  import opened Registry
  import opened Wrappers

  datatype LeaseRef = LeaseRef(name: string, sid: nat)

  /** What a thread does once it has given units back, closed its victims and run maybeRefill. */
  datatype After =
    | ThenDone
    | ThenUpload(lease: LeaseRef)
    | ThenRelease(lease: LeaseRef)
    | ThenDrop
    | ThenRetry
    | ThenPoll
    | ThenRefillTop
    | ThenRefillFail

  /** Program points. `retry` tells the second attempt of a request, which takes a fresh session. */
  datatype PC =
    | Done
    // a request: acquire and acquireFresh
    | AcqScan
    | AcqWait(retry: bool)
    | AcqRescan
    | AcqReserve(retry: bool)
    | AcqStart(wid: nat, retry: bool)
    | AcqFail(wid: nat)
    | AcqActivate(wid: nat, sess: Sess, retry: bool)
    // a request: startPromptEvents, then Complete or forwardStreamEvents
    | ReqUpload(lease: LeaseRef, retry: bool)
    | ReqSend(lease: LeaseRef, retry: bool)
    | ReqRun(lease: LeaseRef)
    | ReqRelease(lease: LeaseRef)
    | ReqDrop
    // shared tails
    | Refund(units: nat, victims: set<nat>, kick: bool, next: After)
    | Closing(victims: set<nat>, kick: bool, next: After)
    | Kick(next: After)
    // janitor and shutdown
    | EvictTake(now: int, ttl: int)
    | ShutCancel
    | ShutTake
    | ShutPoll
    | ShutReturned(ok: bool)
    // the refill goroutine
    | FillTop
    | FillCheck
    | FillTry
    | FillReserve
    | FillPass
    | FillStart(wid: nat)
    | FillFailed(wid: nat)
    | FillActivate(wid: nat, sess: Sess)
    | FillEnd

  /** Where a started session is. A leased entry names the thread that leased it. */
  datatype Place =
    | Fetched(thread: nat)
    | Registered(name: string, holder: Option<nat>)
    | Retiring(thread: nat)
    | ClosedByManager
    | Overwritten

  datatype World = World(
    limits: Limits,
    reg: Reg,
    used: int,            // units taken from the semaphore
    threads: seq<PC>,
    convs: seq<string>,   // conversation ID of each session ever started
    place: seq<Place>,    // where that session is now
    slots: seq<nat>,      // thread that reserved slot warming:1, warming:2, ...
    lost: nat)            // entries overwritten by an equal conversation ID

  /** The outcome of everything a step does not decide itself. */
  datatype Choice = Choice(ok: bool, again: bool, now: int, conv: string)

  function Resume(next: After): PC {
    match next
    case ThenDone => Done
    case ThenUpload(l) => ReqUpload(l, false)
    case ThenRelease(l) => ReqRelease(l)
    case ThenDrop => ReqDrop
    case ThenRetry => AcqWait(true)
    case ThenPoll => ShutPoll
    case ThenRefillTop => FillTop
    case ThenRefillFail => FillEnd
  }

  function Init(l: Limits): World {
    World(l, EMPTY, 0, [Kick(ThenDone)], [], [], [], 0)
  }

  // ---------- Updates shared by the steps ----------

  function Goto(w: World, t: nat, pc: PC): World
    requires t < |w.threads|
  {
    w.(threads := w.threads[t := pc])
  }

  /** Hands every registered session keyed by `ids` to thread `t`, which is to close it. */
  function Retire(w: World, t: nat, ids: set<Id>): seq<Place> {
    seq(|w.place|, s requires 0 <= s < |w.place| =>
      if w.place[s].Registered? && Conv(w.place[s].name) in ids then Retiring(t) else w.place[s])
  }

  /** Deletes `ids` from the registry; the thread then owes their units and owns their sessions. */
  function Take(w: World, t: nat, ids: set<Id>, kick: bool, next: After): World
    requires t < |w.threads|
  {
    Goto(w, t, Refund(|UnitIds(w.reg, ids)|, Sids(w.reg, ids), kick, next))
    .(reg := Without(w.reg, ids), place := Retire(w, t, ids))
  }

  /** `release` and `invalidate` of a conversation ID: nothing happens if it is not registered. */
  function RetireLease(w: World, t: nat, l: LeaseRef, next: After): World
    requires t < |w.threads|
  {
    if Conv(l.name) in w.reg.entries then Take(w, t, {Conv(l.name)}, true, next) else Goto(w, t, Resume(next))
  }

  /** Registers the fetched session under its conversation ID; an entry already there is overwritten. */
  function Register(w: World, t: nat, reg: Reg, s: Sess, holder: Option<nat>, pc: PC): World
    requires t < |w.threads| && s.sid < |w.place|
  {
    var id := Conv(s.conv);
    var collides := id in w.reg.entries;
    Goto(w, t, pc).(
      reg := reg,
      place := seq(|w.place|, i requires 0 <= i < |w.place| =>
        if i == s.sid then Registered(s.conv, holder)
        else if w.place[i].Registered? && w.place[i].name == s.conv then Overwritten
        else w.place[i]),
      lost := w.lost + if collides then 1 else 0)
  }

  /** A start succeeds: a session nobody else knows, under whatever conversation ID the upstream chose. */
  function Fetch(w: World, t: nat, conv: string, pc: PC): World
    requires t < |w.threads|
  {
    Goto(w, t, pc).(convs := w.convs + [conv], place := w.place + [Fetched(t)])
  }

  // ---------- The steps ----------

  predicate Spawnable(pc: PC) { pc.AcqScan? || pc.EvictTake? || pc.ShutCancel? }

  function Spawn(w: World, pc: PC): World { w.(threads := w.threads + [pc]) }

  predicate Enabled(w: World, t: nat, c: Choice) {
    && t < |w.threads|
    && match w.threads[t]
       case Done => false
       case ShutReturned(_) => false
       case AcqWait(_) => c.ok ==> w.used < w.limits.maxSessions
       case AcqActivate(_, s, _) => s.sid < |w.place|
       case FillActivate(_, s) => s.sid < |w.place|
       case ShutPoll => c.ok ==> w.reg.entries == map[]
       case _ => true
  }

  /** tryActivateIdleLease, with or without a unit in hand. */
  function Scan(w: World, t: nat, now: int, units: nat): World
    requires t < |w.threads|
  {
    match FirstLeasable(w.reg.byAge, w.reg.entries)
    case Some(Conv(name)) =>
      if Conv(name) in w.reg.entries && w.reg.entries[Conv(name)].session.Some?
         && w.reg.entries[Conv(name)].session.value.sid < |w.place|
      then
        var sid := w.reg.entries[Conv(name)].session.value.sid;
        Goto(w, t, Refund(units, {}, true, ThenUpload(LeaseRef(name, sid))))
        .(reg := TryActivateIdle(w.reg, now), place := w.place[sid := Registered(name, Some(t))])
      else w
    case Some(Warming(_)) => w
    case None => Goto(w, t, if units == 0 then AcqWait(false) else AcqReserve(false))
  }

  function ReserveSlot(w: World, t: nat, pooled: bool, now: int, pc: PC): World
    requires t < |w.threads|
  {
    Goto(w, t, pc).(reg := Reserve(w.reg, pooled, now), slots := w.slots + [t])
  }

  function StepRequest(w: World, t: nat, c: Choice): World
    requires Enabled(w, t, c)
  {
    match w.threads[t]
    case AcqScan => Scan(w, t, c.now, 0)
    case AcqWait(retry) =>
      if c.ok then Goto(w, t, if retry then AcqReserve(true) else AcqRescan).(used := w.used + 1)
      else Goto(w, t, Done)
    case AcqRescan => Scan(w, t, c.now, 1)
    case AcqReserve(retry) => ReserveSlot(w, t, false, c.now, AcqStart(w.reg.warmingSeq + 1, retry))
    case AcqStart(wid, retry) =>
      if c.ok then Fetch(w, t, c.conv, AcqActivate(wid, Sess(|w.convs|, c.conv, c.now), retry))
      else Goto(w, t, AcqFail(wid))
    case AcqFail(wid) => Take(w, t, {Warming(wid)}, false, ThenDone)
    case AcqActivate(wid, s, retry) =>
      var l := LeaseRef(s.conv, s.sid);
      Register(w, t, ActivateLease(w.reg, wid, s, c.now), s, Some(t),
               if retry then ReqUpload(l, true) else Kick(ThenUpload(l)))
    case ReqUpload(l, retry) =>
      if c.ok then Goto(w, t, ReqSend(l, retry)) else RetireLease(w, t, l, ThenDone)
    case ReqSend(l, retry) =>
      if c.ok then Goto(w, t, ReqRun(l))
      else RetireLease(w, t, l, if !retry && c.again then ThenDrop else ThenDone)
    case ReqRun(l) => RetireLease(w, t, l, if c.ok then ThenDone else ThenRelease(l))
    case ReqRelease(l) => RetireLease(w, t, l, ThenDone)
    case ReqDrop => Take(w, t, DroppableIds(w.reg), false, ThenRetry)
    case _ => w
  }

  function StepFill(w: World, t: nat, c: Choice): World
    requires Enabled(w, t, c)
  {
    match w.threads[t]
    case FillTop => Goto(w, t, if w.reg.cancelled then FillEnd else FillCheck)
    case FillCheck => Goto(w, t, if w.reg.cancelled then FillPass else FillTry)
    case FillTry =>
      if w.used < w.limits.maxSessions then Goto(w, t, FillReserve).(used := w.used + 1) else Goto(w, t, FillPass)
    case FillReserve =>
      if NeedsWarm(w.limits, w.reg) then ReserveSlot(w, t, true, c.now, FillStart(w.reg.warmingSeq + 1))
      else Goto(w, t, FillPass).(used := w.used - 1)
    case FillPass =>
      Goto(w, t, if PassContinues(w.limits, w.reg) then FillTop else Done).(reg := FinishPass(w.limits, w.reg))
    case FillStart(wid) =>
      if c.ok then Fetch(w, t, c.conv, FillActivate(wid, Sess(|w.convs|, c.conv, c.now)))
      else Goto(w, t, FillFailed(wid))
    case FillFailed(wid) => Take(w, t, {Warming(wid)}, false, ThenRefillFail)
    case FillActivate(wid, s) =>
      if KeepsIdle(w.reg, wid) then Register(w, t, ActivateIdle(w.reg, wid, s, c.now), s, None, FillTop)
      else
        Goto(w, t, Refund(|UnitIds(w.reg, {Warming(wid)})|, {s.sid}, false, ThenRefillTop))
        .(reg := ActivateIdle(w.reg, wid, s, c.now), place := w.place[s.sid := Retiring(t)])
    case FillEnd => Goto(w, t, Done).(reg := FinishFailure(w.reg))
    case _ => w
  }

  function StepTail(w: World, t: nat, c: Choice): World
    requires Enabled(w, t, c)
  {
    match w.threads[t]
    case Refund(units, victims, kick, next) => Goto(w, t, Closing(victims, kick, next)).(used := w.used - units)
    case Closing(victims, kick, next) =>
      Goto(w, t, if kick then Kick(next) else Resume(next))
      .(place := seq(|w.place|, s requires 0 <= s < |w.place| =>
          if s in victims then ClosedByManager else w.place[s]))
    case Kick(next) =>
      var w' := Goto(w, t, Resume(next)).(reg := MaybeRefill(w.limits, w.reg));
      if Spawns(w.limits, w.reg) then w'.(threads := w'.threads + [FillTop]) else w'
    case EvictTake(now, ttl) =>
      if ttl <= 0 then Goto(w, t, Done)
      else
        var ids := ExpiredIds(w.reg, now, ttl);
        Take(w, t, ids, |UnitIds(w.reg, ids)| > 0, ThenDone)
    case ShutCancel => Goto(w, t, ShutTake).(reg := w.reg.(cancelled := true))
    case ShutTake => Take(w, t, StoppableIds(w.reg), false, ThenPoll)
    case ShutPoll =>
      if c.ok then Goto(w, t, ShutReturned(true)) else if c.again then w else Goto(w, t, ShutReturned(false))
    case _ => w
  }

  predicate IsRequest(pc: PC) {
    pc.AcqScan? || pc.AcqWait? || pc.AcqRescan? || pc.AcqReserve? || pc.AcqStart? || pc.AcqFail? || pc.AcqActivate?
    || pc.ReqUpload? || pc.ReqSend? || pc.ReqRun? || pc.ReqRelease? || pc.ReqDrop?
  }

  predicate IsFill(pc: PC) {
    pc.FillTop? || pc.FillCheck? || pc.FillTry? || pc.FillReserve? || pc.FillPass? || pc.FillStart?
    || pc.FillFailed? || pc.FillActivate? || pc.FillEnd?
  }

  /** One step of thread `t`. */
  function Next(w: World, t: nat, c: Choice): World
    requires Enabled(w, t, c)
  {
    if IsRequest(w.threads[t]) then StepRequest(w, t, c)
    else if IsFill(w.threads[t]) then StepFill(w, t, c)
    else StepTail(w, t, c)
  }

  ghost predicate ThreadStep(w: World, w': World) {
    exists t: nat, c: Choice :: Enabled(w, t, c) && w' == Next(w, t, c)
  }

  ghost predicate Step(w: World, w': World) {
    ThreadStep(w, w') || exists pc: PC :: Spawnable(pc) && w' == Spawn(w, pc)
  }

  /** A run from the state the constructor leaves, whatever the two configured sizes are. */
  ghost predicate Run(run: seq<World>) {
    && |run| > 0
    && (exists m: int, n: int :: run[0] == Init(Clamp(m, n)))
    && forall i :: 0 <= i < |run| - 1 ==> Step(run[i], run[i + 1])
  }
}
