/**
 The invariant of the session pool over every interleaving.
 */
module PoolInvariant {
  import opened Ids
  import opened Registry
  import opened Wrappers
  import opened RegistryLaws
  import opened Pool

  // ---------- What a program point owns ----------

  function TailOf(pc: PC): Option<After> {
    match pc
    case Refund(_, _, _, next) => Some(next)
    case Closing(_, _, next) => Some(next)
    case Kick(next) => Some(next)
    case _ => None
  }

  /** Units taken from the semaphore, or out of the registry, and not yet given back. */
  function Units(pc: PC): nat {
    match pc
    case AcqRescan => 1
    case AcqReserve(_) => 1
    case FillReserve => 1
    case Refund(units, _, _, _) => units
    case _ => 0
  }

  predicate RunsFill(pc: PC) {
    IsFill(pc) || TailOf(pc) == Some(ThenRefillTop) || TailOf(pc) == Some(ThenRefillFail)
  }

  function Fills(pc: PC): nat { if RunsFill(pc) then 1 else 0 }

  function SlotOf(pc: PC): Option<nat> {
    match pc
    case AcqStart(wid, _) => Some(wid)
    case AcqFail(wid) => Some(wid)
    case AcqActivate(wid, _, _) => Some(wid)
    case FillStart(wid) => Some(wid)
    case FillFailed(wid) => Some(wid)
    case FillActivate(wid, _) => Some(wid)
    case _ => None
  }

  function FetchedBy(pc: PC): Option<Sess> {
    match pc
    case AcqActivate(_, s, _) => Some(s)
    case FillActivate(_, s) => Some(s)
    case _ => None
  }

  function Victims(pc: PC): set<nat> {
    match pc
    case Refund(_, victims, _, _) => victims
    case Closing(victims, _, _) => victims
    case _ => {}
  }

  /** A lease the thread holds and has not yet released or invalidated. */
  function LiveLease(pc: PC): Option<LeaseRef> {
    match pc
    case ReqUpload(l, _) => Some(l)
    case ReqSend(l, _) => Some(l)
    case ReqRun(l) => Some(l)
    case _ => if TailOf(pc).Some? && TailOf(pc).value.ThenUpload? then Some(TailOf(pc).value.lease) else None
  }

  /** A lease whose conversation the thread has invalidated and whose release is still to come. */
  function SpentLease(pc: PC): Option<LeaseRef> {
    match pc
    case ReqRelease(l) => Some(l)
    case _ => if TailOf(pc).Some? && TailOf(pc).value.ThenRelease? then Some(TailOf(pc).value.lease) else None
  }

  /** Past the cancellation in `shutdown`. */
  predicate Stopping(pc: PC) { pc.ShutTake? || pc.ShutPoll? || pc.ShutReturned? || TailOf(pc) == Some(ThenPoll) }

  // ---------- Sums over the threads ----------

  function Total(f: PC -> nat, threads: seq<PC>): nat {
    if threads == [] then 0 else f(threads[0]) + Total(f, threads[1..])
  }

  lemma {:induction false} TotalUpdate(f: PC -> nat, threads: seq<PC>, t: nat, pc: PC)
    requires t < |threads|
    ensures Total(f, threads[t := pc]) + f(threads[t]) == Total(f, threads) + f(pc)
  {
    if t == 0 {
      assert threads[t := pc][1..] == threads[1..];
    } else {
      TotalUpdate(f, threads[1..], t - 1, pc);
      assert threads[t := pc][1..] == threads[1..][t - 1 := pc];
    }
  }

  lemma {:induction false} TotalAppend(f: PC -> nat, threads: seq<PC>, pc: PC)
    ensures Total(f, threads + [pc]) == Total(f, threads) + f(pc)
  {
    if threads != [] {
      TotalAppend(f, threads[1..], pc);
      assert (threads + [pc])[1..] == threads[1..] + [pc];
    }
  }

  lemma {:induction false} NoUnits(threads: seq<PC>)
    requires forall t: nat :: t < |threads| ==> Units(threads[t]) == 0
    ensures Total(Units, threads) == 0
  {
    if threads != [] { NoUnits(threads[1..]); }
  }

  // ---------- The invariant ----------

  /** No conversation ID was handed out twice. */
  ghost predicate Distinct(convs: seq<string>) {
    forall i, j :: 0 <= i < j < |convs| ==> convs[i] != convs[j]
  }

  ghost predicate UnitsOk(w: World) {
    && w.used == |w.reg.entries| + Total(Units, w.threads) + w.lost
    && w.used <= w.limits.maxSessions
  }

  ghost predicate FillOk(w: World) {
    && Total(Fills, w.threads) == (if w.reg.refillRunning then 1 else 0)
    && |WarmIds(w.reg)| <= w.limits.warmSessions
  }

  ghost predicate SlotHeld(w: World, n: nat) {
    && 1 <= n <= |w.slots|
    && w.slots[n - 1] < |w.threads|
    && SlotOf(w.threads[w.slots[n - 1]]) == Some(n)
    && (Warming(n) in w.reg.entries ==> w.reg.entries[Warming(n)].pooled == IsFill(w.threads[w.slots[n - 1]]))
  }

  /** Each starting slot has one thread starting it; only refill slots may vanish under their thread. */
  ghost predicate SlotsOk(w: World) {
    && |w.slots| == w.reg.warmingSeq
    && (forall n: nat :: Warming(n) in w.reg.entries ==> SlotHeld(w, n))
    && (forall t: nat :: t < |w.threads| && SlotOf(w.threads[t]).Some? ==>
          var n := SlotOf(w.threads[t]).value;
          && 1 <= n <= |w.slots| && w.slots[n - 1] == t
          && (!IsFill(w.threads[t]) ==> Warming(n) in w.reg.entries))
  }

  ghost predicate EntryPlaced(w: World, id: Id)
    requires id in w.reg.entries && |w.place| == |w.convs|
  {
    var e := w.reg.entries[id];
    && (id.Conv? <==> e.session.Some?)
    && (e.session.Some? ==>
      var s := e.session.value;
      && id == Conv(s.conv) && s.sid < |w.place| && w.convs[s.sid] == s.conv
      && w.place[s.sid].Registered? && w.place[s.sid].name == s.conv
      && (w.place[s.sid].holder.Some? <==> e.status == Leased))
  }

  /** The session `s` is where its place says it is. */
  ghost predicate Located(w: World, s: nat)
    requires s < |w.place|
  {
    match w.place[s]
    case Fetched(t) =>
      t < |w.threads| && FetchedBy(w.threads[t]).Some? && FetchedBy(w.threads[t]).value.sid == s
    case Registered(name, _) =>
      Conv(name) in w.reg.entries && w.reg.entries[Conv(name)].session.Some?
      && w.reg.entries[Conv(name)].session.value.sid == s
    case Retiring(t) => t < |w.threads| && s in Victims(w.threads[t])
    case _ => true
  }

  ghost predicate ThreadPlaced(w: World, t: nat)
    requires t < |w.threads| && |w.place| == |w.convs|
  {
    && (FetchedBy(w.threads[t]).Some? ==>
          var s := FetchedBy(w.threads[t]).value;
          s.sid < |w.place| && w.place[s.sid] == Fetched(t) && w.convs[s.sid] == s.conv)
    && (forall s :: s in Victims(w.threads[t]) ==> s < |w.place| && w.place[s] == Retiring(t))
  }

  ghost predicate PlaceOk(w: World) {
    && |w.place| == |w.convs|
    && (forall id :: id in w.reg.entries ==> EntryPlaced(w, id))
    && (forall s: nat :: s < |w.place| ==> Located(w, s))
    && (forall t: nat :: t < |w.threads| ==> ThreadPlaced(w, t))
  }

  ghost predicate HolderOk(w: World, s: nat)
    requires s < |w.place|
  {
    w.place[s].Registered? && w.place[s].holder.Some? ==>
      var t := w.place[s].holder.value;
      t < |w.threads| && LiveLease(w.threads[t]) == Some(LeaseRef(w.place[s].name, s))
  }

  ghost predicate LeaseHeld(w: World, t: nat)
    requires t < |w.threads|
  {
    && (LiveLease(w.threads[t]).Some? ==>
          var l := LiveLease(w.threads[t]).value;
          l.sid < |w.place| && w.place[l.sid] == Registered(l.name, Some(t)))
    && (SpentLease(w.threads[t]).Some? ==>
          var l := SpentLease(w.threads[t]).value;
          && l.sid < |w.place| && l.sid < |w.convs| && w.convs[l.sid] == l.name
          && (w.place[l.sid].Retiring? || w.place[l.sid].ClosedByManager?))
  }

  ghost predicate HoldersOk(w: World) {
    forall s: nat :: s < |w.place| ==> HolderOk(w, s)
  }

  /** Holds as long as conversation IDs are distinct. */
  ghost predicate LeaseOk(w: World) {
    && w.lost == 0
    && (forall s: nat :: s < |w.place| ==> w.place[s] != Overwritten)
    && (forall t: nat :: t < |w.threads| ==> LeaseHeld(w, t))
    && Ordered(w.reg)
  }

  ghost predicate StopOk(w: World) {
    forall t: nat :: t < |w.threads| && Stopping(w.threads[t]) ==> w.reg.cancelled
  }

  ghost predicate Inv(w: World) {
    && w.limits.warmSessions <= w.limits.maxSessions
    && RegOk(w.reg)
    && UnitsOk(w)
    && FillOk(w)
    && SlotsOk(w)
    && PlaceOk(w)
    && HoldersOk(w)
    && StopOk(w)
    && (Distinct(w.convs) ==> LeaseOk(w))
  }

  lemma InvParts(w: World)
    requires Inv(w)
    ensures RegOk(w.reg) && UnitsOk(w) && FillOk(w) && SlotsOk(w) && PlaceOk(w) && HoldersOk(w) && StopOk(w)
    ensures w.limits.warmSessions <= w.limits.maxSessions
    ensures Distinct(w.convs) ==> LeaseOk(w)
  {
  }

  lemma InvJoin(w: World)
    requires RegOk(w.reg) && UnitsOk(w) && FillOk(w) && SlotsOk(w) && PlaceOk(w) && HoldersOk(w) && StopOk(w)
    requires w.limits.warmSessions <= w.limits.maxSessions
    requires Distinct(w.convs) ==> LeaseOk(w)
    ensures Inv(w)
  {
  }
}
