/**
 Two things that no interleaving undoes: a request for a refill made while one runs is heard
 at the end of its pass, and a prompt is sent a second time only after the warm pool is gone.
 */
module PoolWakeup {
  import opened Ids
  import opened Registry
  import opened Wrappers
  import opened RegistryLaws
  import opened Pool
  import opened PoolInvariant
  import opened PoolTheorems
  import opened PoolLifecycle
  import opened PoolShutdown

  // ---------- No request for a refill is lost ----------

  /** Fewer warm sessions than the target, and room for one more entry. */
  ghost predicate Short(l: Limits, r: Reg) {
    && !r.cancelled && 0 < l.warmSessions && |r.entries| < l.maxSessions
    && |set id | id in r.entries && r.entries[id].pooled && r.entries[id].status in {Idle, Starting}| < l.warmSessions
  }

  lemma ShortMeans(l: Limits, r: Reg)
    ensures Short(l, r) <==> NeedsWarm(l, r)
  {
    assert WarmIds(r) == set id | id in r.entries && r.entries[id].pooled && r.entries[id].status in {Idle, Starting};
  }

  /**
   Asking for a refill: where one is needed a running goroutine is told, and where none runs
   one is started; otherwise nothing happens.
   */
  lemma AsksForRefill(w: World, t: nat, c: Choice)
    requires Enabled(w, t, c) && w.threads[t].Kick?
    ensures var w' := Next(w, t, c); var resumed := w.threads[t := Resume(w.threads[t].next)];
      && w'.threads == (if Short(w.limits, w.reg) && !w.reg.refillRunning then resumed + [FillTop] else resumed)
      && w'.reg == (if !Short(w.limits, w.reg) then w.reg
                    else if w.reg.refillRunning then w.reg.(refillRequested := true)
                    else w.reg.(refillRunning := true))
  {
    hide NeedsWarm, Short;
    ShortMeans(w.limits, w.reg);
  }

  /** The goroutine goes round again exactly if it was told to and there is still need. */
  lemma EndsPass(w: World, t: nat, c: Choice)
    requires Enabled(w, t, c) && w.threads[t].FillPass?
    ensures var w' := Next(w, t, c); var again := w.reg.refillRequested && Short(w.limits, w.reg);
      && w'.threads == w.threads[t := if again then FillTop else Done]
      && w'.reg == w.reg.(refillRequested := false, refillRunning := w.reg.refillRunning && again)
  {
    hide NeedsWarm, Short;
    ShortMeans(w.limits, w.reg);
  }

  predicate AtPassEnd(pc: PC) { pc.FillPass? || pc.FillEnd? }

  /** No goroutine ends its pass between the two states, or gives up. */
  ghost predicate NoPassEnds(w: World, w': World) {
    forall t: nat :: t < |w.threads| && AtPassEnd(w.threads[t]) ==> t < |w'.threads| && w'.threads[t] == w.threads[t]
  }

  lemma FlagStays(w: World, w': World)
    requires Step(w, w') && NoPassEnds(w, w') && w.reg.refillRequested
    ensures w'.reg.refillRequested
  {
    hide Next, Enabled;
    if ThreadStep(w, w') {
      var t: nat, c: Choice :| Enabled(w, t, c) && w' == Next(w, t, c);
      InRange(w, t, c);
      ClearsAtEndOnly(w, t, c);
    }
  }

  lemma ClearsAtEndOnly(w: World, t: nat, c: Choice)
    requires Enabled(w, t, c) && w.reg.refillRequested
    ensures Next(w, t, c).reg.refillRequested
         || (AtPassEnd(w.threads[t]) && t < |Next(w, t, c).threads| && Next(w, t, c).threads[t] != w.threads[t])
  {
    hide Next;
    if IsRequest(w.threads[t]) {
      RequestKeepsFlag(w, t, c);
    } else if IsFill(w.threads[t]) {
      FillKeepsFlag(w, t, c);
    } else {
      TailKeepsFlag(w, t, c);
    }
  }

  lemma RequestKeepsFlag(w: World, t: nat, c: Choice)
    requires Enabled(w, t, c) && IsRequest(w.threads[t])
    ensures Next(w, t, c).reg.refillRequested == w.reg.refillRequested
  {
    hide StepFill, StepTail, Compact, Replace, FirstLeasable, DroppableIds, UnitIds, Sids, Retire;
  }

  lemma FillKeepsFlag(w: World, t: nat, c: Choice)
    requires Enabled(w, t, c) && IsFill(w.threads[t]) && w.reg.refillRequested
    ensures Next(w, t, c).reg.refillRequested
         || (AtPassEnd(w.threads[t]) && t < |Next(w, t, c).threads| && Next(w, t, c).threads[t] != w.threads[t])
  {
    hide StepRequest, StepTail, Compact, Replace, NeedsWarm, UnitIds, Sids, Retire;
  }

  lemma TailKeepsFlag(w: World, t: nat, c: Choice)
    requires Enabled(w, t, c) && !IsRequest(w.threads[t]) && !IsFill(w.threads[t]) && w.reg.refillRequested
    ensures Next(w, t, c).reg.refillRequested
  {
    hide StepRequest, StepFill, Compact, NeedsWarm, ExpiredIds, StoppableIds, UnitIds, Sids, Retire;
  }

  lemma {:induction false} FlagLasts(run: seq<World>, i: nat, j: nat)
    requires Run(run) && i <= j < |run| && run[i].reg.refillRequested
    requires forall m :: i <= m < j ==> NoPassEnds(run[m], run[m + 1])
    ensures run[j].reg.refillRequested
    decreases j
  {
    hide Run, Step, NoPassEnds;
    if i < j {
      FlagLasts(run, i, j - 1);
      RunStep(run, j - 1);
      assert NoPassEnds(run[j - 1], run[j - 1 + 1]);
      FlagStays(run[j - 1], run[j]);
    }
  }

  /** The step from `w` to `w'` is one of thread `t`. */
  ghost predicate StepOf(w: World, w': World, t: nat) {
    t < |w.threads| && exists c: Choice :: Enabled(w, t, c) && w' == Next(w, t, c)
  }

  /**
   In a run, thread `u` asks for a refill in step `k` while one is needed and one runs. The
   first pass to end after that, in step `j` of thread `t`, is followed by another one if
   there is still need, whatever other threads have done in between.
   */
  lemma RequestIsHeard(run: seq<World>, k: nat, u: nat, j: nat, t: nat)
    requires Run(run) && k < j < |run| - 1
    requires StepOf(run[k], run[k + 1], u) && run[k].threads[u].Kick?
    requires run[k].reg.refillRunning && Short(run[k].limits, run[k].reg)
    requires forall m :: k < m < j ==> NoPassEnds(run[m], run[m + 1])
    requires StepOf(run[j], run[j + 1], t) && run[j].threads[t].FillPass? && Short(run[j].limits, run[j].reg)
    ensures t < |run[j + 1].threads| && run[j + 1].threads[t].FillTop? && run[j + 1].reg.refillRunning
  {
    hide Run, Next, Enabled, Short, NoPassEnds, Inv;
    var c: Choice :| Enabled(run[k], u, c) && run[k + 1] == Next(run[k], u, c);
    AsksForRefill(run[k], u, c);
    FlagLasts(run, k + 1, j);
    var d: Choice :| Enabled(run[j], t, d) && run[j + 1] == Next(run[j], t, d);
    EndsPass(run[j], t, d);
    RunKeeps(run, j);
    Running(run[j]);
  }

  lemma Running(w: World)
    requires Inv(w)
    ensures w.reg.refillRequested ==> w.reg.refillRunning
  {
  }

  // ---------- A second attempt comes after the warm pool is gone ----------

  /** In its second attempt, up to the moment it has sent its prompt. */
  predicate Retrying(pc: PC) {
    || ((pc.AcqWait? || pc.AcqReserve? || pc.AcqStart? || pc.AcqActivate? || pc.ReqUpload? || pc.ReqSend?) && pc.retry)
    || TailOf(pc) == Some(ThenRetry)
  }

  lemma RetryStep(w: World, t: nat, c: Choice)
    requires Enabled(w, t, c) && t < |Next(w, t, c).threads| && Retrying(Next(w, t, c).threads[t])
    ensures Retrying(w.threads[t]) || w.threads[t].ReqDrop?
  {
    hide Next;
    if IsFill(w.threads[t]) {
      RetryFill(w, t, c);
    } else if IsRequest(w.threads[t]) {
      RetryRequest(w, t, c);
    } else {
      RetryTail(w, t, c);
    }
  }

  lemma RetryFill(w: World, t: nat, c: Choice)
    requires Enabled(w, t, c) && IsFill(w.threads[t])
    ensures t < |Next(w, t, c).threads| && !Retrying(Next(w, t, c).threads[t])
  {
    hide Without, Reserve, Activate, ActivateIdle, NeedsWarm, UnitIds, Sids, Retire, FinishPass, FinishFailure;
    hide StepRequest, StepTail, Scan, RetireLease;
  }

  lemma RetryRequest(w: World, t: nat, c: Choice)
    requires Enabled(w, t, c) && IsRequest(w.threads[t])
    ensures t < |Next(w, t, c).threads|
    ensures Retrying(Next(w, t, c).threads[t]) ==> Retrying(w.threads[t]) || w.threads[t].ReqDrop?
  {
    hide Without, Reserve, Activate, ActivateLease, TryActivateIdle, FirstLeasable, DroppableIds, UnitIds, Sids, Retire;
    hide StepTail, StepFill;
  }

  lemma RetryTail(w: World, t: nat, c: Choice)
    requires Enabled(w, t, c) && !IsRequest(w.threads[t]) && !IsFill(w.threads[t])
    ensures t < |Next(w, t, c).threads|
    ensures Retrying(Next(w, t, c).threads[t]) ==> Retrying(w.threads[t])
  {
    hide Without, MaybeRefill, NeedsWarm, ExpiredIds, StoppableIds, UnitIds, Sids, Retire;
    hide StepRequest, StepFill, Scan, RetireLease, Register, Fetch, ReserveSlot;
  }

  ghost predicate NothingPooled(r: Reg) { forall id :: id in r.entries ==> !r.entries[id].pooled }

  lemma DropEmpties(w: World, t: nat, c: Choice)
    requires Inv(w) && Enabled(w, t, c) && w.threads[t].ReqDrop?
    ensures NothingPooled(Next(w, t, c).reg)
  {
    hide Inv, Next, RegOk, UnitsOk, FillOk, SlotsOk, PlaceOk, HoldersOk, StopOk, LeaseOk, Without, DroppableIds, UnitIds;
    InvParts(w);
    DropTakes(w, t, c);
    DroppingHolds(w.reg);
  }

  lemma DropTakes(w: World, t: nat, c: Choice)
    requires Enabled(w, t, c) && w.threads[t].ReqDrop?
    ensures Next(w, t, c).reg == Without(w.reg, DroppableIds(w.reg))
  {
    hide Without, DroppableIds, UnitIds, Sids, Retire, StepFill, StepTail;
  }

  lemma RetryWorldStep(w: World, w': World, t: nat)
    requires Inv(w) && Step(w, w') && t < |w'.threads| && Retrying(w'.threads[t])
    ensures t < |w.threads|
    ensures Retrying(w.threads[t]) || (w.threads[t].ReqDrop? && NothingPooled(w'.reg))
  {
    hide Inv, Next, Enabled, NothingPooled;
    if ThreadStep(w, w') {
      var u: nat, c: Choice :| Enabled(w, u, c) && w' == Next(w, u, c);
      ThreadFrame(w, u, c, w');
      InRange(w, u, c);
      if u == t {
        RetryStep(w, t, c);
        if w.threads[t].ReqDrop? { DropEmpties(w, t, c); }
      }
    }
  }

  lemma InRange(w: World, t: nat, c: Choice)
    requires Enabled(w, t, c)
    ensures t < |w.threads|
  {
  }

  /** Whoever is in its second attempt has dropped the whole warm pool after its first, and not done anything else since. */
  lemma {:induction false} RetriesAfterDrop(run: seq<World>, i: nat, t: nat) returns (k: nat)
    requires Run(run) && i < |run| && t < |run[i].threads| && Retrying(run[i].threads[t])
    ensures k < i && t < |run[k].threads| && run[k].threads[t].ReqDrop? && NothingPooled(run[k + 1].reg)
    ensures forall m: nat :: k < m <= i ==> t < |run[m].threads| && Retrying(run[m].threads[t])
    decreases i
  {
    hide Inv, Step, Init, Retrying, NothingPooled;
    if i == 0 {
      NobodyRetries(run[0]);
      assert false;
    } else {
      RunKeeps(run, i - 1);
      RunStep(run, i - 1);
      RetryWorldStep(run[i - 1], run[i], t);
      if Retrying(run[i - 1].threads[t]) {
        k := RetriesAfterDrop(run, i - 1, t);
      } else {
        k := i - 1;
      }
    }
  }

  lemma NobodyRetries(w: World)
    requires exists m: int, n: int :: w == Init(Clamp(m, n))
    ensures forall t: nat :: t < |w.threads| ==> !Retrying(w.threads[t])
  {
  }
}
