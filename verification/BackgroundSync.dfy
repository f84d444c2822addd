/** The single-slot scheduler of `datus/cli/background_sync.py`, as interleaved steps of any
    number of threads: schedule, cancel and shutdown calls, futures finishing on the
    background loop, and done-callbacks that take the same lock. */
module BackgroundSync {
  import opened Wrappers

  type ThreadId = nat
  type FutureId = nat

  /** A future that is not done is pending or running. `hooked` says that `_on_done` was
      registered on it and `called` that it ran. */
  datatype Future = Future(datasource: string, done: bool, hooked: bool, called: bool)

  /** Where a call is. From `Entered` to `Hooked` it holds the lock. */
  datatype Pc =
    | Idle
    | Requested(datasource: string)           // passed the shutdown and feature checks
    | Entered(datasource: string)
    | Vacated(datasource: string)             // the previous future, if any, is done
    | Submitted(datasource: string, future: FutureId)
    | Installed(future: FutureId)             // stored in the slot, callback not yet added
    | Hooked
    | Stopping                                // shutdown set its flag
    | Cancelling(target: Option<FutureId>)    // cancel read the slot and released the lock

  /** `slot` and `datasource` are `_current_future` and `_current_datasource`; `accepted` is
      the datasource of the last request that was coalesced or got a future of its own. */
  datatype State = State(
    slot: Option<FutureId>,
    datasource: Option<string>,
    shutdown: bool,
    lock: Option<ThreadId>,
    pcs: map<ThreadId, Pc>,
    futures: seq<Future>,
    accepted: Option<string>)
  {
    function Pc(t: ThreadId): Pc {
      if t in pcs then pcs[t] else Idle
    }

    function At(t: ThreadId, pc: Pc): State {
      this.(pcs := pcs[t := pc])
    }

    predicate Live(f: FutureId) {
      f < |futures| && !futures[f].done
    }

    /** `is_running`. */
    predicate IsRunning() {
      slot.Some? && Live(slot.value)
    }

    function Finished(f: FutureId): State
      requires f < |futures|
    {
      this.(futures := futures[f := futures[f].(done := true)])
    }

    /** `_on_done`: clear the slot only if it still holds this future. */
    function OnDone(f: FutureId): State
      requires f < |futures|
    {
      var seen := this.(futures := futures[f := futures[f].(called := true)]);
      if slot == Some(f) then seen.(slot := None, datasource := None) else seen
    }

    /** A new future for `ds` is in the slot, with its callback registered. */
    function Submitted(ds: string): State {
      this.(slot := Some(|futures|), datasource := Some(ds), accepted := Some(ds),
            futures := futures + [Future(ds, false, true, false)])
    }
  }

  datatype Action =
    | Request(t: ThreadId, datasource: string)
    | Enter(t: ThreadId)
    | Coalesce(t: ThreadId)
    | Vacate(t: ThreadId)
    | Submit(t: ThreadId)
    | LoopStopped(t: ThreadId)
    | Install(t: ThreadId)
    | Hook(t: ThreadId)
    | Leave(t: ThreadId)
    | CancelCall(t: ThreadId)
    | CancelFuture(t: ThreadId)
    | Shutdown(t: ThreadId)
    | Finish(f: FutureId)
    | Callback(f: FutureId)

  predicate HoldsLock(pc: Pc) {
    pc.Entered? || pc.Vacated? || pc.Submitted? || pc.Installed? || pc.Hooked?
  }

  /** The request is for what the slot is already syncing. */
  predicate Duplicate(s: State, datasource: string) {
    s.IsRunning() && s.datasource == Some(datasource)
  }

  predicate Enabled(s: State, a: Action) {
    match a
    case Request(t, datasource) => s.Pc(t).Idle? && !s.shutdown && datasource != ""
    case Enter(t) => s.Pc(t).Requested? && s.lock.None?
    case Coalesce(t) => s.Pc(t).Entered? && Duplicate(s, s.Pc(t).datasource)
    case Vacate(t) => s.Pc(t).Entered? && !Duplicate(s, s.Pc(t).datasource)
    case Submit(t) => s.Pc(t).Vacated?
    case LoopStopped(t) => s.Pc(t).Vacated?
    case Install(t) => s.Pc(t).Submitted?
    case Hook(t) => s.Pc(t).Installed? && s.Pc(t).future < |s.futures|
    case Leave(t) => s.Pc(t).Hooked?
    case CancelCall(t) => (s.Pc(t).Idle? || s.Pc(t).Stopping?) && s.lock.None?
    case CancelFuture(t) => s.Pc(t).Cancelling?
    case Shutdown(t) => s.Pc(t).Idle?
    case Finish(f) => s.Live(f)
    case Callback(f) => f < |s.futures| && s.futures[f].done && s.futures[f].hooked && !s.futures[f].called
                        && s.lock.None?
  }

  /** Cancelling the previous future marks it done and runs its callback in this thread,
      which may re-enter the lock it holds. */
  function VacateStep(s: State, t: ThreadId, datasource: string): State {
    if !s.IsRunning() then s.At(t, Vacated(datasource))
    else
      var f := s.slot.value;
      var cancelled := s.Finished(f);
      (if s.futures[f].hooked && !s.futures[f].called then cancelled.OnDone(f) else cancelled)
      .At(t, Vacated(datasource))
  }

  /** `add_done_callback` runs the callback at once on a future that is already done. */
  function HookStep(s: State, t: ThreadId, f: FutureId): State
    requires f < |s.futures|
  {
    var added := s.(futures := s.futures[f := s.futures[f].(hooked := true)]);
    (if s.futures[f].done then added.OnDone(f) else added).At(t, Hooked)
  }

  function CancelStep(s: State, t: ThreadId, target: Option<FutureId>): State {
    (if target.Some? && s.Live(target.value) then s.Finished(target.value) else s).At(t, Idle)
  }

  function Do(s: State, a: Action): State
    requires Enabled(s, a)
  {
    match a
    case Request(t, datasource) => s.At(t, Requested(datasource))
    case Enter(t) => s.At(t, Entered(s.Pc(t).datasource)).(lock := Some(t))
    case Coalesce(t) => s.At(t, Idle).(lock := None, accepted := Some(s.Pc(t).datasource))
    case Vacate(t) => VacateStep(s, t, s.Pc(t).datasource)
    case Submit(t) =>
      s.(futures := s.futures + [Future(s.Pc(t).datasource, false, false, false)])
      .At(t, Submitted(s.Pc(t).datasource, |s.futures|))
    case LoopStopped(t) => s.At(t, Idle).(lock := None)
    case Install(t) =>
      var pc := s.Pc(t);
      s.(slot := Some(pc.future), datasource := Some(pc.datasource), accepted := Some(pc.datasource))
      .At(t, Installed(pc.future))
    case Hook(t) => HookStep(s, t, s.Pc(t).future)
    case Leave(t) => s.At(t, Idle).(lock := None)
    case CancelCall(t) => s.At(t, Cancelling(s.slot))
    case CancelFuture(t) => CancelStep(s, t, s.Pc(t).target)
    case Shutdown(t) => s.At(t, Stopping).(shutdown := true)
    case Finish(f) => s.Finished(f)
    case Callback(f) => s.OnDone(f)
  }

  ghost predicate Feasible(s: State, run: seq<Action>)
    decreases |run|
  {
    run == [] || (Enabled(s, run[0]) && Feasible(Do(s, run[0]), run[1..]))
  }

  ghost function After(s: State, run: seq<Action>): State
    requires Feasible(s, run)
    decreases |run|
  {
    if run == [] then s else After(Do(s, run[0]), run[1..])
  }

  lemma Prepend(s: State, a: Action, run: seq<Action>)
    requires Enabled(s, a) && Feasible(Do(s, a), run)
    ensures Feasible(s, [a] + run) && After(s, [a] + run) == After(Do(s, a), run)
  {
    assert ([a] + run)[1..] == run;
  }

  ghost predicate Initial(s: State) {
    && s.slot.None? && s.datasource.None? && !s.shutdown && s.lock.None? && s.pcs == map[] && s.futures == []
    && s.accepted.None?
  }

  // ---------------------------------------------------------------- the invariant

  function Holder(s: State): Pc {
    if s.lock.Some? then s.Pc(s.lock.value) else Idle
  }

  ghost predicate LockOwner(s: State) {
    forall t: ThreadId :: HoldsLock(s.Pc(t)) <==> s.lock == Some(t)
  }

  /** A live future is in the slot, or is the one just created by the thread in the lock. */
  ghost predicate OneLive(s: State) {
    forall f: FutureId | s.Live(f) ::
      if Holder(s).Submitted? then f == Holder(s).future else !Holder(s).Vacated? && s.slot == Some(f)
  }

  ghost predicate SlotMatches(s: State) {
    && (s.slot.Some? ==> s.slot.value < |s.futures| && s.datasource == Some(s.futures[s.slot.value].datasource))
    && (s.IsRunning() ==> s.accepted == s.datasource)
    && (Holder(s).Submitted? ==>
          && Holder(s).future < |s.futures| && s.slot != Some(Holder(s).future)
          && s.futures[Holder(s).future] == Future(Holder(s).datasource, s.futures[Holder(s).future].done, false, false))
  }

  /** A future in the slot has not had its callback run, and it will: the callback is
      registered or the thread in the lock is about to register it. */
  ghost predicate SlotWillClear(s: State) {
    && (s.slot.Some? && s.slot.value < |s.futures| ==>
          && !s.futures[s.slot.value].called
          && (s.futures[s.slot.value].hooked || Holder(s) == Installed(s.slot.value)))
    && (Holder(s).Installed? ==>
          && Holder(s).future < |s.futures|
          && s.slot == Some(Holder(s).future) && !s.futures[Holder(s).future].hooked)
  }

  ghost predicate Inv(s: State) {
    LockOwner(s) && OneLive(s) && SlotMatches(s) && SlotWillClear(s)
  }

  function Actor(a: Action): Option<ThreadId> {
    match a
    case Finish(_) => None
    case Callback(_) => None
    case _ => Some(a.t)
  }

  predicate Locked(a: Action) {
    a.Coalesce? || a.Vacate? || a.Submit? || a.LoopStopped? || a.Install? || a.Hook? || a.Leave?
  }

  lemma OthersStay(s: State, a: Action, t: ThreadId)
    requires Enabled(s, a) && Actor(a) != Some(t)
    ensures Do(s, a).Pc(t) == s.Pc(t)
  {
  }

  lemma InsideKeepsLock(s: State, a: Action)
    requires Enabled(s, a) && Locked(a) && s.lock == Some(a.t)
    ensures Do(s, a).lock == if HoldsLock(Do(s, a).Pc(a.t)) then Some(a.t) else None
  {
  }

  lemma OutsideKeepsLock(s: State, a: Action)
    requires Enabled(s, a) && !Locked(a)
    ensures Actor(a).Some? ==> (HoldsLock(Do(s, a).Pc(a.t)) <==> a.Enter?)
    ensures Do(s, a).lock == if a.Enter? then Some(a.t) else s.lock
  {
  }

  lemma StepKeepsLock(s: State, a: Action)
    requires LockOwner(s) && Enabled(s, a)
    ensures LockOwner(Do(s, a))
  {
    forall t: ThreadId ensures HoldsLock(Do(s, a).Pc(t)) <==> Do(s, a).lock == Some(t) {
      assert HoldsLock(s.Pc(t)) <==> s.lock == Some(t);
      if Actor(a).Some? {
        assert HoldsLock(s.Pc(a.t)) <==> s.lock == Some(a.t);
      }
      if Locked(a) {
        InsideKeepsLock(s, a);
      } else {
        OutsideKeepsLock(s, a);
      }
      if Actor(a) != Some(t) {
        OthersStay(s, a, t);
      }
    }
  }

  lemma HolderSteps(s: State, a: Action)
    requires LockOwner(s) && Enabled(s, a)
    ensures Locked(a) ==> s.lock == Some(a.t) && Holder(s) == s.Pc(a.t)
    ensures a.Enter? ==> s.lock.None? && Holder(Do(s, a)).Entered?
    ensures !Locked(a) && !a.Enter? ==> Holder(Do(s, a)) == Holder(s)
  {
    if Actor(a).Some? {
      assert HoldsLock(s.Pc(a.t)) <==> s.lock == Some(a.t);
    }
  }

  lemma StepKeepsOneLive(s: State, a: Action)
    requires LockOwner(s) && OneLive(s) && SlotMatches(s) && SlotWillClear(s) && Enabled(s, a)
    ensures OneLive(Do(s, a))
  {
    HolderSteps(s, a);
    var n := Do(s, a);
    forall f: FutureId | n.Live(f)
      ensures if Holder(n).Submitted? then f == Holder(n).future else !Holder(n).Vacated? && n.slot == Some(f)
    {
      assert s.Live(f) || (a.Submit? && f == |s.futures|);
    }
  }

  lemma StepKeepsMatch(s: State, a: Action)
    requires LockOwner(s) && OneLive(s) && SlotMatches(s) && SlotWillClear(s) && Enabled(s, a)
    ensures SlotMatches(Do(s, a))
  {
    HolderSteps(s, a);
  }

  lemma StepKeepsWillClear(s: State, a: Action)
    requires LockOwner(s) && OneLive(s) && SlotMatches(s) && SlotWillClear(s) && Enabled(s, a)
    ensures SlotWillClear(Do(s, a))
  {
    HolderSteps(s, a);
  }

  lemma StepKeepsInv(s: State, a: Action)
    requires Inv(s) && Enabled(s, a)
    ensures Inv(Do(s, a))
  {
    StepKeepsLock(s, a);
    StepKeepsOneLive(s, a);
    StepKeepsMatch(s, a);
    StepKeepsWillClear(s, a);
  }

  lemma {:induction false} RunKeepsInv(s: State, run: seq<Action>)
    requires Inv(s) && Feasible(s, run)
    ensures Inv(After(s, run))
    decreases |run|
  {
    if run != [] {
      StepKeepsInv(s, run[0]);
      RunKeepsInv(Do(s, run[0]), run[1..]);
    }
  }

  // ---------------------------------------------------------------- over every run

  /** In every reachable state at most one future is live, and whenever the lock is free it is
      the one in the slot, so `is_running` tells exactly whether a live future exists. */
  lemma AtMostOneLiveFuture(s0: State, run: seq<Action>)
    requires Initial(s0) && Feasible(s0, run)
    ensures forall f, g | After(s0, run).Live(f) && After(s0, run).Live(g) :: f == g
    ensures After(s0, run).lock.None? ==>
              (After(s0, run).IsRunning() <==> exists f :: After(s0, run).Live(f))
  {
    RunKeepsInv(s0, run);
    var s := After(s0, run);
    assert s.lock.None? ==> Holder(s).Idle?;
    if s.IsRunning() {
      assert s.Live(s.slot.value);
    }
  }

  /** What is being synced is the datasource of the last accepted request. */
  lemma LastAcceptedRequestIsSynced(s0: State, run: seq<Action>)
    requires Initial(s0) && Feasible(s0, run)
    ensures var s := After(s0, run);
            s.IsRunning() ==> s.datasource == s.accepted == Some(s.futures[s.slot.value].datasource)
  {
    RunKeepsInv(s0, run);
  }

  /** No step takes a future that stays live out of the slot: late callbacks of replaced
      futures, cancellations and failed submissions included. */
  lemma LiveFutureKeepsItsSlot(s0: State, run: seq<Action>, a: Action)
    requires Initial(s0) && Feasible(s0, run) && Enabled(After(s0, run), a)
    requires After(s0, run).IsRunning() && Do(After(s0, run), a).Live(After(s0, run).slot.value)
    ensures Do(After(s0, run), a).slot == After(s0, run).slot
    ensures Do(After(s0, run), a).datasource == After(s0, run).datasource
  {
    RunKeepsInv(s0, run);
    HolderSteps(After(s0, run), a);
  }

  /** A request that got the lock is coalesced exactly if some live future syncs its datasource,
      and goes on to replace what there is exactly if none does. */
  lemma CoalescesIff(s0: State, run: seq<Action>, t: ThreadId, datasource: string)
    requires Initial(s0) && Feasible(s0, run) && After(s0, run).Pc(t) == Entered(datasource)
    ensures var s := After(s0, run);
            && (Enabled(s, Coalesce(t)) <==> exists f: FutureId :: s.Live(f) && s.futures[f].datasource == datasource)
            && (Enabled(s, Vacate(t)) <==> !Enabled(s, Coalesce(t)))
  {
    RunKeepsInv(s0, run);
    var s := After(s0, run);
    assert HoldsLock(s.Pc(t)) <==> s.lock == Some(t);
    assert Holder(s) == Entered(datasource);
    LiveIsInTheSlot(s);
  }

  /** With nobody past the entry of `schedule`, what is live is in the slot. */
  lemma LiveIsInTheSlot(s: State)
    requires Inv(s) && (s.lock.None? || Holder(s).Entered?)
    ensures forall f: FutureId :: s.Live(f) <==> s.IsRunning() && s.slot == Some(f)
    ensures s.IsRunning() ==> s.datasource == Some(s.futures[s.slot.value].datasource)
  {
    assert Holder(s).Idle? || Holder(s).Entered?;
    forall f: FutureId ensures s.Live(f) <==> s.IsRunning() && s.slot == Some(f) {
    }
  }

  /** The datasource of the `schedule` call a thread is in, as long as it may end futures. */
  function Scheduling(pc: Pc): Option<string> {
    match pc
    case Requested(datasource) => Some(datasource)
    case Entered(datasource) => Some(datasource)
    case Vacated(datasource) => Some(datasource)
    case Submitted(datasource, _) => Some(datasource)
    case _ => None
  }

  /** No step of a `schedule` call for a datasource ends a live future for that datasource, and
      the step by which it vacates the slot ends every other live one. */
  lemma ScheduleEndsOnlyOthers(s0: State, run: seq<Action>, a: Action, f: FutureId)
    requires Initial(s0) && Feasible(s0, run) && Enabled(After(s0, run), a) && Actor(a).Some?
    requires var s := After(s0, run); s.Live(f) && Scheduling(s.Pc(a.t)).Some?
    ensures var s := After(s0, run);
            && (s.futures[f].datasource == Scheduling(s.Pc(a.t)).value ==> Do(s, a).Live(f))
            && (!a.Vacate? ==> Do(s, a).Live(f))
            && (a.Vacate? ==> s.futures[f].datasource != Scheduling(s.Pc(a.t)).value && !Do(s, a).Live(f))
  {
    RunKeepsInv(s0, run);
    var s := After(s0, run);
    HolderSteps(s, a);
    if a.Vacate? {
      CoalescesIff(s0, run, a.t, s.Pc(a.t).datasource);
    }
  }

  /** A future that finished before its callback was added leaves the slot when it is added; any
      other stays in it. */
  lemma LateHookClears(s0: State, run: seq<Action>, t: ThreadId)
    requires Initial(s0) && Feasible(s0, run) && Enabled(After(s0, run), Hook(t))
    ensures var s := After(s0, run);
            var n, f := Do(s, Hook(t)), s.Pc(t).future;
            && s.slot == Some(f) && n.futures[f].hooked && (n.futures[f].called <==> s.futures[f].done)
            && (if s.futures[f].done then n.slot.None? && n.datasource.None? else n.slot == s.slot && n.datasource == s.datasource)
  {
    RunKeepsInv(s0, run);
    HolderSteps(After(s0, run), Hook(t));
  }

  /** A finished sync does not linger: once the lock is free and every registered callback of
      a done future has run, an idle scheduler has an empty slot. */
  lemma QuietSchedulerHasEmptySlot(s0: State, run: seq<Action>)
    requires Initial(s0) && Feasible(s0, run)
    requires var s := After(s0, run);
             && s.lock.None? && !s.IsRunning()
             && forall f | 0 <= f < |s.futures| :: s.futures[f].done && s.futures[f].hooked ==> s.futures[f].called
    ensures After(s0, run).slot.None?
  {
    RunKeepsInv(s0, run);
  }

  // ---------------------------------------------------------------- shutdown

  /** A request that already passed the flag check and can still submit a coroutine. */
  predicate CanSubmit(pc: Pc) {
    pc.Requested? || pc.Entered? || pc.Vacated?
  }

  ghost predicate Quiescent(s: State) {
    s.shutdown && (forall t: ThreadId :: !CanSubmit(s.Pc(t))) && (forall f: FutureId :: !s.Live(f))
  }

  lemma StepKeepsQuiescent(s: State, a: Action)
    requires Quiescent(s) && Enabled(s, a)
    ensures Quiescent(Do(s, a))
  {
    var n := Do(s, a);
    if Actor(a).Some? {
      assert !CanSubmit(s.Pc(a.t));
    }
    forall t: ThreadId ensures !CanSubmit(n.Pc(t)) {
      assert !CanSubmit(s.Pc(t));
    }
    forall f: FutureId ensures !n.Live(f) {
      assert !s.Live(f);
    }
  }

  lemma {:induction false} QuiescentForever(s: State, run: seq<Action>)
    requires Quiescent(s) && Feasible(s, run)
    ensures Quiescent(After(s, run))
    decreases |run|
  {
    if run != [] {
      StepKeepsQuiescent(s, run[0]);
      QuiescentForever(Do(s, run[0]), run[1..]);
    }
  }

  /** Steps until the lock passes to a request that can submit and it submits. */
  function Rank(pc: Pc): nat {
    match pc
    case Vacated(_) => 1
    case Entered(_) => 2
    case Hooked => 4
    case Installed(_) => 5
    case Submitted(_, _) => 6
    case _ => 3
  }

  /** The next step of the thread in the lock, or entering the free lock. */
  function Progress(s: State, t: ThreadId): Action {
    match Holder(s)
    case Entered(_) => Vacate(s.lock.value)
    case Vacated(_) => Submit(s.lock.value)
    case Submitted(_, _) => Install(s.lock.value)
    case Installed(_) => Hook(s.lock.value)
    case Hooked => Leave(s.lock.value)
    case _ => Enter(t)
  }

  lemma {:induction false} RequestCanStillSubmit(s: State, t: ThreadId) returns (run: seq<Action>, f: FutureId)
    requires Inv(s) && CanSubmit(s.Pc(t))
    ensures Feasible(s, run) && After(s, run).Live(f)
    decreases Rank(Holder(s))
  {
    if s.IsRunning() {
      return [], s.slot.value;
    }
    assert HoldsLock(s.Pc(t)) <==> s.lock == Some(t);
    if s.lock.Some? {
      assert HoldsLock(Holder(s));
    }
    var a := Progress(s, t);
    var n := Do(s, a);
    StepKeepsInv(s, a);
    var rest: seq<Action>;
    if Holder(s).Vacated? {
      rest, f := [], |s.futures|;
    } else {
      rest, f := RequestCanStillSubmit(n, if Holder(s).Entered? then s.lock.value else t);
    }
    run := [a] + rest;
    assert run[1..] == rest;
  }

  /** Some schedule from here leads to a state with a live future. */
  ghost predicate MaySync(s: State) {
    exists run, f :: Feasible(s, run) && After(s, run).Live(f)
  }

  ghost predicate SomeLive(s: State) {
    exists f: FutureId :: s.Live(f)
  }

  ghost predicate RequestInFlight(s: State) {
    exists t: ThreadId :: CanSubmit(s.Pc(t))
  }

  lemma MaySyncBy(s: State, run: seq<Action>, f: FutureId)
    requires Feasible(s, run) && After(s, run).Live(f)
    ensures MaySync(s)
  {
  }

  /** Exactly when a shut-down scheduler can still have work running: a live future exists, or
      a `schedule` call read the flag before it was set and has not submitted yet. The flag is
      read outside the lock, so such a call is not stopped. */
  lemma ShutdownIsFinalIffNoRequestSlippedThrough(s0: State, before: seq<Action>)
    requires Initial(s0) && Feasible(s0, before) && After(s0, before).shutdown
    ensures MaySync(After(s0, before)) <==> SomeLive(After(s0, before)) || RequestInFlight(After(s0, before))
  {
    RunKeepsInv(s0, before);
    var s := After(s0, before);
    if SomeLive(s) {
      var f: FutureId :| s.Live(f);
      MaySyncBy(s, [], f);
    } else if RequestInFlight(s) {
      var t: ThreadId :| CanSubmit(s.Pc(t));
      var run, f := RequestCanStillSubmit(s, t);
      MaySyncBy(s, run, f);
    } else {
      forall run, f | Feasible(s, run) ensures !After(s, run).Live(f) {
        QuiescentForever(s, run);
      }
    }
  }

  /** The slip happens: `shutdown` returns, its cancel included, and a sync still starts. */
  lemma ShutdownCanLeakASync(s0: State, datasource: string)
    requires Initial(s0) && datasource != ""
    ensures var before := [Request(0, datasource), Shutdown(1), CancelCall(1), CancelFuture(1)];
            && Feasible(s0, before) && After(s0, before).Pc(1).Idle? && MaySync(After(s0, before))
  {
    var s1 := Do(s0, Request(0, datasource));
    var s2 := Do(s1, Shutdown(1));
    var s3 := Do(s2, CancelCall(1));
    Prepend(s3, CancelFuture(1), []);
    Prepend(s2, CancelCall(1), [CancelFuture(1)]);
    Prepend(s1, Shutdown(1), [CancelCall(1)] + [CancelFuture(1)]);
    Prepend(s0, Request(0, datasource), [Shutdown(1)] + ([CancelCall(1)] + [CancelFuture(1)]));
    var before := [Request(0, datasource), Shutdown(1), CancelCall(1), CancelFuture(1)];
    assert before == [Request(0, datasource)] + ([Shutdown(1)] + ([CancelCall(1)] + [CancelFuture(1)]));
    assert CanSubmit(After(s0, before).Pc(0));
    ShutdownIsFinalIffNoRequestSlippedThrough(s0, before);
  }

  // ---------------------------------------------------------------- undisturbed calls

  /** The state after one `schedule` call with no other thread in between. */
  function Scheduled(s: State, datasource: string, loopRunning: bool): State {
    if s.shutdown || datasource == "" then s
    else if Duplicate(s, datasource) then s.(accepted := Some(datasource))
    else
      if loopRunning then Cancelled(s).Submitted(datasource) else Cancelled(s)
  }

  /** The state after `cancel` with no other thread in between. */
  function Cancelled(s: State): State {
    if s.IsRunning() then s.Finished(s.slot.value).OnDone(s.slot.value) else s
  }

  lemma FlagKeepsInv(s: State)
    requires Inv(s)
    ensures Inv(s.(shutdown := true))
  {
    var n := s.(shutdown := true);
    assert Holder(n) == Holder(s);
    assert forall f: FutureId :: n.Live(f) <==> s.Live(f);
    assert forall t: ThreadId :: n.Pc(t) == s.Pc(t);
  }

  lemma OnDoneKeepsInv(s: State, f: FutureId)
    requires Inv(s) && s.lock.None? && f < |s.futures| && s.futures[f].done
    ensures Inv(s.OnDone(f))
  {
    var n := s.OnDone(f);
    assert Holder(n).Idle?;
    assert forall t: ThreadId :: n.Pc(t) == s.Pc(t);
    assert forall g: FutureId :: n.Live(g) <==> s.Live(g);
  }

  /** A request for the datasource that is being synced leaves that sync alone, as does one that
      comes without a datasource or after a shutdown. */
  lemma SameDatasourceIsLeftAlone(s: State, datasource: string, loopRunning: bool)
    requires Inv(s) && s.lock.None?
    requires s.shutdown || datasource == "" || exists f: FutureId :: s.Live(f) && s.futures[f].datasource == datasource
    ensures Scheduled(s, datasource, loopRunning)
            == if s.shutdown || datasource == "" then s else s.(accepted := Some(datasource))
  {
    LiveIsInTheSlot(s);
  }

  /** Any other request ends what is live, with its callback run, and puts a new future for its
      datasource into the slot, or nothing if the loop is not running. */
  lemma OtherSyncIsReplaced(s: State, datasource: string, loopRunning: bool)
    requires Inv(s) && s.lock.None? && !s.shutdown && datasource != ""
    requires forall f: FutureId | s.Live(f) :: s.futures[f].datasource != datasource
    ensures var n := Scheduled(s, datasource, loopRunning);
            && |n.futures| == |s.futures| + (if loopRunning then 1 else 0)
            && (forall f: FutureId | f < |s.futures| ::
                  n.futures[f] == if s.Live(f) then s.futures[f].(done := true, called := true) else s.futures[f])
            && (forall f: FutureId :: n.Live(f) <==> loopRunning && f == |s.futures|)
            && (loopRunning ==>
                  && n.futures[|s.futures|] == Future(datasource, false, true, false)
                  && n.slot == Some(|s.futures|) && n.datasource == n.accepted == Some(datasource))
            && (!loopRunning ==> n.accepted == s.accepted)
            && (!loopRunning && s.IsRunning() ==> n.slot.None? && n.datasource.None?)
  {
    LiveIsInTheSlot(s);
  }

  lemma CancelledIsIdle(s: State)
    requires Inv(s) && s.lock.None?
    ensures forall f: FutureId :: !Cancelled(s).Live(f)
  {
    forall f: FutureId ensures !Cancelled(s).Live(f) {
      assert s.Live(f) ==> s.slot == Some(f);
      assert Cancelled(s).Live(f) ==> s.Live(f);
    }
  }

  /** The manager as a single caller sees it. Every method takes the free lock, so between
      calls no thread is inside it. */
  class Manager {
    var slot: Option<FutureId>
    var datasource: Option<string>
    var shutdown: bool
    var futures: seq<Future>
    ghost var accepted: Option<string>

    ghost function Snapshot(): State
      reads this
    {
      State(slot, datasource, shutdown, None, map[], futures, accepted)
    }

    ghost predicate Valid()
      reads this
    {
      Inv(Snapshot())
    }

    constructor ()
      ensures Valid() && Initial(Snapshot())
    {
      slot, datasource, shutdown, futures, accepted := None, None, false, [], None;
    }

    method IsRunning() returns (running: bool)
      requires Valid()
      ensures running <==> exists f :: Snapshot().Live(f)
    {
      running := slot.Some? && !futures[slot.value].done;
      if running {
        assert Snapshot().Live(slot.value);
      }
    }

    /** Called on a future that is done. */
    method OnDone(f: FutureId)
      requires Valid() && f < |futures| && futures[f].done
      modifies this
      ensures Valid()
      ensures Snapshot() == old(Snapshot()).OnDone(f)
    {
      OnDoneKeepsInv(Snapshot(), f);
      futures := futures[f := futures[f].(called := true)];
      if slot == Some(f) {
        slot, datasource := None, None;
      }
    }

    /** `Future.cancel` runs the registered callbacks before it returns. */
    method Cancel()
      requires Valid()
      modifies this
      ensures Valid()
      ensures Snapshot() == Cancelled(old(Snapshot()))
      ensures forall f :: !Snapshot().Live(f)
    {
      CancelledIsIdle(Snapshot());
      var f := slot;
      if f.Some? && !futures[f.value].done {
        StepKeepsInv(Snapshot(), Finish(f.value));
        futures := futures[f.value := futures[f.value].(done := true)];
        OnDone(f.value);
      }
    }

    method Shutdown()
      requires Valid()
      modifies this
      ensures Valid()
      ensures Snapshot() == Cancelled(old(Snapshot()).(shutdown := true))
      ensures Quiescent(Snapshot())
    {
      FlagKeepsInv(Snapshot());
      shutdown := true;
      Cancel();
    }

    method Schedule(datasource: string, loopRunning: bool)
      requires Valid()
      modifies this
      ensures Valid()
      ensures Snapshot() == Scheduled(old(Snapshot()), datasource, loopRunning)
    {
      ScheduledKeepsInv(Snapshot(), 0, datasource, loopRunning);
      if shutdown || datasource == "" {
        return;
      }
      if slot.Some? && !futures[slot.value].done && this.datasource == Some(datasource) {
        accepted := Some(datasource);
        return;
      }
      if slot.Some? && !futures[slot.value].done {
        Cancel();
      }
      if !loopRunning {
        return;
      }
      slot, this.datasource := Some(|futures|), Some(datasource);
      futures := futures + [Future(datasource, false, true, false)];
      accepted := Some(datasource);
    }
  }

  /** The steps of one undisturbed `schedule` call reach exactly the state the method computes. */
  lemma UndisturbedSchedule(s: State, t: ThreadId, datasource: string, loopRunning: bool) returns (run: seq<Action>)
    requires Inv(s) && s.lock.None? && s.Pc(t).Idle?
    ensures Feasible(s, run)
    ensures After(s, run).(pcs := s.pcs) == Scheduled(s, datasource, loopRunning)
    ensures After(s, run).pcs == s.pcs || After(s, run).pcs == s.pcs[t := Idle]
  {
    run := [];
    if !s.shutdown && datasource != "" {
      var entered := s.At(t, Entered(datasource)).(lock := Some(t));
      if Duplicate(s, datasource) {
        run := [Coalesce(t)];
        Prepend(entered, Coalesce(t), []);
      } else {
        run := VacateAndSubmit(s, entered, t, datasource, loopRunning);
      }
      EnterFirst(s, t, datasource, run);
      run := [Request(t, datasource)] + ([Enter(t)] + run);
    }
  }

  lemma EnterFirst(s: State, t: ThreadId, datasource: string, run: seq<Action>)
    requires s.lock.None? && s.Pc(t).Idle? && !s.shutdown && datasource != ""
    requires Feasible(s.At(t, Entered(datasource)).(lock := Some(t)), run)
    ensures var whole := [Request(t, datasource)] + ([Enter(t)] + run);
            && Feasible(s, whole)
            && After(s, whole) == After(s.At(t, Entered(datasource)).(lock := Some(t)), run)
  {
    assert Do(Do(s, Request(t, datasource)), Enter(t)) == s.At(t, Entered(datasource)).(lock := Some(t));
    Prepend(Do(s, Request(t, datasource)), Enter(t), run);
    Prepend(s, Request(t, datasource), [Enter(t)] + run);
  }

  lemma ScheduledKeepsInv(s: State, t: ThreadId, datasource: string, loopRunning: bool)
    requires Inv(s) && s.lock.None? && s.Pc(t).Idle?
    ensures Inv(Scheduled(s, datasource, loopRunning))
  {
    var run := UndisturbedSchedule(s, t, datasource, loopRunning);
    RunKeepsInv(s, run);
    var n := After(s, run);
    assert n.lock.None? && forall u: ThreadId :: n.Pc(u) == s.Pc(u);
    SamePcsSameInv(n, s.pcs);
  }

  lemma SamePcsSameInv(s: State, pcs: map<ThreadId, Pc>)
    requires Inv(s) && forall t: ThreadId :: s.Pc(t) == s.(pcs := pcs).Pc(t)
    ensures Inv(s.(pcs := pcs))
  {
    var n := s.(pcs := pcs);
    assert Holder(n) == Holder(s);
    assert forall f: FutureId :: n.Live(f) <==> s.Live(f);
    assert forall t: ThreadId :: HoldsLock(n.Pc(t)) <==> HoldsLock(s.Pc(t));
  }

  lemma VacateAndSubmit(s: State, entered: State, t: ThreadId, datasource: string, loopRunning: bool)
    returns (run: seq<Action>)
    requires s.lock.None? && SlotWillClear(s) && !Duplicate(s, datasource)
    requires entered == s.At(t, Entered(datasource)).(lock := Some(t))
    ensures Feasible(entered, run)
    ensures After(entered, run) ==
            (if loopRunning then Cancelled(s).Submitted(datasource) else Cancelled(s)).At(t, Idle)
  {
    VacateCancels(s, entered, t, datasource);
    if loopRunning {
      run := SubmitAndLeave(Cancelled(s), t, datasource);
    } else {
      run := GiveUp(Cancelled(s), t, datasource);
    }
    Prepend(entered, Vacate(t), run);
    run := [Vacate(t)] + run;
  }

  lemma VacateCancels(s: State, entered: State, t: ThreadId, datasource: string)
    requires s.lock.None? && SlotWillClear(s) && !Duplicate(s, datasource)
    requires entered == s.At(t, Entered(datasource)).(lock := Some(t))
    ensures Enabled(entered, Vacate(t))
    ensures Do(entered, Vacate(t)) == Cancelled(s).At(t, Vacated(datasource)).(lock := Some(t))
  {
  }

  lemma GiveUp(s: State, t: ThreadId, datasource: string) returns (run: seq<Action>)
    requires s.lock.None?
    ensures var vacated := s.At(t, Vacated(datasource)).(lock := Some(t));
            Feasible(vacated, run) && After(vacated, run) == s.At(t, Idle)
  {
    run := [LoopStopped(t)];
    Prepend(s.At(t, Vacated(datasource)).(lock := Some(t)), LoopStopped(t), []);
  }

  lemma SubmitAndLeave(s: State, t: ThreadId, datasource: string) returns (run: seq<Action>)
    requires s.lock.None?
    ensures var vacated := s.At(t, Vacated(datasource)).(lock := Some(t));
            Feasible(vacated, run) && After(vacated, run) == s.Submitted(datasource).At(t, Idle)
  {
    var vacated := s.At(t, Vacated(datasource)).(lock := Some(t));
    var s1 := Do(vacated, Submit(t));
    var s2 := Do(s1, Install(t));
    var s3 := Do(s2, Hook(t));
    assert Do(s3, Leave(t)) == s.Submitted(datasource).At(t, Idle);
    Prepend(s3, Leave(t), []);
    Prepend(s2, Hook(t), [Leave(t)]);
    Prepend(s1, Install(t), [Hook(t)] + [Leave(t)]);
    run := [Install(t)] + ([Hook(t)] + [Leave(t)]);
    Prepend(vacated, Submit(t), run);
    run := [Submit(t)] + run;
  }

  /** The steps of one undisturbed `cancel` and of the callback it sets off leave nothing live, in
      the state the method computes. */
  lemma UndisturbedCancel(s: State, t: ThreadId) returns (run: seq<Action>)
    requires Inv(s) && s.lock.None? && s.Pc(t).Idle?
    ensures Feasible(s, run) && After(s, run) == Cancelled(s).At(t, Idle)
    ensures forall f: FutureId :: !After(s, run).Live(f)
  {
    CancelledIsIdle(s);
    LiveIsInTheSlot(s);
    var s1 := s.At(t, Cancelling(s.slot));
    run := [];
    if s.IsRunning() {
      run := [Callback(s.slot.value)];
      CallbackOfCancelled(s, t);
    } else {
      assert CancelStep(s1, t, s.slot) == Cancelled(s).At(t, Idle);
    }
    Prepend(s1, CancelFuture(t), run);
    Prepend(s, CancelCall(t), [CancelFuture(t)] + run);
    run := [CancelCall(t)] + ([CancelFuture(t)] + run);
    assert forall f: FutureId :: Cancelled(s).At(t, Idle).Live(f) <==> Cancelled(s).Live(f);
  }

  lemma CallbackOfCancelled(s: State, t: ThreadId)
    requires Inv(s) && s.lock.None? && s.Pc(t).Idle? && s.IsRunning()
    ensures var n := Do(s.At(t, Cancelling(s.slot)), CancelFuture(t));
            && Feasible(n, [Callback(s.slot.value)])
            && After(n, [Callback(s.slot.value)]) == Cancelled(s).At(t, Idle)
  {
    var f := s.slot.value;
    var n := Do(s.At(t, Cancelling(s.slot)), CancelFuture(t));
    assert n == s.Finished(f).At(t, Idle);
    assert Do(n, Callback(f)) == Cancelled(s).At(t, Idle);
    assert [Callback(f)][1..] == [];
  }
}
