/** Priorities, quanta and the real-time flag change only in the calls meant to change them, but that
    thread_resched refills the spent quantum of the thread it chooses. */
module KernelSharing {
  import opened Wrappers
  import opened KernelState
  import opened KernelSteps
  import opened KernelInvariant
  import opened KernelJoins
  import opened KernelFrames

  /** The fields that decide how a thread shares the processor. */
  predicate SameShare(c: Tcb, c': Tcb) {
    c'.priority == c.priority && c'.quantum == c.quantum && c'.realTime == c.realTime
  }

  predicate Steady(k: Kernel, k': Kernel) {
    && k.th.Keys <= k'.th.Keys
    && (forall t | t in k.th :: SameShare(k.th[t], k'.th[t]))
  }

  lemma SteadyThread(k: Kernel, k': Kernel, t: Tid, c: Tcb)
    requires t in k.th && k'.th == k.th[t := c] && SameShare(k.th[t], c)
    ensures Steady(k, k')
  {
  }

  lemma SteadyTwice(k: Kernel, k1: Kernel, k2: Kernel)
    requires Steady(k, k1) && Steady(k1, k2)
    ensures Steady(k, k2)
  {
  }

  lemma SteadyObjects(k: Kernel, k1: Kernel, k2: Kernel)
    requires k1.th == k.th && Steady(k1, k2)
    ensures Steady(k, k2)
  {
  }

  lemma ReturnSteady(k: Kernel, status: int)
    requires k.current in k.th
    ensures Steady(k, Return(k, status))
  {
    SteadyThread(k, Return(k, status), k.current, Cur(k).(ret := status));
  }

  lemma WakeOneSteady(k: Kernel, w: QueueId, resched: bool, err: int)
    requires Core(k, {}, true) && !w.RunQ?
    ensures Steady(k, WakeOne(k, w, resched, err))
  {
    if Q(k, w) != [] { WakeOneEffect(k, w, resched, err); }
    hide Core;
    if Q(k, w) != [] { hide WakeOne; }
  }

  lemma WakeAllSteady(k: Kernel, w: QueueId, resched: bool, err: int, b: bool)
    requires Core(k, {}, b) && !w.RunQ? && (resched ==> b)
    ensures Steady(k, WakeAll(k, w, resched, err))
  {
    WakeAllEffect(k, w, resched, err, b);
    hide Core, WakeAll;
  }

  lemma EnqueueSteady(k: Kernel, timeout: Timeout, cont: Cont)
    requires cont != NoCont && k.current in k.th
    ensures Steady(k, Enqueue(k, timeout, cont))
  {
    EnqueueEffect(k, timeout, cont);
    hide Enqueue;
  }

  lemma PreemptSteady(k: Kernel)
    requires k.current in k.th
    ensures Steady(k, PreemptAct(k))
  {
    hide InsertHead, InsertTail;
    SteadyThread(k, PreemptAct(k), k.current, Cur(k).(state := Ready));
  }

  lemma ResumeSteady(k: Kernel, t: Tid)
    requires k.current in k.th && t in k.th
    ensures Steady(k, ResumeAct(k, t))
  {
    var c := k.th[t].(state := Ready);
    var k1 := InsertHead(SetT(k, t, c), t);
    ReturnSteady(k, NO_ERROR);
    hide InsertHead;
    SteadyThread(k, k1, t, c);
    ReturnSteady(k1, NO_ERROR);
    SteadyTwice(k, k1, Return(k1, NO_ERROR));
  }

  lemma UnlinkSteady(k: Kernel, t: Tid)
    requires t in k.th
    ensures Steady(k, Unlink(k, t))
  {
    SteadyThread(k, Unlink(k, t), t, k.th[t].(magic := false));
  }

  lemma JoinSteady(k: Kernel, t: Tid, timeout: Timeout)
    requires k.current in k.th && t in k.th
    ensures Steady(k, JoinAct(k, t, timeout))
  {
    if T(k, t).detached {
      ReturnSteady(k, ERR_THREAD_DETACHED);
    } else if T(k, t).state == Death {
      var c := Cur(k).(out := T(k, t).retcode, ret := NO_ERROR);
      var k1 := SetT(k, k.current, c);
      SteadyThread(k, k1, k.current, c);
      UnlinkSteady(k1, t);
      SteadyTwice(k, k1, Unlink(k1, t));
    } else if timeout == Poll {
      ReturnSteady(k, ERR_TIMED_OUT);
    } else {
      EnqueueSteady(k, timeout, JoinCont(t));
    }
  }

  lemma DetachSteady(k: Kernel, t: Tid)
    requires Core(k, {}, true) && t in k.th
    ensures Steady(k, DetachAct(k, t))
  {
    DetachEffect(k, t);
    hide Core, DetachAct;
  }

  lemma ExitSteady(k: Kernel, code: int)
    requires Core(k, {}, true) && k.current != k.idle
    ensures Steady(k, ExitAct(k, code))
  {
    hide Core, WakeAll, Unlink;
    var t, k1 := k.current, Dying(k, code);
    DyingCore(k, code);
    SteadyThread(k, k1, t, Cur(k).(state := Death, retcode := code));
    if Cur(k).detached {
      UnlinkSteady(k1, t);
      SteadyTwice(k, k1, Unlink(k1, t));
    } else {
      WakeAllSteady(k1, JoinQ(t), false, NO_ERROR, false);
      SteadyTwice(k, k1, WakeAll(k1, JoinQ(t), false, NO_ERROR));
    }
  }

  lemma ExpireSteady(k: Kernel, u: Tid)
    requires Core(k, {}, true) && Enabled(k, Expire(u))
    ensures Steady(k, ExpireAct(k, u))
  {
    ExpireThread(k, u);
    SteadyThread(k, ExpireAct(k, u), u, Woken(k.th[u], ERR_TIMED_OUT));
  }

  lemma MutexSteady(k: Kernel, m: nat, timeout: Timeout)
    requires Core(k, {}, true)
    ensures Steady(k, MutexAcquireAct(k, m, timeout))
  {
    var s := Mx(k, m);
    var k1, k2 := SetMx(k, m, MutexState(Some(k.current), s.count + 1)), SetMx(k, m, s.(count := s.count + 1));
    ReturnSteady(k1, NO_ERROR);
    SteadyObjects(k, k1, Return(k1, NO_ERROR));
    ReturnSteady(k, ERR_TIMED_OUT);
    EnqueueSteady(k2, timeout, AcquireCont(m));
    SteadyObjects(k, k2, Enqueue(k2, timeout, AcquireCont(m)));
    hide Core, Steady, Enqueue;
  }

  lemma ReleaseSteady(k: Kernel, m: nat)
    requires Core(k, {}, true)
    ensures Steady(k, MutexReleaseAct(k, m))
  {
    hide Core, Steady, WakeOne;
    var k1 := SetMx(k, m, MutexState(None, Mx(k, m).count - 1));
    var k2 := Return(k1, NO_ERROR);
    CoreFrame(k, k1, {}, true);
    CurrentHasNoCont(k);
    ReturnCore(k1, NO_ERROR);
    ReturnSteady(k1, NO_ERROR);
    SteadyObjects(k, k1, k2);
    WakeOneSteady(k2, MutexQ(m), true, NO_ERROR);
    SteadyTwice(k, k2, WakeOne(k2, MutexQ(m), true, NO_ERROR));
  }

  lemma SemWaitSteady(k: Kernel, s: nat, timeout: Timeout, timed: bool)
    requires k.current in k.th
    ensures Steady(k, SemTimedWaitAct(k, s, timeout, timed)) && Steady(k, SemTryWaitAct(k, s))
  {
    var k1 := SetSm(k, s, Sm(k, s) - 1);
    ReturnSteady(k1, NO_ERROR);
    SteadyObjects(k, k1, Return(k1, NO_ERROR));
    ReturnSteady(k, ERR_TIMED_OUT);
    ReturnSteady(k, ERR_NOT_READY);
    EnqueueSteady(k1, timeout, SemCont(s, timed));
    SteadyObjects(k, k1, Enqueue(k1, timeout, SemCont(s, timed)));
    hide Steady, Enqueue;
  }

  lemma SemPostSteady(k: Kernel, s: nat, resched: bool)
    requires Core(k, {}, true)
    ensures Steady(k, SemPostAct(k, s, resched))
  {
    hide Core, Steady, WakeOne;
    var n, w := Sm(k, s) + 1, SemQ(s);
    var k1 := SetSm(k, s, n);
    var status := if n <= 0 && Q(k, w) != [] then 1 else 0;
    var k2 := Return(k1, status);
    CoreFrame(k, k1, {}, true);
    CurrentHasNoCont(k);
    ReturnCore(k1, status);
    ReturnSteady(k1, status);
    SteadyObjects(k, k1, k2);
    if n <= 0 {
      WakeOneSteady(k2, w, resched, NO_ERROR);
      SteadyTwice(k, k2, WakeOne(k2, w, resched, NO_ERROR));
    }
  }

  lemma EventWaitSteady(k: Kernel, e: nat, timeout: Timeout)
    requires k.current in k.th
    ensures Steady(k, EventWaitAct(k, e, timeout)) && Steady(k, Act(k, EventUnsignal(e)))
  {
    hide Steady, Enqueue, SetT, Cur;
    var k1 := SetEv(k, e, Ev(k, e).(signaled := false));
    ReturnSteady(k1, NO_ERROR);
    SteadyObjects(k, k1, Return(k1, NO_ERROR));
    ReturnSteady(k, NO_ERROR);
    ReturnSteady(k, ERR_TIMED_OUT);
    EnqueueSteady(k, timeout, EventCont(e));
  }

  lemma EventSignalSteady(k: Kernel, e: nat, resched: bool)
    requires Core(k, {}, true)
    ensures Steady(k, EventSignalAct(k, e, resched))
  {
    hide Core, Steady, WakeOne, WakeAll, Return;
    var w := EventQ(e);
    var k1 := Return(k, NO_ERROR);
    var k2 := SetEv(k1, e, Ev(k, e).(signaled := true));
    CurrentHasNoCont(k);
    ReturnSteady(k, NO_ERROR);
    ReturnCore(k, NO_ERROR);
    assert Steady(k, k2) by { SteadySame(k1, k2); SteadyTwice(k, k1, k2); }
    if !Ev(k, e).signaled {
      if Ev(k, e).auto {
        WakeOneSteady(k1, w, resched, NO_ERROR);
        SteadyTwice(k, k1, WakeOne(k1, w, resched, NO_ERROR));
      } else {
        CoreFrame(k1, k2, {}, true);
        WakeAllSteady(k2, w, resched, NO_ERROR, true);
        SteadyTwice(k, k2, WakeAll(k2, w, resched, NO_ERROR));
      }
    }
  }

  lemma SteadySame(k: Kernel, k': Kernel)
    requires k'.th == k.th
    ensures Steady(k, k')
  {
  }

  /** Calls other than yield, tick and the parameter setters leave every thread's share alone up to
      thread_resched. */
  lemma ActSteady(k: Kernel, op: Op)
    requires Core(k, {}, true) && Enabled(k, op)
    requires !op.Yield? && !op.Tick? && !op.SetPriority? && !op.SetRealTime?
    ensures Steady(k, Act(k, op))
  {
    hide Core, Steady, PreemptAct, CreateAct, ResumeAct, JoinAct, DetachAct, ExitAct, ExpireAct;
    hide MutexAcquireAct, MutexReleaseAct, SemTimedWaitAct, SemTryWaitAct, SemPostAct, EventWaitAct, EventSignalAct;
    CurrentHasNoCont(k);
    match op
    case Preempt => PreemptSteady(k);
    case Create(t, base) => CreateSteady(k, t, base);
    case Resume(t) => ResumeSteady(k, t);
    case Join(t, timeout) => JoinSteady(k, t, timeout);
    case Detach(t) => DetachSteady(k, t);
    case Exit(code) => ExitSteady(k, code);
    case Expire(u) => ExpireSteady(k, u);
    case MutexAcquire(m, timeout) => MutexSteady(k, m, timeout);
    case MutexRelease(m) => ReleaseSteady(k, m);
    case SemWait(s) => SemWaitSteady(k, s, Infinite, false);
    case SemTryWait(s) => SemWaitSteady(k, s, Infinite, false);
    case SemTimedWait(s, timeout) => SemWaitSteady(k, s, timeout, true);
    case SemPost(s, resched) => SemPostSteady(k, s, resched);
    case EventWait(e, timeout) => EventWaitSteady(k, e, timeout);
    case EventUnsignal(e) => EventWaitSteady(k, e, Poll);
    case EventSignal(e, resched) => EventSignalSteady(k, e, resched);
    case MutexInit(_) | SemInit(_, _) | EventInit(_, _, _) => SteadySame(k, Act(k, op));
  }

  lemma CreateSteady(k: Kernel, t: Tid, base: nat)
    requires t !in k.th
    ensures Steady(k, CreateAct(k, t, base))
  {
  }

  /** A whole call but yield, tick and the parameter setters changes no thread's priority or real-time flag,
      and no quantum but a spent one of a thread it dispatches anew, which is refilled. */
  lemma StepSteady(k: Kernel, op: Op, t: Tid)
    requires Inv(k) && Enabled(k, op) && t in k.th
    requires !op.Yield? && !op.Tick? && !op.SetPriority? && !op.SetRealTime?
    ensures var k' := Step(k, op);
      && t in k'.th && k'.th[t].priority == k.th[t].priority && k'.th[t].realTime == k.th[t].realTime
      && k'.th[t].quantum ==
        if t == k'.current && t != k.current && k.th[t].quantum <= 0 then QUANTUM else k.th[t].quantum
  {
    hide Act, Enabled, Reschedules, Inv, Core;
    InvIsCore(k);
    StepKeepsInv(k, op);
    ActSteady(k, op);
    SchedulerKeepsCurrent(k, op);
    if Reschedules(k, op) { DispatchShares(Act(k, op), t); }
  }

  lemma SchedulerKeepsCurrent(k: Kernel, op: Op)
    requires Core(k, {}, true) && Enabled(k, op)
    ensures Act(k, op).current == k.current
  {
    hide Act, Core, Enabled, Target;
    ActAside(k, op);
  }

  lemma DispatchShares(k1: Kernel, t: Tid)
    requires MidInv(k1) && t in k1.th
    ensures var k' := Dispatch(k1);
      && t in k'.th && k'.th[t].priority == k1.th[t].priority && k'.th[t].realTime == k1.th[t].realTime
      && k'.th[t].quantum ==
        if t == k'.current && t != k1.current && k1.th[t].quantum <= 0 then QUANTUM else k1.th[t].quantum
  {
    hide Dispatch, MidInv, NextThread;
    DispatchFields(k1);
  }

  // ----- the quantum of the running thread -----

  /** thread_resched leaves the thread it chooses with a quantum exactly unless it chooses the caller again and
      the caller's is spent. */
  lemma RunsWithQuantum(k1: Kernel)
    requires MidInv(k1)
    ensures var k' := Dispatch(k1);
      k'.current in k'.th && k'.current in k1.th
      && (k'.th[k'.current].quantum > 0 <==> k'.current != k1.current || k1.th[k1.current].quantum > 0)
  {
    hide Dispatch, MidInv, NextThread;
    DispatchedExists(k1);
    DispatchShares(k1, NextThread(k1));
  }

  lemma DispatchedExists(k1: Kernel)
    requires MidInv(k1)
    ensures Dispatch(k1).current == NextThread(k1) && NextThread(k1) in k1.th
  {
    hide Dispatch, MidInv, NextThread;
    DispatchFields(k1);
  }

  /** The boot thread starts without a quantum; with nobody else ready it goes on without one after a yield. */
  lemma YieldsWithoutQuantum()
    ensures var b := Boot(0, 1);
      && Inv(b) && Cur(b).quantum <= 0 && Runs(b, [Yield]) && Reschedules(b, Yield)
      && var k := Run(b, [Yield]); k.current == b.current && Cur(k).quantum <= 0
  {
    var b, k := Boot(0, 1), Step(Boot(0, 1), Yield);
    BootInv(0, 1);
    YieldsToItself(b);
    assert Enabled(b, Yield) && Runs(k, []) && Run(k, []) == k;
    assert [Yield][0] == Yield && [Yield][1..] == [];
    hide Inv, Step, Enabled, Boot;
  }

  lemma YieldsToItself(b: Kernel)
    requires b == Boot(0, 1)
    ensures var k := Step(b, Yield); k.current == 0 && Cur(k).quantum == 0
  {
    var k1 := YieldAct(b);
    assert k1.rq[HIGHEST_PRIORITY] == [0];
    assert Top(k1) == HIGHEST_PRIORITY && NextThread(k1) == 0;
    assert Cur(Resched(k1)) == Dispatched(k1, 0);
  }

  // ----- real-time threads -----

  /** The call is a yield of thread `t`. */
  predicate YieldsItself(k: Kernel, op: Op, t: Tid) {
    op.Yield? && k.current == t
  }

  predicate NeverYields(k: Kernel, ops: seq<Op>, t: Tid)
    decreases |ops|
  {
    ops == [] || (!YieldsItself(k, ops[0], t) && NeverYields(Step(k, ops[0]), ops[1..], t))
  }

  lemma ActSpares(k: Kernel, op: Op, t: Tid)
    requires Core(k, {}, true) && Enabled(k, op) && t in k.th && k.th[t].realTime && !YieldsItself(k, op, t)
    ensures var k' := Act(k, op); t in k'.th && k'.th[t].quantum == k.th[t].quantum && k'.th[t].realTime
  {
    hide Core, Enabled, YieldAct, TickAct, SetPriorityAct;
    CurrentHasNoCont(k);
    match op
    case Yield => YieldThreads(k);
    case Tick => TickThreads(k);
    case SetPriority(p) => SetPriorityThreads(k, p);
    case SetRealTime(_) =>
    case _ =>
      hide Act;
      ActSteady(k, op);
  }

  // what these calls do to the threads

  lemma YieldThreads(k: Kernel)
    ensures YieldAct(k).th == k.th[k.current := Cur(k).(state := Ready, quantum := 0)]
  {
    hide InsertTail;
  }

  lemma PreemptThreads(k: Kernel)
    ensures PreemptAct(k).th == k.th[k.current := Cur(k).(state := Ready)]
  {
    hide InsertHead, InsertTail;
  }

  lemma TickThreads(k: Kernel)
    requires k.current in k.th
    ensures var c := Cur(k).(quantum := Cur(k).quantum - 1);
      TickAct(k).th ==
        if Cur(k).realTime || Cur(k).idleFlag then k.th
        else k.th[k.current := if TickReschedules(k) then c.(state := Ready) else c]
  {
    hide PreemptAct;
    PreemptThreads(SetT(k, k.current, Cur(k).(quantum := Cur(k).quantum - 1)));
  }

  lemma SetPriorityThreads(k: Kernel, p: int)
    ensures SetPriorityAct(k, p).th == k.th[k.current := Cur(k).(priority := ClampPriority(p), state := Ready)]
  {
    hide Requeue, ClampPriority;
  }

  lemma StepSpares(k: Kernel, op: Op, t: Tid)
    requires Inv(k) && Enabled(k, op) && t in k.th && k.th[t].realTime && k.th[t].quantum > 0 && !YieldsItself(k, op, t)
    ensures var k' := Step(k, op); t in k'.th && k'.th[t].quantum == k.th[t].quantum && k'.th[t].realTime
  {
    hide Act, Enabled, Reschedules, Inv, Core;
    InvIsCore(k);
    StepKeepsInv(k, op);
    ActSpares(k, op, t);
    if Reschedules(k, op) { DispatchShares(Act(k, op), t); }
  }

  /** A tick while a thread runs that was made real-time changes nothing at all. */
  lemma TickSparesRealTime(k: Kernel)
    requires Inv(k) && Enabled(k, SetRealTime(k.current)) && Enabled(Step(k, SetRealTime(k.current)), Tick)
    ensures var k1 := Step(k, SetRealTime(k.current)); k1.current == k.current && Step(k1, Tick) == k1
  {
    hide Inv;
  }

  /** Once made real-time, a thread with quantum left keeps its quantum over every run in which it does not yield,
      however many ticks it has. */
  lemma MadeRealTime(k: Kernel, t: Tid, ops: seq<Op>)
    requires Inv(k) && Enabled(k, SetRealTime(t)) && k.th[t].quantum > 0
    requires Runs(Step(k, SetRealTime(t)), ops) && NeverYields(Step(k, SetRealTime(t)), ops, t)
    ensures var k' := Run(Step(k, SetRealTime(t)), ops);
      t in k'.th && k'.th[t].quantum == k.th[t].quantum && k'.th[t].realTime
  {
    hide Inv, Step, Runs, Run, NeverYields;
    StepKeepsInv(k, SetRealTime(t));
    SetsRealTime(k, t);
    RunSparesRealTime(Step(k, SetRealTime(t)), ops, t);
  }

  lemma SetsRealTime(k: Kernel, t: Tid)
    requires Inv(k) && t in k.th
    ensures var k1 := Step(k, SetRealTime(t)); t in k1.th && k1.th[t].realTime && k1.th[t].quantum == k.th[t].quantum
  {
    hide Inv, Dispatch;
  }

  /** Over every run, however many ticks it has, a real-time thread with quantum left that does not yield keeps
      its quantum. */
  lemma {:induction false} RunSparesRealTime(k: Kernel, ops: seq<Op>, t: Tid)
    requires Inv(k) && Runs(k, ops) && NeverYields(k, ops, t)
    requires t in k.th && k.th[t].realTime && k.th[t].quantum > 0
    ensures var k' := Run(k, ops); t in k'.th && k'.th[t].quantum == k.th[t].quantum && k'.th[t].realTime
    decreases |ops|
  {
    hide Inv, Enabled, Step, YieldsItself;
    if ops != [] {
      StepKeepsInv(k, ops[0]);
      StepSpares(k, ops[0], t);
      RunSparesRealTime(Step(k, ops[0]), ops[1..], t);
    }
  }
}
