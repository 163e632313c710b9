/** What calls that do not wait tell their callers, whether the caller goes on, and what detaching and exiting mean
    for joins made later. */
module KernelStatuses {
  import opened Wrappers
  import opened KernelState
  import opened KernelSteps
  import opened KernelInvariant
  import opened KernelJoins
  import opened KernelFrames
  import opened KernelSharing
  import opened KernelFairness
  import opened KernelOutcomes
  import opened KernelExit
  import S = KernelSemaphore

  // ----- statuses -----

  /** The status of a thread that is not inside a wait survives thread_resched. */
  lemma DispatchKeepsStatus(k1: Kernel, t: Tid)
    requires MidInv(k1) && t in k1.th && k1.th[t].cont == NoCont
    ensures t in Dispatch(k1).th && Dispatch(k1).th[t].ret == k1.th[t].ret
  {
    hide Dispatch, MidInv, NextThread, Continued, Dispatched;
    DispatchThreads(k1);
    BlockRetOf(k1);
  }

  /** Calls that cannot fail: making a thread real-time, resuming one, detaching one that has not exited, releasing
      a mutex, signaling an event and clearing it. */
  predicate CannotFail(k: Kernel, op: Op) {
    || op.SetRealTime? || op.Resume? || op.MutexRelease? || op.EventSignal? || op.EventUnsignal?
    || (op.Detach? && T(k, op.thread).state != Death)
  }

  /** Up to thread_resched. */
  predicate Told(k1: Kernel, t: Tid, status: int) {
    t in k1.th && k1.th[t].cont == NoCont && k1.th[t].ret == status
  }

  /** They return NO_ERROR, whether or not another thread runs first. */
  lemma NoErrorReturned(k: Kernel, op: Op)
    requires Inv(k) && Enabled(k, op) && CannotFail(k, op)
    ensures k.current in Step(k, op).th && T(Step(k, op), k.current).ret == NO_ERROR
  {
    hide Inv, Core, Enabled, Act, Reschedules, Dispatch, MidInv;
    InvIsCore(k);
    StepKeepsInv(k, op);
    ToldNoError(k, op);
    if Reschedules(k, op) { DispatchKeepsStatus(Act(k, op), k.current); }
  }

  lemma ToldNoError(k: Kernel, op: Op)
    requires Core(k, {}, true) && Enabled(k, op) && CannotFail(k, op)
    ensures Told(Act(k, op), k.current, NO_ERROR)
  {
    hide Core, MutexReleaseAct, EventSignalAct, DetachAct, ResumeAct, Told, Return, SetT, SetEv;
    CurrentHasNoCont(k);
    match op
    case SetRealTime(t) => ToldByFlag(k, t);
    case Resume(t) => ToldByResume(k, t);
    case MutexRelease(m) => ToldByRelease(k, m);
    case EventSignal(e, resched) => ToldBySignal(k, e, resched);
    case EventUnsignal(e) => ToldByClear(k, e);
    case Detach(t) => ToldByDetach(k, t);
  }

  lemma ToldByFlag(k: Kernel, t: Tid)
    requires k.current in k.th && t in k.th && k.th[k.current].cont == NoCont
    ensures Told(Return(SetT(k, t, T(k, t).(realTime := true)), NO_ERROR), k.current, NO_ERROR)
  {
  }

  lemma ToldByClear(k: Kernel, e: nat)
    requires k.current in k.th && k.th[k.current].cont == NoCont
    ensures Told(Return(SetEv(k, e, Ev(k, e).(signaled := false)), NO_ERROR), k.current, NO_ERROR)
  {
  }

  lemma ToldByResume(k: Kernel, t: Tid)
    requires k.current in k.th && t in k.th && k.th[k.current].cont == NoCont
    ensures Told(ResumeAct(k, t), k.current, NO_ERROR)
  {
    hide InsertHead;
  }

  lemma ToldByWakeOne(k: Kernel, w: QueueId, resched: bool, status: int)
    requires Core(k, {}, true) && !w.RunQ? && Told(k, k.current, status)
    ensures Told(WakeOne(k, w, resched, NO_ERROR), k.current, status)
  {
    hide Core, WakeOne;
    if Q(k, w) == [] { WakesNobody(k, w, resched, NO_ERROR); } else { WakeOneEffect(k, w, resched, NO_ERROR); }
  }

  lemma ToldByRelease(k: Kernel, m: nat)
    requires Core(k, {}, true)
    ensures Told(MutexReleaseAct(k, m), k.current, NO_ERROR)
  {
    hide Core, WakeOne;
    var k0 := SetMx(k, m, MutexState(None, Mx(k, m).count - 1));
    CurrentHasNoCont(k);
    CoreFrame(k, k0, {}, true);
    ReturnCore(k0, NO_ERROR);
    ToldByWakeOne(Return(k0, NO_ERROR), MutexQ(m), true, NO_ERROR);
  }

  lemma ToldBySignal(k: Kernel, e: nat, resched: bool)
    requires Core(k, {}, true)
    ensures Told(EventSignalAct(k, e, resched), k.current, NO_ERROR)
  {
    hide Core, WakeOne, WakeAll;
    var k1, w := Return(k, NO_ERROR), EventQ(e);
    var k2 := SetEv(k1, e, Ev(k, e).(signaled := true));
    CurrentHasNoCont(k);
    ReturnCore(k, NO_ERROR);
    CoreFrame(k1, k2, {}, true);
    ToldByWakeOne(k1, w, resched, NO_ERROR);
    CallerNotQueued(k2, w);
    WakeAllEffect(k2, w, resched, NO_ERROR, true);
  }

  lemma CallerNotQueued(k: Kernel, w: QueueId)
    requires Core(k, {}, true)
    ensures k.current !in Q(k, w)
  {
    CurrentHasNoCont(k);
  }

  lemma ToldByDetach(k: Kernel, t: Tid)
    requires Core(k, {}, true) && t in k.th && k.th[t].state != Death
    ensures Told(DetachAct(k, t), k.current, NO_ERROR)
  {
    hide Core, DetachAct;
    CurrentHasNoCont(k);
    CallerNotQueued(k, JoinQ(t));
    DetachEffect(k, t);
  }

  /** sem_post returns the number of threads it took off the semaphore's queue. */
  lemma PostTellsWoken(k: Kernel, s: nat, resched: bool)
    requires Inv(k) && Enabled(k, SemPost(s, resched))
    ensures var k' := Step(k, SemPost(s, resched));
      && k.current in k'.th
      && T(k', k.current).ret == |Q(k, SemQ(s))| - |Q(k', SemQ(s))|
  {
    hide Inv, Core, Enabled, Act, Reschedules, Dispatch, MidInv, Q;
    var op, w := SemPost(s, resched), SemQ(s);
    InvIsCore(k);
    StepKeepsInv(k, op);
    ToldByPost(k, s, resched);
    if Reschedules(k, op) {
      DispatchKeepsStatus(Act(k, op), k.current);
      DispatchAside(Act(k, op), w);
    }
  }

  lemma ToldByPost(k: Kernel, s: nat, resched: bool)
    requires Core(k, {}, true)
    ensures var k1 := Act(k, SemPost(s, resched));
      Told(k1, k.current, |Q(k, SemQ(s))| - |Q(k1, SemQ(s))|)
  {
    hide Core, WakeOne;
    CurrentHasNoCont(k);
    if Sm(k, s) < 0 && Q(k, SemQ(s)) != [] {
      hide SemPostAct;
      S.PostEffect(k, s, resched, Q(k, SemQ(s))[0], SemPostAct(k, s, resched));
    } else {
      WakesNobodyAtPost(k, s, resched);
    }
  }

  lemma WakesNobodyAtPost(k: Kernel, s: nat, resched: bool)
    requires k.current in k.th && k.th[k.current].cont == NoCont && (Sm(k, s) >= 0 || Q(k, SemQ(s)) == [])
    ensures var k1 := SemPostAct(k, s, resched);
      Told(k1, k.current, 0) && Q(k1, SemQ(s)) == Q(k, SemQ(s))
  {
    var k1 := Return(SetSm(k, s, Sm(k, s) + 1), 0);
    assert Q(k1, SemQ(s)) == Q(k, SemQ(s));
    if Q(k1, SemQ(s)) == [] { WakesNobody(k1, SemQ(s), resched, NO_ERROR); }
    hide WakeOne, Q;
  }

  // ----- going on and giving way -----

  /** A call that hands something to a waiter and may reschedule. */
  predicate Wakes(k: Kernel, op: Op) {
    || (op.MutexRelease? && Mx(k, op.mutex).count > 1 && Q(k, MutexQ(op.mutex)) != [])
    || (op.SemPost? && op.resched && Sm(k, op.sem) < 0 && Q(k, SemQ(op.sem)) != [])
    || (op.EventSignal? && op.resched && !Ev(k, op.event).signaled && Q(k, EventQ(op.event)) != [])
  }

  /** After it no ready thread outranks the running one. */
  lemma WakersGiveWay(k: Kernel, op: Op, t: Tid)
    requires Inv(k) && Enabled(k, op) && Wakes(k, op) && T(Step(k, op), t).state == Ready
    ensures var k' := Step(k, op); T(k', t).priority <= T(k', k'.current).priority
  {
    assert Reschedules(k, op);
    hide Inv, Enabled, Step, Q, Reschedules, Wakes;
    ThreadsReady(Step(k, op), t);
    RunningOutranksReady(k, op, t);
  }

  lemma ThreadsReady(k: Kernel, t: Tid)
    requires T(k, t).state == Ready
    ensures t in k.th && T(k, t) == k.th[t]
  {
  }

  /** A call told not to reschedule leaves its caller running, and so do those that never do. */
  predicate StaysOn(op: Op) {
    || (op.SemPost? && !op.resched) || (op.EventSignal? && !op.resched)
    || op.SetRealTime? || op.Create? || op.Resume? || op.Detach? || op.SemTryWait? || op.EventUnsignal? || op.Expire?
    || op.MutexInit? || op.SemInit? || op.EventInit?
  }

  lemma CallerStaysOn(k: Kernel, op: Op)
    requires Inv(k) && Enabled(k, op) && StaysOn(op)
    ensures var k' := Step(k, op); k'.current == k.current && T(k', k.current).state == Running
  {
    hide Inv, Core, Enabled, Act, Reschedules, StaysOn;
    NeverReschedules(k, op);
    InvIsCore(k);
    SchedulerKeepsCurrent(k, op);
    StepKeepsInv(k, op);
    CurrentRuns(Step(k, op));
  }

  lemma NeverReschedules(k: Kernel, op: Op)
    requires StaysOn(op)
    ensures !Reschedules(k, op)
  {
  }

  /** A thread that yields to another has no quantum left, so it starts over with a full one. */
  lemma YieldingGivesUpQuantum(k: Kernel)
    requires Inv(k) && Enabled(k, Yield) && Step(k, Yield).current != k.current
    ensures k.current in Step(k, Yield).th && Step(k, Yield).th[k.current].quantum == 0
  {
    hide Inv, Core, Dispatch, MidInv, YieldAct;
    InvIsCore(k);
    CurrentHasNoCont(k);
    StepKeepsInv(k, Yield);
    YieldThreads(k);
    YieldActs(k);
    hide Step, Act, Reschedules, Enabled;
    SchedulerKeepsYielder(k);
    DispatchShares(YieldAct(k), k.current);
  }

  lemma SchedulerKeepsYielder(k: Kernel)
    ensures YieldAct(k).current == k.current
  {
    hide InsertTail;
  }

  // ----- after detaching and exiting -----

  /** Once a thread that has not exited is detached every join of it is refused. */
  lemma DetachedRefusesJoins(k: Kernel, t: Tid, timeout: Timeout)
    requires Inv(k) && Enabled(k, Detach(t)) && k.th[t].state != Death
    ensures var k1 := Step(k, Detach(t));
      Enabled(k1, Join(t, timeout)) && Returns(k1, Join(t, timeout), ERR_THREAD_DETACHED)
  {
    hide Inv, Core, Returns, Step, DetachAct;
    InvIsCore(k);
    StepKeepsInv(k, Detach(t));
    DetachIs(k, t);
    DetachEffect(k, t);
    CallerNotIdle(k, t);
    JoinStatus(Step(k, Detach(t)), t, timeout);
  }

  lemma DetachIs(k: Kernel, t: Tid)
    ensures Step(k, Detach(t)) == DetachAct(k, t) && DetachAct(k, t).idle == k.idle
    ensures DetachAct(k, t).list == k.list
  {
    hide WakeAll, Dispatch;
  }

  lemma CallerNotIdle(k: Kernel, t: Tid)
    requires Core(k, {}, true) && Enabled(k, Detach(t))
    ensures k.current != k.idle && Live(k, t) && (t in Q(k, JoinQ(t)) ==> k.th[t].state == Blocked)
  {
    if t in Q(k, JoinQ(t)) { Waiter(k, JoinQ(t), t, {}, true); }
  }

  /** Detaching a thread that has exited lets the join that follows finish it off: it succeeds at once, delivers the
      exit code, and the thread is unlinked. */
  lemma DetachingTheDead(k: Kernel, t: Tid)
    requires Inv(k) && Enabled(k, Detach(t)) && k.th[t].state == Death
    ensures var k1, op := Step(k, Detach(t)), Join(t, Poll);
      && Enabled(k1, op) && Returns(k1, op, NO_ERROR)
      && t !in Step(k1, op).list && T(Step(k1, op), k.current).out == k.th[t].retcode
  {
    hide Inv, Core, Returns, Step, DetachAct, Q;
    var k1 := Step(k, Detach(t));
    InvIsCore(k);
    StepKeepsInv(k, Detach(t));
    DetachIs(k, t);
    CallerNotIdle(k, t);
    DetachEffect(k, t);
    JoinWaiters(k, t, true);
    assert k1.th[t].retcode == k.th[t].retcode;
    assert NoJoiner(k1, t);
    JoinStatus(k1, t, Poll);
    DeadJoinStays(k1, t);
    ReturnsAtOnce(k1, Join(t, Poll), NO_ERROR);
    JoinOutcome(k1, Join(t, Poll), k1.current, t);
    StepKeepsDead(k1, Join(t, Poll), t);
  }

  lemma DeadJoinStays(k: Kernel, t: Tid)
    requires T(k, t).state == Death
    ensures !Reschedules(k, Join(t, Poll))
  {
  }

  lemma ReturnsAtOnce(k: Kernel, op: Op, status: int)
    requires Returns(k, op, status)
    ensures var k' := Step(k, op);
      k'.current == k.current && k.current in k'.th && T(k', k.current) == k'.th[k.current]
      && k'.th[k.current].ret == status
  {
  }

  /** `j` was let go from joining `t`, which exited with `code`, and has not run since. */
  predicate LetGo(k: Kernel, j: Tid, t: Tid, code: int) {
    && j in k.th && k.th[j].cont == JoinCont(t) && k.th[j].state == Ready && k.th[j].blockRet == NO_ERROR
    && T(k, t).state == Death && T(k, t).retcode == code
  }

  /** `j` is back from its join with success and the exit code. */
  predicate Joined(k: Kernel, j: Tid, code: int) {
    k.current == j && j in k.th && k.th[j].ret == NO_ERROR && k.th[j].out == code
  }

  /** A thread that exits lets go whoever waits to join it; that thread's join returns success and the code, at once
      or when it runs. */
  lemma ExitLetsGo(k: Kernel, code: int, j: Tid)
    requires Inv(k) && Enabled(k, Exit(code)) && Joining(k, j, k.current)
    ensures var k' := Step(k, Exit(code)); LetGo(k', j, k.current, code) || Joined(k', j, code)
  {
    hide Inv, Core, ExitAct, Dispatch, MidInv, Step;
    var t := k.current;
    InvIsCore(k);
    CurrentHasNoCont(k);
    JoinerWaits(k, j);
    AttachedExitThreads(k, code);
    StepKeepsInv(k, Exit(code));
    ExitActs(k, code);
    DispatchLetsGo(ExitAct(k, code), j, t, code);
  }

  lemma ExitActs(k: Kernel, code: int)
    ensures Step(k, Exit(code)) == Dispatch(ExitAct(k, code)) && Act(k, Exit(code)) == ExitAct(k, code)
    ensures Reschedules(k, Exit(code)) && (Enabled(k, Exit(code)) ==> k.current != k.idle)
  {
    hide Dispatch, ExitAct;
  }

  lemma JoinerWaits(k: Kernel, j: Tid)
    requires Inv(k) && Joining(k, j, k.current) && k.th[k.current].state == Running
    ensures !Cur(k).detached && k.th[j].state == Blocked && j != k.current
  {
    hide Scheduled, Registered;
  }

  lemma DispatchLetsGo(k1: Kernel, j: Tid, t: Tid, code: int)
    requires MidInv(k1) && LetGo(k1, j, t, code)
    ensures LetGo(Dispatch(k1), j, t, code) || Joined(Dispatch(k1), j, code)
  {
    hide Dispatch, MidInv, NextThread, Dispatched, Continued;
    DispatchThreads(k1);
    DispatchedStanding(k1);
    if j == NextThread(k1) {
      JoinDone(k1, j, t);
    } else {
      hide Continued;
    }
  }

  lemma JoinDone(k1: Kernel, j: Tid, t: Tid)
    requires j in k1.th && k1.th[j].cont == JoinCont(t) && k1.th[j].blockRet == NO_ERROR
    ensures var c := Continued(k1, Dispatched(k1, j)); c.ret == NO_ERROR && c.out == T(k1, t).retcode
  {
    hide Dispatched;
    DispatchedWaits(k1, j);
  }

  /** It stays let go until it runs. */
  lemma LetGoReturns(k: Kernel, op: Op, j: Tid, t: Tid, code: int)
    requires Inv(k) && Enabled(k, op) && LetGo(k, j, t, code)
    ensures LetGo(Step(k, op), j, t, code) || Joined(Step(k, op), j, code)
  {
    hide Inv, Core, Act, Dispatch, MidInv, Enabled, Reschedules, Aside, Target;
    InvIsCore(k);
    ActAside(k, op);
    StepKeepsInv(k, op);
    AsideKeepsLetGo(k, Act(k, op), Target(k, op), j, t, code);
    if Reschedules(k, op) { DispatchLetsGo(Act(k, op), j, t, code); }
  }

  lemma AsideKeepsLetGo(k: Kernel, k': Kernel, w: QueueId, j: Tid, t: Tid, code: int)
    requires Aside(k, k', w) && LetGo(k, j, t, code)
    ensures LetGo(k', j, t, code)
  {
    assert Undisturbed(k.th[j], k'.th[j], w);
    assert Undisturbed(k.th[t], k'.th[t], w);
  }
}
