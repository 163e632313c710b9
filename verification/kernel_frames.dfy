/** What a call leaves alone up to thread_resched, and what thread_resched does: the queues, threads and
    objects a call is not about. */
module KernelFrames {
  import opened Wrappers
  import opened KernelState
  import opened KernelSteps
  import opened KernelInvariant
  import opened KernelJoins

  lemma JoinAside(k: Kernel, t: Tid, timeout: Timeout)
    requires Core(k, {}, true) && t in k.th
    ensures Aside(k, JoinAct(k, t, timeout), JoinQ(t))
  {
    hide Core;
    if T(k, t).detached {
      ReturnNeutral(k, ERR_THREAD_DETACHED, JoinQ(t));
    } else if T(k, t).state == Death {
      FinishJoinAside(k, t);
    } else if timeout == Poll {
      ReturnNeutral(k, ERR_TIMED_OUT, JoinQ(t));
    } else {
      EnqueueNeutral(k, timeout, JoinCont(t));
    }
  }

  lemma UnlinkAside(k: Kernel, t: Tid, w: QueueId)
    requires t in k.th
    ensures Aside(k, Unlink(k, t), w)
  {
    hide Without;
    var k' := Unlink(k, t);
    forall v: QueueId ensures Q(k', v) == Q(k, v) {}
  }

  lemma FinishJoinAside(k: Kernel, t: Tid)
    requires Core(k, {}, true) && t in k.th
    ensures Aside(k, FinishJoin(k, k.current, t), JoinQ(t))
  {
    CurrentHasNoCont(k);
    hide Core, Unlink;
    var c := Cur(k).(out := T(k, t).retcode, ret := NO_ERROR);
    var k1 := SetT(k, k.current, c);
    NeutralThread(k, k1, k.current, c, JoinQ(t));
    UnlinkAside(k1, t, JoinQ(t));
    AsideTwice(k, k1, Unlink(k1, t), JoinQ(t));
  }

  lemma SetDetachedAside(k: Kernel, t: Tid, w: QueueId)
    requires t in k.th && k.current in k.th
    ensures Aside(k, SetDetached(k, t), w)
  {
    hide Undisturbed, Aside;
    var dead := k.th[t].state == Death;
    var c := k.th[t].(detached := !dead);
    var k1 := SetT(k, t, c);
    OnlyMarked(k.th[t], !dead, k1.th[k.current], NO_ERROR, w);
    AsideThread(k, k1, t, c, w);
    if !dead {
      AsideThread(k1, Return(k1, NO_ERROR), k.current, k1.th[k.current].(ret := NO_ERROR), w);
      AsideTwice(k, k1, Return(k1, NO_ERROR), w);
    }
  }

  lemma OnlyMarked(c: Tcb, detached: bool, d: Tcb, status: int, w: QueueId)
    ensures Undisturbed(c, c.(detached := detached), w) && Undisturbed(d, d.(ret := status), w)
  {
  }

  lemma DetachAside(k: Kernel, t: Tid)
    requires Core(k, {}, true) && t in k.th
    ensures Aside(k, DetachAct(k, t), JoinQ(t))
  {
    var w, k1 := JoinQ(t), WakeAll(k, JoinQ(t), false, ERR_THREAD_DETACHED);
    WakeAllNeutral(k, w, false, ERR_THREAD_DETACHED, true);
    WakeAllEffect(k, w, false, ERR_THREAD_DETACHED, true);
    assert k.current in k1.th;
    hide Core, WakeAll, Aside, SetDetached;
    SetDetachedAside(k1, t, w);
    AsideTwice(k, k1, SetDetached(k1, t), w);
  }

  lemma ExitAside(k: Kernel, code: int)
    requires Core(k, {}, true) && k.current != k.idle
    ensures Aside(k, ExitAct(k, code), JoinQ(k.current))
  {
    hide Core, WakeAll, Unlink, Aside;
    var t, w, k1 := k.current, JoinQ(k.current), Dying(k, code);
    CurrentHasNoCont(k);
    DyingCore(k, code);
    AsideThread(k, k1, t, Cur(k).(state := Death, retcode := code), w);
    if Cur(k).detached {
      UnlinkAside(k1, t, w);
      AsideTwice(k, k1, Unlink(k1, t), w);
    } else {
      WakeAllNeutral(k1, w, false, NO_ERROR, false);
      AsideTwice(k, k1, WakeAll(k1, w, false, NO_ERROR), w);
    }
  }

  lemma MadeReady(k: Kernel, t: Tid, err: int)
    ensures var k' := MakeReady(k, t, err);
      k' == k.(th := k.th[t := Woken(T(k, t), err)], rq := k'.rq)
  {
  }

  lemma ExpireAside(k: Kernel, t: Tid)
    requires Core(k, {}, true) && Enabled(k, Expire(t))
    ensures Neutral(k, ExpireAct(k, t), k.th[t].waitOn.value)
  {
    hide Without, MakeReady, Undisturbed, SameStanding;
    ExpireTarget(k, t);
    var w := k.th[t].waitOn.value;
    var k1 := SetQ(k, w, Without(Q(k, w), t));
    var k' := MakeReady(k1, t, ERR_TIMED_OUT);
    assert k1.th == k.th && k' == ExpireAct(k, t);
    forall v: QueueId | !v.RunQ? && v != w ensures Q(k', v) == Q(k, v) {
      QOfSetQ(k, w, Without(Q(k, w), t), v);
      MadeReady(k1, t, ERR_TIMED_OUT);
    }
    hide Core, SetQ, ExpireAct;
    MadeReady(k1, t, ERR_TIMED_OUT);
    forall u | u in k.th ensures Undisturbed(k.th[u], k'.th[u], w) && SameStanding(k.th[u], k'.th[u]) {
      ChangesNothing(k.th[u], w);
      if u == t { BecomesWoken(k.th[u], w, ERR_TIMED_OUT); }
    }
    hide Q;
  }

  /** Up to thread_resched a call disturbs nothing outside the wait queue it is about. */
  lemma ActAside(k: Kernel, op: Op)
    requires Core(k, {}, true) && Enabled(k, op)
    ensures Aside(k, Act(k, op), Target(k, op))
  {
    hide Core, Aside, JoinAct, DetachAct, ExitAct, ExpireAct;
    match op
    case Join(t, timeout) => JoinAside(k, t, timeout);
    case Detach(t) => DetachAside(k, t);
    case Exit(code) => ExitAside(k, code);
    case Expire(t) => ExpireAside(k, t); ExpireTarget(k, t);
    case _ => ActNeutral(k, op);
  }

  lemma ExpireTarget(k: Kernel, t: Tid)
    requires Core(k, {}, true) && Enabled(k, Expire(t))
    ensures Target(k, Expire(t)) == ContQueue(k.th[t].cont) == k.th[t].waitOn.value
      && Concerns(k.th[t], Target(k, Expire(t)))
  {
    assert TcbOk(k, k.th[t]);
  }

  lemma ExpireObjectsAndQueue(k: Kernel, u: Tid, w: QueueId)
    requires Core(k, {}, true) && Enabled(k, Expire(u)) && !w.RunQ?
    ensures ExpireAct(k, u).ev == k.ev && ExpireAct(k, u).mx == k.mx && ExpireAct(k, u).current == k.current
    ensures ExpireAct(k, u).idle == k.idle
    ensures Q(ExpireAct(k, u), w) == if w == Target(k, Expire(u)) then Without(Q(k, w), u) else Q(k, w)
  {
    ExpireTarget(k, u);
    ExpireAside(k, u);
    var v := Target(k, Expire(u));
    QOfSetQ(k, v, Without(Q(k, v), u), w);
    hide Core, Without, SetQ, Enabled, InsertHead;
  }

  lemma ExpireEffect(k: Kernel, u: Tid, k': Kernel)
    requires Core(k, {}, true) && Enabled(k, Expire(u)) && k' == ExpireAct(k, u)
    ensures k'.th == k.th[u := Woken(k.th[u], ERR_TIMED_OUT)]
    ensures forall v: QueueId | !v.RunQ? ::
      (Q(k', v) == if v == Target(k, Expire(u)) then Without(Q(k, v), u) else Q(k, v))
  {
    ExpireTarget(k, u);
    var w := Target(k, Expire(u));
    var k1 := SetQ(k, w, Without(Q(k, w), u));
    forall v: QueueId ensures Q(k1, v) == if v == w then Without(Q(k, w), u) else Q(k, v) {
      QOfSetQ(k, w, Without(Q(k, w), u), v);
    }
    hide Core, Without, SetQ;
  }

  lemma QueueHasNoDup(k: Kernel, w: QueueId)
    requires Core(k, {}, true)
    ensures NoDup(Q(k, w))
  {
  }

  // ----- kernel objects -----

  /** From `k` to `k'` no mutex, semaphore or event but the one that owns `w` changed. */
  predicate ObjectsAside(k: Kernel, k': Kernel, w: QueueId) {
    && (forall m | m in k.mx :: m in k'.mx && (w != MutexQ(m) ==> k'.mx[m] == k.mx[m]))
    && (forall s | s in k.sm :: s in k'.sm && (w != SemQ(s) ==> k'.sm[s] == k.sm[s]))
    && (forall e | e in k.ev :: e in k'.ev && (w != EventQ(e) ==> k'.ev[e] == k.ev[e]))
  }

  lemma YieldObjects(k: Kernel)
    ensures var k' := YieldAct(k); k'.mx == k.mx && k'.sm == k.sm && k'.ev == k.ev
  {
    hide InsertTail;
  }

  lemma PreemptObjects(k: Kernel)
    ensures var k' := PreemptAct(k); k'.mx == k.mx && k'.sm == k.sm && k'.ev == k.ev
  {
    hide InsertHead, InsertTail;
  }

  lemma TickObjects(k: Kernel)
    ensures var k' := TickAct(k); k'.mx == k.mx && k'.sm == k.sm && k'.ev == k.ev
  {
    hide PreemptAct;
    PreemptObjects(SetT(k, k.current, Cur(k).(quantum := Cur(k).quantum - 1)));
  }

  lemma SetPriorityObjects(k: Kernel, p: int)
    ensures var k' := SetPriorityAct(k, p); k'.mx == k.mx && k'.sm == k.sm && k'.ev == k.ev
  {
    hide Requeue, ClampPriority;
  }

  lemma CreateObjects(k: Kernel, t: Tid, base: nat)
    ensures var k' := CreateAct(k, t, base); k'.mx == k.mx && k'.sm == k.sm && k'.ev == k.ev
  {
    hide Q;
  }

  lemma ResumeObjects(k: Kernel, t: Tid)
    ensures var k' := ResumeAct(k, t); k'.mx == k.mx && k'.sm == k.sm && k'.ev == k.ev
  {
    hide InsertHead;
  }

  lemma FinishJoinObjects(k: Kernel, j: Tid, t: Tid)
    ensures var k' := FinishJoin(k, j, t); k'.mx == k.mx && k'.sm == k.sm && k'.ev == k.ev
  {
    hide Without;
  }

  lemma JoinObjects(k: Kernel, t: Tid, timeout: Timeout)
    ensures var k' := JoinAct(k, t, timeout); k'.mx == k.mx && k'.sm == k.sm && k'.ev == k.ev
  {
    hide Enqueue, FinishJoin;
    FinishJoinObjects(k, k.current, t);
  }

  lemma DetachObjects(k: Kernel, t: Tid)
    ensures var k' := DetachAct(k, t); k'.mx == k.mx && k'.sm == k.sm && k'.ev == k.ev
  {
    hide WakeAll;
  }

  lemma ExitObjects(k: Kernel, code: int)
    ensures var k' := ExitAct(k, code); k'.mx == k.mx && k'.sm == k.sm && k'.ev == k.ev
  {
    hide WakeAll, Without;
  }

  lemma ExpireObjects(k: Kernel, t: Tid)
    ensures var k' := ExpireAct(k, t); k'.mx == k.mx && k'.sm == k.sm && k'.ev == k.ev
  {
    hide MakeReady, Without;
  }

  lemma SchedulingObjects(k: Kernel, op: Op)
    requires Schedules(op)
    ensures var k' := Act(k, op); k'.mx == k.mx && k'.sm == k.sm && k'.ev == k.ev
  {
    hide YieldAct, PreemptAct, TickAct, SetPriorityAct, CreateAct, ResumeAct, JoinAct, DetachAct, ExitAct, ExpireAct;
    match op
    case Yield => YieldObjects(k);
    case Preempt => PreemptObjects(k);
    case Tick => TickObjects(k);
    case SetPriority(p) => SetPriorityObjects(k, p);
    case SetRealTime(t) =>
    case Create(t, base) => CreateObjects(k, t, base);
    case Resume(t) => ResumeObjects(k, t);
    case Join(t, timeout) => JoinObjects(k, t, timeout);
    case Detach(t) => DetachObjects(k, t);
    case Exit(code) => ExitObjects(k, code);
    case Expire(t) => ExpireObjects(k, t);
  }

  lemma MutexAcquireObjects(k: Kernel, m: nat, timeout: Timeout)
    ensures ObjectsAside(k, MutexAcquireAct(k, m, timeout), MutexQ(m))
  {
    hide Enqueue;
  }

  lemma MutexReleaseObjects(k: Kernel, m: nat)
    ensures ObjectsAside(k, MutexReleaseAct(k, m), MutexQ(m))
  {
    hide WakeOne;
  }

  lemma SemWaitObjects(k: Kernel, s: nat, timeout: Timeout, timed: bool)
    ensures ObjectsAside(k, SemTimedWaitAct(k, s, timeout, timed), SemQ(s))
  {
    hide Enqueue;
  }

  lemma SemTryWaitObjects(k: Kernel, s: nat)
    ensures ObjectsAside(k, SemTryWaitAct(k, s), SemQ(s))
  {
  }

  lemma SemPostObjects(k: Kernel, s: nat, resched: bool)
    ensures ObjectsAside(k, SemPostAct(k, s, resched), SemQ(s))
  {
    hide WakeOne;
  }

  lemma EventWaitObjects(k: Kernel, e: nat, timeout: Timeout)
    ensures ObjectsAside(k, EventWaitAct(k, e, timeout), EventQ(e))
  {
    hide Enqueue;
  }

  lemma EventSignalObjects(k: Kernel, e: nat, resched: bool)
    ensures ObjectsAside(k, EventSignalAct(k, e, resched), EventQ(e))
  {
    hide WakeOne, WakeAll, Cur;
  }

  lemma SameObjects(k: Kernel, k': Kernel, w: QueueId)
    requires k'.mx == k.mx && k'.sm == k.sm && k'.ev == k.ev
    ensures ObjectsAside(k, k', w)
  {
  }

  lemma OwnObject(k: Kernel, op: Op)
    requires Enabled(k, op) && (op.MutexInit? || op.SemInit? || op.EventInit? || op.EventUnsignal?)
    ensures ObjectsAside(k, Act(k, op), Target(k, op))
  {
  }

  /** Up to thread_resched a call changes no mutex, semaphore or event but the one it is about. */
  lemma ActObjects(k: Kernel, op: Op)
    requires Enabled(k, op)
    ensures ObjectsAside(k, Act(k, op), Target(k, op))
  {
    hide MutexAcquireAct, MutexReleaseAct, SemTimedWaitAct, SemTryWaitAct, SemPostAct, EventWaitAct, EventSignalAct;
    hide YieldAct, PreemptAct, TickAct, SetPriorityAct, CreateAct, ResumeAct, JoinAct, DetachAct, ExitAct, ExpireAct;
    hide ObjectsAside, Enabled;
    match op
    case MutexInit(_) | SemInit(_, _) | EventInit(_, _, _) | EventUnsignal(_) => OwnObject(k, op);
    case MutexAcquire(m, timeout) => MutexAcquireObjects(k, m, timeout);
    case MutexRelease(m) => MutexReleaseObjects(k, m);
    case SemWait(s) => SemWaitObjects(k, s, Infinite, false);
    case SemTryWait(s) => SemTryWaitObjects(k, s);
    case SemTimedWait(s, timeout) => SemWaitObjects(k, s, timeout, true);
    case SemPost(s, resched) => SemPostObjects(k, s, resched);
    case EventWait(e, timeout) => EventWaitObjects(k, e, timeout);
    case EventSignal(e, resched) => EventSignalObjects(k, e, resched);
    case _ =>
      SchedulingObjects(k, op);
      SameObjects(k, Act(k, op), Target(k, op));
  }

  // ----- dispatching -----

  /** What Dispatch does to wait queues and to the threads concerned with one of them: the chosen
      thread is done with it, the others stay as they are. */
  lemma DispatchAside(k: Kernel, w: QueueId)
    requires MidInv(k) && !w.RunQ?
    ensures var n, k' := NextThread(k), Dispatch(k);
      && Q(k', w) == Q(k, w)
      && n in k.th && k'.th.Keys == k.th.Keys && k'.th[n].cont == NoCont
      && (k.th[n].cont != NoCont ==> k.th[n].state == Ready)
      && (forall t | t in k.th && t != n ::
            k'.th[t].cont == k.th[t].cont && k'.th[t].state == k.th[t].state
            && k'.th[t].blockRet == k.th[t].blockRet && k'.th[t].armed == k.th[t].armed)
  {
    hide Dispatch, PopTop, Placed, JoinsOk, Registered;
    DispatchFields(k);
    DispatchQueues(k);
    NextIsReady(k);
    assert TcbOk(k, k.th[NextThread(k)]);
    hide MidInv, NextThread, Top;
  }

  lemma DispatchObjects(k: Kernel)
    requires MidInv(k)
    ensures var n, k' := NextThread(k), Dispatch(k);
      var c := T(k, n);
      && k'.mx == (match c.cont
          case AcquireCont(m) =>
            if c.blockRet >= 0 then k.mx[m := Mx(k, m).(holder := Some(n))]
            else if c.blockRet == ERR_TIMED_OUT then k.mx[m := Mx(k, m).(count := Mx(k, m).count - 1)]
            else k.mx
          case _ => k.mx)
      && k'.sm == (match c.cont
          case SemCont(s, timed) => if timed && c.blockRet == ERR_TIMED_OUT then k.sm[s := Sm(k, s) + 1] else k.sm
          case _ => k.sm)
      && k'.ev == k.ev
  {
    hide MidInv, Resched, NextThread, ContinueThreads, ContinueList;
    ReschedFields(k);
    DispatchQueues(k);
    var k1 := Resched(k);
    assert Dispatch(k).mx == ContinueMutexes(k1) && Dispatch(k).sm == ContinueSems(k1);
    hide Dispatch, Cur, T;
  }

  /** Up to the context switch thread_resched touches no object and no continuation. */
  lemma ReschedFields(k: Kernel)
    ensures var n, k1 := NextThread(k), Resched(k);
      && k1.mx == k.mx && k1.sm == k.sm && k1.current == n
      && Cur(k1).cont == T(k, n).cont && Cur(k1).blockRet == T(k, n).blockRet
  {
    hide PopTop, NextThread;
    PopTopObjects(k);
  }

  lemma NotARunQueue(cont: Cont)
    requires cont != NoCont
    ensures !ContQueue(cont).RunQ?
  {
  }

  lemma WakesNobody(k: Kernel, w: QueueId, resched: bool, err: int)
    requires Q(k, w) == []
    ensures WakeOne(k, w, resched, err) == k
  {
  }

  lemma AcquireInSteps(k: Kernel, m: nat, timeout: Timeout)
    requires m in k.mx
    ensures var x := k.mx[m];
      MutexAcquireAct(k, m, timeout) ==
        if x.count + 1 <= 1 then Return(SetMx(k, m, MutexState(Some(k.current), x.count + 1)), NO_ERROR)
        else if timeout == Poll then Return(SetMx(k, m, x), ERR_TIMED_OUT)
        else Enqueue(SetMx(k, m, x.(count := x.count + 1)), timeout, AcquireCont(m))
  {
    assert SetMx(k, m, k.mx[m]) == k;
    hide Return, Enqueue;
  }

  lemma SemWaitInSteps(k: Kernel, s: nat, timeout: Timeout, timed: bool)
    requires s in k.sm
    ensures var n := k.sm[s];
      SemTimedWaitAct(k, s, timeout, timed) ==
        if n - 1 >= 0 then Return(SetSm(k, s, n - 1), NO_ERROR)
        else if timeout == Poll then Return(SetSm(k, s, n), ERR_TIMED_OUT)
        else Enqueue(SetSm(k, s, n - 1), timeout, SemCont(s, timed))
  {
    assert SetSm(k, s, k.sm[s]) == k;
    hide Return, Enqueue;
  }

  /** The fields of a thread that starts to wait. */
  function Waiting(c: Tcb, timeout: Timeout, cont: Cont): Tcb
    requires cont != NoCont
  {
    c.(state := Blocked, waitOn := Some(ContQueue(cont)), blockRet := NO_ERROR,
      cont := cont, armed := timeout == Finite)
  }

  lemma EnqueueEffect(k: Kernel, timeout: Timeout, cont: Cont)
    requires cont != NoCont && k.current in k.th
    ensures var k', w := Enqueue(k, timeout, cont), ContQueue(cont);
      && k'.th == k.th[k.current := Waiting(k.th[k.current], timeout, cont)]
      && (forall v: QueueId :: Q(k', v) == if v == w then Q(k, w) + [k.current] else Q(k, v))
      && k'.mx == k.mx && k'.sm == k.sm && k'.ev == k.ev && k'.current == k.current
  {
  }
}
