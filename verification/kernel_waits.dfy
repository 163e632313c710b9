/** One wait queue as its object sees it: who waits there in order of arrival, whose timer took them
    off it, and who was handed what the queue is for; the latter two have not run since. */
module KernelWaits {
  import opened Wrappers
  import opened KernelState
  import opened KernelSteps
  import opened KernelInvariant
  import opened KernelJoins
  import opened KernelFrames

  datatype WaitView = WaitView(queue: seq<Tid>, stale: set<Tid>, handed: set<Tid>)

  /** The thread waited at `w`, is off the queue with this status, and has not run since. */
  predicate Back(c: Tcb, w: QueueId, status: int) {
    Concerns(c, w) && c.state != Blocked && c.blockRet == status
  }

  function BackWith(k: Kernel, w: QueueId, status: int): set<Tid> {
    set t | t in k.th && Back(k.th[t], w, status)
  }

  function View(k: Kernel, w: QueueId): WaitView {
    WaitView(Q(k, w), BackWith(k, w, ERR_TIMED_OUT), BackWith(k, w, NO_ERROR))
  }

  /** A thread comes off the queue of a mutex, semaphore or event with success or by its timer, and by
      its timer from a semaphore only if its call gives its place back. */
  predicate FineThread(c: Tcb) {
    && (c.state != Blocked ==> c.blockRet == NO_ERROR || c.blockRet == ERR_TIMED_OUT)
    && (c.cont.SemCont? ==>
      && (c.armed ==> c.cont.timed)
      && (c.state != Blocked && c.blockRet == ERR_TIMED_OUT ==> c.cont.timed))
  }

  /** Every thread concerned with `w` is fine and, without `timers`, none of them has a timer set. */
  predicate Fine(k: Kernel, w: QueueId, timers: bool) {
    forall t | t in k.th && Concerns(k.th[t], w) :: FineThread(k.th[t]) && (k.th[t].armed ==> timers)
  }

  /** What was fine still is, but that a timer may have been set if so `timed` says. */
  predicate StaysFine(k: Kernel, k': Kernel, w: QueueId, timed: bool) {
    forall timers :: Fine(k, w, timers) && (timed ==> timers) ==> Fine(k', w, timers)
  }

  lemma FineWithTimers(k: Kernel, w: QueueId)
    ensures Fine(k, w, false) ==> Fine(k, w, true)
  {
  }

  lemma StaysTwice(k: Kernel, k1: Kernel, k2: Kernel, w: QueueId, timed: bool, timed': bool)
    requires StaysFine(k, k1, w, timed) && StaysFine(k1, k2, w, timed')
    ensures StaysFine(k, k2, w, timed || timed')
  {
  }

  lemma StillFine(k: Kernel, k': Kernel, w: QueueId, timed: bool)
    requires Fine(k, w, true) && StaysFine(k, k', w, timed)
    ensures Fine(k', w, true)
  {
  }

  lemma StaysUntimed(k: Kernel, k': Kernel, w: QueueId)
    requires Fine(k, w, false) && StaysFine(k, k', w, false)
    ensures Fine(k', w, false)
  {
  }

  // ----- what leaves a queue alone -----

  /** The same threads are concerned with `w` in the same way. */
  predicate SameWaiters(k: Kernel, k': Kernel, w: QueueId) {
    && (forall t | t in k.th && Concerns(k.th[t], w) :: t in k'.th && SameWait(k.th[t], k'.th[t]))
    && (forall t | t in k'.th && Concerns(k'.th[t], w) :: t in k.th && SameWait(k.th[t], k'.th[t]))
  }

  predicate SameWait(c: Tcb, c': Tcb) {
    c'.cont == c.cont && c'.state == c.state && c'.blockRet == c.blockRet && c'.armed == c.armed
  }

  lemma SameView(k: Kernel, k': Kernel, w: QueueId)
    requires SameWaiters(k, k', w) && Q(k', w) == Q(k, w)
    ensures View(k', w) == View(k, w) && StaysFine(k, k', w, false)
  {
    hide Q;
    forall status ensures BackWith(k', w, status) == BackWith(k, w, status) {
      forall t ensures t in BackWith(k', w, status) <==> t in BackWith(k, w, status) {}
    }
  }

  lemma AsideView(k: Kernel, k': Kernel, v: QueueId, w: QueueId)
    requires Aside(k, k', v) && v != w && !w.RunQ?
    ensures View(k', w) == View(k, w) && StaysFine(k, k', w, false)
  {
    AsideQueue(k, k', v, w);
    AsideWaiters(k, k', v, w);
    hide Aside, Q, SameWaiters;
    SameView(k, k', w);
  }

  /** The running thread's status or other fields change, but it waits for nothing. */
  lemma QuietView(k: Kernel, k': Kernel, t: Tid, c: Tcb, w: QueueId)
    requires t in k.th && k.th[t].cont == NoCont && c.cont == NoCont && k'.th == k.th[t := c] && Q(k', w) == Q(k, w)
    ensures View(k', w) == View(k, w) && StaysFine(k, k', w, false)
  {
    hide Q, View, StaysFine, SameWaiters;
    QuietWaiters(k, k', t, c, w);
    SameView(k, k', w);
  }

  lemma QuietWaiters(k: Kernel, k': Kernel, t: Tid, c: Tcb, w: QueueId)
    requires t in k.th && k.th[t].cont == NoCont && c.cont == NoCont && k'.th == k.th[t := c]
    ensures SameWaiters(k, k', w)
  {
    assert !Concerns(k.th[t], w) && !Concerns(c, w);
  }

  // ----- what changes it -----

  /** The one thread `t` changes from `c` to `c'`. */
  lemma OneChange(k: Kernel, k': Kernel, t: Tid, w: QueueId, status: int)
    requires t in k.th && k'.th.Keys == k.th.Keys
    requires forall u | u in k.th && u != t ::
      (Concerns(k.th[u], w) || Concerns(k'.th[u], w) ==> SameWait(k.th[u], k'.th[u]))
    ensures Back(k'.th[t], w, status) ==> BackWith(k', w, status) == BackWith(k, w, status) + {t}
    ensures !Back(k'.th[t], w, status) ==> BackWith(k', w, status) == BackWith(k, w, status) - {t}
    ensures (Concerns(k'.th[t], w) ==> FineThread(k'.th[t]) && !k'.th[t].armed) ==> StaysFine(k, k', w, false)
    ensures Fine(k, w, true) && (Concerns(k'.th[t], w) ==> FineThread(k'.th[t])) ==> Fine(k', w, true)
  {
    hide ContQueue;
    forall u | u in k.th && u != t ensures Back(k'.th[u], w, status) <==> Back(k.th[u], w, status) {}
    forall u | u != t ensures u in BackWith(k', w, status) <==> u in BackWith(k, w, status) {}
  }

  lemma DispatchView(k1: Kernel, w: QueueId)
    requires MidInv(k1) && !w.RunQ?
    ensures var v, n := View(k1, w), NextThread(k1);
      View(Dispatch(k1), w) == v.(stale := v.stale - {n}, handed := v.handed - {n})
    ensures StaysFine(k1, Dispatch(k1), w, false)
  {
    var n, k' := NextThread(k1), Dispatch(k1);
    hide MidInv, Dispatch, NextThread, Q;
    DispatchAside(k1, w);
    OneChange(k1, k', n, w, ERR_TIMED_OUT);
    OneChange(k1, k', n, w, NO_ERROR);
  }

  lemma EnqueueView(k: Kernel, timeout: Timeout, cont: Cont)
    requires cont != NoCont && k.current in k.th && k.th[k.current].cont == NoCont
    ensures var v, k', w := View(k, ContQueue(cont)), Enqueue(k, timeout, cont), ContQueue(cont);
      && View(k', w) == v.(queue := v.queue + [k.current])
      && ((cont.SemCont? && timeout == Finite ==> cont.timed) ==> StaysFine(k, k', w, timeout == Finite))
  {
    var k', w := Enqueue(k, timeout, cont), ContQueue(cont);
    EnqueueEffect(k, timeout, cont);
    hide Enqueue, Q;
    OneChange(k, k', k.current, w, ERR_TIMED_OUT);
    OneChange(k, k', k.current, w, NO_ERROR);
    assert k.current !in BackWith(k, w, ERR_TIMED_OUT) + BackWith(k, w, NO_ERROR);
  }

  /** A waiter is none of those who are back. */
  lemma WaiterNotBack(k: Kernel, w: QueueId, t: Tid)
    requires Core(k, {}, true) && !w.RunQ? && t in Q(k, w)
    ensures t in k.th && Concerns(k.th[t], w) && k.th[t].state == Blocked && t != k.current
    ensures t !in View(k, w).stale + View(k, w).handed
  {
    Waiter(k, w, t, {}, true);
  }

  lemma BackWoken(c: Tcb, w: QueueId)
    requires Concerns(c, w) && c.state == Blocked
    ensures var c' := Woken(c, NO_ERROR);
      Back(c', w, NO_ERROR) && !Back(c', w, ERR_TIMED_OUT) && FineThread(c') && !c'.armed
  {
  }

  lemma WakeOneView(k: Kernel, w: QueueId, resched: bool)
    requires Core(k, {}, true) && !w.RunQ? && Q(k, w) != []
    ensures var v, u, k' := View(k, w), Q(k, w)[0], WakeOne(k, w, resched, NO_ERROR);
      && u !in v.handed + v.stale
      && View(k', w) == v.(queue := v.queue[1..], handed := v.handed + {u})
      && StaysFine(k, k', w, false)
  {
    hide WakeOne, Core;
    var u, k' := Q(k, w)[0], WakeOne(k, w, resched, NO_ERROR);
    WaiterNotBack(k, w, u);
    WakeOneEffect(k, w, resched, NO_ERROR);
    CurrentHasNoCont(k);
    assert Q(k', w) == Q(k, w)[1..];
    hide Q, BackWith, StaysFine, Back, FineThread;
    BackWoken(k.th[u], w);
    OneChange(k, k', u, w, ERR_TIMED_OUT);
    OneChange(k, k', u, w, NO_ERROR);
  }

  lemma WakeAllView(k: Kernel, w: QueueId, resched: bool)
    requires Core(k, {}, true) && !w.RunQ?
    ensures var v, k' := View(k, w), WakeAll(k, w, resched, NO_ERROR);
      && (forall t | t in v.queue :: t !in v.handed + v.stale)
      && View(k', w) == WaitView([], v.stale, v.handed + (set t | t in v.queue))
      && StaysFine(k, k', w, false)
  {
    hide Core, BackWith, StaysFine, MakeAllReady, SetQ, SetT, Cur;
    var ts, k' := Q(k, w), WakeAll(k, w, resched, NO_ERROR);
    forall t | t in ts ensures t in k.th && Concerns(k.th[t], w) && k.th[t].state == Blocked && t != k.current
      && t !in View(k, w).stale + View(k, w).handed
    {
      WaiterNotBack(k, w, t);
    }
    WakeAllEffect(k, w, resched, NO_ERROR, true);
    CurrentHasNoCont(k);
    assert Q(k', w) == [];
    hide WakeAll, Q;
    WokenAll(k, k', w, ts);
  }

  lemma WokenAll(k: Kernel, k': Kernel, w: QueueId, ts: seq<Tid>)
    requires k'.th.Keys == k.th.Keys
    requires forall t | t in ts ::
        t in k.th && Concerns(k.th[t], w) && k.th[t].state == Blocked && k'.th[t] == Woken(k.th[t], NO_ERROR)
    requires forall t | t in k.th && t !in ts ::
      (Concerns(k.th[t], w) || Concerns(k'.th[t], w) ==> SameWait(k.th[t], k'.th[t]))
    ensures BackWith(k', w, NO_ERROR) == BackWith(k, w, NO_ERROR) + (set t | t in ts)
    ensures BackWith(k', w, ERR_TIMED_OUT) == BackWith(k, w, ERR_TIMED_OUT)
    ensures StaysFine(k, k', w, false)
  {
    forall t ensures t in BackWith(k', w, NO_ERROR) <==> t in BackWith(k, w, NO_ERROR) || t in ts {}
    forall t ensures t in BackWith(k', w, ERR_TIMED_OUT) <==> t in BackWith(k, w, ERR_TIMED_OUT) {}
  }

  lemma ExpireView(k: Kernel, u: Tid, w: QueueId)
    requires Core(k, {}, true) && Enabled(k, Expire(u)) && !w.RunQ? && Fine(k, w, true)
    ensures var v, k' := View(k, w), ExpireAct(k, u);
      && (u in v.queue <==> Target(k, Expire(u)) == w)
      && (Fine(k, w, false) ==> u !in v.queue)
      && StaysFine(k, k', w, false)
      && (u !in v.queue ==> View(k', w) == v)
      && (u in v.queue ==>
        && u !in v.stale + v.handed && |Without(v.queue, u)| == |v.queue| - 1
        && View(k', w) == v.(queue := Without(v.queue, u), stale := v.stale + {u}))
  {
    hide StaysFine, Without, Q, Aside, BackWith, ContQueue, Core, ExpireAct, Target, FineThread;
    ExpireTarget(k, u);
    WhereWaits(k, u);
    if Target(k, Expire(u)) != w {
      ExpireAside(k, u);
      AsideView(k, ExpireAct(k, u), Target(k, Expire(u)), w);
      if u in Q(k, w) { WaiterNotBack(k, w, u); }
    } else {
      ExpireHere(k, u, w);
    }
  }

  lemma ExpireHere(k: Kernel, u: Tid, w: QueueId)
    requires Core(k, {}, true) && Enabled(k, Expire(u)) && !w.RunQ? && Fine(k, w, true) && Target(k, Expire(u)) == w
    ensures var v, k' := View(k, w), ExpireAct(k, u);
      && u in v.queue && !Fine(k, w, false) && StaysFine(k, k', w, false)
      && u !in v.stale + v.handed && |Without(v.queue, u)| == |v.queue| - 1
      && View(k', w) == v.(queue := Without(v.queue, u), stale := v.stale + {u})
  {
    hide Core, ExpireAct, Without, Q, Target, StaysFine, BackWith, NoDup;
    var k' := ExpireAct(k, u);
    ExpireTarget(k, u);
    WhereWaits(k, u);
    WaiterNotBack(k, w, u);
    ExpireEffect(k, u, k');
    QueueHasNoDup(k, w);
    WithoutMembers(Q(k, w), u);
    OneChange(k, k', u, w, ERR_TIMED_OUT);
    OneChange(k, k', u, w, NO_ERROR);
  }

  lemma NobodyToExpire(k: Kernel, u: Tid, w: QueueId)
    requires Core(k, {}, true) && Enabled(k, Expire(u)) && !w.RunQ? && Fine(k, w, false)
    ensures u !in View(k, w).queue
  {
    hide Core, View, Fine, Enabled;
    FineWithTimers(k, w);
    ExpireView(k, u, w);
  }

  lemma WhereWaits(k: Kernel, u: Tid)
    requires Core(k, {}, true) && Enabled(k, Expire(u))
    ensures u in Q(k, Target(k, Expire(u)))
  {
    ExpireTarget(k, u);
    assert Where(k.th[u]) == k.th[u].waitOn;
  }

  /** A call that is not about `w` leaves its view alone. */
  lemma OtherView(k: Kernel, op: Op, w: QueueId)
    requires Core(k, {}, true) && Enabled(k, op) && !w.RunQ? && Target(k, op) != w
    ensures View(Act(k, op), w) == View(k, w) && StaysFine(k, Act(k, op), w, false)
  {
    ActAside(k, op);
    AsideView(k, Act(k, op), Target(k, op), w);
  }

  // ----- whole calls -----

  /** The thread that comes back from thread_resched in this call, if it is reached. */
  predicate ComesBackIn(k: Kernel, op: Op, t: Tid) {
    Reschedules(k, op) && t == NextThread(Act(k, op))
  }

  /** A whole call leaves every wait queue but the one it is about alone, and everybody who waits there or is
      back from it, except that the thread it dispatches is done with its wait. */
  lemma StepAside(k: Kernel, op: Op, w: QueueId)
    requires Inv(k) && Enabled(k, op) && !w.RunQ? && Target(k, op) != w
    ensures Q(Step(k, op), w) == Q(k, w)
    ensures forall t | t in k.th && Concerns(k.th[t], w) ::
      && t in Step(k, op).th
      && (if ComesBackIn(k, op, t) then k.th[t].state == Ready && Step(k, op).th[t].cont == NoCont
          else SameWait(k.th[t], Step(k, op).th[t]))
    ensures forall t | t in Step(k, op).th && Concerns(Step(k, op).th[t], w) :: t in k.th && Concerns(k.th[t], w)
  {
    hide Act, Enabled, Reschedules, Target, Inv, Core, Aside, Q, Dispatch, MidInv, NextThread;
    InvIsCore(k);
    StepKeepsInv(k, op);
    ActAside(k, op);
    AsideQueue(k, Act(k, op), Target(k, op), w);
    AsideWaiters(k, Act(k, op), Target(k, op), w);
    if Reschedules(k, op) {
      hide SameWaiters;
      BackFrom(k, Act(k, op), w);
    }
  }

  lemma BackFrom(k: Kernel, k1: Kernel, w: QueueId)
    requires MidInv(k1) && !w.RunQ? && SameWaiters(k, k1, w) && Q(k1, w) == Q(k, w)
    ensures var k', n := Dispatch(k1), NextThread(k1);
      && Q(k', w) == Q(k, w)
      && (forall t | t in k.th && Concerns(k.th[t], w) ::
        && t in k'.th
        && (if t == n then k.th[t].state == Ready && k'.th[t].cont == NoCont else SameWait(k.th[t], k'.th[t])))
      && (forall t | t in k'.th && Concerns(k'.th[t], w) :: t in k.th && Concerns(k.th[t], w))
  {
    hide MidInv, Dispatch, NextThread, Q;
    DispatchAside(k1, w);
  }

  lemma AsideQueue(k: Kernel, k': Kernel, v: QueueId, w: QueueId)
    requires Aside(k, k', v) && v != w && !w.RunQ?
    ensures Q(k', w) == Q(k, w)
  {
  }

  lemma AsideWaiters(k: Kernel, k': Kernel, v: QueueId, w: QueueId)
    requires Aside(k, k', v) && v != w && !w.RunQ?
    ensures SameWaiters(k, k', w)
  {
    hide Q;
    forall t | t in k.th && Concerns(k.th[t], w) ensures t in k'.th && SameWait(k.th[t], k'.th[t]) {
      assert Undisturbed(k.th[t], k'.th[t], v);
    }
    forall t | t in k'.th && Concerns(k'.th[t], w) ensures t in k.th && SameWait(k.th[t], k'.th[t]) {
      assert !Concerns(k'.th[t], v);
      if t in k.th { assert Undisturbed(k.th[t], k'.th[t], v); }
    }
  }

  /** A whole call leaves every mutex, semaphore and event alone but the one it is about and the one the thread
      it dispatches comes back from. */
  lemma StepObjects(k: Kernel, op: Op)
    requires Inv(k) && Enabled(k, op)
    ensures var k', back := Step(k, op), (w: QueueId) =>
        Reschedules(k, op) && Concerns(T(Act(k, op), NextThread(Act(k, op))), w);
      && (forall m | m in k.mx ::
          m in k'.mx && (Target(k, op) != MutexQ(m) && !back(MutexQ(m)) ==> k'.mx[m] == k.mx[m]))
      && (forall s | s in k.sm :: s in k'.sm && (Target(k, op) != SemQ(s) && !back(SemQ(s)) ==> k'.sm[s] == k.sm[s]))
      && (forall e | e in k.ev :: e in k'.ev && (Target(k, op) != EventQ(e) ==> k'.ev[e] == k.ev[e]))
  {
    hide Act, Enabled, Reschedules, Target, Inv, Dispatch, MidInv, NextThread;
    StepKeepsInv(k, op);
    ActObjects(k, op);
    if Reschedules(k, op) { DispatchObjects(Act(k, op)); }
  }

  /** Nobody has to do with the queue of an object that does not exist. */
  lemma FreshView(k: Kernel, w: QueueId)
    requires Core(k, {}, true)
    requires match w
      case MutexQ(m) => m !in k.mx
      case SemQ(s) => s !in k.sm
      case EventQ(e) => e !in k.ev
      case _ => false
    ensures View(k, w) == WaitView([], {}, {}) && Fine(k, w, false)
  {
    forall t | t in k.th ensures !Concerns(k.th[t], w) { assert TcbOk(k, k.th[t]); }
    if Q(k, w) != [] { WaiterNotBack(k, w, Q(k, w)[0]); }
    hide Core;
  }

  lemma StaysItself(k: Kernel, w: QueueId, timed: bool)
    ensures StaysFine(k, k, w, timed)
  {
  }

  lemma ViewQueue(k: Kernel, w: QueueId)
    ensures View(k, w).queue == Q(k, w)
  {
  }

  /** The chosen thread is back from `w` with one of the two statuses, or has nothing to do with it. */
  lemma ChosenWaited(k1: Kernel, w: QueueId)
    requires MidInv(k1) && Fine(k1, w, true) && !w.RunQ?
    ensures var n, c, v := NextThread(k1), T(k1, NextThread(k1)), View(k1, w);
      && (n in v.handed <==> Concerns(c, w) && c.blockRet == NO_ERROR)
      && (n in v.stale <==> Concerns(c, w) && c.blockRet == ERR_TIMED_OUT)
      && (Concerns(c, w) ==> c.blockRet == NO_ERROR || c.blockRet == ERR_TIMED_OUT)
  {
    hide Placed, JoinsOk, Registered, NextThread, Dispatch, Q;
    DispatchAside(k1, w);
    var c := k1.th[NextThread(k1)];
    if Concerns(c, w) { assert FineThread(c); }
  }

  lemma ReadyIsNotQueued(k1: Kernel, w: QueueId)
    requires MidInv(k1) && !w.RunQ?
    ensures NextThread(k1) !in View(k1, w).queue
  {
    NextIsReady(k1);
    hide NextThread, Top;
    assert Where(k1.th[NextThread(k1)]) != Some(w);
  }

  lemma ChosenStatus(k1: Kernel)
    requires MidInv(k1)
    ensures var n, k', c := NextThread(k1), Dispatch(k1), T(k1, NextThread(k1));
      n in k'.th && (c.cont != NoCont && !c.cont.JoinCont? ==> k'.th[n].ret == c.blockRet)
  {
    hide Dispatch, MidInv, NextThread;
    DispatchThreads(k1);
  }
}
