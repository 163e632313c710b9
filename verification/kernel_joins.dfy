/** The join protocol is kept by every step, which completes the invariant and gives its
    preservation over runs. */
module KernelJoins {
  import opened Wrappers
  import opened KernelState
  import opened KernelSteps
  import opened KernelInvariant

  /** The thread has to do with wait queue `w`: it waits there, or was woken and has not yet run. */
  predicate Concerns(c: Tcb, w: QueueId) {
    c.cont != NoCont && ContQueue(c.cont) == w
  }

  /** A step aimed at wait queue `w` leaves a thread concerned with another queue as it is, lets no
      other thread become concerned with another queue, leaves alone who was woken and has not run
      yet, suspends nobody, and neither revives the dead nor changes their exit codes. */
  predicate Undisturbed(c: Tcb, c': Tcb, w: QueueId) {
    && (c.cont != NoCont ==> c'.cont == c.cont)
    && (c'.cont != NoCont && !Concerns(c', w) ==>
          c'.cont == c.cont && c'.state == c.state && c'.blockRet == c.blockRet && c'.armed == c.armed)
    && (c'.state == Suspended ==> c.state == Suspended)
    && (c.cont != NoCont && c.state != Blocked ==> c'.state == c.state && c'.blockRet == c.blockRet)
    && (c.state == Death ==> c'.state == Death && c'.retcode == c.retcode)
    && (!c.magic ==> !c'.magic)
  }

  predicate SameStanding(c: Tcb, c': Tcb) {
    c'.detached == c.detached && c'.magic == c.magic && (c'.state == Death <==> c.state == Death)
  }

  /** From `k` to `k'` only wait queue `w` and the threads concerned with it were dealt with. */
  ghost predicate Aside(k: Kernel, k': Kernel, w: QueueId) {
    && k'.current == k.current && k'.idle == k.idle && k.th.Keys <= k'.th.Keys
    && (forall t | t in k.th :: Undisturbed(k.th[t], k'.th[t], w))
    && (forall t | t in k'.th && t !in k.th && k'.th[t].cont != NoCont :: Concerns(k'.th[t], w))
    && (forall v: QueueId {:trigger Q(k', v)} {:trigger Q(k, v)} :: !v.RunQ? && v != w ==> Q(k', v) == Q(k, v))
  }

  /** ... and moreover no thread died, was detached or was unlinked. */
  ghost predicate Neutral(k: Kernel, k': Kernel, w: QueueId) {
    Aside(k, k', w) && forall t | t in k.th :: SameStanding(k.th[t], k'.th[t])
  }

  lemma NeutralKeeps(k: Kernel, k': Kernel, w: QueueId)
    requires JoinsOk(k) && Neutral(k, k', w) && !w.JoinQ?
    ensures JoinsOk(k')
  {
    forall j, t | Joining(k', j, t) ensures Joining(k, j, t) && k.th[j].state == k'.th[j].state {}
  }

  lemma AsideTwice(k: Kernel, k1: Kernel, k2: Kernel, w: QueueId)
    requires Aside(k, k1, w) && Aside(k1, k2, w)
    ensures Aside(k, k2, w)
  {
  hide Q;
  }

  lemma NeutralTwice(k: Kernel, k1: Kernel, k2: Kernel, w: QueueId)
    requires Neutral(k, k1, w) && Neutral(k1, k2, w)
    ensures Neutral(k, k2, w)
  {
    AsideTwice(k, k1, k2, w);
  }

  /** Only one thread's fields, and perhaps some run queue, changed. */
  lemma NeutralThread(k: Kernel, k': Kernel, t: Tid, c: Tcb, w: QueueId)
    requires t in k.th && k'.th == k.th[t := c] && k'.wq == k.wq && k'.current == k.current && k'.idle == k.idle
    requires Undisturbed(k.th[t], c, w) && SameStanding(k.th[t], c)
    ensures Neutral(k, k', w)
  {
    AsideThread(k, k', t, c, w);
    hide Aside, Undisturbed, Q;
    forall u | u in k.th ensures SameStanding(k.th[u], k'.th[u]) { ChangesNothing(k.th[u], w); }
  }

  lemma AsideThread(k: Kernel, k': Kernel, t: Tid, c: Tcb, w: QueueId)
    requires t in k.th && k'.th == k.th[t := c] && k'.wq == k.wq && k'.current == k.current && k'.idle == k.idle
    requires Undisturbed(k.th[t], c, w)
    ensures Aside(k, k', w)
  {
    hide Undisturbed, SameStanding;
    forall u | u in k.th ensures Undisturbed(k.th[u], k'.th[u], w) { ChangesNothing(k.th[u], w); }
  }

  /** wait_queue_wake_one touches the thread it wakes and, when it reschedules, the caller. */
  lemma WakeOneEffect(k: Kernel, w: QueueId, resched: bool, err: int)
    requires Core(k, {}, true) && !w.RunQ? && Q(k, w) != []
    ensures var u, k' := Q(k, w)[0], WakeOne(k, w, resched, err);
      && u in k.th && u != k.current
      && k'.th.Keys == k.th.Keys && k'.wq == k.wq[w := Q(k, w)[1..]] && k' == k.(th := k'.th, rq := k'.rq, wq := k'.wq)
      && (forall t | t in k.th :: k'.th[t] ==
            if t == u then Woken(k.th[t], err)
            else if t == k.current && resched then k.th[t].(state := Ready)
            else k.th[t])
  {
    hide Placed, Registered, Busy, TcbOk, Q, Woken, InsertHead, Requeue;
    Waiter(k, w, Q(k, w)[0], {}, true);
  }

  lemma ChangesNothing(c: Tcb, w: QueueId)
    ensures Undisturbed(c, c, w) && SameStanding(c, c)
  {
  }

  lemma BecomesReady(c: Tcb, w: QueueId)
    requires c.state == Running && c.cont == NoCont
    ensures Undisturbed(c, c.(state := Ready), w) && SameStanding(c, c.(state := Ready))
  {
  }

  lemma BecomesWoken(c: Tcb, w: QueueId, err: int)
    requires c.state == Blocked && Concerns(c, w)
    ensures Undisturbed(c, Woken(c, err), w) && SameStanding(c, Woken(c, err))
  {
  }

  lemma WakeOneNeutral(k: Kernel, w: QueueId, resched: bool, err: int)
    requires Core(k, {}, true) && !w.RunQ?
    ensures Neutral(k, WakeOne(k, w, resched, err), w)
  {
    hide Core, Undisturbed, SameStanding;
    var k' := WakeOne(k, w, resched, err);
    forall t | t in k.th ensures t in k'.th && Undisturbed(k.th[t], k'.th[t], w) && SameStanding(k.th[t], k'.th[t]) {
      ChangesNothing(k.th[t], w);
      if Q(k, w) != [] {
        hide WakeOne;
        WakeOneEffect(k, w, resched, err);
        Waiter(k, w, Q(k, w)[0], {}, true);
        CurrentHasNoCont(k);
        hide Q;
        if t == k.current { BecomesReady(k.th[t], w); }
        if k.th[t].cont != NoCont && ContQueue(k.th[t].cont) == w && k.th[t].state == Blocked {
          BecomesWoken(k.th[t], w, err);
        }
      }
    }
    if Q(k, w) != [] {
      WakeOneEffect(k, w, resched, err);
      hide WakeOne;
    }
  }

  lemma WakeAllNeutral(k: Kernel, w: QueueId, resched: bool, err: int, b: bool)
    requires Core(k, {}, b) && !w.RunQ? && (resched ==> b)
    ensures Neutral(k, WakeAll(k, w, resched, err), w)
  {
    hide Core, WakeAll, Undisturbed, SameStanding;
    var k' := WakeAll(k, w, resched, err);
    WakeAllEffect(k, w, resched, err, b);
    forall t | t in k.th ensures t in k'.th && Undisturbed(k.th[t], k'.th[t], w) && SameStanding(k.th[t], k'.th[t]) {
      if b { CurrentHasNoCont(k); }
      ChangesNothing(k.th[t], w);
      if t in Q(k, w) {
        Waiter(k, w, t, {}, b);
        BecomesWoken(k.th[t], w, err);
      } else if b && t == k.current {
        BecomesReady(k.th[t], w);
      }
    }
  }

  lemma EnqueueNeutral(k: Kernel, timeout: Timeout, cont: Cont)
    requires Core(k, {}, true) && cont != NoCont
    ensures Neutral(k, Enqueue(k, timeout, cont), ContQueue(cont))
  {
    CurrentHasNoCont(k);
    hide Core;
  }

  lemma CurrentHasNoCont(k: Kernel)
    requires Core(k, {}, true)
    ensures k.current in k.th && k.th[k.current].state == Running && k.th[k.current].cont == NoCont
  {
    assert TcbOk(k, k.th[k.current]);
  }

  lemma YieldNeutral(k: Kernel, w: QueueId)
    requires Core(k, {}, true)
    ensures Neutral(k, YieldAct(k), w)
  {
    CurrentHasNoCont(k);
    hide Core, InsertTail;
    NeutralThread(k, YieldAct(k), k.current, Cur(k).(state := Ready, quantum := 0), w);
  }

  lemma PreemptNeutral(k: Kernel, w: QueueId)
    requires Core(k, {}, true)
    ensures Neutral(k, PreemptAct(k), w)
  {
    hide Core, InsertTail, InsertHead, Undisturbed, SameStanding;
    CurrentHasNoCont(k);
    BecomesReady(Cur(k), w);
    NeutralThread(k, PreemptAct(k), k.current, Cur(k).(state := Ready), w);
  }

  lemma BecomesShorter(c: Tcb, q: int, w: QueueId)
    requires c.state == Running && c.cont == NoCont
    ensures Undisturbed(c, c.(quantum := q), w) && SameStanding(c, c.(quantum := q))
    ensures Undisturbed(c, c.(quantum := q).(state := Ready), w) && SameStanding(c, c.(quantum := q).(state := Ready))
  {
  }

  lemma TickNeutral(k: Kernel, w: QueueId)
    requires Core(k, {}, true)
    ensures Neutral(k, TickAct(k), w)
  {
    hide Core, InsertTail, InsertHead, Undisturbed, SameStanding, TickReschedules;
    CurrentHasNoCont(k);
    var c := Cur(k).(quantum := Cur(k).quantum - 1);
    BecomesShorter(Cur(k), Cur(k).quantum - 1, w);
    if !Cur(k).realTime && !Cur(k).idleFlag {
      NeutralThread(k, TickAct(k), k.current, if TickReschedules(k) then c.(state := Ready) else c, w);
    } else {
      ChangesNothing(Cur(k), w);
      NeutralThread(k, TickAct(k), k.current, Cur(k), w);
    }
  }

  lemma SetPriorityNeutral(k: Kernel, p: int, w: QueueId)
    requires Core(k, {}, true)
    ensures Neutral(k, SetPriorityAct(k, p), w)
  {
    CurrentHasNoCont(k);
    hide Core, Requeue;
    NeutralThread(k, SetPriorityAct(k, p), k.current, Cur(k).(priority := ClampPriority(p), state := Ready), w);
  }

  lemma ReturnNeutral(k: Kernel, status: int, w: QueueId)
    requires Core(k, {}, true)
    ensures Neutral(k, Return(k, status), w)
  {
    CurrentHasNoCont(k);
    hide Core;
    NeutralThread(k, Return(k, status), k.current, Cur(k).(ret := status), w);
  }

  lemma CreateNeutral(k: Kernel, t: Tid, base: nat, w: QueueId)
    requires t !in k.th
    ensures Neutral(k, CreateAct(k, t, base), w)
  {
  }

  lemma SetRealTimeNeutral(k: Kernel, t: Tid, w: QueueId)
    requires Core(k, {}, true) && t in k.th
    ensures Neutral(k, Act(k, SetRealTime(t)), w)
  {
    hide Neutral, Placed, Registered;
    var k1 := SetT(k, t, k.th[t].(realTime := true));
    PutT(k, t, k.th[t].(realTime := true), {}, true, true);
    hide Core;
    NeutralThread(k, k1, t, k.th[t].(realTime := true), w);
    ReturnNeutral(k1, NO_ERROR, w);
    NeutralTwice(k, k1, Return(k1, NO_ERROR), w);
  }

  lemma ResumeNeutral(k: Kernel, t: Tid, w: QueueId)
    requires Core(k, {}, true) && t in k.th
    ensures Neutral(k, ResumeAct(k, t), w)
  {
    ReturnNeutral(k, NO_ERROR, w);
    var c := k.th[t].(state := Ready);
    var k1 := InsertHead(SetT(k, t, c), t);
    if k.th[t].state == Suspended {
      assert TcbOk(k, k.th[t]);
      CurrentHasNoCont(k);
      hide Core, InsertHead;
      NeutralThread(k, k1, t, c, w);
      NeutralThread(k1, Return(k1, NO_ERROR), k.current, Cur(k1).(ret := NO_ERROR), w);
      NeutralTwice(k, k1, Return(k1, NO_ERROR), w);
    }
  }

  /** Values outside the threads and queues do not matter here. */
  lemma NeutralObjects(k: Kernel, k1: Kernel, k2: Kernel, w: QueueId)
    requires Neutral(k1, k2, w) && k1.th == k.th && k1.rq == k.rq && k1.wq == k.wq
    requires k1.current == k.current && k1.idle == k.idle
    ensures Neutral(k, k2, w)
  {
    forall v: QueueId ensures Q(k1, v) == Q(k, v) {}
  }

  lemma MutexAcquireNeutral(k: Kernel, m: nat, timeout: Timeout)
    requires Core(k, {}, true)
    ensures Neutral(k, MutexAcquireAct(k, m, timeout), MutexQ(m))
  {
    hide Core, Neutral, Enqueue;
    var s, w := Mx(k, m), MutexQ(m);
    if s.count + 1 <= 1 {
      var k1 := SetMx(k, m, MutexState(Some(k.current), s.count + 1));
      CoreFrame(k, k1, {}, true);
      ReturnNeutral(k1, NO_ERROR, w);
      NeutralObjects(k, k1, Return(k1, NO_ERROR), w);
    } else if timeout == Poll {
      ReturnNeutral(k, ERR_TIMED_OUT, w);
    } else {
      var k1 := SetMx(k, m, s.(count := s.count + 1));
      CoreFrame(k, k1, {}, true);
      EnqueueNeutral(k1, timeout, AcquireCont(m));
      NeutralObjects(k, k1, Enqueue(k1, timeout, AcquireCont(m)), w);
    }
  }

  lemma MutexReleaseNeutral(k: Kernel, m: nat)
    requires Core(k, {}, true)
    ensures Neutral(k, MutexReleaseAct(k, m), MutexQ(m))
  {
    hide Core, Neutral, WakeOne;
    var w := MutexQ(m);
    var k1 := SetMx(k, m, MutexState(None, Mx(k, m).count - 1));
    var k2 := Return(k1, NO_ERROR);
    CoreFrame(k, k1, {}, true);
    ReturnNeutral(k1, NO_ERROR, w);
    NeutralObjects(k, k1, k2, w);
    if Mx(k, m).count - 1 >= 1 {
      ReturnCore(k1, NO_ERROR);
      WakeOneNeutral(k2, w, true, NO_ERROR);
      NeutralTwice(k, k2, WakeOne(k2, w, true, NO_ERROR), w);
    }
  }

  lemma SemWaitNeutral(k: Kernel, s: nat, timeout: Timeout, timed: bool)
    requires Core(k, {}, true)
    ensures Neutral(k, SemTimedWaitAct(k, s, timeout, timed), SemQ(s))
  {
    hide Core, Neutral, Enqueue;
    var w := SemQ(s);
    var k1 := SetSm(k, s, Sm(k, s) - 1);
    CoreFrame(k, k1, {}, true);
    if Sm(k, s) - 1 >= 0 {
      ReturnNeutral(k1, NO_ERROR, w);
      NeutralObjects(k, k1, Return(k1, NO_ERROR), w);
    } else if timeout == Poll {
      ReturnNeutral(k, ERR_TIMED_OUT, w);
    } else {
      EnqueueNeutral(k1, timeout, SemCont(s, timed));
      NeutralObjects(k, k1, Enqueue(k1, timeout, SemCont(s, timed)), w);
    }
  }

  lemma SemTryWaitNeutral(k: Kernel, s: nat)
    requires Core(k, {}, true)
    ensures Neutral(k, SemTryWaitAct(k, s), SemQ(s))
  {
    hide Core, Neutral;
    var k1 := SetSm(k, s, Sm(k, s) - 1);
    CoreFrame(k, k1, {}, true);
    ReturnNeutral(k1, NO_ERROR, SemQ(s));
    NeutralObjects(k, k1, Return(k1, NO_ERROR), SemQ(s));
    ReturnNeutral(k, ERR_NOT_READY, SemQ(s));
  }

  lemma SemPostNeutral(k: Kernel, s: nat, resched: bool)
    requires Core(k, {}, true)
    ensures Neutral(k, SemPostAct(k, s, resched), SemQ(s))
  {
    hide Core, Neutral, WakeOne;
    var n, w := Sm(k, s) + 1, SemQ(s);
    var k1 := SetSm(k, s, n);
    var status := if n <= 0 && Q(k, w) != [] then 1 else 0;
    var k2 := Return(k1, status);
    CoreFrame(k, k1, {}, true);
    ReturnNeutral(k1, status, w);
    NeutralObjects(k, k1, k2, w);
    if n <= 0 {
      ReturnCore(k1, status);
      WakeOneNeutral(k2, w, resched, NO_ERROR);
      NeutralTwice(k, k2, WakeOne(k2, w, resched, NO_ERROR), w);
    }
  }

  lemma EventWaitNeutral(k: Kernel, e: nat, timeout: Timeout)
    requires Core(k, {}, true)
    ensures Neutral(k, EventWaitAct(k, e, timeout), EventQ(e))
    ensures Neutral(k, Act(k, EventUnsignal(e)), EventQ(e))
  {
    hide Core, Neutral, Enqueue, SetT, Cur;
    var k1, w := SetEv(k, e, Ev(k, e).(signaled := false)), EventQ(e);
    CoreFrame(k, k1, {}, true);
    ReturnNeutral(k1, NO_ERROR, w);
    NeutralObjects(k, k1, Return(k1, NO_ERROR), w);
    ReturnNeutral(k, NO_ERROR, w);
    ReturnNeutral(k, ERR_TIMED_OUT, w);
    EnqueueNeutral(k, timeout, EventCont(e));
  }

  lemma EventSignalNeutral(k: Kernel, e: nat, resched: bool)
    requires Core(k, {}, true)
    ensures Neutral(k, EventSignalAct(k, e, resched), EventQ(e))
  {
    hide Core, Neutral, WakeOne, WakeAll, Return;
    var w := EventQ(e);
    var k1 := Return(k, NO_ERROR);
    var k2 := SetEv(k1, e, Ev(k, e).(signaled := true));
    ReturnNeutral(k, NO_ERROR, w);
    ReturnCore(k, NO_ERROR);
    ObjectsNeutral(k1, k2, w);
    NeutralTwice(k, k1, k2, w);
    if !Ev(k, e).signaled {
      if Ev(k, e).auto {
        WakeOneNeutral(k1, w, resched, NO_ERROR);
        NeutralTwice(k, k1, WakeOne(k1, w, resched, NO_ERROR), w);
      } else {
        CoreFrame(k1, k2, {}, true);
        WakeAllNeutral(k2, w, resched, NO_ERROR, true);
        NeutralTwice(k, k2, WakeAll(k2, w, resched, NO_ERROR), w);
      }
    }
  }

  lemma ObjectsNeutral(k: Kernel, k': Kernel, w: QueueId)
    requires k'.th == k.th && k'.rq == k.rq && k'.wq == k.wq && k'.current == k.current && k'.idle == k.idle
    ensures Neutral(k, k', w)
  {
    forall v: QueueId ensures Q(k', v) == Q(k, v) {}
  }

  // ----- the calls of the join protocol itself -----

  lemma JoinJoins(k: Kernel, t: Tid, timeout: Timeout)
    requires Inv(k) && Enabled(k, Join(t, timeout))
    ensures JoinsOk(JoinAct(k, t, timeout))
  {
    CurrentHasNoCont(k);
    if T(k, t).detached {
      ReturnNeutral(k, ERR_THREAD_DETACHED, RunQ(0));
      NeutralKeeps(k, JoinAct(k, t, timeout), RunQ(0));
    } else if T(k, t).state == Death {
      FinishJoinJoins(k, t);
    } else if timeout == Poll {
      ReturnNeutral(k, ERR_TIMED_OUT, RunQ(0));
      NeutralKeeps(k, JoinAct(k, t, timeout), RunQ(0));
    } else {
      JoinBlockJoins(k, t, timeout);
    }
  }

  lemma FinishJoinJoins(k: Kernel, t: Tid)
    requires Inv(k) && Live(k, t) && k.th[t].state == Death && NoJoiner(k, t)
    ensures JoinsOk(FinishJoin(k, k.current, t))
  {
    hide Registered, Sane, Placed, Busy;
    CurrentHasNoCont(k);
    hide Scheduled, Without;
    var k' := FinishJoin(k, k.current, t);
    forall j, u | Joining(k', j, u) ensures Joining(k, j, u) && u != t {}
  }

  lemma JoinBlockJoins(k: Kernel, t: Tid, timeout: Timeout)
    requires Inv(k) && Live(k, t) && k.th[t].state != Death && !k.th[t].detached && NoJoiner(k, t)
    ensures JoinsOk(Enqueue(k, timeout, JoinCont(t)))
  {
    hide Inv, Core, Enqueue, NoJoiner, JoinsOk;
    InvIsCore(k);
    CurrentHasNoCont(k);
    QueuedThreads(k, timeout, JoinCont(t));
    OneMoreJoin(k, Enqueue(k, timeout, JoinCont(t)), k.current, t);
  }

  lemma OneMoreJoin(k: Kernel, k': Kernel, j: Tid, t: Tid)
    requires JoinsOk(k) && NoJoiner(k, t) && Live(k, t) && !k.th[t].detached && k.th[t].state != Death
    requires j in k.th && k.th[j].cont == NoCont && k.th[j].state == Running && k'.th.Keys == k.th.Keys
    requires forall u | u in k.th && u != j :: k'.th[u] == k.th[u]
    requires k'.th[j].cont == JoinCont(t) && k'.th[j].state == Blocked
    requires k'.th[j].detached == k.th[j].detached && k'.th[j].magic == k.th[j].magic
    ensures JoinsOk(k')
  {
    forall i, u | Joining(k', i, u) ensures (i == j && u == t) || (i != j && u != t && Joining(k, i, u)) {}
  }

  lemma QueuedThreads(k: Kernel, timeout: Timeout, cont: Cont)
    requires cont != NoCont && k.current in k.th
    ensures var k', c := Enqueue(k, timeout, cont), k.th[k.current];
      && k'.th.Keys == k.th.Keys && (forall t | t in k.th && t != k.current :: k'.th[t] == k.th[t])
      && k'.th[k.current] == c.(state := Blocked, waitOn := Some(ContQueue(cont)), blockRet := NO_ERROR,
        cont := cont, armed := timeout == Finite)
  {
  }

  /** The waiters of a join queue, and how waking them ends their joins' hold on the target. */
  lemma JoinWaiters(k: Kernel, t: Tid, b: bool)
    requires Core(k, {}, b)
    ensures forall j :: j in Q(k, JoinQ(t)) <==> j in k.th && k.th[j].state == Blocked && k.th[j].cont == JoinCont(t)
  {
    forall j | j in Q(k, JoinQ(t)) ensures j in k.th && k.th[j].state == Blocked && k.th[j].cont == JoinCont(t) {
      Waiter(k, JoinQ(t), j, {}, b);
    }
    forall j | j in k.th && k.th[j].state == Blocked && k.th[j].cont == JoinCont(t) ensures j in Q(k, JoinQ(t)) {
      assert TcbOk(k, k.th[j]);
    }
  }

  lemma SetDetachedEffect(k: Kernel, t: Tid)
    requires t in k.th && k.current in k.th
    ensures var k', dead := SetDetached(k, t), k.th[t].state == Death;
      && k'.th.Keys == k.th.Keys && k'.current == k.current && k'.idle == k.idle
      && (forall u | u in k.th :: k'.th[u] ==
            k.th[u].(detached := if u == t then !dead else k.th[u].detached,
                     ret := if u == k.current && !dead then NO_ERROR else k.th[u].ret))
  {
  }

  /** What thread_detach does to the threads: the joiner, if any, is turned away. */
  lemma DetachEffect(k: Kernel, t: Tid)
    requires Core(k, {}, true) && t in k.th
    ensures var k', dead := DetachAct(k, t), k.th[t].state == Death;
      && k'.th.Keys == k.th.Keys && k'.current == k.current
      && (forall u | u in k.th ::
            var c := if u in Q(k, JoinQ(t)) then Woken(k.th[u], ERR_THREAD_DETACHED) else k.th[u];
            k'.th[u] == c.(detached := if u == t then !dead else c.detached,
                           ret := if u == k.current && !dead then NO_ERROR else c.ret))
  {
    hide WakeAll, Placed, Busy, T, SetT, Return;
    var k1 := WakeAll(k, JoinQ(t), false, ERR_THREAD_DETACHED);
    WakeAllEffect(k, JoinQ(t), false, ERR_THREAD_DETACHED, true);
    if t in Q(k, JoinQ(t)) { Waiter(k, JoinQ(t), t, {}, true); }
    hide Core;
    SetDetachedEffect(k1, t);
    hide SetDetached;
  }

  /** A step that starts no join and leaves the targets of those that go on as they were. */
  lemma FewerJoins(k: Kernel, k': Kernel)
    requires JoinsOk(k)
    requires forall j, u | Joining(k', j, u) ::
      && Joining(k, j, u) && (k'.th[j].state == Blocked <==> k.th[j].state == Blocked)
      && Live(k', u) && k'.th[u].detached == k.th[u].detached && (k'.th[u].state == Death <==> k.th[u].state == Death)
    ensures JoinsOk(k')
  {
  }

  lemma DetachJoins(k: Kernel, t: Tid)
    requires Inv(k) && Enabled(k, Detach(t))
    ensures JoinsOk(DetachAct(k, t))
  {
    hide Q, SetDetached, WakeAll, Sane, Placed, NoDup;
    var k' := DetachAct(k, t);
    DetachEffect(k, t);
    JoinWaiters(k, t, true);
    hide Scheduled, Registered, Core, DetachAct;
    forall j, u | Joining(k', j, u)
      ensures Joining(k, j, u) && (k'.th[j].state == Blocked <==> k.th[j].state == Blocked)
      ensures u in k'.th && u != t
    {}
    hide JoinsOk;
    FewerJoins(k, k');
  }

  lemma ExitJoins(k: Kernel, code: int)
    requires Inv(k) && Enabled(k, Exit(code))
    ensures JoinsOk(ExitAct(k, code))
  {
    CurrentHasNoCont(k);
    if Cur(k).detached {
      DetachedExitJoins(k, code);
    } else {
      AttachedExitJoins(k, code);
    }
  }

  lemma DetachedExitJoins(k: Kernel, code: int)
    requires Inv(k) && Cur(k).detached
    ensures JoinsOk(ExitAct(k, code))
  {
    hide Inv, Scheduled, Registered, Core, ExitAct;
    InvIsCore(k);
    CurrentHasNoCont(k);
    DetachedExitThreads(k, code);
    var k' := ExitAct(k, code);
    forall j, u | Joining(k', j, u) ensures Joining(k, j, u) && u != k.current {}
  }

  lemma DetachedExitThreads(k: Kernel, code: int)
    requires k.current in k.th && Cur(k).detached
    ensures ExitAct(k, code).th ==
      k.th[k.current := k.th[k.current].(state := Death, retcode := code, magic := false)]
  {
    hide Without;
  }

  lemma AttachedExitJoins(k: Kernel, code: int)
    requires Inv(k) && !Cur(k).detached && k.current != k.idle
    ensures JoinsOk(ExitAct(k, code))
  {
    hide Inv, Scheduled, Core, ExitAct;
    var t, k' := k.current, ExitAct(k, code);
    InvIsCore(k);
    CurrentHasNoCont(k);
    AttachedExitThreads(k, code);
    forall j, u | Joining(k', j, u) ensures Joining(k, j, u) {}
    forall j, u | Joining(k', j, u)
      ensures Live(k', u) && !k'.th[u].detached && (k'.th[j].state == Blocked <==> k'.th[u].state != Death)
    {
      if u == t { assert k.th[j].state == Blocked; }
    }
  }

  lemma AttachedExitThreads(k: Kernel, code: int)
    requires Core(k, {}, true) && !Cur(k).detached && k.current != k.idle
    ensures var t, k' := k.current, ExitAct(k, code);
      && t in k.th && k'.th.Keys == k.th.Keys && k'.th[t] == k.th[t].(state := Death, retcode := code)
      && (forall j | j in k.th && j != t :: (k'.th[j] ==
            if k.th[j].state == Blocked && k.th[j].cont == JoinCont(t) then Woken(k.th[j], NO_ERROR) else k.th[j]))
  {
    hide Core, WakeAll, Q, Woken;
    var t, k1 := k.current, Dying(k, code);
    DyingCore(k, code);
    WakeAllEffect(k1, JoinQ(t), false, NO_ERROR, false);
    JoinWaiters(k1, t, false);
  }

  lemma ExpireJoins(k: Kernel, t: Tid)
    requires Inv(k) && Enabled(k, Expire(t))
    ensures JoinsOk(ExpireAct(k, t))
  {
    hide Inv, Scheduled, Registered, Core, ExpireAct;
    InvIsCore(k);
    ExpireThread(k, t);
    forall j, u | Joining(ExpireAct(k, t), j, u) ensures Joining(k, j, u) && j != t {}
  }

  lemma ExpireThread(k: Kernel, u: Tid)
    requires Core(k, {}, true) && Enabled(k, Expire(u))
    ensures ExpireAct(k, u).th == k.th[u := Woken(k.th[u], ERR_TIMED_OUT)]
  {
    assert TcbOk(k, k.th[u]);
    hide Core, Without, SetQ, InsertHead;
  }

  /** The wait queue a call is about; RunQ(0) stands for none. */
  function Target(k: Kernel, op: Op): QueueId {
    match op
    case Join(t, _) => JoinQ(t)
    case Detach(t) => JoinQ(t)
    case Exit(_) => JoinQ(k.current)
    case Expire(t) => if T(k, t).waitOn.Some? then T(k, t).waitOn.value else RunQ(0)
    case MutexInit(m) => MutexQ(m)
    case MutexAcquire(m, _) => MutexQ(m)
    case MutexRelease(m) => MutexQ(m)
    case SemInit(s, _) => SemQ(s)
    case SemWait(s) => SemQ(s)
    case SemTryWait(s) => SemQ(s)
    case SemTimedWait(s, _) => SemQ(s)
    case SemPost(s, _) => SemQ(s)
    case EventInit(e, _, _) => EventQ(e)
    case EventWait(e, _) => EventQ(e)
    case EventSignal(e, _) => EventQ(e)
    case EventUnsignal(e) => EventQ(e)
    case _ => RunQ(0)
  }

  lemma ActNeutral(k: Kernel, op: Op)
    requires Core(k, {}, true) && Enabled(k, op)
    requires !op.Join? && !op.Detach? && !op.Exit? && !op.Expire?
    ensures Neutral(k, Act(k, op), Target(k, op))
  {
    hide Core, Neutral, YieldAct, PreemptAct, TickAct, SetPriorityAct, CreateAct, ResumeAct;
    hide MutexAcquireAct, MutexReleaseAct, SemTimedWaitAct, SemTryWaitAct, SemPostAct, EventWaitAct;
    hide EventSignalAct;
    var w := Target(k, op);
    match op
    case Yield => YieldNeutral(k, w);
    case Preempt => PreemptNeutral(k, w);
    case Tick => TickNeutral(k, w);
    case SetPriority(p) => SetPriorityNeutral(k, p, w);
    case SetRealTime(t) => SetRealTimeNeutral(k, t, w);
    case Create(t, base) => CreateNeutral(k, t, base, w);
    case Resume(t) => ResumeNeutral(k, t, w);
    case MutexAcquire(m, timeout) => MutexAcquireNeutral(k, m, timeout);
    case MutexRelease(m) => MutexReleaseNeutral(k, m);
    case SemWait(s) => SemWaitNeutral(k, s, Infinite, false);
    case SemTryWait(s) => SemTryWaitNeutral(k, s);
    case SemTimedWait(s, timeout) => SemWaitNeutral(k, s, timeout, true);
    case SemPost(s, resched) => SemPostNeutral(k, s, resched);
    case EventWait(e, timeout) => EventWaitNeutral(k, e, timeout);
    case EventSignal(e, resched) => EventSignalNeutral(k, e, resched);
    case EventUnsignal(e) => EventWaitNeutral(k, e, Poll);
    case MutexInit(_) | SemInit(_, _) | EventInit(_, _, _) => ObjectsNeutral(k, Act(k, op), w);
  }

  lemma ActJoins(k: Kernel, op: Op)
    requires Inv(k) && Enabled(k, op)
    ensures JoinsOk(Act(k, op))
  {
    hide Core, Neutral, JoinAct, DetachAct, ExitAct, ExpireAct, JoinsOk, Inv, Enabled;
    InvIsCore(k);
    match op
    case Join(t, timeout) => JoinJoins(k, t, timeout);
    case Detach(t) => DetachJoins(k, t);
    case Exit(code) => ExitJoins(k, code);
    case Expire(t) => ExpireJoins(k, t);
    case _ => NeutralJoins(k, op);
  }

  lemma NeutralJoins(k: Kernel, op: Op)
    requires Inv(k) && Enabled(k, op) && !op.Join? && !op.Detach? && !op.Exit? && !op.Expire?
    ensures JoinsOk(Act(k, op))
  {
    hide Core, Neutral, JoinsOk, Inv, Enabled, Act;
    InvIsCore(k);
    ActNeutral(k, op);
    NeutralKeeps(k, Act(k, op), Target(k, op)) by { assert JoinsOk(k); }
  }

  lemma InvIsCore(k: Kernel)
    ensures Inv(k) <==> Core(k, {}, true) && JoinsOk(k)
    ensures MidInv(k) <==> Core(k, {}, false) && JoinsOk(k)
  {
  }

  // ----- steps and runs -----

  /** Every enabled step keeps the invariant, and thread_resched is only called where it may be. */
  lemma StepKeepsInv(k: Kernel, op: Op)
    requires Inv(k) && Enabled(k, op)
    ensures Inv(Step(k, op))
    ensures Reschedules(k, op) ==> MidInv(Act(k, op))
  {
    hide Act, TickReschedules, T;
    ActCore(k, op);
    ActJoins(k, op);
    if Reschedules(k, op) { DispatchKeepsInv(Act(k, op)); }
  }

  lemma BootInv(boot: Tid, idle: Tid)
    requires boot != idle
    ensures Inv(Boot(boot, idle))
  {
    var k := Boot(boot, idle);
    forall id ensures Q(k, id) == [] {}
  }

  /** The state/queue invariant holds after every run from the booted kernel. */
  lemma {:induction false} RunKeepsInv(k: Kernel, ops: seq<Op>)
    requires Inv(k) && Runs(k, ops)
    ensures Inv(Run(k, ops))
    decreases |ops|
  {
    if ops != [] {
      StepKeepsInv(k, ops[0]);
      RunKeepsInv(Step(k, ops[0]), ops[1..]);
    }
  }
}
