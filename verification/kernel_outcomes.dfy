/** What the calls give their callers: statuses, and the order in which threads get to run next. */
module KernelOutcomes {
  import opened Wrappers
  import opened KernelState
  import opened KernelSteps
  import opened KernelInvariant
  import opened KernelJoins
  import opened KernelFrames
  import opened KernelFairness

  /** The call returns at once, with this status. */
  predicate Returns(k: Kernel, op: Op, status: int) {
    var k' := Step(k, op);
    k'.current == k.current && k.current in k'.th && k'.th[k.current].state == Running && k'.th[k.current].ret == status
  }

  /** The call blocks its caller in wait queue `w`, last in line, and another thread runs. */
  predicate Blocks(k: Kernel, op: Op, w: QueueId) {
    var k' := Step(k, op);
    && k'.current != k.current && k.current in k'.th && k'.th[k.current].state == Blocked
    && Q(k', w) == Q(k, w) + [k.current]
  }

  lemma ReturnReturns(k: Kernel, op: Op, k0: Kernel, status: int)
    requires Inv(k) && !Reschedules(k, op) && Act(k, op) == Return(k0, status)
    requires k0.current == k.current && k.current in k0.th && k0.th[k.current].state == Running
    ensures Returns(k, op, status)
  {
    hide Inv, Act, Reschedules;
  }

  lemma EnqueueBlocks(k: Kernel, op: Op, k0: Kernel, timeout: Timeout, cont: Cont)
    requires Inv(k) && Enabled(k, op) && Reschedules(k, op) && cont != NoCont
      && Act(k, op) == Enqueue(k0, timeout, cont)
    requires k0.current == k.current && k0.th == k.th && Q(k0, ContQueue(cont)) == Q(k, ContQueue(cont))
    ensures Blocks(k, op, ContQueue(cont))
  {
    hide Act, Inv, Enabled, Reschedules, Enqueue, Dispatch, ContQueue, Q, MidInv;
    StepKeepsInv(k, op);
    CurrentRuns(k);
    EnqueueEffect(k0, timeout, cont);
    var k1, w := Enqueue(k0, timeout, cont), ContQueue(cont);
    NotARunQueue(cont);
    BlockedStays(k1, k.current, w);
  }

  lemma CurrentRuns(k: Kernel)
    requires Inv(k)
    ensures k.current in k.th && k.th[k.current].state == Running
  {
  }

  lemma BlockedStays(k1: Kernel, t: Tid, w: QueueId)
    requires MidInv(k1) && t in k1.th && k1.th[t].state == Blocked && !w.RunQ?
    ensures var k' := Dispatch(k1); k'.current != t && t in k'.th && k'.th[t].state == Blocked && Q(k', w) == Q(k1, w)
  {
    hide Dispatch, Placed, JoinsOk, Registered, Q;
    NextIsReady(k1);
    DispatchAside(k1, w);
    DispatchFields(k1);
  }

  // ----- semaphores -----

  /** sem_timedwait: success at once exactly if the count is positive, else ERR_TIMED_OUT at once
      exactly if the timeout is zero, else the caller blocks. */
  lemma SemTimedWaitOutcome(k: Kernel, s: nat, timeout: Timeout)
    requires Inv(k) && Enabled(k, SemTimedWait(s, timeout))
    ensures var op := SemTimedWait(s, timeout);
      if Sm(k, s) > 0 then Returns(k, op, NO_ERROR) && Step(k, op).sm == k.sm[s := Sm(k, s) - 1]
      else if timeout == Poll then Returns(k, op, ERR_TIMED_OUT) && Step(k, op).sm == k.sm
      else Blocks(k, op, SemQ(s))
  {
    hide Enqueue, Dispatch, Returns, Blocks, Inv, Q;
    CurrentRuns(k);
    var op, k0 := SemTimedWait(s, timeout), SetSm(k, s, k.sm[s] - 1);
    if k.sm[s] > 0 {
      ReturnReturns(k, op, k0, NO_ERROR);
    } else if timeout == Poll {
      ReturnReturns(k, op, k, ERR_TIMED_OUT);
    } else {
      SetSmQ(k, s, k.sm[s] - 1, SemQ(s));
      EnqueueBlocks(k, op, k0, timeout, SemCont(s, true));
    }
  }

  lemma SetSmQ(k: Kernel, s: nat, n: int, w: QueueId)
    ensures Q(SetSm(k, s, n), w) == Q(k, w)
  {
  }

  /** sem_wait: success at once exactly if the count is positive, else the caller blocks. */
  lemma SemWaitOutcome(k: Kernel, s: nat)
    requires Inv(k) && Enabled(k, SemWait(s))
    ensures if Sm(k, s) > 0 then Returns(k, SemWait(s), NO_ERROR) && Step(k, SemWait(s)).sm == k.sm[s := Sm(k, s) - 1]
      else Blocks(k, SemWait(s), SemQ(s))
  {
    hide Enqueue, Dispatch, Returns, Blocks, Inv, Q;
    CurrentRuns(k);
    var k0 := SetSm(k, s, k.sm[s] - 1);
    if k.sm[s] > 0 {
      ReturnReturns(k, SemWait(s), k0, NO_ERROR);
    } else {
      SetSmQ(k, s, k.sm[s] - 1, SemQ(s));
      EnqueueBlocks(k, SemWait(s), k0, Infinite, SemCont(s, false));
    }
  }

  /** sem_trywait never blocks. */
  lemma SemTryWaitOutcome(k: Kernel, s: nat)
    requires Inv(k) && Enabled(k, SemTryWait(s))
    ensures if Sm(k, s) > 0 then Returns(k, SemTryWait(s), NO_ERROR)
      && Step(k, SemTryWait(s)).sm == k.sm[s := Sm(k, s) - 1]
      else Returns(k, SemTryWait(s), ERR_NOT_READY) && Step(k, SemTryWait(s)).sm == k.sm
  {
    hide Returns, Inv;
    CurrentRuns(k);
    if k.sm[s] > 0 {
      ReturnReturns(k, SemTryWait(s), SetSm(k, s, k.sm[s] - 1), NO_ERROR);
    } else {
      ReturnReturns(k, SemTryWait(s), k, ERR_NOT_READY);
    }
  }

  // ----- events -----

  /** event_wait_timeout: success at once exactly if the event is signaled, which clears it exactly in
      automatic mode; else ERR_TIMED_OUT at once exactly if the timeout is zero; else the caller
      blocks. */
  lemma EventWaitOutcome(k: Kernel, e: nat, timeout: Timeout)
    requires Inv(k) && Enabled(k, EventWait(e, timeout))
    ensures var op := EventWait(e, timeout);
      if Ev(k, e).signaled then Returns(k, op, NO_ERROR)
        && Step(k, op).ev == k.ev[e := EventState(!Ev(k, e).auto, Ev(k, e).auto)]
      else if timeout == Poll then Returns(k, op, ERR_TIMED_OUT) && Step(k, op).ev == k.ev
      else Blocks(k, op, EventQ(e))
  {
    hide Enqueue, Dispatch, Returns, Blocks, Inv, Q;
    CurrentRuns(k);
    var op := EventWait(e, timeout);
    if k.ev[e].signaled {
      assert k.ev[e := k.ev[e]] == k.ev;
      ReturnReturns(k, op, if k.ev[e].auto then SetEv(k, e, k.ev[e].(signaled := false)) else k, NO_ERROR);
    } else if timeout == Poll {
      ReturnReturns(k, op, k, ERR_TIMED_OUT);
    } else {
      EnqueueBlocks(k, op, k, timeout, EventCont(e));
    }
  }

  // ----- joining -----

  /** thread_join: which joins return at once, and with what, and which block. */
  lemma JoinStatus(k: Kernel, t: Tid, timeout: Timeout)
    requires Inv(k) && Enabled(k, Join(t, timeout))
    ensures var op := Join(t, timeout);
      if k.th[t].detached then Returns(k, op, ERR_THREAD_DETACHED)
      else if k.th[t].state == Death then Returns(k, op, NO_ERROR)
      else if timeout == Poll then Returns(k, op, ERR_TIMED_OUT)
      else Blocks(k, op, JoinQ(t))
  {
    hide Enqueue, Dispatch, Blocks, Inv, Q, Without;
    CurrentRuns(k);
    var op := Join(t, timeout);
    if !k.th[t].detached && k.th[t].state != Death && timeout != Poll {
      EnqueueBlocks(k, op, k, timeout, JoinCont(t));
    } else if k.th[t].detached || k.th[t].state != Death {
      ReturnReturns(k, op, k, if k.th[t].detached then ERR_THREAD_DETACHED else ERR_TIMED_OUT);
    }
  }

  // ----- coming back from a wait -----

  /** A thread that waited comes back, when it is dispatched, with the status it was woken with; a join
      that was woken with success completes. */
  lemma StatusDelivered(k: Kernel, op: Op)
    requires Inv(k) && Enabled(k, op) && Reschedules(k, op)
    ensures var k1, k' := Act(k, op), Step(k, op);
      var n := NextThread(k1);
      && n in k1.th && k'.current == n && n in k'.th && k'.th[n].state == Running && k'.th[n].cont == NoCont
      && (k1.th[n].cont != NoCont ==> k'.th[n].ret == k1.th[n].blockRet)
      && (k1.th[n].cont == NoCont ==> k'.th[n].ret == k1.th[n].ret)
  {
    hide Act, Inv, Enabled, Reschedules;
    StepKeepsInv(k, op);
    BlockRetOf(Act(k, op));
  }

  lemma BlockRetOf(k1: Kernel)
    requires MidInv(k1)
    ensures var n, k' := NextThread(k1), Dispatch(k1);
      && n in k1.th && k'.current == n && n in k'.th && k'.th[n].state == Running && k'.th[n].cont == NoCont
      && (k1.th[n].cont != NoCont ==> k'.th[n].ret == k1.th[n].blockRet)
      && (k1.th[n].cont == NoCont ==> k'.th[n].ret == k1.th[n].ret)
  {
    hide Dispatch, MidInv, NextThread, Without, Joining, Continued, Dispatched, TcbOk;
    DispatchThreads(k1);
    DispatchedStanding(k1);
    var n := NextThread(k1);
    ContinuedStatus(k1, n);
    assert TcbOk(k1, k1.th[n]) by { ThreadsOk(k1, n); }
  }

  lemma ThreadsOk(k1: Kernel, t: Tid)
    requires MidInv(k1) && t in k1.th
    ensures TcbOk(k1, k1.th[t])
  {
  }

  lemma ContinuedStatus(k1: Kernel, n: Tid)
    requires n in k1.th
    ensures var c, c' := k1.th[n], Continued(k1, Dispatched(k1, n));
      TcbOk(k1, c) ==> c'.ret == if c.cont == NoCont then c.ret else c.blockRet
  {
  }

  // ----- who runs next -----

  /** Just before wait_queue_wake_one reschedules, the woken thread is ahead of the caller, and both are
      ahead of whoever was there. */
  lemma WakeOneOrder(k: Kernel, w: QueueId, resched: bool, err: int, p: nat)
    requires Core(k, {}, true) && !w.RunQ? && Q(k, w) != [] && p < NUM_PRIORITIES
    ensures var u := Q(k, w)[0];
      Q(WakeOne(k, w, resched, err), RunQ(p)) ==
        (if T(k, u).priority == p then [u] else [])
        + ((if resched && Cur(k).priority == p then [k.current] else []) + Q(k, RunQ(p)))
  {
    hide Core, Requeue, Q, SetQ, InsertHead;
    var u := Q(k, w)[0];
    Waiter(k, w, u, {}, true);
    LevelsExist(k);
    var k1 := SetQ(k, w, Q(k, w)[1..]);
    var k2 := SetT(k1, u, Woken(T(k1, u), err));
    PoppedOrder(k, w, u, err, p);
    RequeuedFirst(k2, p);
    InsertedFirst(if resched then Requeue(k2) else k2, u, p);
  }

  lemma LevelsExist(k: Kernel)
    requires Core(k, {}, true)
    ensures |k.rq| == NUM_PRIORITIES && k.current in k.th
  {
  }

  lemma PoppedOrder(k: Kernel, w: QueueId, u: Tid, err: int, p: nat)
    requires !w.RunQ? && Q(k, w) != []
    ensures var k1 := SetQ(k, w, Q(k, w)[1..]);
      var k2 := SetT(k1, u, Woken(T(k1, u), err));
      && Q(k2, RunQ(p)) == Q(k, RunQ(p)) && k2.rq == k.rq && k2.current == k.current
      && forall t :: T(k2, t).priority == T(k, t).priority
  {
  }

  lemma RequeuedFirst(k: Kernel, p: nat)
    requires p < |k.rq|
    ensures var k' := Requeue(k);
      && Q(k', RunQ(p)) == (if Cur(k).priority == p then [k.current] else []) + Q(k, RunQ(p))
      && |k'.rq| == |k.rq| && forall t :: T(k', t).priority == T(k, t).priority
  {
  }

  lemma InsertedFirst(k: Kernel, t: Tid, p: nat)
    requires p < |k.rq|
    ensures Q(InsertHead(k, t), RunQ(p)) == (if T(k, t).priority == p then [t] else []) + Q(k, RunQ(p))
  {
  }

  /** A preempted thread of the highest level with quantum left goes on; without, it goes to the end of
      its level's line. */
  lemma PreemptTurn(k: Kernel, p: nat)
    requires Inv(k) && Enabled(k, Preempt) && TopLevel(k, p)
    ensures var k' := Step(k, Preempt);
      Line(k', p) == if Cur(k).quantum > 0 then Line(k, p) else Line(k, p)[1..] + [k.current]
  {
    hide PreemptAct, Inv, Dispatch, Cur, Q, JoinsOk, Dispatched, T, SetT;
    InvIsCore(k);
    StepKeepsInv(k, Preempt);
    var k1, q := PreemptAct(k), Q(k, RunQ(p));
    assert TopLevel(k, p);
    PreemptedQueues(k, p);
    assert Step(k, Preempt) == Dispatch(k1) && Act(k, Preempt) == k1;
    hide Core, Enabled, MidInv, TopLevel, Step, Act;
    DispatchedLine(k1, p);
    if Cur(k).quantum <= 0 {
      var n := (q + [k.current])[0];
      assert q + [k.current] == [n] + (q + [k.current])[1..];
    }
  }

  lemma PreemptedQueues(k: Kernel, p: nat)
    requires Core(k, {}, true) && TopLevel(k, p)
    ensures forall r: nat | r < NUM_PRIORITIES ::
      (Q(PreemptAct(k), RunQ(r)) ==
        if r != p then Q(k, RunQ(r))
        else if Cur(k).quantum > 0 then [k.current] + Q(k, RunQ(r))
        else Q(k, RunQ(r)) + [k.current])
  {
    hide Core, PreemptAct, Q;
    forall r: nat | r < NUM_PRIORITIES ensures Q(PreemptAct(k), RunQ(r)) ==
      (if r != p then Q(k, RunQ(r))
       else if Cur(k).quantum > 0 then [k.current] + Q(k, RunQ(r))
       else Q(k, RunQ(r)) + [k.current])
    {
      PreemptQueues(k, p, r);
    }
  }

  lemma PreemptQueues(k: Kernel, p: nat, r: nat)
    requires Core(k, {}, true) && T(k, k.current).priority == p && r < NUM_PRIORITIES
    ensures Q(PreemptAct(k), RunQ(r)) ==
      if r != p then Q(k, RunQ(r)) else if Cur(k).quantum > 0 then [k.current] + Q(k, RunQ(r))
        else Q(k, RunQ(r)) + [k.current]
  {
  }

  function Distance(p: int, q: int): nat {
    if p < q then q - p else p - q
  }

  /** thread_set_priority puts the caller at the head of the level of 1 to 31 nearest to the one asked for, so
      it goes on exactly if no READY thread is above that level. */
  lemma SetPriorityTurn(k: Kernel, priority: int)
    requires Inv(k) && Enabled(k, SetPriority(priority))
    ensures var k' := Step(k, SetPriority(priority));
      var p := T(k', k.current).priority;
      && k.current in k'.th
      && 1 <= p <= 31 && (forall q | 1 <= q <= 31 :: Distance(p, priority) <= Distance(q, priority))
      && (k'.current == k.current <==> forall r: nat | p < r < NUM_PRIORITIES :: Q(k, RunQ(r)) == [])
  {
    hide Inv, MidInv, Dispatch, Q, SetPriorityAct, ClampPriority;
    StepKeepsInv(k, SetPriority(priority));
    Clamped(priority);
    LevelChanged(k, priority);
    AtHeadOfLevel(SetPriorityAct(k, priority), k.current, ClampPriority(priority));
  }

  lemma Clamped(priority: int)
    ensures var p := ClampPriority(priority);
      1 <= p <= 31 && forall q | 1 <= q <= 31 :: Distance(p, priority) <= Distance(q, priority)
  {
  }

  lemma LevelChanged(k: Kernel, priority: int)
    requires Inv(k)
    ensures var k1, p := SetPriorityAct(k, priority), ClampPriority(priority);
      && k1.current == k.current && k.current in k1.th && k1.th[k.current].priority == p
      && (forall r: nat | r < NUM_PRIORITIES ::
            Q(k1, RunQ(r)) == (if r == p then [k.current] else []) + Q(k, RunQ(r)))
  {
    Clamped(priority);
    hide ClampPriority;
  }

  /** A thread at the head of level `p` is picked exactly if the levels above are empty. */
  lemma AtHeadOfLevel(k1: Kernel, t: Tid, p: nat)
    requires MidInv(k1) && t in k1.th && k1.th[t].priority == p < NUM_PRIORITIES
    requires Q(k1, RunQ(p)) != [] && Q(k1, RunQ(p))[0] == t
    ensures var k' := Dispatch(k1);
      && t in k'.th && k'.th[t].priority == p
      && (k'.current == t <==> forall r: nat | p < r < NUM_PRIORITIES :: Q(k1, RunQ(r)) == [])
  {
    hide Dispatch, Placed, JoinsOk, Registered, Top, NextThread, PopTop, Q;
    DispatchFields(k1);
    NextIsReady(k1);
    if forall r: nat | p < r < NUM_PRIORITIES :: Q(k1, RunQ(r)) == [] {
      NextOfLevel(k1, p);
    } else {
      var r: nat :| p < r < NUM_PRIORITIES && Q(k1, RunQ(r)) != [];
      TopAbove(k1, r);
    }
  }

  lemma TopAbove(k: Kernel, r: nat)
    requires Q(k, RunQ(r)) != []
    ensures Top(k) >= r
  {
  }

  /** thread_resume makes a suspended thread READY, first in its run queue, and does nothing to any
      other; NO_ERROR comes either way. */
  lemma ResumeOutcome(k: Kernel, t: Tid)
    requires Inv(k) && Enabled(k, Resume(t))
    ensures var k' := Step(k, Resume(t));
      && Returns(k, Resume(t), NO_ERROR) && t in k'.th
      && (k.th[t].state != Suspended ==>
            k'.th[t] == (if t == k.current then k.th[t].(ret := NO_ERROR) else k.th[t]) && k'.rq == k.rq)
      && (k.th[t].state == Suspended ==>
            && k'.th[t] == k.th[t].(state := Ready)
            && Q(k', RunQ(k.th[t].priority)) == [t] + Q(k, RunQ(k.th[t].priority)))
  {
    hide Inv, InsertHead, Q, Returns;
    CurrentRuns(k);
    LevelExists(k, t);
    var k1 := SetT(k, t, k.th[t].(state := Ready));
    var k0 := if k.th[t].state == Suspended then InsertHead(k1, t) else k;
    InsertedFirst(k1, t, k.th[t].priority);
    QueuesApart(k1, k, RunQ(k.th[t].priority));
    QueuesApart(Return(k0, NO_ERROR), k0, RunQ(k.th[t].priority));
    ReturnReturns(k, Resume(t), k0, NO_ERROR);
  }

  lemma LevelExists(k: Kernel, t: Tid)
    requires Inv(k) && t in k.th
    ensures k.th[t].priority < |k.rq|
  {
    assert TcbOk(k, k.th[t]);
  }

  lemma QueuesApart(k: Kernel, k': Kernel, w: QueueId)
    requires k.rq == k'.rq && k.wq == k'.wq
    ensures Q(k, w) == Q(k', w)
  {
  }
}
