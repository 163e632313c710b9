/** Exit, join and detach: a join succeeds only on a dead thread, delivers that thread's exit code,
    and every thread leaves the thread list at most once. */
module KernelExit {
  import opened KernelState
  import opened KernelSteps
  import opened KernelInvariant
  import opened KernelJoins
  import opened KernelFrames
  import opened KernelFairness

  // ----- the dead stay as they are -----

  lemma StepKeepsDead(k: Kernel, op: Op, t: Tid)
    requires Inv(k) && Enabled(k, op) && t in k.th
    ensures var k' := Step(k, op);
      && t in k'.th
      && (k.th[t].state == Death ==> k'.th[t].state == Death && k'.th[t].retcode == k.th[t].retcode)
      && (!k.th[t].magic ==> !k'.th[t].magic)
  {
    hide Act, Dispatch, Inv, Enabled, Reschedules, Target, Q, NextThread, MidInv;
    ActAside(k, op) by { InvIsCore(k); }
    StepKeepsInv(k, op);
    assert Undisturbed(k.th[t], Act(k, op).th[t], Target(k, op));
    if Reschedules(k, op) {
      DispatchKeepsDead(Act(k, op), t);
    }
  }

  lemma DispatchKeepsDead(k1: Kernel, t: Tid)
    requires MidInv(k1) && t in k1.th
    ensures var k' := Dispatch(k1);
      && t in k'.th
      && (k1.th[t].state == Death ==> k'.th[t].state == Death && k'.th[t].retcode == k1.th[t].retcode)
      && (!k1.th[t].magic ==> !k'.th[t].magic)
  {
    hide Dispatch, Placed, JoinsOk, Registered;
    NextIsReady(k1);
    DispatchThreads(k1);
    assert TcbOk(k1, k1.th[t]);
    hide NextThread, Top, MidInv;
  }

  /** A dead thread keeps its exit code, and a thread once unlinked is never linked again. */
  lemma {:induction false} RunKeepsDead(k: Kernel, ops: seq<Op>, t: Tid)
    requires Inv(k) && Runs(k, ops) && t in k.th
    ensures var k' := Run(k, ops);
      && t in k'.th
      && (k.th[t].state == Death ==> k'.th[t].state == Death && k'.th[t].retcode == k.th[t].retcode)
      && (!k.th[t].magic ==> !k'.th[t].magic)
    decreases |ops|
  {
    if ops != [] {
      StepKeepsInv(k, ops[0]);
      StepKeepsDead(k, ops[0], t);
      RunKeepsDead(Step(k, ops[0]), ops[1..], t);
    }
  }

  // ----- joining -----

  /** In this step thread `j` comes back from a join of `t`. */
  predicate JoinReturns(k: Kernel, op: Op, j: Tid, t: Tid) {
    || (op.Join? && op.thread == t && j == k.current && !Reschedules(k, op))
    || (Reschedules(k, op) && j == NextThread(Act(k, op)) && T(Act(k, op), j).cont == JoinCont(t))
  }

  lemma DirectJoin(k: Kernel, t: Tid, timeout: Timeout)
    requires Inv(k) && Enabled(k, Join(t, timeout)) && !Reschedules(k, Join(t, timeout))
    ensures var k', j := JoinAct(k, t, timeout), k.current;
      && j in k'.th && t in k'.th
      && (k'.th[j].ret == NO_ERROR ==>
            && k'.th[t].state == Death && k'.th[j].out == k'.th[t].retcode
            && t in k.list && t !in k'.list)
      && (k'.th[j].ret != NO_ERROR ==> k'.list == k.list)
  {
    hide JoinsOk, Core, Scheduled, FinishJoin, NoDup, NoJoiner;
    InvIsCore(k);
    CurrentHasNoCont(k);
    if k.th[t].state == Death { FinishedJoin(k, k.current, t); }
  }

  lemma FinishedJoin(k: Kernel, j: Tid, t: Tid)
    requires Registered(k) && j in k.th && t in k.th && j != t && k.th[t].magic
    ensures var k' := FinishJoin(k, j, t);
      && j in k'.th && t in k'.th && k'.th[j].ret == NO_ERROR && k'.th[j].out == k.th[t].retcode
      && k'.th[t] == k.th[t].(magic := false) && t in k.list && t !in k'.list
  {
    WithoutMembers(k.list, t);
    hide Without;
  }

  lemma WaitedJoin(k1: Kernel, t: Tid)
    requires MidInv(k1) && T(k1, NextThread(k1)).cont == JoinCont(t)
    ensures var k', j := Dispatch(k1), NextThread(k1);
      && j in k'.th && t in k'.th
      && (k'.th[j].ret == NO_ERROR ==>
            && k'.th[t].state == Death && k'.th[j].out == k'.th[t].retcode
            && t in k1.list && t !in k'.list)
      && (k'.th[j].ret != NO_ERROR ==> k'.list == k1.list)
  {
    hide Dispatch, NextThread, MidInv, NoDup, Without, Dispatched, Joining;
    var j := NextThread(k1);
    DispatchThreads(k1);
    JoinerKnowsTarget(k1, t);
    DispatchedWaits(k1, j);
    WithoutMembers(k1.list, t);
    if Completes(k1.th[j], t) { CompletedTarget(k1, t); }
  }

  lemma JoinerKnowsTarget(k1: Kernel, t: Tid)
    requires MidInv(k1) && T(k1, NextThread(k1)).cont == JoinCont(t)
    ensures t in k1.th && NoDup(k1.list) && (k1.th[t].magic ==> t in k1.list)
  {
    hide Placed, JoinsOk, NextThread;
    NextIsReady(k1);
    assert TcbOk(k1, k1.th[NextThread(k1)]);
  }

  lemma DispatchedWaits(k1: Kernel, n: Tid)
    ensures Dispatched(k1, n).cont == T(k1, n).cont && Dispatched(k1, n).blockRet == T(k1, n).blockRet
  {
  }

  /** A join returns success exactly when its target has exited, delivers the target's exit code and takes
      the target, until then linked, off the thread list; otherwise it unlinks nothing. A join that did not
      wait finds its target linked before the call, one that waited just before thread_resched. */
  lemma JoinOutcome(k: Kernel, op: Op, j: Tid, t: Tid)
    requires Inv(k) && Enabled(k, op) && JoinReturns(k, op, j, t)
    ensures var k', k1 := Step(k, op), Act(k, op);
      && j in k'.th && t in k'.th
      && (k'.th[j].ret == NO_ERROR ==>
            && k'.th[t].state == Death && k'.th[j].out == k'.th[t].retcode
            && t in (if Reschedules(k, op) then k1.list else k.list) && t !in k'.list)
      && (k'.th[j].ret != NO_ERROR ==> k'.list == k1.list)
  {
    StepKeepsInv(k, op);
    if Reschedules(k, op) {
      WaitedJoin(Act(k, op), t);
    } else {
      DirectJoin(k, t, op.timeout);
    }
  }

  /** The exit code a thread passes to thread_exit is what a later successful join delivers,
      whatever happens in between. */
  lemma ExitCodeDelivered(k: Kernel, code: int, ops: seq<Op>, op: Op, j: Tid)
    requires Inv(k) && Enabled(k, Exit(code)) && Runs(Step(k, Exit(code)), ops)
    requires var k2 := Run(Step(k, Exit(code)), ops);
      Enabled(k2, op) && JoinReturns(k2, op, j, k.current) && T(Step(k2, op), j).ret == NO_ERROR
    ensures T(Step(Run(Step(k, Exit(code)), ops), op), j).out == code
  {
    var t, k1 := k.current, Step(k, Exit(code));
    var k2 := Run(k1, ops);
    StepKeepsInv(k, Exit(code));
    ExitLeaves(k, code);
    RunKeepsInv(k1, ops);
    RunKeepsDead(k1, ops, t);
    StepKeepsDead(k2, op, t);
    hide Inv, Enabled, Step, Act, Runs, Run, JoinReturns;
    JoinOutcome(k2, op, j, t);
  }

  // ----- detaching -----

  /** `j` was turned away from joining `t` because `t` was detached, and has not run since. */
  predicate TurnedAway(k: Kernel, j: Tid, t: Tid) {
    j in k.th && k.th[j].cont == JoinCont(t) && k.th[j].state == Ready && k.th[j].blockRet == ERR_THREAD_DETACHED
  }

  /** Detaching a thread that has not exited turns its joiner away. */
  lemma DetachTurnsAway(k: Kernel, t: Tid, j: Tid)
    requires Inv(k) && Enabled(k, Detach(t)) && k.th[t].state != Death && Joining(k, j, t)
    ensures TurnedAway(Step(k, Detach(t)), j, t) && T(Step(k, Detach(t)), t).detached
  {
    hide DetachAct, Scheduled, Core;
    InvIsCore(k);
    CurrentHasNoCont(k);
    JoinWaiters(k, t, true);
    DetachEffect(k, t);
    hide Q;
  }

  lemma AsideKeepsAway(k: Kernel, k': Kernel, w: QueueId, j: Tid, t: Tid)
    requires Aside(k, k', w) && TurnedAway(k, j, t)
    ensures TurnedAway(k', j, t)
  {
    assert Undisturbed(k.th[j], k'.th[j], w);
  }

  lemma DispatchTurnsAway(k1: Kernel, j: Tid, t: Tid)
    requires MidInv(k1) && TurnedAway(k1, j, t)
    ensures var k' := Dispatch(k1);
      if j == NextThread(k1) then j in k'.th && k'.th[j].ret == ERR_THREAD_DETACHED else TurnedAway(k', j, t)
  {
    hide Dispatch, MidInv, NextThread;
    DispatchThreads(k1);
  }

  /** It stays turned away until it runs, and then its join returns ERR_THREAD_DETACHED. */
  lemma TurnedAwayReturns(k: Kernel, op: Op, j: Tid, t: Tid)
    requires Inv(k) && Enabled(k, op) && TurnedAway(k, j, t)
    ensures var k' := Step(k, op);
      || TurnedAway(k', j, t)
      || (JoinReturns(k, op, j, t) && j in k'.th && k'.th[j].ret == ERR_THREAD_DETACHED)
  {
    hide Act, Dispatch, MidInv, Enabled, Reschedules, NextThread, Aside, Inv, Core, Target;
    InvIsCore(k);
    ActAside(k, op);
    StepKeepsInv(k, op);
    AsideKeepsAway(k, Act(k, op), Target(k, op), j, t);
    if Reschedules(k, op) {
      DispatchTurnsAway(Act(k, op), j, t);
    }
  }

  /** A detached thread that exits unlinks itself, having been linked until then, and nobody else but the
      target of a join that the thread dispatched next completes. */
  lemma DetachedExitUnlinks(k: Kernel, code: int)
    requires Inv(k) && Enabled(k, Exit(code)) && Cur(k).detached
    ensures k.current in k.list && k.current !in Step(k, Exit(code)).list
    ensures var k1 := Act(k, Exit(code));
      forall t | t != k.current && t in k.list ::
        t !in Step(k, Exit(code)).list <==> Completes(T(k1, NextThread(k1)), t)
  {
    var k1 := ExitAct(k, code);
    assert k1 == Act(k, Exit(code)) && Step(k, Exit(code)) == Dispatch(k1);
    WithoutMembers(k.list, k.current);
    assert k1.list == Without(k.list, k.current);
    StepKeepsInv(k, Exit(code));
    hide Inv, ExitAct, Dispatch, NextThread, Without, Act, Step, Enabled;
    DispatchUnlinks(k1);
  }

  lemma DispatchUnlinks(k1: Kernel)
    requires MidInv(k1)
    ensures var k' := Dispatch(k1);
      forall t :: t in k'.list <==> t in k1.list && !Completes(T(k1, NextThread(k1)), t)
  {
    hide Dispatch, Placed, JoinsOk, NextThread;
    DispatchThreads(k1);
    var c := k1.th[NextThread(k1)];
    if c.cont.JoinCont? && c.blockRet >= 0 { WithoutMembers(k1.list, c.cont.target); }
    hide Without;
  }
}
