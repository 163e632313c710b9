/** Runs from the boot state: thread 0 boots, thread 1 is idle, and thread 2 starts to wait with a
    timer. */
module KernelRaces {
  import opened Wrappers
  import opened KernelState
  import opened KernelSteps
  import opened KernelInvariant
  import opened KernelJoins
  import opened KernelFrames

  // ----- runs in parts -----

  lemma RunsFirst(k: Kernel, op: Op, ops: seq<Op>)
    requires Enabled(k, op) && Runs(Step(k, op), ops)
    ensures Runs(k, [op] + ops) && Run(k, [op] + ops) == Run(Step(k, op), ops)
  {
    assert ([op] + ops)[0] == op && ([op] + ops)[1..] == ops;
    hide Enabled, Step;
  }

  lemma {:induction false} RunsAppend(k: Kernel, xs: seq<Op>, ys: seq<Op>)
    requires Runs(k, xs) && Runs(Run(k, xs), ys)
    ensures Runs(k, xs + ys) && Run(k, xs + ys) == Run(Run(k, xs), ys)
    decreases |xs|
  {
    hide Enabled, Step;
    if xs == [] {
      assert xs + ys == ys;
    } else {
      assert (xs + ys)[0] == xs[0] && (xs + ys)[1..] == xs[1..] + ys;
      RunsAppend(Step(k, xs[0]), xs[1..], ys);
    }
  }

  lemma RunsNothing(k: Kernel)
    ensures Runs(k, []) && Run(k, []) == k
  {
  }

  // ----- the second thread -----

  /** Thread 0 runs and nobody else is about. */
  predicate Alone(k: Kernel) {
    && k.current == 0 && k.idle == 1 && k.rq == seq(NUM_PRIORITIES, p => []) && k.wq == map[]
    && k.th.Keys == {0, 1}
    && k.th[0].priority == HIGHEST_PRIORITY && k.th[0].cont == NoCont && !k.th[0].idleFlag
  }

  /** Thread `t` runs at the highest level, and `q` are the ready threads there. */
  predicate OnTop(k: Kernel, t: Tid, q: seq<Tid>) {
    && k.current == t && t in k.th && k.th[t].state == Running
    && k.idle == 1 && |k.rq| == NUM_PRIORITIES && k.rq[HIGHEST_PRIORITY] == q
    && (forall u | u in [t] + q ::
        u in k.th && k.th[u].priority == HIGHEST_PRIORITY && k.th[u].cont == NoCont && !k.th[u].idleFlag)
    && t !in q
  }

  /** The first thread of the highest level is dispatched. */
  lemma TopDispatched(k: Kernel, t: Tid, q: seq<Tid>)
    requires |k.rq| == NUM_PRIORITIES && k.rq[HIGHEST_PRIORITY] == [t] + q && t in k.th && k.th[t].cont == NoCont
    ensures Dispatch(k) ==
      k.(rq := k.rq[HIGHEST_PRIORITY := q], th := k.th[t := Dispatched(k, t)], current := t)
  {
    assert Top(k) == HIGHEST_PRIORITY && NextThread(k) == t;
    assert k.rq[HIGHEST_PRIORITY][1..] == q;
  }

  const COMPANION: seq<Op> := [Create(2, HIGHEST_PRIORITY), Resume(2), Yield]

  /** Thread 2 is created, resumed, and runs while thread 0 is ready. */
  lemma Companion(k: Kernel)
    requires Alone(k)
    ensures Runs(k, COMPANION)
    ensures var k' := Run(k, COMPANION);
      OnTop(k', 2, [0]) && k'.wq == map[] && k'.mx == k.mx && k'.sm == k.sm && k'.ev == k.ev
  {
    hide Step, CreateAct, Enabled, OnTop;
    var k1 := Step(k, Create(2, HIGHEST_PRIORITY));
    Created(k);
    Resumed(k1);
    var k2 := Step(k1, Resume(2));
    Yielded(k2);
    var k3 := Step(k2, Yield);
    RunsNothing(k3);
    RunsFirst(k2, Yield, []);
    RunsFirst(k1, Resume(2), [Yield] + []);
    RunsFirst(k, Create(2, HIGHEST_PRIORITY), [Resume(2)] + ([Yield] + []));
    assert COMPANION == [Create(2, HIGHEST_PRIORITY)] + ([Resume(2)] + ([Yield] + []));
  }

  lemma Created(k: Kernel)
    requires Alone(k)
    ensures Enabled(k, Create(2, HIGHEST_PRIORITY))
    ensures var k' := Step(k, Create(2, HIGHEST_PRIORITY));
      && k'.current == 0 && k'.idle == 1 && k'.th.Keys == {0, 1, 2} && k'.rq == seq(NUM_PRIORITIES, p => [])
      && k'.th[2] == BLANK_TCB.(priority := HIGHEST_PRIORITY) && k'.th[0] == k.th[0]
      && k'.wq == map[] && k'.mx == k.mx && k'.sm == k.sm && k'.ev == k.ev
  {
    assert Step(k, Create(2, HIGHEST_PRIORITY)) == CreateAct(k, 2, HIGHEST_PRIORITY);
  }

  lemma Resumed(k: Kernel)
    requires k.current == 0 && k.idle == 1 && k.th.Keys == {0, 1, 2} && k.rq == seq(NUM_PRIORITIES, p => [])
    requires k.th[2] == BLANK_TCB.(priority := HIGHEST_PRIORITY)
    requires k.th[0].priority == HIGHEST_PRIORITY && k.th[0].cont == NoCont && !k.th[0].idleFlag
    ensures Enabled(k, Resume(2))
    ensures var k' := Step(k, Resume(2));
      && k'.current == 0 && k'.idle == 1 && k'.th.Keys == {0, 1, 2}
      && |k'.rq| == NUM_PRIORITIES && k'.rq[HIGHEST_PRIORITY] == [2]
      && k'.th[2] == k.th[2].(state := Ready) && k'.th[0] == k.th[0].(ret := NO_ERROR)
      && k'.wq == k.wq && k'.mx == k.mx && k'.sm == k.sm && k'.ev == k.ev
  {
  }

  lemma Yielded(k: Kernel)
    requires k.current == 0 && k.idle == 1 && k.th.Keys == {0, 1, 2}
    requires |k.rq| == NUM_PRIORITIES && k.rq[HIGHEST_PRIORITY] == [2]
    requires k.th[2] == BLANK_TCB.(priority := HIGHEST_PRIORITY, state := Ready)
    requires k.th[0].priority == HIGHEST_PRIORITY && k.th[0].cont == NoCont && !k.th[0].idleFlag
    ensures Enabled(k, Yield)
    ensures var k' := Step(k, Yield);
      OnTop(k', 2, [0]) && k'.wq == k.wq && k'.mx == k.mx && k'.sm == k.sm && k'.ev == k.ev
  {
    var k1 := YieldAct(k);
    assert k1.rq[HIGHEST_PRIORITY] == [2] + [0];
    TopDispatched(k1, 2, [0]);
    hide Dispatch;
  }

  /** Thread 2 starts to wait with a timer, and thread 0 runs again. */
  lemma WaitsWithTimer(k: Kernel, cont: Cont)
    requires OnTop(k, 2, [0]) && k.wq == map[] && cont != NoCont
    ensures var k' := Dispatch(Enqueue(k, Finite, cont));
      && OnTop(k', 0, []) && k'.mx == k.mx && k'.sm == k.sm && k'.ev == k.ev
      && Q(k', ContQueue(cont)) == [2]
      && 2 in k'.th && k'.th[2].state == Blocked && k'.th[2].armed
  {
    var k1, w := Enqueue(k, Finite, cont), ContQueue(cont);
    EnqueueEffect(k, Finite, cont);
    assert k1.rq == k.rq && 0 in k.rq[HIGHEST_PRIORITY];
    assert k1.rq[HIGHEST_PRIORITY] == [0] + [];
    TopDispatched(k1, 0, []);
    NotARunQueue(cont);
    assert Q(Dispatch(k1), w) == Q(k1, w);
    assert 0 in [2] + [0];
    assert k1.th[0] == k.th[0] && Dispatch(k1).th[0] == Dispatched(k1, 0);
    hide Dispatch, Enqueue, Q;
  }
}
