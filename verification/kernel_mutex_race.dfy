/** A run from the boot state on which a finite timeout loses a mutex. */
module KernelMutexRace {
  import opened Wrappers
  import opened KernelState
  import opened KernelSteps
  import opened KernelInvariant
  import opened KernelJoins
  import opened KernelFrames
  import opened KernelWaits
  import opened KernelRaces
  import opened KernelMutex

  const MUTEX_PRELUDE: seq<Op> := [MutexInit(0), MutexAcquire(0, Infinite)]
  const MUTEX_RACE: seq<Op> := MUTEX_PRELUDE + (COMPANION + [MutexAcquire(0, Finite)])

  lemma MutexPrelude()
    ensures var k := Boot(0, 1);
      Runs(k, MUTEX_PRELUDE) && var k' := Run(k, MUTEX_PRELUDE);
        Alone(k') && k'.mx == map[0 := MutexState(Some(0), 1)]
  {
    hide Step, Alone, Boot, Enabled, Run, Runs;
    var k := Boot(0, 1);
    var k1 := Step(k, MutexInit(0));
    var k2 := Step(k1, MutexAcquire(0, Infinite));
    BootAlone();
    FirstInit(k);
    FirstAcquire(k1);
    RunsNothing(k2);
    RunsFirst(k1, MutexAcquire(0, Infinite), []);
    RunsFirst(k, MutexInit(0), [MutexAcquire(0, Infinite)] + []);
    assert MUTEX_PRELUDE == [MutexInit(0)] + ([MutexAcquire(0, Infinite)] + []);
  }

  lemma BootAlone()
    ensures var k := Boot(0, 1); Alone(k) && k.mx == map[]
  {
  }

  lemma FirstInit(k: Kernel)
    requires Alone(k) && k.mx == map[]
    ensures Enabled(k, MutexInit(0))
    ensures var k' := Step(k, MutexInit(0)); Alone(k') && k'.mx == map[0 := MutexState(None, 0)]
  {
    assert Step(k, MutexInit(0)) == SetMx(k, 0, MutexState(None, 0));
  }

  lemma FirstAcquire(k: Kernel)
    requires Alone(k) && k.mx == map[0 := MutexState(None, 0)]
    ensures Enabled(k, MutexAcquire(0, Infinite))
    ensures var k' := Step(k, MutexAcquire(0, Infinite)); Alone(k') && k'.mx == map[0 := MutexState(Some(0), 1)]
  {
    hide Enqueue, Dispatch;
  }

  /** The run that leads to a mutex whose only waiter waits with a timer. */
  lemma MutexRace()
    ensures Runs(Boot(0, 1), MUTEX_RACE)
    ensures var k := Run(Boot(0, 1), MUTEX_RACE);
      && OnTop(k, 0, []) && Enabled(k, Expire(2))
      && 0 in k.mx && k.mx[0] == MutexState(Some(0), 2) && Q(k, MutexQ(0)) == [2]
  {
    hide Boot, Run, Runs, Step, OnTop, Alone, Enabled, Q, COMPANION, MUTEX_PRELUDE;
    var b := Boot(0, 1);
    MutexPrelude();
    var k := Run(b, MUTEX_PRELUDE);
    Companion(k);
    var k1 := Run(k, COMPANION);
    TimedAcquire(k1);
    RunsNothing(Step(k1, MutexAcquire(0, Finite)));
    RunsFirst(k1, MutexAcquire(0, Finite), []);
    assert [MutexAcquire(0, Finite)] + [] == [MutexAcquire(0, Finite)];
    RunsAppend(k, COMPANION, [MutexAcquire(0, Finite)]);
    RunsAppend(b, MUTEX_PRELUDE, COMPANION + [MutexAcquire(0, Finite)]);
  }

  lemma TimedAcquire(k: Kernel)
    requires OnTop(k, 2, [0]) && k.wq == map[] && k.mx == map[0 := MutexState(Some(0), 1)]
    ensures Enabled(k, MutexAcquire(0, Finite))
    ensures var k' := Step(k, MutexAcquire(0, Finite));
      && OnTop(k', 0, []) && Enabled(k', Expire(2))
      && 0 in k'.mx && k'.mx[0] == MutexState(Some(0), 2) && Q(k', MutexQ(0)) == [2]
  {
    var k0 := SetMx(k, 0, MutexState(Some(0), 2));
    assert OnTop(k0, 2, [0]);
    assert Enabled(k, MutexAcquire(0, Finite));
    hide Dispatch, Enqueue, Q, OnTop;
    TimedAcquireIs(k);
    hide Step;
    WaitsWithTimer(k0, AcquireCont(0));
    TimerEnabled(Step(k, MutexAcquire(0, Finite)));
  }

  lemma TimedAcquireIs(k: Kernel)
    requires k.mx == map[0 := MutexState(Some(0), 1)]
    ensures Step(k, MutexAcquire(0, Finite)) ==
      Dispatch(Enqueue(SetMx(k, 0, MutexState(Some(0), 2)), Finite, AcquireCont(0)))
  {
    hide Dispatch, Enqueue;
  }

  lemma TimerEnabled(k: Kernel)
    requires OnTop(k, 0, []) && 2 in k.th && k.th[2].state == Blocked && k.th[2].armed
    ensures Enabled(k, Expire(2))
  {
  }

  /** A run of the kernel, from boot, that loses the mutex: the only waiter's timer fires before the owner
      releases, the release leaves a count nobody stands for, and the next acquire waits for a mutex
      that has no owner and no successor. */
  lemma TimerStrandsMutex()
    ensures var b, ops := Boot(0, 1), MUTEX_RACE + [Expire(2), MutexRelease(0)];
      && Runs(b, ops)
      && var k := Run(b, ops);
        && MutexOk(k, 0) && !Served(Mutex(k, 0)) && k.mx[0] == MutexState(None, 1) && Q(k, MutexQ(0)) == []
        && Enabled(k, MutexAcquire(0, Infinite)) && Reschedules(k, MutexAcquire(0, Infinite))
  {
    hide Boot, Run, Runs, MutexOk, Mutex, Inv, Step, OnTop, Enabled, Q, MUTEX_RACE, Served, Reschedules;
    var b := Boot(0, 1);
    BootInv(0, 1);
    MutexRace();
    var k := Run(b, MUTEX_RACE);
    RunKeepsInv(b, MUTEX_RACE);
    RaceKeepsCount();
    LosesMutex(k);
    var k1 := Step(k, Expire(2));
    var k2 := Step(k1, MutexRelease(0));
    RunsNothing(k2);
    RunsFirst(k1, MutexRelease(0), []);
    RunsFirst(k, Expire(2), [MutexRelease(0)] + []);
    assert [Expire(2), MutexRelease(0)] == [Expire(2)] + ([MutexRelease(0)] + []);
    RunsAppend(b, MUTEX_RACE, [Expire(2), MutexRelease(0)]);
  }

  /** And the mutex is lost for good: with one more acquire, which waits, it never has an owner again, whatever
      is called after it. */
  lemma TimerLosesMutex(ops: seq<Op>)
    requires var b, race := Boot(0, 1), MUTEX_RACE + [Expire(2), MutexRelease(0)];
      Runs(Run(b, race), [MutexAcquire(0, Infinite)] + ops)
    ensures var b, race := Boot(0, 1), MUTEX_RACE + [Expire(2), MutexRelease(0)];
      && Runs(b, race)
      && var k := Run(Run(b, race), [MutexAcquire(0, Infinite)] + ops); 0 in k.mx && k.mx[0].holder == None
  {
    var b, race, op := Boot(0, 1), MUTEX_RACE + [Expire(2), MutexRelease(0)], MutexAcquire(0, Infinite);
    hide Boot, Inv, Enabled, Step, MUTEX_RACE, Reschedules, Served, Q, MutexOk;
    BootInv(0, 1);
    TimerStrandsMutex();
    var k := Run(b, race);
    RunKeepsInv(b, race);
    StepKeepsInv(k, op);
    AcquireLoses(k, 0);
    assert ([op] + ops)[0] == op && ([op] + ops)[1..] == ops;
    RunStaysLost(Step(k, op), 0, ops, k.current);
    assert MutexOk(Run(Step(k, op), ops), 0);
    LostHasNoHolder(Run(Step(k, op), ops), 0, k.current);
  }

  lemma LostHasNoHolder(k: Kernel, m: nat, x: Tid)
    requires Lost(k, m, x)
    ensures m in k.mx && k.mx[m].holder == None
  {
  }

  /** The mutex is in order after the first call, and so throughout. */
  lemma RaceKeepsCount()
    ensures MutexOk(Run(Boot(0, 1), MUTEX_RACE), 0)
  {
    var b := Boot(0, 1);
    BootInv(0, 1);
    MutexRace();
    assert Enabled(b, MutexInit(0));
    hide Boot, Inv, Enabled, MutexOk, Mutex, Step;
    assert MUTEX_RACE[0] == MutexInit(0);
    InitRepresents(b, 0);
    StepKeepsInv(b, MutexInit(0));
    RunKeepsCount(Step(b, MutexInit(0)), 0, MUTEX_RACE[1..]);
  }

  lemma LosesMutex(k: Kernel)
    requires Inv(k) && MutexOk(k, 0) && OnTop(k, 0, []) && Enabled(k, Expire(2))
    requires k.mx[0] == MutexState(Some(0), 2) && Q(k, MutexQ(0)) == [2]
    ensures var k1 := Step(k, Expire(2));
      var k2 := Step(k1, MutexRelease(0));
      && Enabled(k1, MutexRelease(0)) && MutexOk(k2, 0) && !Served(Mutex(k2, 0))
      && k2.mx[0] == MutexState(None, 1) && Q(k2, MutexQ(0)) == []
      && Enabled(k2, MutexAcquire(0, Infinite)) && Reschedules(k2, MutexAcquire(0, Infinite))
  {
    hide Inv, Q, Act, OnTop, Core, Step, Served, Mutex, MidInv, Fine, Counted;
    var k1 := Step(k, Expire(2));
    InvIsCore(k);
    OnlyWaiterExpires(k);
    StepKeepsInv(k, Expire(2));
    StepKeepsCount(k, 0, Expire(2));
    ReleasesToNobody(k1);
    StepKeepsCount(k1, 0, MutexRelease(0));
    ReleaseServes(k1, 0);
  }

  lemma OnlyWaiterExpires(k: Kernel)
    requires Core(k, {}, true) && Enabled(k, Expire(2)) && Q(k, MutexQ(0)) == [2] && OnTop(k, 0, [])
    ensures var k1 := Step(k, Expire(2));
      k1.mx == k.mx && k1.current == 0 && k1.idle == 1 && Q(k1, MutexQ(0)) == []
  {
    hide Core, ExpireAct;
    assert 2 in Q(k, MutexQ(0));
    Waiter(k, MutexQ(0), 2, {}, true);
    ExpireTarget(k, 2);
    ExpireObjectsAndQueue(k, 2, MutexQ(0));
    assert Without([2], 2) == [];
  }

  lemma ReleasesToNobody(k: Kernel)
    requires 0 in k.mx && k.mx[0] == MutexState(Some(0), 2) && Q(k, MutexQ(0)) == [] && k.current == 0 && k.idle == 1
    ensures Enabled(k, MutexRelease(0))
    ensures var k' := Step(k, MutexRelease(0));
      && k'.current == 0 && k'.idle == 1 && 0 in k'.mx && k'.mx[0] == MutexState(None, 1) && Q(k', MutexQ(0)) == []
  {
    var k1 := Return(SetMx(k, 0, MutexState(None, 1)), NO_ERROR);
    assert Q(k1, MutexQ(0)) == Q(k, MutexQ(0));
    assert WakeOne(k1, MutexQ(0), true, NO_ERROR) == k1;
  }
}
