/** A run from the boot state on which a finite timeout strands a waiter beside a free token. */
module KernelSemaphoreRace {
  import opened Wrappers
  import opened KernelState
  import opened KernelSteps
  import opened KernelInvariant
  import opened KernelJoins
  import opened KernelFrames
  import opened KernelWaits
  import opened KernelRaces
  import opened KernelSemaphore

  const SEM_RACE: seq<Op> := [SemInit(0, 0)] + (COMPANION + [SemTimedWait(0, Finite)])

  /** The run that leads to a semaphore without tokens whose only waiter waits with a timer. */
  lemma SemRace()
    ensures Runs(Boot(0, 1), SEM_RACE)
    ensures var k := Run(Boot(0, 1), SEM_RACE);
      && OnTop(k, 0, []) && Enabled(k, Expire(2))
      && 0 in k.sm && k.sm[0] == -1 && Q(k, SemQ(0)) == [2]
  {
    hide Run, Runs, Dispatch, Joining;
    var b := Boot(0, 1);
    var k := Step(b, SemInit(0, 0));
    assert k == b.(sm := map[0 := 0]) && Alone(k) && Enabled(b, SemInit(0, 0));
    hide Boot;
    Companion(k);
    var k1 := Run(k, COMPANION);
    TimedWait(k1);
    RunsNothing(Step(k1, SemTimedWait(0, Finite)));
    hide Step, OnTop, Alone, Enabled;
    RunsFirst(k1, SemTimedWait(0, Finite), []);
    assert [SemTimedWait(0, Finite)] + [] == [SemTimedWait(0, Finite)];
    RunsAppend(k, COMPANION, [SemTimedWait(0, Finite)]);
    RunsFirst(b, SemInit(0, 0), COMPANION + [SemTimedWait(0, Finite)]);
  }

  lemma TimedWait(k: Kernel)
    requires OnTop(k, 2, [0]) && k.wq == map[] && k.sm == map[0 := 0]
    ensures Enabled(k, SemTimedWait(0, Finite))
    ensures var k' := Step(k, SemTimedWait(0, Finite));
      && OnTop(k', 0, []) && Enabled(k', Expire(2))
      && 0 in k'.sm && k'.sm[0] == -1 && Q(k', SemQ(0)) == [2]
  {
    hide Dispatch, Enqueue, Live, NoJoiner, SetT, T, Cur;
    WaitsWithTimer(SetSm(k, 0, -1), SemCont(0, true));
  }

  /** A run of the kernel, from boot, that strands a waiter: the only waiter's timer fires, a post finds
      nobody to wake, and before the timed-out thread has run another one waits beside the free token. */
  lemma TimerStrandsWaiter()
    ensures var b, ops := Boot(0, 1), SEM_RACE + [Expire(2), SemPost(0, true), SemWait(0)];
      && Runs(b, ops)
      && var k := Run(b, ops); SemOk(k, 0) && Stranded(Semaphore(k, 0))
  {
    hide Boot, Run, Runs, SemOk, Semaphore, Stranded, Inv, Step, OnTop, Enabled, Q, SEM_RACE;
    var b := Boot(0, 1);
    BootInv(0, 1);
    SemRace();
    var k := Run(b, SEM_RACE);
    RunKeepsInv(b, SEM_RACE);
    RaceKeepsTokens();
    StrandsWaiter(k);
    var k1 := Step(k, Expire(2));
    var k2 := Step(k1, SemPost(0, true));
    var k3 := Step(k2, SemWait(0));
    RunsNothing(k3);
    RunsFirst(k2, SemWait(0), []);
    RunsFirst(k1, SemPost(0, true), [SemWait(0)] + []);
    RunsFirst(k, Expire(2), [SemPost(0, true)] + ([SemWait(0)] + []));
    assert [Expire(2), SemPost(0, true), SemWait(0)] == [Expire(2)] + ([SemPost(0, true)] + ([SemWait(0)] + []));
    RunsAppend(b, SEM_RACE, [Expire(2), SemPost(0, true), SemWait(0)]);
  }

  lemma RaceKeepsTokens()
    ensures SemOk(Run(Boot(0, 1), SEM_RACE), 0)
  {
    var b := Boot(0, 1);
    BootInv(0, 1);
    SemRace();
    assert Enabled(b, SemInit(0, 0));
    hide Boot, Inv, Enabled, SemOk, Semaphore, Step, Held, Granted, Posted;
    assert SEM_RACE[0] == SemInit(0, 0);
    InitConserves(b, 0, 0);
    StepKeepsInv(b, SemInit(0, 0));
    OkExists(Step(b, SemInit(0, 0)), 0);
    RunConserves(Step(b, SemInit(0, 0)), 0, SEM_RACE[1..]);
  }

  lemma StrandsWaiter(k: Kernel)
    requires Inv(k) && SemOk(k, 0) && OnTop(k, 0, []) && Enabled(k, Expire(2))
    requires k.sm[0] == -1 && Q(k, SemQ(0)) == [2]
    ensures var k1 := Step(k, Expire(2));
      var k2 := Step(k1, SemPost(0, true));
      var k3 := Step(k2, SemWait(0));
      && Enabled(k1, SemPost(0, true)) && Enabled(k2, SemWait(0)) && SemOk(k3, 0) && Stranded(Semaphore(k3, 0))
  {
    hide Inv, Core, Q, Act, OnTop, SemOk, Step, Held, GrantedAt, PostedAt, View;
    var k1 := Step(k, Expire(2));
    OkExists(k, 0);
    InvIsCore(k);
    TimerFires(k);
    StepKeepsInv(k, Expire(2));
    StepConserves(k, 0, Expire(2));
    OkExists(k1, 0);
    PostsToNobody(k1);
    var k2 := Step(k1, SemPost(0, true));
    StepKeepsInv(k1, SemPost(0, true));
    StepConserves(k1, 0, SemPost(0, true));
    OkExists(k2, 0);
    StrandedExactlyIf(k2, 0, SemWait(0));
    StepConserves(k2, 0, SemWait(0));
  }

  /** After the timer has fired thread 2 holds the count down. */
  lemma TimerFires(k: Kernel)
    requires Core(k, {}, true) && Inv(k) && SemOk(k, 0) && Enabled(k, Expire(2)) && OnTop(k, 0, [])
    requires k.sm[0] == -1 && Q(k, SemQ(0)) == [2]
    ensures var k1 := Step(k, Expire(2));
      && k1.current == 0 && k1.idle == 1 && 0 in k1.sm
      && Semaphore(k1, 0).count == -1 && Semaphore(k1, 0).wait.queue == [] && 2 in Semaphore(k1, 0).wait.stale
  {
    hide Core, Inv, Act, Step, View, Fine;
    StepShows(k, 0, Expire(2));
    ViewQueue(k, SemQ(0));
    assert 2 in View(k, SemQ(0)).queue && Without([2], 2) == [];
    assert !Reschedules(k, Expire(2));
    ExpireKeepsCurrent(k);
  }

  lemma ExpireKeepsCurrent(k: Kernel)
    requires Core(k, {}, true) && Enabled(k, Expire(2))
    ensures var k1 := Step(k, Expire(2)); k1.current == k.current && k1.idle == k.idle
  {
    hide Core, ExpireAct;
    ExpireTarget(k, 2);
    ExpireObjectsAndQueue(k, 2, SemQ(0));
  }

  /** The post leaves the token beside thread 2's place in the count. */
  lemma PostsToNobody(k: Kernel)
    requires Inv(k) && SemOk(k, 0) && k.current == 0 && k.idle == 1
    requires Semaphore(k, 0).count == -1 && Semaphore(k, 0).wait.queue == [] && 2 in Semaphore(k, 0).wait.stale
    ensures Enabled(k, SemPost(0, true))
    ensures var k' := Step(k, SemPost(0, true));
      && 0 in k'.sm && Enabled(k', SemWait(0)) && !Stranded(Semaphore(k', 0))
        && Strands(Semaphore(k', 0), 0, SemWait(0))
  {
    hide Inv, Act, View, Fine, Sound;
    StepShows(k, 0, SemPost(0, true));
    ViewQueue(k, SemQ(0));
    assert !Reschedules(k, SemPost(0, true));
    NoReschedKeepsCurrent(k);
    assert |Semaphore(k, 0).wait.stale| > 0;
  }

  lemma NoReschedKeepsCurrent(k: Kernel)
    requires Q(k, SemQ(0)) == []
    ensures var k' := Step(k, SemPost(0, true)); k'.current == k.current && k'.idle == k.idle
  {
    hide Dispatch;
  }
}
