/** What creating and resuming a thread gives, as the calls after it show. */
module KernelCreation {
  import opened KernelState
  import opened KernelSteps
  import opened KernelInvariant
  import opened KernelJoins
  import opened KernelFrames
  import opened KernelSharing
  import opened KernelFairness
  import opened KernelOutcomes

  /** The state once thread `t` was created with priority `base` and resumed. */
  function Started(k: Kernel, t: Tid, base: nat): Kernel {
    Run(k, [Create(t, base), Resume(t)])
  }

  // ----- where it stands -----

  lemma Created(k: Kernel, t: Tid, base: nat)
    requires Inv(k) && Enabled(k, Create(t, base))
    ensures var k1 := Step(k, Create(t, base));
      && k1 == k.(th := k1.th, list := k1.list) && k1.th.Keys == k.th.Keys + {t}
      && (forall u | u in k.th :: k1.th[u] == k.th[u])
      && k1.th[t].state == Suspended && k1.th[t].cont == NoCont && k1.th[t].priority == base
      && !k1.th[t].detached && !k1.th[t].realTime && k1.th[t].quantum == 0
      && Enabled(k1, Resume(t))
  {
    hide Dispatch, Placed, JoinsOk, Registered;
  }

  lemma Resumed(k: Kernel, t: Tid)
    requires k.current in k.th && t in k.th && t != k.current && k.th[t].state == Suspended
    requires k.th[t].priority < NUM_PRIORITIES == |k.rq|
    ensures var k' := Step(k, Resume(t));
      && k'.current == k.current && k'.th.Keys == k.th.Keys && k'.idle == k.idle
      && k'.th[t] == k.th[t].(state := Ready) && k'.th[k.current] == k.th[k.current].(ret := NO_ERROR)
      && (forall u | u in k.th && u != t && u != k.current :: k'.th[u] == k.th[u])
      && (forall r: nat | r < NUM_PRIORITIES ::
            (Q(k', RunQ(r)) == if r == k.th[t].priority then [t] + Q(k, RunQ(r)) else Q(k, RunQ(r))))
  {
    hide InsertHead, Dispatch;
    var k1 := SetT(k, t, k.th[t].(state := Ready));
    forall r: nat | r < NUM_PRIORITIES
      ensures Q(Step(k, Resume(t)), RunQ(r)) == if r == k.th[t].priority then [t] + Q(k, RunQ(r)) else Q(k, RunQ(r))
    {
      InsertedFirst(k1, t, r);
    }
  }

  lemma LevelsOfInv(k: Kernel)
    requires Inv(k)
    ensures |k.rq| == NUM_PRIORITIES && k.current in k.th && k.idle in k.th
  {
  }

  lemma InTurn(k: Kernel, x: Op, y: Op)
    ensures Run(k, [x, y]) == Step(Step(k, x), y)
    ensures Runs(k, [x, y]) <==> Enabled(k, x) && Enabled(Step(k, x), y)
  {
    hide Step, Enabled;
    assert [x, y][0] == x && [x, y][1..] == [y] && [y][1..] == [];
    assert Run(Step(k, x), [y]) == Run(Step(Step(k, x), y), []);
    assert Runs(Step(k, x), [y]) <==> Enabled(Step(k, x), y) && Runs(Step(Step(k, x), y), []);
  }

  lemma OnlyThere(k: Kernel, t: Tid)
    requires Inv(k) && t in k.th && k.th[t].state == Ready
    ensures forall w: QueueId :: t in Q(k, w) <==> w == RunQ(k.th[t].priority)
  {
    hide Q;
  }

  /** The thread stands first in the run queue of the level asked for and in no other queue; the other run queues
      are as they were, and the caller goes on. */
  lemma StandsFirst(k: Kernel, t: Tid, base: nat)
    requires Inv(k) && Enabled(k, Create(t, base))
    ensures Runs(k, [Create(t, base), Resume(t)]) && Inv(Started(k, t, base))
    ensures var k2 := Started(k, t, base);
      && k2.current == k.current && k2.idle == k.idle && t in k2.th && k.current in k.th && k.current in k2.th
      && k2.th[k.current].priority == k.th[k.current].priority && k2.th[t].cont == NoCont
      && (forall r: nat | r < NUM_PRIORITIES ::
            (Q(k2, RunQ(r)) == if r == base then [t] + Q(k, RunQ(r)) else Q(k, RunQ(r))))
      && (forall w: QueueId :: t in Q(k2, w) <==> w == RunQ(base))
  {
    hide Inv, Step, Enabled, Q, Run, Runs;
    var k1 := Step(k, Create(t, base));
    InTurn(k, Create(t, base), Resume(t));
    LevelsOfInv(k);
    Created(k, t, base);
    NewAddress(k, t, base);
    StepKeepsInv(k, Create(t, base));
    Resumed(k1, t);
    StepKeepsInv(k1, Resume(t));
    forall r: nat ensures Q(k1, RunQ(r)) == Q(k, RunQ(r)) { QueuesApart(k1, k, RunQ(r)); }
    OnlyThere(Step(k1, Resume(t)), t);
  }

  lemma NewAddress(k: Kernel, t: Tid, base: nat)
    requires Enabled(k, Create(t, base))
    ensures t !in k.th && base < NUM_PRIORITIES
  {
  }

  /** The thread list has the youngest thread first. */
  lemma ListedFirst(k: Kernel, t: Tid, base: nat)
    requires Inv(k) && Enabled(k, Create(t, base))
    ensures Started(k, t, base).list == [t] + k.list
  {
    hide Inv, InsertHead, Dispatch;
    InTurn(k, Create(t, base), Resume(t));
  }

  // ----- when it runs -----

  /** At the caller's next yield it runs exactly if no level above its own is in use and the caller is of no higher
      level. */
  lemma RunsAtYield(k: Kernel, t: Tid, base: nat)
    requires Inv(k) && Enabled(k, Create(t, base))
    ensures var k2 := Started(k, t, base);
      && Enabled(k2, Yield)
      && (Step(k2, Yield).current == t <==>
          T(k, k.current).priority <= base && forall r: nat | base < r < NUM_PRIORITIES :: Q(k, RunQ(r)) == [])
  {
    hide Inv, Q, YieldAct, Dispatch, MidInv, Started, Core, Act, Step, Reschedules;
    var k2, c := Started(k, t, base), k.current;
    StandsFirst(k, t, base);
    var p := k.th[c].priority;
    NewAddress(k, t, base);
    assert Enabled(k2, Yield);
    YieldActs(k2);
    StepKeepsInv(k2, Yield);
    InvIsCore(k2);
    LevelInRange(k2, c);
    var k3 := YieldAct(k2);
    YieldThreads(k2);
    forall r: nat | r < NUM_PRIORITIES ensures Q(k3, RunQ(r)) == Q(k2, RunQ(r)) + (if r == p then [c] else []) {
      YieldQueues(k2, p, r);
    }
    FirstRuns(k, k3, t, base, c, p);
  }

  lemma LevelInRange(k: Kernel, t: Tid)
    requires Inv(k) && t in k.th
    ensures T(k, t) == k.th[t] && k.th[t].priority < NUM_PRIORITIES
  {
    assert TcbOk(k, k.th[t]);
  }

  /** Thread `t` is first of level `base`, and the caller at the end of level `p`. */
  lemma FirstRuns(k: Kernel, k3: Kernel, t: Tid, base: nat, c: Tid, p: nat)
    requires MidInv(k3) && base < NUM_PRIORITIES && p < NUM_PRIORITIES && t in k3.th && t != c
    requires forall r: nat | r < NUM_PRIORITIES ::
      (Q(k3, RunQ(r)) ==
        (if r == base then [t] + Q(k, RunQ(r)) else Q(k, RunQ(r))) + (if r == p then [c] else []))
    ensures Dispatch(k3).current == t <==> p <= base && forall r: nat | base < r < NUM_PRIORITIES :: Q(k, RunQ(r)) == []
  {
    hide Dispatch, Q, PopTop, NextThread, Top, MidInv;
    DispatchThreads(k3);
    assert Q(k3, RunQ(base))[0] == t;
    if p <= base && forall r: nat | base < r < NUM_PRIORITIES :: Q(k, RunQ(r)) == [] {
      LevelsOfMid(k3, t, base);
      NextOfLevel(k3, base);
    } else {
      assert p > base ==> c in Q(k3, RunQ(p));
      forall r: nat | base < r < NUM_PRIORITIES && Q(k, RunQ(r)) != [] ensures Q(k3, RunQ(r)) != [] {}
      var r: nat :| base < r < NUM_PRIORITIES && Q(k3, RunQ(r)) != [];
      TopAbove(k3, r);
      LevelsOfMid(k3, t, base);
    }
  }

  lemma LevelsOfMid(k3: Kernel, t: Tid, base: nat)
    requires MidInv(k3) && t in Q(k3, RunQ(base))
    ensures |k3.rq| == NUM_PRIORITIES && t in k3.th && k3.th[t].priority == base
    ensures Top(k3) >= 0 ==> NextThread(k3) in k3.th && k3.th[NextThread(k3)].priority == Top(k3)
  {
    hide Top, NextThread, Q;
    NextIsReady(k3);
  }

  // ----- the first threads -----

  /** The boot thread runs at the highest level: at its first yield a thread just created runs exactly if that is of
      level 31 as well. It is charged for ticks and has no quantum to begin with. Neither it nor the idle thread, of
      level 0, can be joined; the idle thread is the younger. */
  lemma BootGives(boot: Tid, idle: Tid, t: Tid, base: nat, timeout: Timeout)
    requires boot != idle && t != boot && t != idle && base < NUM_PRIORITIES
    ensures var b := Boot(boot, idle);
      && Inv(b) && b.current == boot && b.list == [idle, boot] && T(b, idle).priority == 0
      && Enabled(b, Create(t, base)) && (Step(Started(b, t, base), Yield).current == t <==> base == 31)
      && Reschedules(b, Tick)
      && (forall u | u == boot || u == idle ::
        Enabled(b, Join(u, timeout)) && Returns(b, Join(u, timeout), ERR_THREAD_DETACHED))
  {
    hide Inv, Step, Returns, Started;
    var b := Boot(boot, idle);
    BootInv(boot, idle);
    RunsAtYield(b, t, base);
    assert forall r: nat | base < r < NUM_PRIORITIES :: Q(b, RunQ(r)) == [];
    JoinStatus(b, boot, timeout);
    JoinStatus(b, idle, timeout);
  }

  // ----- that it can be joined, and shares the processor -----

  /** It can be joined: a join blocks, unless it may not wait, and then it times out. */
  lemma CanBeJoined(k: Kernel, t: Tid, base: nat, timeout: Timeout)
    requires Inv(k) && Enabled(k, Create(t, base))
    ensures var k2, op := Started(k, t, base), Join(t, timeout);
      && Enabled(k2, op)
      && if timeout == Poll then Returns(k2, op, ERR_TIMED_OUT) else Blocks(k2, op, JoinQ(t))
  {
    hide Inv, Step, Q, Returns, Blocks;
    var k1, k2 := Step(k, Create(t, base)), Started(k, t, base);
    StandsFirst(k, t, base);
    InTurn(k, Create(t, base), Resume(t));
    hide Run, Runs;
    Joinable(k, t, base);
    JoinStatus(k2, t, timeout);
  }

  lemma Joinable(k: Kernel, t: Tid, base: nat)
    requires Inv(k) && Enabled(k, Create(t, base))
    ensures var k2 := Step(Step(k, Create(t, base)), Resume(t));
      Live(k2, t) && !k2.th[t].detached && k2.th[t].state == Ready && NoJoiner(k2, t)
  {
    hide Inv, Step, Q, Enabled;
    var k1 := Step(k, Create(t, base));
    LevelsOfInv(k);
    Created(k, t, base);
    NewAddress(k, t, base);
    LinkedWhenNew(k, t, base);
    Resumed(k1, t);
    NobodyJoins(k, t);
  }

  lemma NobodyJoins(k: Kernel, t: Tid)
    requires Inv(k) && t !in k.th
    ensures forall j | j in k.th :: k.th[j].cont != JoinCont(t)
  {
    forall j | j in k.th ensures k.th[j].cont != JoinCont(t) { assert TcbOk(k, k.th[j]); }
  }

  lemma LinkedWhenNew(k: Kernel, t: Tid, base: nat)
    ensures T(Step(k, Create(t, base)), t).magic
  {
    hide Dispatch;
  }

  /** It is charged for the ticks: from a full quantum when it is first dispatched, one each. */
  lemma IsCharged(k: Kernel, t: Tid, base: nat, n: nat)
    requires Inv(k) && Enabled(k, Create(t, base)) && n < 5
    requires Step(Started(k, t, base), Yield).current == t
    ensures var k3 := Step(Started(k, t, base), Yield);
      var k4 := Run(k3, TickRun(n));
      Inv(k3) && Runs(k3, TickRun(n)) && k4.current == t && T(k4, t).quantum == 5 - n
  {
    hide Inv, Step, Q, Started;
    StandsFirst(k, t, base);
    var k2 := Started(k, t, base);
    RunsAtYield(k, t, base);
    StepKeepsInv(k2, Yield);
    FreshQuantum(k, t, base);
    hide Enabled;
    TicksCharge(Step(k2, Yield), n);
  }

  function TickRun(n: nat): seq<Op> {
    seq(n, _ => Tick)
  }

  lemma FreshQuantum(k: Kernel, t: Tid, base: nat)
    requires Inv(k) && Enabled(k, Create(t, base)) && Step(Started(k, t, base), Yield).current == t
    ensures var c := Cur(Step(Started(k, t, base), Yield)); !c.realTime && c.quantum == 5
  {
    hide Inv, Step, Q, YieldAct, Dispatch, MidInv, Enabled, Act, Reschedules, Runs, Run;
    var k1 := Step(k, Create(t, base));
    var k2 := Step(k1, Resume(t));
    InTurn(k, Create(t, base), Resume(t));
    LevelsOfInv(k);
    NewAddress(k, t, base);
    Created(k, t, base);
    StepKeepsInv(k, Create(t, base));
    Resumed(k1, t);
    StepKeepsInv(k1, Resume(t));
    assert Enabled(k2, Yield) by { RunsAtYield(k, t, base); }
    StepKeepsInv(k2, Yield);
    YieldActs(k2);
    YieldThreads(k2);
    YieldCurrent(k2);
    DispatchShares(YieldAct(k2), t);
    StepKeepsThreads(k2);
  }

  lemma YieldCurrent(k: Kernel)
    ensures YieldAct(k).current == k.current
  {
    hide InsertTail;
  }

  lemma StepKeepsThreads(k: Kernel)
    requires MidInv(YieldAct(k))
    ensures Dispatch(YieldAct(k)).current in Dispatch(YieldAct(k)).th
  {
    hide YieldAct, Dispatch, MidInv, NextThread;
    DispatchThreads(YieldAct(k));
  }

  /** Ticks that leave quantum are charged to the running thread, which goes on. */
  lemma {:induction false} TicksCharge(k: Kernel, n: nat)
    requires Inv(k) && !Cur(k).realTime && n < Cur(k).quantum
    ensures var k' := Run(k, TickRun(n));
      Runs(k, TickRun(n)) && k'.current == k.current && Cur(k').quantum == Cur(k).quantum - n
    decreases n
  {
    hide Inv, Enabled, Step;
    if n > 0 {
      TickTaken(k);
      assert TickRun(n)[0] == Tick && TickRun(n)[1..] == TickRun(n - 1);
      TicksCharge(Step(k, Tick), n - 1);
    }
  }

  lemma TickTaken(k: Kernel)
    requires Inv(k) && !Cur(k).realTime && Cur(k).quantum > 1
    ensures var k1 := Step(k, Tick);
      Enabled(k, Tick) && Inv(k1) && k1.current == k.current && !Cur(k1).realTime
        && Cur(k1).quantum == Cur(k).quantum - 1
  {
    hide Inv, TickAct, Dispatch, Core;
    InvIsCore(k);
    StepKeepsInv(k, Tick);
    TickOutcome(k);
  }
}
