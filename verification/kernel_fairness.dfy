/** Which thread runs next, and how long a ready thread may wait for the processor. */
module KernelFairness {
  import opened KernelState
  import opened KernelSteps
  import opened KernelInvariant
  import opened KernelJoins
  import opened KernelFrames
  import opened KernelSharing

  // ----- strict priority -----

  lemma ReadyBelowTop(k: Kernel, t: Tid)
    requires Reschedulable(k) && t in k.th && k.th[t].state == Ready
    ensures Top(k) >= 0 && k.th[t].priority <= T(k, NextThread(k)).priority
  {
    NextIsReady(k);
    assert t in Q(k, RunQ(k.th[t].priority));
  }

  /** After thread_resched no ready thread outranks the running one. */
  lemma RunningOutranksReady(k: Kernel, op: Op, t: Tid)
    requires Inv(k) && Enabled(k, op) && Reschedules(k, op)
    requires var k' := Step(k, op); t in k'.th && k'.th[t].state == Ready
    ensures var k' := Step(k, op); k'.current in k'.th && k'.th[t].priority <= k'.th[k'.current].priority
  {
    hide Act, Inv, Enabled, Reschedules, Dispatch, Placed, JoinsOk, Registered;
    var k1 := Act(k, op);
    StepKeepsInv(k, op);
    DispatchFields(k1);
    NextIsReady(k1);
    hide Sane, Top, NextThread;
    assert t != NextThread(k1) && k1.th[t].state == Ready && k1.th[t].priority == Dispatch(k1).th[t].priority;
    ReadyBelowTop(k1, t);
  }

  /** A thread that exits or starts to wait is never chosen again by its own call: thread_exit does
      not fall through. */
  lemma LeaversDoNotReturn(k: Kernel, op: Op)
    requires Inv(k) && Enabled(k, op) && Reschedules(k, op)
    requires T(Act(k, op), k.current).state in {Death, Blocked}
    ensures Step(k, op).current != k.current
  {
    var k1 := Act(k, op);
    StepKeepsInv(k, op);
    NextIsReady(k1);
    DispatchThreads(k1);
    hide Act, Dispatch;
  }

  /** thread_exit leaves the caller dead and another thread running. */
  lemma ExitLeaves(k: Kernel, code: int)
    requires Inv(k) && Enabled(k, Exit(code))
    ensures var k' := Step(k, Exit(code));
      k'.current != k.current && k.current in k'.th && k'.th[k.current].state == Death
        && k'.th[k.current].retcode == code
  {
    hide ExitAct, Dispatch, MidInv;
    var k1 := ExitAct(k, code);
    StepKeepsInv(k, Exit(code));
    InvIsCore(k);
    hide Inv;
    ExitEffect(k, code);
    LeaversDoNotReturn(k, Exit(code));
    DispatchThreads(k1);
  }

  lemma ExitEffect(k: Kernel, code: int)
    requires Core(k, {}, true) && k.current != k.idle
    ensures var c := T(ExitAct(k, code), k.current); c.state == Death && c.retcode == code
    ensures k.current in ExitAct(k, code).th
  {
    hide Core, WakeAll, Unlink;
    var t, k1 := k.current, Dying(k, code);
    DyingCore(k, code);
    if !Cur(k).detached {
      WakeAllEffect(k1, JoinQ(t), false, NO_ERROR, false);
      if t in Q(k1, JoinQ(t)) { Waiter(k1, JoinQ(t), t, {}, false); }
    } else {
      UnlinkKeeps(k1, t);
    }
  }

  lemma UnlinkKeeps(k: Kernel, t: Tid)
    ensures t in Unlink(k, t).th && T(Unlink(k, t), t) == T(k, t).(magic := false)
  {
    hide Without;
  }

  // ----- the idle thread -----

  /** get_top_thread finds every run queue empty and falls back on the idle thread. */
  predicate FallsBack(k: Kernel, op: Op) {
    Reschedules(k, op) && Top(Act(k, op)) < 0
  }

  predicate IdleStarted(k: Kernel) {
    T(k, k.idle).state != Suspended
  }

  lemma StepKeepsIdle(k: Kernel, op: Op)
    requires Inv(k) && Enabled(k, op) && IdleStarted(k)
    ensures IdleStarted(Step(k, op))
  {
    hide Act, Dispatch, Inv, MidInv, Core, Enabled, Reschedules, Aside, IdleStarted;
    InvIsCore(k);
    ActAside(k, op);
    StepKeepsInv(k, op);
    AsideKeepsIdle(k, Act(k, op), Target(k, op));
    if Reschedules(k, op) { DispatchKeepsIdle(Act(k, op)); }
  }

  lemma AsideKeepsIdle(k: Kernel, k': Kernel, w: QueueId)
    requires Inv(k) && Aside(k, k', w) && IdleStarted(k)
    ensures IdleStarted(k')
  {
    hide Q, Placed, JoinsOk;
    assert Undisturbed(k.th[k.idle], k'.th[k.idle], w);
  }

  lemma DispatchKeepsIdle(k1: Kernel)
    requires MidInv(k1) && IdleStarted(k1)
    ensures IdleStarted(Dispatch(k1))
  {
    hide Dispatch, NextThread, Placed, JoinsOk, Registered;
    DispatchThreads(k1);
  }

  /** The fallback is taken only while the idle thread has never run, and starts it. */
  lemma FallbackStartsIdle(k: Kernel, op: Op)
    requires Inv(k) && Enabled(k, op) && FallsBack(k, op)
    ensures !IdleStarted(k) && IdleStarted(Step(k, op)) && Step(k, op).current == k.idle
  {
    ActAside(k, op);
    StepKeepsInv(k, op);
    NextIsReady(Act(k, op));
    DispatchThreads(Act(k, op));
    hide Act, Dispatch, Inv, MidInv;
  }

  predicate NeverFallsBack(k: Kernel, ops: seq<Op>)
    decreases |ops|
  {
    ops == [] || (!FallsBack(k, ops[0]) && NeverFallsBack(Step(k, ops[0]), ops[1..]))
  }

  /** Once the idle thread has run, get_top_thread always finds a thread in a run queue. */
  lemma {:induction false} NoFallbackOnceStarted(k: Kernel, ops: seq<Op>)
    requires Inv(k) && Runs(k, ops) && IdleStarted(k)
    ensures NeverFallsBack(k, ops)
    decreases |ops|
  {
    if ops != [] {
      if FallsBack(k, ops[0]) { FallbackStartsIdle(k, ops[0]); }
      StepKeepsIdle(k, ops[0]);
      StepKeepsInv(k, ops[0]);
      NoFallbackOnceStarted(Step(k, ops[0]), ops[1..]);
    }
  }

  // ----- round robin -----

  /** Level `p` is the highest in use, and the running thread belongs to it. */
  predicate TopLevel(k: Kernel, p: nat) {
    p < NUM_PRIORITIES && T(k, k.current).priority == p
    && forall r: nat | p < r < NUM_PRIORITIES :: Q(k, RunQ(r)) == []
  }

  /** The threads of a level in the order they get the processor, the running one first. */
  function Line(k: Kernel, p: nat): seq<Tid> {
    [k.current] + Q(k, RunQ(p))
  }

  lemma {:induction false} TopIs(rq: seq<seq<Tid>>, n: nat, p: nat)
    requires p < n <= |rq| && rq[p] != [] && forall r | p < r < n :: rq[r] == []
    ensures TopBelow(rq, n) == p
  {
    if p < n - 1 { TopIs(rq, n - 1, p); }
  }

  /** With level `p` the highest in use, its first thread is next. */
  lemma NextOfLevel(k: Kernel, p: nat)
    requires |k.rq| == NUM_PRIORITIES && p < NUM_PRIORITIES && Q(k, RunQ(p)) != []
    requires forall r: nat | p < r < NUM_PRIORITIES :: Q(k, RunQ(r)) == []
    ensures NextThread(k) == Q(k, RunQ(p))[0] && PopTop(k) == SetQ(k, RunQ(p), Q(k, RunQ(p))[1..])
    ensures forall r: nat :: Q(PopTop(k), RunQ(r)) == if r == p then Q(k, RunQ(p))[1..] else Q(k, RunQ(r))
  {
    forall r | p < r < NUM_PRIORITIES ensures k.rq[r] == [] { assert Q(k, RunQ(r)) == k.rq[r]; }
    TopIs(k.rq, |k.rq|, p);
  }

  lemma YieldQueues(k: Kernel, p: nat, r: nat)
    requires Core(k, {}, true) && T(k, k.current).priority == p && r < NUM_PRIORITIES
    ensures Q(YieldAct(k), RunQ(r)) == Q(k, RunQ(r)) + (if r == p then [k.current] else [])
  {
  }

  /** A yield moves the running thread to the end of its level's line. */
  lemma YieldRotates(k: Kernel, p: nat)
    requires Inv(k) && Enabled(k, Yield) && TopLevel(k, p)
    ensures var k' := Step(k, Yield); TopLevel(k', p) && Line(k', p) == Line(k, p)[1..] + [k.current]
  {
    hide YieldAct, Core, Inv, Enabled, Dispatch, MidInv, Step, Act, Reschedules, Q;
    var k1, q := YieldAct(k), Q(k, RunQ(p));
    InvIsCore(k);
    StepKeepsInv(k, Yield);
    YieldActs(k);
    forall r: nat | r < NUM_PRIORITIES ensures Q(k1, RunQ(r)) == Q(k, RunQ(r)) + (if r == p then [k.current] else []) {
      YieldQueues(k, p, r);
    }
    DispatchedLine(k1, p);
    var n := (q + [k.current])[0];
    assert q + [k.current] == [n] + (q + [k.current])[1..];
  }

  lemma YieldActs(k: Kernel)
    ensures Step(k, Yield) == Dispatch(YieldAct(k)) && Act(k, Yield) == YieldAct(k) && Reschedules(k, Yield)
  {
    hide YieldAct, Dispatch;
  }

  function Yields(n: nat): seq<Op> {
    seq(n, _ => Yield)
  }

  function Rotated(q: seq<Tid>, n: nat): seq<Tid>
    requires n <= |q|
  {
    q[n..] + q[..n]
  }

  /** Threads that only yield run in strict rotation. */
  lemma {:induction false} YieldsRotate(k: Kernel, p: nat, n: nat)
    requires Inv(k) && Runs(k, Yields(n)) && TopLevel(k, p) && n <= |Line(k, p)|
    ensures Line(Run(k, Yields(n)), p) == Rotated(Line(k, p), n)
    decreases n
  {
    hide Inv, Step, Line, TopLevel, Enabled, Run, Runs;
    var l := Line(k, p);
    YieldsInTurn(k, n);
    if n == 0 {
      assert Rotated(l, 0) == l;
    } else {
      hide Rotated, Yields;
      YieldRotates(k, p);
      StepKeepsInv(k, Yield);
      LineOf(k, p);
      YieldsRotate(Step(k, Yield), p, n - 1);
      RotatedTwice(l, n);
    }
  }

  lemma YieldsInTurn(k: Kernel, n: nat)
    ensures n == 0 ==> Run(k, Yields(n)) == k
    ensures n > 0 && Runs(k, Yields(n)) ==> Enabled(k, Yield) && Runs(Step(k, Yield), Yields(n - 1))
    ensures n > 0 ==> Run(k, Yields(n)) == Run(Step(k, Yield), Yields(n - 1))
  {
    hide Step, Enabled;
    if n > 0 { assert Yields(n)[0] == Yield && Yields(n)[1..] == Yields(n - 1); }
  }

  lemma LineOf(k: Kernel, p: nat)
    ensures Line(k, p) != [] && Line(k, p)[0] == k.current
  {
  }

  lemma RotatedTwice(l: seq<Tid>, n: nat)
    requires 0 < n <= |l|
    ensures Rotated(l[1..] + [l[0]], n - 1) == Rotated(l, n)
  {
    var m := l[1..] + [l[0]];
    assert m[..n - 1] == l[1..n];
    assert m[n - 1..] == l[n..] + [l[0]];
    assert [l[0]] + l[1..n] == l[..n];
  }

  // ----- waking many -----

  /** The threads of `ts` whose priority is `p`, last first. */
  function Arrivals(k: Kernel, ts: seq<Tid>, p: nat): seq<Tid> {
    if ts == [] then []
    else Arrivals(k, ts[1..], p) + (if T(k, ts[0]).priority == p then [ts[0]] else [])
  }

  lemma {:induction false} ArrivalsFrame(k: Kernel, k': Kernel, ts: seq<Tid>, p: nat)
    requires forall t :: T(k', t).priority == T(k, t).priority
    ensures Arrivals(k', ts, p) == Arrivals(k, ts, p)
  {
    if ts != [] { ArrivalsFrame(k, k', ts[1..], p); }
  }

  lemma {:induction false} MakeAllReadyOrder(k: Kernel, ts: seq<Tid>, err: int, p: nat)
    requires |k.rq| == NUM_PRIORITIES && p < NUM_PRIORITIES
    requires forall t | t in ts :: t in k.th && k.th[t].priority < NUM_PRIORITIES
    ensures Q(MakeAllReady(k, ts, err), RunQ(p)) == Arrivals(k, ts, p) + Q(k, RunQ(p))
    decreases |ts|
  {
    if ts != [] {
      hide MakeReady, Q;
      var k1 := MakeReady(k, ts[0], err);
      var mine := if T(k, ts[0]).priority == p then [ts[0]] else [];
      MadeReadyOrder(k, ts[0], err, p);
      ArrivalsFrame(k, k1, ts[1..], p);
      MakeAllReadyOrder(k1, ts[1..], err, p);
      assert Arrivals(k, ts[1..], p) + (mine + Q(k, RunQ(p))) == Arrivals(k, ts, p) + Q(k, RunQ(p));
    }
  }

  lemma MadeReadyOrder(k: Kernel, t: Tid, err: int, p: nat)
    requires |k.rq| == NUM_PRIORITIES && p < NUM_PRIORITIES && t in k.th && k.th[t].priority < NUM_PRIORITIES
    ensures var k1 := MakeReady(k, t, err);
      && Q(k1, RunQ(p)) == (if T(k, t).priority == p then [t] else []) + Q(k, RunQ(p))
      && |k1.rq| == |k.rq| && k1.th.Keys == k.th.Keys && forall u :: T(k1, u).priority == T(k, u).priority
  {
  }

  lemma RequeueOrder(k: Kernel, p: nat)
    requires Core(k, {}, true) && p < NUM_PRIORITIES
    ensures Q(Requeue(k), RunQ(p)) == (if T(k, k.current).priority == p then [k.current] else []) + Q(k, RunQ(p))
    ensures forall t :: T(Requeue(k), t).priority == T(k, t).priority
    ensures |Requeue(k).rq| == |k.rq| && k.th.Keys <= Requeue(k).th.Keys
  {
  }

  /** Waking a whole queue: just before rescheduling each level holds its woken threads, last
      waiter first, then the caller if it reschedules, then whoever was there. */
  lemma WakeAllOrder(k: Kernel, w: QueueId, resched: bool, err: int, p: nat)
    requires Core(k, {}, true) && !w.RunQ? && p < NUM_PRIORITIES
    ensures var caller := if resched && Q(k, w) != [] && T(k, k.current).priority == p then [k.current] else [];
      Q(WakeAll(k, w, resched, err), RunQ(p)) == Arrivals(k, Q(k, w), p) + (caller + Q(k, RunQ(p)))
  {
    hide Requeue, Core, MakeAllReady, Q, Arrivals;
    WaitersInRange(k, w);
    RequeueOrder(k, p);
    PourOrder(k, if resched && Q(k, w) != [] then Requeue(k) else k, w, err, p);
  }

  lemma WaitersInRange(k: Kernel, w: QueueId)
    requires Core(k, {}, true)
    ensures |k.rq| == NUM_PRIORITIES && forall t | t in Q(k, w) :: t in k.th && k.th[t].priority < NUM_PRIORITIES
  {
    forall t | t in Q(k, w) ensures t in k.th && k.th[t].priority < NUM_PRIORITIES { assert TcbOk(k, k.th[t]); }
  }

  lemma PourOrder(k: Kernel, k1: Kernel, w: QueueId, err: int, p: nat)
    requires !w.RunQ? && p < NUM_PRIORITIES && |k1.rq| == NUM_PRIORITIES
    requires forall t :: T(k1, t).priority == T(k, t).priority
    requires forall t | t in Q(k, w) :: t in k1.th && k1.th[t].priority < NUM_PRIORITIES
    ensures Q(MakeAllReady(SetQ(k1, w, []), Q(k, w), err), RunQ(p)) == Arrivals(k, Q(k, w), p) + Q(k1, RunQ(p))
  {
    var k2 := SetQ(k1, w, []);
    MakeAllReadyOrder(k2, Q(k, w), err, p);
    ArrivalsFrame(k, k2, Q(k, w), p);
  }

  // ----- bounded waiting -----

  /** `x` is at index `i` of level `p`, the highest in use, and neither the running thread, which is
      of that level, nor any thread ahead of `x` is real-time. */
  ghost predicate Awaits(k: Kernel, x: Tid, p: nat, i: nat) {
    && TopLevel(k, p)
    && i < |Q(k, RunQ(p))| && Q(k, RunQ(p))[i] == x
    && !Cur(k).realTime
    && (forall j | 0 <= j < i :: !T(k, Q(k, RunQ(p))[j]).realTime)
  }

  /** Ticks until `x` must have been chosen. */
  function TicksLeft(k: Kernel, i: nat): nat {
    QUANTUM * i + (if Cur(k).quantum > 1 then Cur(k).quantum else 1)
  }

  /** The call makes neither the running thread nor one ahead of `x` on level `p` real-time. */
  predicate SparesLine(k: Kernel, op: Op, x: Tid, p: nat) {
    op.SetRealTime? ==>
      var q := Q(k, RunQ(p));
      op.thread != k.current && forall j | 0 <= j < |q| && x in q[j + 1..] :: q[j] != op.thread
  }

  /** No other thread is put ahead of `x` in the line of level `p`, or made real-time there: what the call does
      to the queues of that level and above is at most to put the caller back, in front or at the end. */
  ghost predicate Orderly(k: Kernel, op: Op, x: Tid, p: nat) {
    var k1, q := Act(k, op), Q(k, RunQ(p));
    && SparesLine(k, op, x, p)
    && (forall r: nat | p < r < NUM_PRIORITIES :: Q(k1, RunQ(r)) == [])
    && (Q(k1, RunQ(p)) == q || Q(k1, RunQ(p)) == q + [k.current] || Q(k1, RunQ(p)) == [k.current] + q)
  }

  /** No call makes a thread real-time but the one meant to. */
  lemma ActKeepsRealTime(k: Kernel, op: Op, t: Tid)
    requires Core(k, {}, true) && Enabled(k, op) && op != SetRealTime(t) && t in k.th
    ensures t in Act(k, op).th && Act(k, op).th[t].realTime == k.th[t].realTime
    ensures !op.Yield? && !op.Tick? && !op.SetPriority? ==> SameShare(k.th[t], Act(k, op).th[t])
  {
    hide Core, Act, Enabled;
    CurrentHasNoCont(k);
    if op.Yield? || op.Tick? || op.SetPriority? || op.SetRealTime? {
      CallerParameters(k, op, t);
    } else {
      ActSteady(k, op);
    }
  }

  lemma CallerParameters(k: Kernel, op: Op, t: Tid)
    requires k.current in k.th && t in k.th
    requires op.Yield? || op.Tick? || op.SetPriority? || (op.SetRealTime? && op.thread != t)
    ensures t in Act(k, op).th && Act(k, op).th[t].realTime == k.th[t].realTime
    ensures op.SetRealTime? ==> SameShare(k.th[t], Act(k, op).th[t])
  {
    hide YieldAct, TickAct, SetPriorityAct;
    match op
    case Yield => YieldThreads(k);
    case Tick => TickThreads(k);
    case SetPriority(p) => SetPriorityThreads(k, p);
    case SetRealTime(_) =>
  }

  lemma TickOutcome(k: Kernel)
    requires Core(k, {}, true) && !Cur(k).realTime
    ensures Cur(k).quantum > 1 ==>
        !Reschedules(k, Tick) && TickAct(k) == SetT(k, k.current, Cur(k).(quantum := Cur(k).quantum - 1))
    ensures Cur(k).quantum <= 1 ==> Reschedules(k, Tick)
    ensures Cur(k).quantum <= 1 ==> Q(TickAct(k), RunQ(Cur(k).priority)) == Q(k, RunQ(Cur(k).priority)) + [k.current]
  {
    CurrentHasNoCont(k);
    assert TcbOk(k, k.th[k.current]);
  }

  lemma YieldTail(k: Kernel)
    requires Core(k, {}, true)
    ensures Q(YieldAct(k), RunQ(Cur(k).priority)) == Q(k, RunQ(Cur(k).priority)) + [k.current]
  {
    assert TcbOk(k, k.th[k.current]);
  }

  /** A call that does not reschedule: the line does not move, and a tick costs a tick. */
  lemma StaysInLine(k: Kernel, op: Op, x: Tid, p: nat, i: nat)
    requires Inv(k) && Enabled(k, op) && Awaits(k, x, p, i) && Orderly(k, op, x, p) && !Reschedules(k, op)
    ensures var k' := Step(k, op);
        Awaits(k', x, p, i) && TicksLeft(k', i) <= TicksLeft(k, i) - (if op.Tick? then 1 else 0)
  {
    hide Act, Inv, Enabled, Q, Core, TicksLeft;
    var k', q := Act(k, op), Q(k, RunQ(p));
    InvIsCore(k);
    assert Step(k, op) == k';
    CallerStays(k, op);
    LineStays(k, op, p);
    forall j | 0 <= j < i ensures T(k', q[j]).realTime == T(k, q[j]).realTime {
      assert q[j] in q && q[j + 1..][i - j - 1] == x;
      QueuedExists(k, RunQ(p), q[j]);
      ActKeepsRealTime(k, op, q[j]);
    }
    TicksCount(k, k', i, op.Tick?);
  }

  lemma QueuedExists(k: Kernel, w: QueueId, t: Tid)
    requires Core(k, {}, true) && t in Q(k, w)
    ensures t in k.th
  {
  }

  lemma TicksCount(k: Kernel, k': Kernel, i: nat, tick: bool)
    requires if tick then Cur(k).quantum > 1 && Cur(k').quantum == Cur(k).quantum - 1
             else Cur(k').quantum == Cur(k).quantum
    ensures TicksLeft(k', i) <= TicksLeft(k, i) - (if tick then 1 else 0)
  {
  }

  /** The caller of such a call keeps its priority, its real-time flag and, but for a tick, its quantum. */
  lemma CallerStays(k: Kernel, op: Op)
    requires Inv(k) && Enabled(k, op) && !Reschedules(k, op) && !Cur(k).realTime && op != SetRealTime(k.current)
    ensures var k' := Act(k, op);
      && k'.current == k.current && Cur(k').priority == Cur(k).priority && !Cur(k').realTime
      && (if op.Tick? then Cur(k).quantum > 1 && Cur(k').quantum == Cur(k).quantum - 1
          else Cur(k').quantum == Cur(k).quantum)
  {
    hide Inv, Core, Enabled, TickAct;
    InvIsCore(k);
    CurrentHasNoCont(k);
    if op.Tick? {
      TickOutcome(k);
    } else {
      assert !op.Yield? && !op.SetPriority?;
      hide Act, Reschedules;
      SchedulerKeepsCurrent(k, op);
      ActKeepsRealTime(k, op, k.current);
    }
  }

  lemma LineStays(k: Kernel, op: Op, p: nat)
    requires Inv(k) && Enabled(k, op) && !Reschedules(k, op)
    requires var q, q' := Q(k, RunQ(p)), Q(Act(k, op), RunQ(p));
      q' == q || q' == q + [k.current] || q' == [k.current] + q
    ensures Q(Act(k, op), RunQ(p)) == Q(k, RunQ(p))
  {
    hide Inv, Enabled, Reschedules, Act, Q, Core;
    var q, k' := Q(k, RunQ(p)), Act(k, op);
    InvIsCore(k);
    SchedulerKeepsCurrent(k, op);
    StepKeepsInv(k, op);
    InvIsCore(k');
    RunningNotQueued(k', RunQ(p));
    assert k.current in q + [k.current] && k.current in [k.current] + q;
  }

  lemma RunningNotQueued(k: Kernel, w: QueueId)
    requires Core(k, {}, true)
    ensures k.current !in Q(k, w)
  {
    CurrentHasNoCont(k);
  }

  /** The line after a dispatch from level `p`. */
  lemma DispatchedLine(k1: Kernel, p: nat)
    requires MidInv(k1) && p < NUM_PRIORITIES && Q(k1, RunQ(p)) != []
    requires forall r: nat | p < r < NUM_PRIORITIES :: Q(k1, RunQ(r)) == []
    ensures var n, k' := Q(k1, RunQ(p))[0], Dispatch(k1);
      && k'.current == n && n in k1.th && k'.th.Keys == k1.th.Keys && TopLevel(k', p)
      && Q(k', RunQ(p)) == Q(k1, RunQ(p))[1..]
      && k'.th[n].realTime == k1.th[n].realTime && k'.th[n].quantum == Dispatched(k1, n).quantum
      && k'.th[n].quantum <= QUANTUM
      && (forall t | t in k1.th && t != n :: k'.th[t].realTime == k1.th[t].realTime)
  {
    hide Dispatch, PopTop, NextThread;
    NextOfLevel(k1, p);
    NextIsReady(k1);
    DispatchFields(k1);
    DispatchQueues(k1);
    assert Q(k1, RunQ(p))[0] in Q(k1, RunQ(p));
    assert TcbOk(k1, k1.th[NextThread(k1)]);
    hide MidInv, Q, TcbOk, Dispatched;
  }

  /** The threads of the line keep their real-time flags through a call. */
  lemma LineKeepsRealTime(k: Kernel, op: Op, p: nat)
    requires Inv(k) && Enabled(k, op) && !op.SetRealTime?
    ensures forall t | t == k.current || t in Q(k, RunQ(p)) ::
      t in k.th && t in Act(k, op).th && Act(k, op).th[t].realTime == k.th[t].realTime
  {
    hide Act, Core, Inv, Enabled, Q;
    InvIsCore(k);
    CurrentHasNoCont(k);
    forall t | t == k.current || t in Q(k, RunQ(p))
      ensures t in k.th && t in Act(k, op).th && Act(k, op).th[t].realTime == k.th[t].realTime
    {
      if t != k.current { QueuedExists(k, RunQ(p), t); }
      ActKeepsRealTime(k, op, t);
    }
  }

  /** A call that reschedules and does not put the caller in front: everybody moves up. */
  lemma MovesUp(k: Kernel, op: Op, x: Tid, p: nat, i: nat)
    requires Inv(k) && Enabled(k, op) && Awaits(k, x, p, i) && Orderly(k, op, x, p) && Reschedules(k, op)
    requires Q(Act(k, op), RunQ(p)) != [k.current] + Q(k, RunQ(p))
    ensures var k' := Step(k, op);
      k'.current == x || (i > 0 && Awaits(k', x, p, i - 1) && TicksLeft(k', i - 1) < TicksLeft(k, i))
  {
    StepKeepsInv(k, op);
    LineKeepsRealTime(k, op, p);
    hide Inv, MidInv, Enabled, Reschedules;
    MovesUpFrom(k, Act(k, op), x, p, i);
  }

  lemma TicksDrop(k: Kernel, k': Kernel, i: nat)
    requires i > 0 && Cur(k').quantum <= QUANTUM
    ensures TicksLeft(k', i - 1) < TicksLeft(k, i)
  {
  }

  lemma MovesUpFrom(k: Kernel, k1: Kernel, x: Tid, p: nat, i: nat)
    requires MidInv(k1) && Awaits(k, x, p, i)
    requires forall r: nat | p < r < NUM_PRIORITIES :: Q(k1, RunQ(r)) == []
    requires Q(k1, RunQ(p)) == Q(k, RunQ(p)) || Q(k1, RunQ(p)) == Q(k, RunQ(p)) + [k.current]
    requires forall t | t == k.current || t in Q(k, RunQ(p)) ::
        t in k.th && t in k1.th && k1.th[t].realTime == k.th[t].realTime
    ensures var k' := Dispatch(k1);
      k'.current == x || (i > 0 && Awaits(k', x, p, i - 1) && TicksLeft(k', i - 1) < TicksLeft(k, i))
  {
    hide MidInv, Dispatch, TicksLeft, Q;
    var q, q1, k' := Q(k, RunQ(p)), Q(k1, RunQ(p)), Dispatch(k1);
    DispatchedLine(k1, p);
    if i > 0 {
      TicksDrop(k, k', i);
      forall j | 0 <= j < i ensures q1[j] == q[j] && q[j] in q && !T(k, q[j]).realTime {}
      assert q1[i] == x;
      forall j | 0 <= j < i - 1 ensures !T(k', q1[1..][j]).realTime {
        assert q1[1..][j] == q[j + 1];
      }
    }
  }

  /** A call that puts the caller in front of its level: the caller goes on. */
  lemma GoesOn(k: Kernel, op: Op, x: Tid, p: nat, i: nat)
    requires Inv(k) && Enabled(k, op) && Awaits(k, x, p, i) && Orderly(k, op, x, p) && Reschedules(k, op)
    requires Q(Act(k, op), RunQ(p)) == [k.current] + Q(k, RunQ(p))
    ensures !op.Tick? && Awaits(Step(k, op), x, p, i) && TicksLeft(Step(k, op), i) == TicksLeft(k, i)
  {
    StepKeepsInv(k, op);
    LineKeepsRealTime(k, op, p);
    FrontKeepsQuantum(k, op, p);
    hide Inv, MidInv, Enabled, Reschedules;
    GoesOnFrom(k, Act(k, op), x, p, i);
  }

  lemma FrontKeepsQuantum(k: Kernel, op: Op, p: nat)
    requires Inv(k) && Enabled(k, op) && Reschedules(k, op) && !op.SetRealTime? && !Cur(k).realTime
    requires Cur(k).priority == p && Q(k, RunQ(p)) != []
    requires Q(Act(k, op), RunQ(p)) == [k.current] + Q(k, RunQ(p))
    ensures !op.Tick? && Act(k, op).current == k.current && T(Act(k, op), k.current).quantum == Cur(k).quantum
  {
    hide Inv, Core, Enabled, YieldAct, TickAct, SetPriorityAct, Q;
    var q := Q(k, RunQ(p));
    InvIsCore(k);
    CurrentHasNoCont(k);
    RunningNotQueued(k, RunQ(p));
    assert (q + [k.current])[0] == q[0] && ([k.current] + q)[0] == k.current;
    SchedulerKeepsCurrent(k, op);
    if op.Tick? {
      TickOutcome(k);
    } else if op.Yield? {
      YieldTail(k);
    } else if op.SetPriority? {
      SetPriorityKeepsQuantum(k, op.priority);
    } else {
      hide Act, Reschedules;
      ActKeepsRealTime(k, op, k.current);
    }
  }

  lemma GoesOnFrom(k: Kernel, k1: Kernel, x: Tid, p: nat, i: nat)
    requires MidInv(k1) && Awaits(k, x, p, i) && k1.current == k.current && T(k1, k.current).quantum == Cur(k).quantum
    requires forall r: nat | p < r < NUM_PRIORITIES :: Q(k1, RunQ(r)) == []
    requires Q(k1, RunQ(p)) == [k.current] + Q(k, RunQ(p))
    requires forall t | t == k.current || t in Q(k, RunQ(p)) ::
        t in k.th && t in k1.th && k1.th[t].realTime == k.th[t].realTime
    ensures var k' := Dispatch(k1); Awaits(k', x, p, i) && TicksLeft(k', i) == TicksLeft(k, i)
  {
    var q, k' := Q(k, RunQ(p)), Dispatch(k1);
    DispatchedLine(k1, p);
    hide MidInv, Dispatch;
    assert Q(k', RunQ(p)) == q;
    forall j | 0 <= j < i ensures !T(k', q[j]).realTime { assert q[j] in q; }
  }

  lemma SetPriorityKeepsQuantum(k: Kernel, p: int)
    requires k.current in k.th
    ensures T(SetPriorityAct(k, p), k.current).quantum == Cur(k).quantum
  {
    hide Requeue, ClampPriority;
  }

  function Ticks(ops: seq<Op>): nat {
    if ops == [] then 0 else (if ops[0].Tick? then 1 else 0) + Ticks(ops[1..])
  }

  /** Until `x` runs, every call is orderly for it on level `p`. */
  ghost predicate OrderlyRun(k: Kernel, x: Tid, p: nat, ops: seq<Op>)
    decreases |ops|
  {
    ops == [] || k.current == x || (Orderly(k, ops[0], x, p) && OrderlyRun(Step(k, ops[0]), x, p, ops[1..]))
  }

  /** `x` runs at some point of the run. */
  predicate GetsToRun(k: Kernel, x: Tid, ops: seq<Op>)
    decreases |ops|
  {
    k.current == x || (ops != [] && GetsToRun(Step(k, ops[0]), x, ops[1..]))
  }

  /** A thread at index `i` of the highest level in use runs within 5 * i + max(1, r) timer ticks,
      where r is what is left of the running thread's quantum. */
  lemma {:induction false} BoundedWait(k: Kernel, x: Tid, p: nat, i: nat, ops: seq<Op>)
    requires Inv(k) && Runs(k, ops) && Awaits(k, x, p, i) && OrderlyRun(k, x, p, ops)
    requires Ticks(ops) >= TicksLeft(k, i)
    ensures GetsToRun(k, x, ops)
    decreases |ops|
  {
    hide Inv, Enabled, Awaits, Orderly, Step, TicksLeft, Runs, OrderlyRun, Ticks, GetsToRun, Act, Reschedules, Q;
    SomeTicksLeft(k, i);
    FirstStep(k, x, p, ops);
    if k.current != x {
      var op, rest := ops[0], ops[1..];
      var k' := Step(k, op);
      StepKeepsInv(k, op);
      Advances(k, op, x, p, i);
      if k'.current == x {
        RunsNow(k', x, rest);
      } else {
        BoundedWait(k', x, p, if Nearer(k, k', op, x, p, i, i) then i else i - 1, rest);
      }
    }
  }

  /** After the call `x` is at index `j`, and the bound has gone down by one if it was a tick. */
  ghost predicate Nearer(k: Kernel, k': Kernel, op: Op, x: Tid, p: nat, i: nat, j: nat) {
    Awaits(k', x, p, j) && TicksLeft(k', j) <= TicksLeft(k, i) - (if op.Tick? then 1 else 0)
  }

  lemma Advances(k: Kernel, op: Op, x: Tid, p: nat, i: nat)
    requires Inv(k) && Enabled(k, op) && Awaits(k, x, p, i) && Orderly(k, op, x, p)
    ensures var k' := Step(k, op);
      k'.current == x || Nearer(k, k', op, x, p, i, i) || (i > 0 && Nearer(k, k', op, x, p, i, i - 1))
  {
    hide Inv, Enabled, Awaits, Orderly, Step, TicksLeft, Act, Reschedules, Q;
    if !Reschedules(k, op) {
      StaysInLine(k, op, x, p, i);
    } else if Q(Act(k, op), RunQ(p)) == [k.current] + Q(k, RunQ(p)) {
      GoesOn(k, op, x, p, i);
    } else {
      MovesUp(k, op, x, p, i);
    }
  }

  lemma RunsNow(k: Kernel, x: Tid, ops: seq<Op>)
    requires k.current == x
    ensures GetsToRun(k, x, ops)
  {
  }

  lemma FirstStep(k: Kernel, x: Tid, p: nat, ops: seq<Op>)
    requires Runs(k, ops) && OrderlyRun(k, x, p, ops)
    ensures k.current == x ==> GetsToRun(k, x, ops)
    ensures ops == [] ==> Ticks(ops) == 0
    ensures ops != [] && k.current != x ==>
      var op, rest := ops[0], ops[1..];
      && Enabled(k, op) && Runs(Step(k, op), rest) && Orderly(k, op, x, p) && OrderlyRun(Step(k, op), x, p, rest)
      && Ticks(ops) == (if op.Tick? then 1 else 0) + Ticks(rest)
      && (GetsToRun(Step(k, op), x, rest) ==> GetsToRun(k, x, ops))
  {
    hide Enabled, Orderly, Step;
  }

  lemma SomeTicksLeft(k: Kernel, i: nat)
    ensures TicksLeft(k, i) > 0
  {
  }
}
