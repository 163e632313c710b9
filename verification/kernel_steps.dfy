/** The kernel calls as atomic steps. Each body between taking and leaving the thread lock is one
    step: `Act` is the part up to the call of thread_resched, `Dispatch` is thread_resched followed
    by what the chosen thread still does before it releases the lock. */
module KernelSteps {
  import opened Wrappers
  import opened KernelState

  // ----- run queues and the scheduler -----

  function InsertHead(k: Kernel, t: Tid): (r: Kernel)
    ensures r == k.(rq := r.rq) && |r.rq| == |k.rq|
  {
    var id := RunQ(T(k, t).priority);
    SetQ(k, id, [t] + Q(k, id))
  }

  function InsertTail(k: Kernel, t: Tid): (r: Kernel)
    ensures r == k.(rq := r.rq) && |r.rq| == |k.rq|
  {
    var id := RunQ(T(k, t).priority);
    SetQ(k, id, Q(k, id) + [t])
  }

  /** The number of the highest non-empty level below `n`, or -1. */
  function TopBelow(rq: seq<seq<Tid>>, n: nat): (p: int)
    requires n <= |rq|
    ensures -1 <= p < n
    ensures p >= 0 ==> rq[p] != []
    ensures forall i :: p < i < n ==> rq[i] == []
  {
    if n == 0 then -1
    else if rq[n - 1] != [] then n - 1
    else TopBelow(rq, n - 1)
  }

  function Top(k: Kernel): int {
    TopBelow(k.rq, |k.rq|)
  }

  /** get_top_thread: the thread it returns ... */
  function NextThread(k: Kernel): Tid {
    var p := Top(k);
    if p >= 0 then k.rq[p][0] else k.idle
  }

  /** ... and the state it leaves. */
  function PopTop(k: Kernel): Kernel {
    var p := Top(k);
    if p >= 0 then k.(rq := k.rq[p := k.rq[p][1..]]) else k
  }

  /** The chosen thread's fields after thread_resched: a spent quantum is refilled, except when the
      caller itself is chosen again. */
  function Dispatched(k: Kernel, n: Tid): Tcb {
    var c := T(k, n).(state := Running);
    if n != k.current && c.quantum <= 0 then c.(quantum := QUANTUM) else c
  }

  /** thread_resched, up to the context switch. */
  function Resched(k: Kernel): Kernel {
    SetT(PopTop(k), NextThread(k), Dispatched(k, NextThread(k))).(current := NextThread(k))
  }

  /** The thread is about to complete a successful join of `t`. */
  predicate Completes(c: Tcb, t: Tid) {
    c.cont == JoinCont(t) && c.blockRet >= 0
  }

  /** A thread's fields once it has done what it had left to do when thread_resched returned. */
  function Continued(k: Kernel, c: Tcb): Tcb {
    match c.cont
    case NoCont => c
    case JoinCont(t) =>
      if c.blockRet >= 0 then c.(cont := NoCont, ret := NO_ERROR, out := T(k, t).retcode)
      else c.(cont := NoCont, ret := c.blockRet)
    case _ => c.(cont := NoCont, ret := c.blockRet)
  }

  function ContinueThreads(k: Kernel): map<Tid, Tcb> {
    var th := k.th[k.current := Continued(k, Cur(k))];
    match Cur(k).cont
    case JoinCont(t) => if Cur(k).blockRet >= 0 then th[t := T(k, t).(magic := false)] else th
    case _ => th
  }

  function ContinueList(k: Kernel): seq<Tid> {
    match Cur(k).cont
    case JoinCont(t) => if Cur(k).blockRet >= 0 then Without(k.list, t) else k.list
    case _ => k.list
  }

  /** A waiter that was handed the mutex takes it; one that timed out backs its count out. */
  function ContinueMutexes(k: Kernel): map<nat, MutexState> {
    match Cur(k).cont
    case AcquireCont(m) =>
      if Cur(k).blockRet >= 0 then k.mx[m := Mx(k, m).(holder := Some(k.current))]
      else if Cur(k).blockRet == ERR_TIMED_OUT then k.mx[m := Mx(k, m).(count := Mx(k, m).count - 1)]
      else k.mx
    case _ => k.mx
  }

  function ContinueSems(k: Kernel): map<nat, int> {
    match Cur(k).cont
    case SemCont(s, timed) =>
      if timed && Cur(k).blockRet == ERR_TIMED_OUT then k.sm[s := Sm(k, s) + 1] else k.sm
    case _ => k.sm
  }

  /** What the current thread does between the return of thread_resched and releasing the lock. */
  function Continue(k: Kernel): Kernel {
    k.(th := ContinueThreads(k), list := ContinueList(k), mx := ContinueMutexes(k), sm := ContinueSems(k))
  }

  function Dispatch(k: Kernel): Kernel {
    Continue(Resched(k))
  }

  /** Unlink `t` from the thread list and mark its structure dead. */
  function Unlink(k: Kernel, t: Tid): Kernel {
    SetT(k, t, T(k, t).(magic := false)).(list := Without(k.list, t))
  }

  /** The tail of thread_join on a dead target: hand over the exit code and unlink the target. */
  function FinishJoin(k: Kernel, j: Tid, t: Tid): Kernel {
    Unlink(SetT(k, j, T(k, j).(out := T(k, t).retcode, ret := NO_ERROR)), t)
  }

  // ----- waiting and waking -----

  /** wait_queue_block up to thread_resched, for a non-zero timeout. */
  function Enqueue(k: Kernel, timeout: Timeout, cont: Cont): (r: Kernel)
    requires cont != NoCont
    ensures r == k.(th := r.th, rq := r.rq, wq := r.wq) && k.th.Keys <= r.th.Keys
  {
    var w := ContQueue(cont);
    var c := Cur(k).(state := Blocked, waitOn := Some(w), blockRet := NO_ERROR,
      cont := cont, armed := timeout == Finite);
    SetQ(SetT(k, k.current, c), w, Q(k, w) + [k.current])
  }

  function Woken(c: Tcb, err: int): Tcb {
    c.(state := Ready, waitOn := None, blockRet := err, armed := false)
  }

  /** Make one thread, already off its wait queue, ready at the head of its run queue. */
  function MakeReady(k: Kernel, t: Tid, err: int): (r: Kernel)
    ensures r == k.(th := r.th, rq := r.rq, wq := r.wq) && k.th.Keys <= r.th.Keys
  {
    InsertHead(SetT(k, t, Woken(T(k, t), err)), t)
  }

  function MakeAllReady(k: Kernel, ts: seq<Tid>, err: int): (r: Kernel)
    ensures r == k.(th := r.th, rq := r.rq, wq := r.wq) && k.th.Keys <= r.th.Keys
    decreases |ts|
  {
    if ts == [] then k else MakeAllReady(MakeReady(k, ts[0], err), ts[1..], err)
  }

  /** The current thread goes back to the head of its run queue. */
  function Requeue(k: Kernel): (r: Kernel)
    ensures r == SetT(k, k.current, Cur(k).(state := Ready)).(rq := r.rq) && |r.rq| == |k.rq|
  {
    InsertHead(SetT(k, k.current, Cur(k).(state := Ready)), k.current)
  }

  /** wait_queue_wake_one up to thread_resched. */
  function WakeOne(k: Kernel, w: QueueId, resched: bool, err: int): (r: Kernel)
    ensures r == k.(th := r.th, rq := r.rq, wq := r.wq) && k.th.Keys <= r.th.Keys
  {
    if Q(k, w) == [] then k
    else
      var t := Q(k, w)[0];
      var k1 := SetQ(k, w, Q(k, w)[1..]);
      var k2 := SetT(k1, t, Woken(T(k1, t), err));
      InsertHead(if resched then Requeue(k2) else k2, t)
  }

  /** wait_queue_wake_all up to thread_resched. */
  function WakeAll(k: Kernel, w: QueueId, resched: bool, err: int): (r: Kernel)
    ensures r == k.(th := r.th, rq := r.rq, wq := r.wq) && k.th.Keys <= r.th.Keys
  {
    var ts := Q(k, w);
    var k1 := if resched && ts != [] then Requeue(k) else k;
    MakeAllReady(SetQ(k1, w, []), ts, err)
  }

  // ----- the calls -----

  datatype Op =
    | Yield
    | Preempt
    | Tick
    | SetPriority(priority: int)
    | SetRealTime(thread: Tid)
    | Create(thread: Tid, base: nat)
    | Resume(thread: Tid)
    | Join(thread: Tid, timeout: Timeout)
    | Detach(thread: Tid)
    | Exit(code: int)
    | Expire(thread: Tid)
    | MutexInit(mutex: nat)
    | MutexAcquire(mutex: nat, timeout: Timeout)
    | MutexRelease(mutex: nat)
    | SemInit(sem: nat, initial: nat)
    | SemWait(sem: nat)
    | SemTryWait(sem: nat)
    | SemTimedWait(sem: nat, timeout: Timeout)
    | SemPost(sem: nat, resched: bool)
    | EventInit(event: nat, initially: bool, auto: bool)
    | EventWait(event: nat, timeout: Timeout)
    | EventSignal(event: nat, resched: bool)
    | EventUnsignal(event: nat)

  function Return(k: Kernel, status: int): Kernel {
    SetT(k, k.current, Cur(k).(ret := status))
  }

  function YieldAct(k: Kernel): Kernel {
    var k1 := SetT(k, k.current, Cur(k).(state := Ready, quantum := 0));
    if Cur(k).idleFlag then k1 else InsertTail(k1, k.current)
  }

  function PreemptAct(k: Kernel): Kernel {
    var k1 := SetT(k, k.current, Cur(k).(state := Ready));
    if Cur(k).idleFlag then k1
    else if Cur(k).quantum > 0 then InsertHead(k1, k.current)
    else InsertTail(k1, k.current)
  }

  /** thread_timer_tick */
  predicate TickReschedules(k: Kernel) {
    !Cur(k).realTime && !Cur(k).idleFlag && Cur(k).quantum - 1 <= 0
  }

  function TickAct(k: Kernel): Kernel {
    if Cur(k).realTime || Cur(k).idleFlag then k
    else
      var k1 := SetT(k, k.current, Cur(k).(quantum := Cur(k).quantum - 1));
      if TickReschedules(k) then PreemptAct(k1) else k1
  }

  function ClampPriority(p: int): nat {
    if p <= IDLE_PRIORITY then IDLE_PRIORITY + 1
    else if p > HIGHEST_PRIORITY then HIGHEST_PRIORITY
    else p
  }

  function SetPriorityAct(k: Kernel, p: int): Kernel {
    Requeue(SetT(k, k.current, Cur(k).(priority := ClampPriority(p))))
  }

  function CreateAct(k: Kernel, t: Tid, base: nat): Kernel {
    k.(th := k.th[t := BLANK_TCB.(priority := base)], list := [t] + k.list)
  }

  /** The locked part of thread_resume; the yield that follows is a step of its own. */
  function ResumeAct(k: Kernel, t: Tid): Kernel {
    var k1 := if T(k, t).state == Suspended then InsertHead(SetT(k, t, T(k, t).(state := Ready)), t) else k;
    Return(k1, NO_ERROR)
  }

  function JoinAct(k: Kernel, t: Tid, timeout: Timeout): Kernel {
    if T(k, t).detached then Return(k, ERR_THREAD_DETACHED)
    else if T(k, t).state == Death then FinishJoin(k, k.current, t)
    else if timeout == Poll then Return(k, ERR_TIMED_OUT)
    else Enqueue(k, timeout, JoinCont(t))
  }

  /** The first critical section of thread_detach; for a dead target a join with timeout 0 follows. */
  function DetachAct(k: Kernel, t: Tid): Kernel {
    SetDetached(WakeAll(k, JoinQ(t), false, ERR_THREAD_DETACHED), t)
  }

  function SetDetached(k: Kernel, t: Tid): Kernel {
    if T(k, t).state == Death then SetT(k, t, T(k, t).(detached := false))
    else Return(SetT(k, t, T(k, t).(detached := true)), NO_ERROR)
  }

  function ExitAct(k: Kernel, code: int): Kernel {
    var c := k.current;
    var k1 := SetT(k, c, Cur(k).(state := Death, retcode := code));
    if Cur(k).detached then Unlink(k1, c)
    else WakeAll(k1, JoinQ(c), false, NO_ERROR)
  }

  /** thread_unblock_from_wait_queue, as the wait timer calls it. */
  function ExpireAct(k: Kernel, t: Tid): Kernel {
    if T(k, t).state != Blocked || T(k, t).waitOn == None then k
    else
      var w := T(k, t).waitOn.value;
      MakeReady(SetQ(k, w, Without(Q(k, w), t)), t, ERR_TIMED_OUT)
  }

  function SetMx(k: Kernel, m: nat, s: MutexState): Kernel {
    k.(mx := k.mx[m := s])
  }

  function MutexAcquireAct(k: Kernel, m: nat, timeout: Timeout): Kernel {
    var s := Mx(k, m);
    if s.count + 1 <= 1 then Return(SetMx(k, m, MutexState(Some(k.current), s.count + 1)), NO_ERROR)
    else if timeout == Poll then Return(k, ERR_TIMED_OUT)
    else Enqueue(SetMx(k, m, s.(count := s.count + 1)), timeout, AcquireCont(m))
  }

  function MutexReleaseAct(k: Kernel, m: nat): Kernel {
    var k1 := Return(SetMx(k, m, MutexState(None, Mx(k, m).count - 1)), NO_ERROR);
    if Mx(k, m).count - 1 >= 1 then WakeOne(k1, MutexQ(m), true, NO_ERROR) else k1
  }

  function SetSm(k: Kernel, s: nat, n: int): Kernel {
    k.(sm := k.sm[s := n])
  }

  function SemTimedWaitAct(k: Kernel, s: nat, timeout: Timeout, timed: bool): Kernel {
    var n := Sm(k, s) - 1;
    if n >= 0 then Return(SetSm(k, s, n), NO_ERROR)
    else if timeout == Poll then Return(k, ERR_TIMED_OUT)
    else Enqueue(SetSm(k, s, n), timeout, SemCont(s, timed))
  }

  function SemTryWaitAct(k: Kernel, s: nat): Kernel {
    if Sm(k, s) <= 0 then Return(k, ERR_NOT_READY) else Return(SetSm(k, s, Sm(k, s) - 1), NO_ERROR)
  }

  function SemPostAct(k: Kernel, s: nat, resched: bool): Kernel {
    var n := Sm(k, s) + 1;
    var k1 := SetSm(k, s, n);
    if n <= 0 then
      WakeOne(Return(k1, if Q(k, SemQ(s)) == [] then 0 else 1), SemQ(s), resched, NO_ERROR)
    else Return(k1, 0)
  }

  function SetEv(k: Kernel, e: nat, s: EventState): Kernel {
    k.(ev := k.ev[e := s])
  }

  function EventWaitAct(k: Kernel, e: nat, timeout: Timeout): Kernel {
    if Ev(k, e).signaled then
      Return(if Ev(k, e).auto then SetEv(k, e, Ev(k, e).(signaled := false)) else k, NO_ERROR)
    else if timeout == Poll then Return(k, ERR_TIMED_OUT)
    else Enqueue(k, timeout, EventCont(e))
  }

  function EventSignalAct(k: Kernel, e: nat, resched: bool): Kernel {
    var k1 := Return(k, NO_ERROR);
    if Ev(k, e).signaled then k1
    else if Ev(k, e).auto then
      if Q(k, EventQ(e)) == [] then SetEv(k1, e, Ev(k, e).(signaled := true))
      else WakeOne(k1, EventQ(e), resched, NO_ERROR)
    else WakeAll(SetEv(k1, e, Ev(k, e).(signaled := true)), EventQ(e), resched, NO_ERROR)
  }

  function Act(k: Kernel, op: Op): Kernel {
    match op
    case Yield => YieldAct(k)
    case Preempt => PreemptAct(k)
    case Tick => TickAct(k)
    case SetPriority(p) => SetPriorityAct(k, p)
    case SetRealTime(t) => Return(SetT(k, t, T(k, t).(realTime := true)), NO_ERROR)
    case Create(t, base) => CreateAct(k, t, base)
    case Resume(t) => ResumeAct(k, t)
    case Join(t, timeout) => JoinAct(k, t, timeout)
    case Detach(t) => DetachAct(k, t)
    case Exit(code) => ExitAct(k, code)
    case Expire(t) => ExpireAct(k, t)
    case MutexInit(m) => SetMx(k, m, MutexState(None, 0))
    case MutexAcquire(m, timeout) => MutexAcquireAct(k, m, timeout)
    case MutexRelease(m) => MutexReleaseAct(k, m)
    case SemInit(s, n) => SetSm(k, s, n)
    case SemWait(s) => SemTimedWaitAct(k, s, Infinite, false)
    case SemTryWait(s) => SemTryWaitAct(k, s)
    case SemTimedWait(s, timeout) => SemTimedWaitAct(k, s, timeout, true)
    case SemPost(s, resched) => SemPostAct(k, s, resched)
    case EventInit(e, initially, auto) => SetEv(k, e, EventState(initially, auto))
    case EventWait(e, timeout) => EventWaitAct(k, e, timeout)
    case EventSignal(e, resched) => EventSignalAct(k, e, resched)
    case EventUnsignal(e) => Return(SetEv(k, e, Ev(k, e).(signaled := false)), NO_ERROR)
  }

  /** Whether the call reaches thread_resched. */
  predicate Reschedules(k: Kernel, op: Op) {
    match op
    case Yield | Preempt | SetPriority(_) | Exit(_) => true
    case Tick => TickReschedules(k)
    case Join(t, timeout) => !T(k, t).detached && T(k, t).state != Death && timeout != Poll
    case MutexAcquire(m, timeout) => Mx(k, m).count >= 1 && timeout != Poll
    case MutexRelease(m) => Mx(k, m).count >= 2 && Q(k, MutexQ(m)) != []
    case SemWait(s) => Sm(k, s) <= 0
    case SemTimedWait(s, timeout) => Sm(k, s) <= 0 && timeout != Poll
    case SemPost(s, resched) => resched && Sm(k, s) < 0 && Q(k, SemQ(s)) != []
    case EventWait(e, timeout) => !Ev(k, e).signaled && timeout != Poll
    case EventSignal(e, resched) => resched && !Ev(k, e).signaled && Q(k, EventQ(e)) != []
    case _ => false
  }

  function Step(k: Kernel, op: Op): Kernel {
    if Reschedules(k, op) then Dispatch(Act(k, op)) else Act(k, op)
  }

  // ----- what the kernel demands of its callers -----

  /** `j` is inside a thread_join on `t` that has not been turned away. */
  predicate Joining(k: Kernel, j: Tid, t: Tid) {
    j in k.th && k.th[j].cont == JoinCont(t) && (k.th[j].state == Blocked || k.th[j].blockRet >= 0)
  }

  predicate NoJoiner(k: Kernel, t: Tid) {
    forall j | j in k.th :: !Joining(k, j, t)
  }

  predicate Live(k: Kernel, t: Tid) {
    t in k.th && k.th[t].magic
  }

  predicate Enabled(k: Kernel, op: Op) {
    // the idle thread only ever preempts itself; interrupts may run on top of it
    && (k.current == k.idle ==> op.Preempt? || op.Tick? || op.Expire? || op.EventSignal?)
    && match op
       case Yield | Preempt | Tick | SetPriority(_) | Exit(_) => true
       case SetRealTime(t) => Live(k, t)
       case Create(t, base) => t !in k.th && base < NUM_PRIORITIES
       case Resume(t) => Live(k, t) && t != k.idle && k.th[t].state != Death
       case Join(t, _) => Live(k, t) && (k.th[t].detached || NoJoiner(k, t))
       case Detach(t) => Live(k, t) && (k.th[t].state == Death ==> NoJoiner(k, t))
       case Expire(t) => t in k.th && k.th[t].state == Blocked && k.th[t].armed
       case MutexInit(m) => m !in k.mx
       case MutexAcquire(m, _) => m in k.mx && k.mx[m].holder != Some(k.current)
       case MutexRelease(m) => m in k.mx && k.mx[m].holder == Some(k.current)
       case SemInit(s, _) => s !in k.sm
       case SemWait(s) => s in k.sm
       case SemTryWait(s) => s in k.sm
       case SemTimedWait(s, _) => s in k.sm
       case SemPost(s, _) => s in k.sm
       case EventInit(e, _, _) => e !in k.ev
       case EventWait(e, _) => e in k.ev
       case EventSignal(e, _) => e in k.ev
       case EventUnsignal(e) => e in k.ev
  }

  // ----- runs -----

  /** The state once thread_init_early and thread_create_idle are done. */
  function Boot(boot: Tid, idle: Tid): Kernel {
    var b := BLANK_TCB.(state := Running, priority := HIGHEST_PRIORITY, detached := true);
    var i := BLANK_TCB.(priority := IDLE_PRIORITY, detached := true);
    Kernel(seq(NUM_PRIORITIES, p => []), map[], map[boot := b, idle := i], boot, idle, [idle, boot], map[], map[],
      map[])
  }

  function Run(k: Kernel, ops: seq<Op>): Kernel
    decreases |ops|
  {
    if ops == [] then k else Run(Step(k, ops[0]), ops[1..])
  }

  predicate Runs(k: Kernel, ops: seq<Op>)
    decreases |ops|
  {
    ops == [] || (Enabled(k, ops[0]) && Runs(Step(k, ops[0]), ops[1..]))
  }
}
