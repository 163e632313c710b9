/** The mutex against a first-in first-out lock whose whole state is the sequence of its owner followed
    by its waiters, with timeouts of every kind. A waiter whose timer fired stays in the count until it
    runs; the mutex is the lock exactly as long as no release meets a count that is all such threads. */
module KernelMutex {
  import opened Wrappers
  import opened KernelState
  import opened KernelSteps
  import opened KernelInvariant
  import opened KernelJoins
  import opened KernelFrames
  import opened KernelWaits

  // ----- the lock -----

  /** The lock: the owner, if any, first, then the waiters in order of arrival. */
  type Lock = seq<Tid>

  /** How the lock reacts to a call made by thread `t`. An acquire joins the end of the line, unless
      it may not wait; a release always hands over to the next in line; a timer takes a waiter out. */
  function LockStep(q: Lock, m: nat, t: Tid, op: Op): Lock {
    match op
    case MutexAcquire(m', timeout) =>
      if m' != m || (q != [] && timeout == Poll) then q else q + [t]
    case MutexRelease(m') => if m' != m || q == [] then q else q[1..]
    case Expire(u) => if q == [] then q else [q[0]] + Without(q[1..], u)
    case _ => q
  }

  function LockRun(k: Kernel, q: Lock, m: nat, ops: seq<Op>): Lock
    decreases |ops|
  {
    if ops == [] then q
    else LockRun(Step(k, ops[0]), LockStep(q, m, k.current, ops[0]), m, ops[1..])
  }

  // ----- the mutex on its own -----

  /** The fields of a mutex and its wait queue. */
  datatype MutexView = MutexView(holder: Option<Tid>, count: int, wait: WaitView)

  function Mutex(k: Kernel, m: nat): MutexView
    requires m in k.mx
  {
    MutexView(k.mx[m].holder, k.mx[m].count, View(k, MutexQ(m)))
  }

  /** What a call made by thread `t` does to the mutex, up to thread_resched. */
  function Called(v: MutexView, m: nat, t: Tid, op: Op): MutexView {
    var w := v.wait;
    match op
    case MutexAcquire(m', timeout) =>
      if m' != m then v
      else if v.count + 1 <= 1 then v.(holder := Some(t), count := v.count + 1)
      else if timeout == Poll then v
      else v.(count := v.count + 1, wait := w.(queue := w.queue + [t]))
    case MutexRelease(m') =>
      if m' != m then v
      else if v.count - 1 >= 1 && w.queue != [] then
        MutexView(None, v.count - 1, w.(queue := w.queue[1..], handed := w.handed + {w.queue[0]}))
      else v.(holder := None, count := v.count - 1)
    case Expire(u) =>
      if u in w.queue then v.(wait := w.(queue := Without(w.queue, u), stale := w.stale + {u})) else v
    case _ => v
  }

  /** What thread `n` does to it when it comes back from thread_resched. */
  function Back(v: MutexView, n: Tid): MutexView {
    if n in v.wait.handed then v.(holder := Some(n), wait := v.wait.(handed := v.wait.handed - {n}))
    else if n in v.wait.stale then v.(count := v.count - 1, wait := v.wait.(stale := v.wait.stale - {n}))
    else v
  }

  function After(k: Kernel, m: nat, op: Op): MutexView
    requires m in k.mx
  {
    var v := Called(Mutex(k, m), m, k.current, op);
    if Reschedules(k, op) then Back(v, NextThread(Act(k, op))) else v
  }

  /** Somebody owns the mutex, or was handed it and has not run since. */
  predicate Owned(v: MutexView) {
    v.holder.Some? || v.wait.handed != {}
  }

  /** The count is the owner, the waiters and the timed-out threads yet to run; nobody is two of these,
      and there is at most one owner. */
  predicate Counted(v: MutexView) {
    && NoDup(v.wait.queue)
    && (forall t | t in v.wait.queue :: t !in v.wait.stale + v.wait.handed)
    && v.wait.stale !! v.wait.handed
    && |v.wait.handed| <= 1
    && (v.holder.Some? ==> v.wait.handed == {} && v.holder.value !in v.wait.queue)
    && v.count == |v.wait.queue| + |v.wait.stale| + (if Owned(v) then 1 else 0)
  }

  /** The mutex represents the lock `q`. */
  predicate Represents(v: MutexView, q: Lock) {
    && Counted(v)
    && (q == [] ==> v.count == 0)
    && (q != [] ==> v.wait.queue == q[1..] && (v.holder == Some(q[0]) || (v.holder == None && v.wait.handed == {q[0]})))
  }

  /** A release that finds nobody to hand over to although the count says somebody is there. */
  predicate Abandons(v: MutexView, m: nat, op: Op) {
    op == MutexRelease(m) && v.count >= 2 && v.wait.queue == []
  }

  /** A thread that is neither waiting for the mutex nor back from waiting for it. */
  predicate Outside(v: MutexView, t: Tid) {
    t !in v.wait.queue && t !in v.wait.stale + v.wait.handed
  }

  /** What the kernel asks of the caller. */
  predicate Allowed(v: MutexView, m: nat, t: Tid, op: Op) {
    && (op.MutexAcquire? && op.mutex == m ==> Outside(v, t) && v.holder != Some(t))
    && (op == MutexRelease(m) ==> v.holder == Some(t))
  }

  // ----- on the mutex alone -----

  lemma CalledCounted(v: MutexView, m: nat, t: Tid, op: Op)
    requires Counted(v) && Allowed(v, m, t, op)
    ensures Counted(Called(v, m, t, op))
  {
    hide Counted;
    match op
    case MutexAcquire(m', timeout) => if m' == m { AcquiredCounted(v, m, t, timeout); }
    case MutexRelease(m') => if m' == m { ReleasedCounted(v, m, t); }
    case Expire(u) => if u in v.wait.queue { ExpiredCounted(v, u); }
    case _ =>
  }

  lemma AcquiredCounted(v: MutexView, m: nat, t: Tid, timeout: Timeout)
    requires Counted(v) && Outside(v, t) && v.holder != Some(t)
    ensures Counted(Called(v, m, t, MutexAcquire(m, timeout)))
  {
  }

  lemma ReleasedCounted(v: MutexView, m: nat, t: Tid)
    requires Counted(v) && v.holder == Some(t)
    ensures Counted(Called(v, m, t, MutexRelease(m)))
  {
    if v.wait.queue != [] { assert v.wait.queue[0] in v.wait.queue; }
  }

  lemma ExpiredCounted(v: MutexView, u: Tid)
    requires Counted(v) && u in v.wait.queue
    ensures var w := v.wait; Counted(v.(wait := w.(queue := Without(w.queue, u), stale := w.stale + {u})))
  {
    hide Without;
    WithoutMembers(v.wait.queue, u);
  }

  lemma BackCounted(v: MutexView, n: Tid)
    requires Counted(v)
    ensures Counted(Back(v, n))
  {
    var h, s := v.wait.handed, v.wait.stale;
    if n in h {
      assert h == {n} by { OnlyOne(h, n); }
      assert h - {n} == {};
    } else if n in s {
      assert |s - {n}| == |s| - 1;
    }
  }

  lemma OnlyOne(h: set<Tid>, n: Tid)
    requires n in h && |h| <= 1
    ensures h == {n}
  {
    assert |h - {n}| == |h| - 1;
    assert h == (h - {n}) + {n};
  }

  lemma WithoutAbsent(q: seq<Tid>, u: Tid)
    requires NoDup(q) && u !in q
    ensures Without(q, u) == q
  {
    WithoutMembers(q, u);
  }

  /** But for a release that abandons it, a call does to the mutex what it does to the lock. */
  lemma CalledRepresents(v: MutexView, q: Lock, m: nat, t: Tid, op: Op)
    requires Represents(v, q) && Allowed(v, m, t, op) && !Abandons(v, m, op)
    ensures Represents(Called(v, m, t, op), LockStep(q, m, t, op))
  {
    CalledCounted(v, m, t, op);
    hide Counted;
    match op
    case MutexAcquire(_, timeout) => if op.mutex == m { AcquiredRepresents(v, q, m, t, timeout); }
    case MutexRelease(_) => if op.mutex == m { ReleasedRepresents(v, q, m, t); }
    case Expire(u) => ExpiredRepresents(v, q, m, t, u);
    case _ =>
  }

  lemma AcquiredRepresents(v: MutexView, q: Lock, m: nat, t: Tid, timeout: Timeout)
    requires Represents(v, q) && Counted(Called(v, m, t, MutexAcquire(m, timeout)))
    ensures Represents(Called(v, m, t, MutexAcquire(m, timeout)), LockStep(q, m, t, MutexAcquire(m, timeout)))
  {
    hide Counted;
    FreeOrTaken(v, q);
    if v.count == 0 { FreeCounted(v); }
  }

  lemma FreeCounted(v: MutexView)
    requires Counted(v) && v.count == 0
    ensures v.wait == WaitView([], {}, {}) && v.holder == None
  {
  }

  lemma HolderCounted(v: MutexView)
    requires Counted(v) && v.holder.Some?
    ensures v.wait.handed == {} && v.count >= 1 + |v.wait.queue|
  {
  }

  lemma ReleasedRepresents(v: MutexView, q: Lock, m: nat, t: Tid)
    requires Represents(v, q) && v.holder == Some(t) && !(v.count >= 2 && v.wait.queue == [])
    requires Counted(Called(v, m, t, MutexRelease(m)))
    ensures Represents(Called(v, m, t, MutexRelease(m)), LockStep(q, m, t, MutexRelease(m)))
  {
    hide Counted;
    HolderCounted(v);
  }

  lemma ExpiredRepresents(v: MutexView, q: Lock, m: nat, t: Tid, u: Tid)
    requires Represents(v, q) && Counted(Called(v, m, t, Expire(u)))
    ensures Represents(Called(v, m, t, Expire(u)), LockStep(q, m, t, Expire(u)))
  {
    if u !in v.wait.queue { WithoutAbsent(v.wait.queue, u); }
    assert q != [] ==> q == [q[0]] + q[1..];
  }

  lemma BackRepresents(v: MutexView, q: Lock, n: Tid)
    requires Represents(v, q)
    ensures Represents(Back(v, n), q)
  {
    BackCounted(v, n);
    if n in v.wait.handed { OnlyOne(v.wait.handed, n); }
  }

  /** A release that abandons the mutex leaves no lock. */
  lemma AbandonedIsNoLock(v: MutexView, m: nat, t: Tid, op: Op, q: Lock)
    requires Counted(v) && Allowed(v, m, t, op) && Abandons(v, m, op)
    ensures !Represents(Called(v, m, t, op), q) && !Owned(Called(v, m, t, op)) && Called(v, m, t, op).count > 0
  {
  }

  // ----- the kernel's mutex -----

  /** The mutex of a kernel is as it says. */
  predicate MutexOk(k: Kernel, m: nat) {
    m in k.mx && Fine(k, MutexQ(m), true) && Counted(Mutex(k, m))
  }

  lemma CurrentAllowed(k: Kernel, m: nat, op: Op)
    requires Core(k, {}, true) && Enabled(k, op) && m in k.mx
    ensures Allowed(Mutex(k, m), m, k.current, op) && Outside(Mutex(k, m), k.current)
  {
    hide Core;
    CurrentHasNoCont(k);
    if k.current in Q(k, MutexQ(m)) { WaiterNotBack(k, MutexQ(m), k.current); }
  }

  /** The mutex's fields and the caller's status change; nobody comes or goes. */
  lemma FieldsShow(k: Kernel, m: nat, x: MutexState, status: int)
    requires k.current in k.th && k.th[k.current].cont == NoCont && m in k.mx && Fine(k, MutexQ(m), true)
    ensures var k' := Return(SetMx(k, m, x), status);
      m in k'.mx && Mutex(k', m) == MutexView(x.holder, x.count, View(k, MutexQ(m)))
        && StaysFine(k, k', MutexQ(m), false)
  {
    hide Q, View, Fine, StaysFine, Return, SetMx;
    var k', w := Return(SetMx(k, m, x), status), MutexQ(m);
    FieldsChange(k, m, x, status);
    QuietView(k, k', k.current, k'.th[k.current], w);
  }

  lemma FieldsChange(k: Kernel, m: nat, x: MutexState, status: int)
    requires k.current in k.th
    ensures var k' := Return(SetMx(k, m, x), status);
      && k'.th == k.th[k.current := k.th[k.current].(ret := status)] && k'.mx == k.mx[m := x]
      && Q(k', MutexQ(m)) == Q(k, MutexQ(m))
  {
  }

  lemma AcquireShows(k: Kernel, m: nat, timeout: Timeout)
    requires Core(k, {}, true) && m in k.mx && Fine(k, MutexQ(m), true)
    ensures var k' := MutexAcquireAct(k, m, timeout);
      && m in k'.mx && Mutex(k', m) == Called(Mutex(k, m), m, k.current, MutexAcquire(m, timeout))
      && StaysFine(k, k', MutexQ(m), timeout == Finite)
  {
    hide Core, View, Fine, Q, Return, Enqueue, MutexAcquireAct, SetMx;
    CurrentHasNoCont(k);
    AcquireInSteps(k, m, timeout);
    var n := k.mx[m].count + 1;
    if n <= 1 {
      FieldsShow(k, m, MutexState(Some(k.current), n), NO_ERROR);
    } else if timeout == Poll {
      FieldsShow(k, m, k.mx[m], ERR_TIMED_OUT);
    } else {
      QueueShows(k, m, timeout);
    }
  }

  lemma QueueShows(k: Kernel, m: nat, timeout: Timeout)
    requires k.current in k.th && k.th[k.current].cont == NoCont && m in k.mx && Fine(k, MutexQ(m), true)
    ensures var x, v := k.mx[m], View(k, MutexQ(m));
      var k' := Enqueue(SetMx(k, m, x.(count := x.count + 1)), timeout, AcquireCont(m));
      && m in k'.mx && StaysFine(k, k', MutexQ(m), timeout == Finite)
      && Mutex(k', m) == MutexView(x.holder, x.count + 1, v.(queue := v.queue + [k.current]))
  {
    var k1, w := SetMx(k, m, k.mx[m].(count := k.mx[m].count + 1)), MutexQ(m);
    assert Q(k1, w) == Q(k, w);
    SameView(k, k1, w);
    hide View, Fine, Q, Enqueue, StaysFine;
    EnqueueView(k1, timeout, AcquireCont(m));
    StaysTwice(k, k1, Enqueue(k1, timeout, AcquireCont(m)), w, false, timeout == Finite);
  }

  /** Releasing a contended mutex: the first waiter becomes ready, the caller goes back in line. */
  lemma ReleaseShows(k: Kernel, m: nat)
    requires Core(k, {}, true) && m in k.mx && Fine(k, MutexQ(m), true)
    ensures var k' := MutexReleaseAct(k, m);
      && m in k'.mx && Mutex(k', m) == Called(Mutex(k, m), m, k.current, MutexRelease(m))
      && StaysFine(k, k', MutexQ(m), false)
  {
    hide Core, WakeOne, Fine, View, Q, Return, StaysFine;
    var w, x := MutexQ(m), MutexState(None, k.mx[m].count - 1);
    var k2 := Return(SetMx(k, m, x), NO_ERROR);
    CurrentHasNoCont(k);
    FieldsShow(k, m, x, NO_ERROR);
    CoreFrame(k, SetMx(k, m, x), {}, true);
    ReturnCore(SetMx(k, m, x), NO_ERROR);
    ViewQueue(k2, w);
    ViewQueue(k, w);
    if k.mx[m].count - 1 >= 1 {
      if Q(k2, w) != [] {
        WakeOneView(k2, w, true);
        StaysTwice(k, k2, WakeOne(k2, w, true, NO_ERROR), w, false, false);
      } else {
        WakesNobody(k2, w, true, NO_ERROR);
      }
    }
  }

  lemma ActShows(k: Kernel, m: nat, op: Op)
    requires Inv(k) && Enabled(k, op) && m in k.mx && Fine(k, MutexQ(m), true)
    ensures var k' := Act(k, op);
      && m in k'.mx && Mutex(k', m) == Called(Mutex(k, m), m, k.current, op)
      && StaysFine(k, k', MutexQ(m), op == MutexAcquire(m, Finite))
  {
    InvIsCore(k);
    hide Inv, Core, View, Fine, Aside, MutexAcquireAct, MutexReleaseAct, ExpireAct;
    if op.MutexAcquire? && op.mutex == m {
      AcquireShows(k, m, op.timeout);
    } else if op == MutexRelease(m) {
      ReleaseShows(k, m);
    } else if op.Expire? {
      ExpireView(k, op.thread, MutexQ(m));
      ExpireKeepsMutexes(k, op.thread);
      assert Act(k, op) == ExpireAct(k, op.thread);
      ViewQueue(k, MutexQ(m));
    } else {
      hide Act;
      NotTarget(k, m, op);
      ActObjects(k, op);
      OtherView(k, op, MutexQ(m));
    }
  }

  lemma ExpireKeepsMutexes(k: Kernel, u: Tid)
    ensures ExpireAct(k, u).mx == k.mx
  {
    ExpireObjects(k, u);
  }

  lemma NotTarget(k: Kernel, m: nat, op: Op)
    requires Core(k, {}, true) && Enabled(k, op) && m in k.mx && !op.Expire?
    requires op.MutexAcquire? || op.MutexRelease? ==> op.mutex != m
    ensures Target(k, op) != MutexQ(m) && Called(Mutex(k, m), m, k.current, op) == Mutex(k, m)
  {
    hide Core;
  }

  lemma DispatchShows(k1: Kernel, m: nat)
    requires MidInv(k1) && m in k1.mx && Fine(k1, MutexQ(m), true) && Counted(Mutex(k1, m))
    ensures var k' := Dispatch(k1);
      m in k'.mx && Mutex(k', m) == Back(Mutex(k1, m), NextThread(k1)) && StaysFine(k1, k', MutexQ(m), false)
  {
    hide MidInv, Dispatch, NextThread, Q, View, Fine, Counted, StaysFine, Concerns, Back, T;
    var w, n := MutexQ(m), NextThread(k1);
    ChosenWaited(k1, w);
    DispatchedFields(k1, m);
    DispatchView(k1, w);
    CountedApart(Mutex(k1, m));
    ConcernsMutex(T(k1, n), m);
    BackIs(Mutex(k1, m), Mutex(Dispatch(k1), m), n);
  }

  lemma CountedApart(v: MutexView)
    requires Counted(v)
    ensures v.wait.stale !! v.wait.handed
  {
  }

  lemma ConcernsMutex(c: Tcb, m: nat)
    ensures c.cont == AcquireCont(m) <==> Concerns(c, MutexQ(m))
  {
  }

  lemma BackIs(v: MutexView, v': MutexView, n: Tid)
    requires v.wait.stale !! v.wait.handed
    requires v'.wait == v.wait.(stale := v.wait.stale - {n}, handed := v.wait.handed - {n})
    requires v'.holder == if n in v.wait.handed then Some(n) else v.holder
    requires v'.count == if n in v.wait.stale then v.count - 1 else v.count
    ensures v' == Back(v, n)
  {
    var w := v.wait;
    assert n !in w.stale ==> w.stale - {n} == w.stale;
    assert n !in w.handed ==> w.handed - {n} == w.handed;
  }

  lemma DispatchedFields(k1: Kernel, m: nat)
    requires MidInv(k1) && m in k1.mx
    ensures var c, k', x := T(k1, NextThread(k1)), Dispatch(k1), k1.mx[m];
      && m in k'.mx
      && k'.mx[m] ==
        if c.cont != AcquireCont(m) then x
        else if c.blockRet >= 0 then x.(holder := Some(NextThread(k1)))
        else if c.blockRet == ERR_TIMED_OUT then x.(count := x.count - 1)
        else x
  {
    hide Dispatch, MidInv, NextThread;
    DispatchObjects(k1);
  }

  /** Every call does to a mutex just what `After` says. */
  lemma StepShows(k: Kernel, m: nat, op: Op)
    requires Inv(k) && Enabled(k, op) && MutexOk(k, m)
    ensures var k' := Step(k, op);
      && m in k'.mx && Mutex(k', m) == After(k, m, op)
      && StaysFine(k, k', MutexQ(m), op == MutexAcquire(m, Finite))
  {
    hide Inv, Act, Called, Counted, View, Fine, StaysFine, Enabled, Reschedules, Dispatch, MidInv;
    StepKeepsInv(k, op);
    ActShows(k, m, op);
    InvIsCore(k);
    CurrentAllowed(k, m, op);
    CalledCounted(Mutex(k, m), m, k.current, op);
    StillFine(k, Act(k, op), MutexQ(m), op == MutexAcquire(m, Finite));
    if Reschedules(k, op) {
      DispatchShows(Act(k, op), m);
      StaysTwice(k, Act(k, op), Step(k, op), MutexQ(m), op == MutexAcquire(m, Finite), false);
    }
  }

  /** With timeouts of every kind: every step keeps the count the owner, the waiters and the timed-out
      threads yet to run. */
  lemma StepKeepsCount(k: Kernel, m: nat, op: Op)
    requires Inv(k) && Enabled(k, op) && MutexOk(k, m)
    ensures MutexOk(Step(k, op), m)
  {
    hide Inv, Core, Step, Fine, View, Called, Counted, Back, Reschedules, Enabled, Act, StaysFine;
    StepShows(k, m, op);
    StillFine(k, Step(k, op), MutexQ(m), op == MutexAcquire(m, Finite));
    InvIsCore(k);
    CurrentAllowed(k, m, op);
    var v := Called(Mutex(k, m), m, k.current, op);
    CalledCounted(Mutex(k, m), m, k.current, op);
    BackCounted(v, NextThread(Act(k, op)));
  }

  lemma {:induction false} RunKeepsCount(k: Kernel, m: nat, ops: seq<Op>)
    requires Inv(k) && Runs(k, ops) && MutexOk(k, m)
    ensures MutexOk(Run(k, ops), m)
    decreases |ops|
  {
    hide Inv, MutexOk, Enabled;
    if ops != [] {
      StepKeepsInv(k, ops[0]);
      StepKeepsCount(k, m, ops[0]);
      RunKeepsCount(Step(k, ops[0]), m, ops[1..]);
    }
  }

  /** A freshly initialised mutex is the free lock. */
  lemma InitRepresents(k: Kernel, m: nat)
    requires Inv(k) && Enabled(k, MutexInit(m))
    ensures var k' := Step(k, MutexInit(m)); MutexOk(k', m) && Represents(Mutex(k', m), [])
  {
    hide Inv, Core, View, Fine, StaysFine, SetMx;
    InvIsCore(k);
    FreshView(k, MutexQ(m));
    InitView(k, m);
    FineWithTimers(k, MutexQ(m));
    StillFine(k, SetMx(k, m, MutexState(None, 0)), MutexQ(m), false);
  }

  lemma InitView(k: Kernel, m: nat)
    ensures var k' := SetMx(k, m, MutexState(None, 0));
      && Step(k, MutexInit(m)) == k' && k'.mx == k.mx[m := MutexState(None, 0)]
      && View(k', MutexQ(m)) == View(k, MutexQ(m)) && StaysFine(k, k', MutexQ(m), false)
  {
    var k' := SetMx(k, m, MutexState(None, 0));
    assert Q(k', MutexQ(m)) == Q(k, MutexQ(m));
    hide Q, View, StaysFine, Dispatch;
    SameView(k, k', MutexQ(m));
  }

  /** One step of the kernel is one step of the lock, exactly unless it is a release that abandons the
      mutex; such a release leaves no lock at all. */
  lemma StepRepresents(k: Kernel, m: nat, q: Lock, op: Op)
    requires Inv(k) && Enabled(k, op) && MutexOk(k, m) && Represents(Mutex(k, m), q)
    ensures var k' := Step(k, op);
      && MutexOk(k', m)
      && (!Abandons(Mutex(k, m), m, op) ==> Represents(Mutex(k', m), LockStep(q, m, k.current, op)))
      && ((exists q' :: Represents(Mutex(k', m), q')) <==> !Abandons(Mutex(k, m), m, op))
  {
    hide Inv, Core, Step, Fine, View, Called, Counted, Back, Enabled, Act, LockStep, Represents, Mutex, Reschedules;
    hide StaysFine;
    StepShows(k, m, op);
    StepKeepsCount(k, m, op);
    InvIsCore(k);
    CurrentAllowed(k, m, op);
    var v, v1, q1 := Mutex(k, m), Called(Mutex(k, m), m, k.current, op), LockStep(q, m, k.current, op);
    if Abandons(v, m, op) {
      AbandonNoResched(k, m);
      forall q' ensures !Represents(v1, q') {
        assert Counted(v) by { MutexIsCounted(k, m); }
        AbandonedIsNoLock(v, m, k.current, op, q');
      }
    } else {
      CalledRepresents(v, q, m, k.current, op);
      BackRepresents(v1, q1, NextThread(Act(k, op)));
    }
  }

  lemma MutexIsCounted(k: Kernel, m: nat)
    requires MutexOk(k, m)
    ensures Counted(Mutex(k, m))
  {
  }

  lemma AbandonNoResched(k: Kernel, m: nat)
    requires m in k.mx && Abandons(Mutex(k, m), m, MutexRelease(m))
    ensures !Reschedules(k, MutexRelease(m))
  {
  }

  /** No release of the run abandons the mutex. */
  predicate NeverAbandons(k: Kernel, m: nat, ops: seq<Op>)
    decreases |ops|
  {
    ops == [] || (m in k.mx && !Abandons(Mutex(k, m), m, ops[0]) && NeverAbandons(Step(k, ops[0]), m, ops[1..]))
  }

  /** Over a run with timeouts of every kind in which no release abandons it, the mutex is the first-in
      first-out lock. */
  lemma {:induction false} RunRepresents(k: Kernel, m: nat, q: Lock, ops: seq<Op>)
    requires Inv(k) && Runs(k, ops) && MutexOk(k, m) && Represents(Mutex(k, m), q) && NeverAbandons(k, m, ops)
    ensures var k' := Run(k, ops); MutexOk(k', m) && Represents(Mutex(k', m), LockRun(k, q, m, ops))
    decreases |ops|
  {
    hide Inv, MutexOk, Enabled, Mutex, Represents, LockStep, Abandons;
    if ops != [] {
      StepKeepsInv(k, ops[0]);
      StepRepresents(k, m, q, ops[0]);
      RunRepresents(Step(k, ops[0]), m, LockStep(q, m, k.current, ops[0]), ops[1..]);
    }
  }

  /** Without finite timeouts no release abandons the mutex, so over every such run it is the lock. */
  lemma {:induction false} UntimedRunRepresents(k: Kernel, m: nat, q: Lock, ops: seq<Op>)
    requires Inv(k) && Runs(k, ops) && MutexOk(k, m) && Represents(Mutex(k, m), q)
    requires Fine(k, MutexQ(m), false) && Mutex(k, m).wait.stale == {}
    requires MutexAcquire(m, Finite) !in ops
    ensures NeverAbandons(k, m, ops)
    ensures var k' := Run(k, ops); MutexOk(k', m) && Represents(Mutex(k', m), LockRun(k, q, m, ops))
    decreases |ops|
  {
    assert m in k.mx;
    hide Inv, MutexOk, Enabled, Mutex, LockStep, Abandons, Represents, Fine;
    if ops != [] {
      var op, k' := ops[0], Step(k, ops[0]);
      assert op != MutexAcquire(m, Finite);
      StepKeepsInv(k, op);
      NotAbandoned(Mutex(k, m), q, m, op);
      StepRepresents(k, m, q, op);
      NobodyTimesOut(k, m, op);
      UntimedRunRepresents(k', m, LockStep(q, m, k.current, op), ops[1..]);
    }
  }

  lemma NotAbandoned(v: MutexView, q: Lock, m: nat, op: Op)
    requires Represents(v, q) && v.wait.stale == {}
    ensures !Abandons(v, m, op)
  {
  }

  lemma NobodyTimesOut(k: Kernel, m: nat, op: Op)
    requires Inv(k) && Enabled(k, op) && MutexOk(k, m) && Fine(k, MutexQ(m), false) && Mutex(k, m).wait.stale == {}
    requires op != MutexAcquire(m, Finite)
    ensures m in Step(k, op).mx && Fine(Step(k, op), MutexQ(m), false) && Mutex(Step(k, op), m).wait.stale == {}
  {
    hide Inv, Core, Act, Enabled, Counted, Fine, StaysFine, View, Called, Back, Step, Reschedules, NextThread;
    InvIsCore(k);
    StepShows(k, m, op);
    StaysUntimed(k, Step(k, op), MutexQ(m));
    if op.Expire? { NobodyToExpire(k, op.thread, MutexQ(m)); }
    UntimedView(Mutex(k, m), m, k.current, op, NextThread(Act(k, op)));
  }

  lemma UntimedView(v: MutexView, m: nat, t: Tid, op: Op, n: Tid)
    requires v.wait.stale == {} && (op.Expire? ==> op.thread !in v.wait.queue)
    ensures var v' := Called(v, m, t, op); v'.wait.stale == {} && Back(v', n).wait.stale == {}
  {
  }

  /** The mutex is free, or somebody owns it or was handed it: an acquire succeeds or waits for someone. */
  predicate Served(v: MutexView) {
    v.count == 0 || Owned(v)
  }

  /** From every state a run can reach, a release leaves the mutex free or with a successor exactly if it
      does not abandon it. */
  lemma ReleaseServes(k: Kernel, m: nat)
    requires Inv(k) && Enabled(k, MutexRelease(m)) && MutexOk(k, m)
    ensures var k' := Step(k, MutexRelease(m));
      m in k'.mx && (Served(Mutex(k', m)) <==> !(k.mx[m].count >= 2 && Q(k, MutexQ(m)) == []))
  {
    hide Inv, Core, Step, Fine, Enabled, Act, Q, StaysFine, Reschedules;
    var op, v := MutexRelease(m), Mutex(k, m);
    StepShows(k, m, op);
    StepKeepsCount(k, m, op);
    InvIsCore(k);
    CurrentAllowed(k, m, op);
    if k.mx[m].count >= 2 && Q(k, MutexQ(m)) == [] {
      AbandonNoResched(k, m);
    } else {
      var u := NextThread(Act(k, op));
      assert Served(Called(v, m, k.current, op));
      StillServed(Called(v, m, k.current, op), u);
    }
  }

  lemma StillServed(v: MutexView, n: Tid)
    requires Served(v) && (v.count == 0 ==> v.wait.stale == {})
    ensures Served(Back(v, n))
  {
  }

  // ----- a mutex nobody will ever own again -----

  /** The mutex has neither owner nor successor, and `x` waits for it without a timer. */
  predicate Lost(k: Kernel, m: nat, x: Tid) {
    MutexOk(k, m) && !Owned(Mutex(k, m)) && x in Q(k, MutexQ(m)) && !T(k, x).armed
  }

  lemma LostView(v: MutexView, m: nat, t: Tid, op: Op, n: Tid, x: Tid)
    requires Counted(v) && Allowed(v, m, t, op) && !Owned(v) && x in v.wait.queue && op != Expire(x)
    ensures var v' := Called(v, m, t, op);
      && !Owned(v') && x in v'.wait.queue
      && !Owned(Back(v', n)) && x in Back(v', n).wait.queue
  {
    assert v.count >= 1;
    if op.Expire? { WithoutMembers(v.wait.queue, op.thread); }
  }

  /** A waiter without a timer gets none. */
  lemma ActKeepsUntimed(k: Kernel, m: nat, op: Op, x: Tid)
    requires Core(k, {}, true) && Enabled(k, op) && m in k.mx && x in Q(k, MutexQ(m)) && !T(k, x).armed
    requires k.mx[m].holder == None
    ensures op != Expire(x) && x in Act(k, op).th && !Act(k, op).th[x].armed
  {
    hide Core, Aside, Q, MutexAcquireAct, MutexReleaseAct, ExpireAct;
    WaiterNotBack(k, MutexQ(m), x);
    if Target(k, op) != MutexQ(m) {
      hide Act, Target;
      ActAside(k, op);
      AsideWaiters(k, Act(k, op), Target(k, op), MutexQ(m));
      if op == Expire(x) { ExpireTarget(k, x); }
    } else if op.MutexAcquire? {
      CurrentHasNoCont(k);
      AcquireThreads(k, m, op.timeout, x);
    } else {
      ExpireEffect(k, op.thread, ExpireAct(k, op.thread));
    }
  }

  lemma AcquireThreads(k: Kernel, m: nat, timeout: Timeout, x: Tid)
    requires k.current in k.th && m in k.mx && x in k.th && x != k.current
    ensures var k' := MutexAcquireAct(k, m, timeout); x in k'.th && k'.th[x] == k.th[x]
  {
    AcquireInSteps(k, m, timeout);
    EnqueueEffect(SetMx(k, m, k.mx[m].(count := k.mx[m].count + 1)), timeout, AcquireCont(m));
    hide Enqueue, MutexAcquireAct, Q;
  }

  lemma StepKeepsUntimed(k: Kernel, m: nat, op: Op, x: Tid)
    requires Inv(k) && Enabled(k, op) && m in k.mx && x in Q(k, MutexQ(m)) && !T(k, x).armed
    requires k.mx[m].holder == None
    ensures op != Expire(x) && !T(Step(k, op), x).armed
  {
    hide Act, Inv, Enabled, Reschedules, Dispatch, MidInv, Q, Core;
    InvIsCore(k);
    StepKeepsInv(k, op);
    ActKeepsUntimed(k, m, op, x);
    if Reschedules(k, op) {
      DispatchKeepsTimers(Act(k, op), x);
    }
  }

  lemma DispatchKeepsTimers(k1: Kernel, x: Tid)
    requires MidInv(k1) && x in k1.th
    ensures x in Dispatch(k1).th && Dispatch(k1).th[x].armed == k1.th[x].armed
  {
    hide MidInv, Dispatch, NextThread;
    DispatchAside(k1, JoinQ(0));
    DispatchTimers(k1);
  }

  lemma DispatchTimers(k1: Kernel)
    requires MidInv(k1)
    ensures var n, k' := NextThread(k1), Dispatch(k1); n in k1.th && n in k'.th && k'.th[n].armed == k1.th[n].armed
  {
    hide MidInv, Dispatch, NextThread;
    DispatchFields(k1);
  }

  /** Once there is a waiter without a timer, a mutex that has neither owner nor successor is lost for good:
      whatever is called, it stays so. */
  lemma StepStaysLost(k: Kernel, m: nat, op: Op, x: Tid)
    requires Inv(k) && Enabled(k, op) && Lost(k, m, x)
    ensures Lost(Step(k, op), m, x)
  {
    hide Inv, Enabled, Step, Act, Fine, Counted, Core, Called, Reschedules;
    InvIsCore(k);
    ViewQueue(k, MutexQ(m));
    ViewQueue(Step(k, op), MutexQ(m));
    StepShows(k, m, op);
    StepKeepsCount(k, m, op);
    CurrentAllowed(k, m, op);
    StepKeepsUntimed(k, m, op, x);
    LostView(Mutex(k, m), m, k.current, op, NextThread(Act(k, op)), x);
  }

  lemma {:induction false} RunStaysLost(k: Kernel, m: nat, ops: seq<Op>, x: Tid)
    requires Inv(k) && Runs(k, ops) && Lost(k, m, x)
    ensures Lost(Run(k, ops), m, x)
    decreases |ops|
  {
    hide Inv, Enabled, Step, Lost;
    if ops != [] {
      StepKeepsInv(k, ops[0]);
      StepStaysLost(k, m, ops[0], x);
      RunStaysLost(Step(k, ops[0]), m, ops[1..], x);
    }
  }

  /** An acquire without a timeout loses the mutex exactly if it is not free and has neither owner nor
      successor. */
  lemma AcquireLoses(k: Kernel, m: nat)
    requires Inv(k) && Enabled(k, MutexAcquire(m, Infinite)) && MutexOk(k, m)
    ensures Lost(Step(k, MutexAcquire(m, Infinite)), m, k.current) <==> !Served(Mutex(k, m))
  {
    hide Inv, Enabled, Step, Act, Fine, Core, View, StaysFine, Called, Counted, Back, Served, NextThread, Q;
    var op, v := MutexAcquire(m, Infinite), Mutex(k, m);
    InvIsCore(k);
    ViewQueue(Step(k, op), MutexQ(m));
    StepShows(k, m, op);
    StepKeepsCount(k, m, op);
    CurrentAllowed(k, m, op);
    LosingView(v, m, k.current, NextThread(Act(k, op)));
    if !Served(v) { AcquiredUntimed(k, m); }
  }

  lemma LosingView(v: MutexView, m: nat, t: Tid, n: Tid)
    requires Counted(v) && Outside(v, t)
    ensures var v1 := Called(v, m, t, MutexAcquire(m, Infinite));
      var v' := if v.count >= 1 then Back(v1, n) else v1;
      !Owned(v') && t in v'.wait.queue <==> !Served(v)
    ensures !Served(v) ==> v.count >= 1
  {
  }

  lemma AcquiredUntimed(k: Kernel, m: nat)
    requires Inv(k) && Enabled(k, MutexAcquire(m, Infinite)) && k.mx[m].count >= 1
    ensures !T(Step(k, MutexAcquire(m, Infinite)), k.current).armed
  {
    hide Inv, Enqueue, Dispatch, MidInv, Core, MutexAcquireAct;
    var op := MutexAcquire(m, Infinite);
    InvIsCore(k);
    StepKeepsInv(k, op);
    CurrentHasNoCont(k);
    AcquireInSteps(k, m, Infinite);
    EnqueueEffect(SetMx(k, m, k.mx[m].(count := k.mx[m].count + 1)), Infinite, AcquireCont(m));
    DispatchKeepsTimers(Act(k, op), k.current);
  }

  // ----- what acquiring gives -----

  /** A call that returns at once, and one that blocks. */
  predicate ReturnsWith(k: Kernel, op: Op, status: int) {
    var k' := Step(k, op); k'.current == k.current && k.current in k'.th && k'.th[k.current].ret == status
  }

  predicate BlocksCaller(k: Kernel, op: Op) {
    var k' := Step(k, op); k'.current != k.current && k.current in k'.th && k'.th[k.current].state == Blocked
  }

  /** An acquire succeeds at once exactly when the lock is free, and times out at once exactly when it may
      not wait for one that is taken; otherwise its caller blocks at the end of the line, behind every
      earlier arrival. */
  lemma AcquireOutcome(k: Kernel, m: nat, q: Lock, timeout: Timeout)
    requires Inv(k) && Enabled(k, MutexAcquire(m, timeout)) && MutexOk(k, m) && Represents(Mutex(k, m), q)
    ensures var op := MutexAcquire(m, timeout);
      var q' := LockStep(q, m, k.current, op);
      && m in Step(k, op).mx && Represents(Mutex(Step(k, op), m), q')
      && (if q == [] then ReturnsWith(k, op, NO_ERROR) && q' == [k.current]
          else if timeout == Poll then ReturnsWith(k, op, ERR_TIMED_OUT) && q' == q
          else BlocksCaller(k, op) && q' == q + [k.current])
  {
    hide MutexOk, Represents, Inv, Enabled, Step, View, ReturnsWith, BlocksCaller;
    var op := MutexAcquire(m, timeout);
    MutexExists(k, m);
    StepRepresents(k, m, q, op);
    MutexExists(Step(k, op), m);
    FreeOrTaken(Mutex(k, m), q);
    AcquireReturns(k, m, timeout);
  }

  lemma MutexExists(k: Kernel, m: nat)
    requires MutexOk(k, m)
    ensures m in k.mx
  {
  }

  lemma FreeOrTaken(v: MutexView, q: Lock)
    requires Represents(v, q)
    ensures v.count >= 0 && (v.count == 0 <==> q == [])
  {
  }

  lemma AcquireReturns(k: Kernel, m: nat, timeout: Timeout)
    requires Inv(k) && Enabled(k, MutexAcquire(m, timeout))
    ensures var op := MutexAcquire(m, timeout);
      if k.mx[m].count + 1 <= 1 then ReturnsWith(k, op, NO_ERROR)
      else if timeout == Poll then ReturnsWith(k, op, ERR_TIMED_OUT)
      else BlocksCaller(k, op)
  {
    hide Core, Inv, Enqueue, Dispatch, MutexAcquireAct, BlocksCaller;
    InvIsCore(k);
    CurrentHasNoCont(k);
    AcquireInSteps(k, m, timeout);
    if k.mx[m].count + 1 > 1 && timeout != Poll { WaiterBlocks(k, m, timeout); }
  }

  /** Whoever has to wait is blocked and another thread runs. */
  lemma WaiterBlocks(k: Kernel, m: nat, timeout: Timeout)
    requires Inv(k) && Enabled(k, MutexAcquire(m, timeout)) && k.mx[m].count + 1 > 1 && timeout != Poll
    ensures BlocksCaller(k, MutexAcquire(m, timeout))
  {
    hide Enqueue, Dispatch, Return, Reschedulable, Top, JoinsOk;
    StepKeepsInv(k, MutexAcquire(m, timeout));
    InvIsCore(k);
    CurrentHasNoCont(k);
    AcquireInSteps(k, m, timeout);
    EnqueueEffect(SetMx(k, m, k.mx[m].(count := k.mx[m].count + 1)), timeout, AcquireCont(m));
    var k1 := MutexAcquireAct(k, m, timeout);
    NextIsReady(k1);
    DispatchFields(k1);
    hide MidInv, Core;
  }

  /** A thread that waited for the mutex comes back from its acquire either with success, and then it is
      the holder, or with ERR_TIMED_OUT, and then it has no part in the mutex any more. */
  lemma WaiterTakesOver(k: Kernel, m: nat, op: Op)
    requires Inv(k) && Enabled(k, op) && MutexOk(k, m) && Reschedules(k, op)
    ensures var n, k' := NextThread(Act(k, op)), Step(k, op);
      T(Act(k, op), n).cont == AcquireCont(m) ==>
        && n in k'.th && m in k'.mx
        && (k'.th[n].ret == NO_ERROR || k'.th[n].ret == ERR_TIMED_OUT)
        && (k'.th[n].ret == NO_ERROR ==> k'.mx[m].holder == Some(n))
        && (k'.th[n].ret == ERR_TIMED_OUT ==>
            Outside(Mutex(k', m), n) && k'.mx[m].count == Called(Mutex(k, m), m, k.current, op).count - 1)
  {
    hide Inv, Act, Called, Counted, View, Fine, Enabled, Reschedules, Dispatch, MidInv;
    StepKeepsInv(k, op);
    ActShows(k, m, op);
    InvIsCore(k);
    CurrentAllowed(k, m, op);
    CalledCounted(Mutex(k, m), m, k.current, op);
    StillFine(k, Act(k, op), MutexQ(m), op == MutexAcquire(m, Finite));
    ComesBack(Act(k, op), m);
  }

  lemma ComesBack(k1: Kernel, m: nat)
    requires MidInv(k1) && m in k1.mx && Fine(k1, MutexQ(m), true) && Counted(Mutex(k1, m))
    ensures var n, k' := NextThread(k1), Dispatch(k1);
      T(k1, n).cont == AcquireCont(m) ==>
        && n in k'.th && m in k'.mx
        && (k'.th[n].ret == NO_ERROR || k'.th[n].ret == ERR_TIMED_OUT)
        && (k'.th[n].ret == NO_ERROR ==> k'.mx[m].holder == Some(n))
        && (k'.th[n].ret == ERR_TIMED_OUT ==> Outside(Mutex(k', m), n) && k'.mx[m].count == k1.mx[m].count - 1)
  {
    var n := NextThread(k1);
    ChosenWaited(k1, MutexQ(m));
    DispatchedFields(k1, m);
    DispatchShows(k1, m);
    ChosenStatus(k1);
    hide MidInv, Dispatch, NextThread, View, Fine;
    if T(k1, n).cont == AcquireCont(m) { ReadyIsNotQueued(k1, MutexQ(m)); }
  }
}
