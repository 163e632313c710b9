/** The global state/queue invariant and its preservation by every step. */
module KernelInvariant {
  import opened Wrappers
  import opened KernelState
  import opened KernelSteps

  /** The one queue a thread in this condition is linked into, if any. */
  function Where(c: Tcb): Option<QueueId> {
    match c.state
    case Ready => Some(RunQ(c.priority))
    case Blocked => c.waitOn
    case _ => None
  }

  /** Every thread outside `x` is in exactly the queue its own fields name, once; threads in `x`
      are in no queue at all. */
  ghost predicate Placed(k: Kernel, x: set<Tid>) {
    && (forall id, t {:trigger t in Q(k, id)} ::
          t in Q(k, id) <==> (t in k.th && t !in x && Where(k.th[t]) == Some(id)))
    && (forall id {:trigger Q(k, id)} :: NoDup(Q(k, id)))
  }

  predicate ContKnown(k: Kernel, c: Cont) {
    match c
    case NoCont => true
    case JoinCont(t) => t in k.th
    case AcquireCont(m) => m in k.mx
    case SemCont(s, _) => s in k.sm
    case EventCont(e) => e in k.ev
  }

  /** What a single thread's fields say about each other. */
  predicate TcbOk(k: Kernel, c: Tcb) {
    && c.priority < NUM_PRIORITIES
    && c.quantum <= QUANTUM
    && !c.idleFlag
    && c.blockRet <= 0
    && ContKnown(k, c.cont)
    && (c.state == Blocked ==> c.cont != NoCont && c.waitOn == Some(ContQueue(c.cont)))
    && (c.state != Blocked ==> c.waitOn == None)
    && (c.cont != NoCont ==> c.state == Blocked || c.state == Ready)
    && (!c.magic ==> c.state == Death)
  }

  predicate Sane(k: Kernel) {
    && |k.rq| == NUM_PRIORITIES
    && k.current in k.th
    && k.idle in k.th
    && k.th[k.idle].priority == IDLE_PRIORITY
    && k.th[k.idle].cont == NoCont
    && k.th[k.idle].state != Death
    && (forall t | t in k.th :: TcbOk(k, k.th[t]))
  }

  ghost predicate NoneRunning(k: Kernel) {
    forall t | t in k.th :: k.th[t].state != Running
  }

  ghost predicate OneRunning(k: Kernel) {
    forall t | t in k.th :: k.th[t].state == Running <==> t == k.current
  }

  /** The scheduler part of the invariant. */
  ghost predicate Scheduled(k: Kernel) {
    Sane(k) && Placed(k, {}) && OneRunning(k)
  }

  /** The condition under which thread_resched is called. */
  ghost predicate Reschedulable(k: Kernel) {
    Sane(k) && Placed(k, {}) && NoneRunning(k)
  }

  // ----- queue primitives -----

  predicate Valid(k: Kernel, id: QueueId) {
    id.RunQ? ==> id.priority < |k.rq|
  }

  lemma QOfSetQ(k: Kernel, id: QueueId, q: seq<Tid>, id': QueueId)
    requires Valid(k, id)
    ensures Q(SetQ(k, id, q), id') == if id' == id then q else Q(k, id')
  {
  }

  lemma Linked(k: Kernel, id: QueueId, q: seq<Tid>, t: Tid, x: set<Tid>)
    requires Valid(k, id) && Placed(k, x)
    requires t in x && t in k.th && Where(k.th[t]) == Some(id)
    requires NoDup(q) && forall u :: u in q <==> u == t || u in Q(k, id)
    ensures Placed(SetQ(k, id, q), x - {t})
  {
    var k' := SetQ(k, id, q);
    forall id' ensures Q(k', id') == if id' == id then q else Q(k, id') {
      QOfSetQ(k, id, q, id');
    }
  }

  lemma Unlinked(k: Kernel, id: QueueId, q: seq<Tid>, t: Tid, x: set<Tid>)
    requires Valid(k, id) && Placed(k, x)
    requires t in Q(k, id)
    requires NoDup(q) && forall u :: u in q <==> u != t && u in Q(k, id)
    ensures Placed(SetQ(k, id, q), x + {t})
  {
    var k' := SetQ(k, id, q);
    forall id' ensures Q(k', id') == if id' == id then q else Q(k, id') {
      QOfSetQ(k, id, q, id');
    }
  }

  lemma Relabelled(k: Kernel, t: Tid, c: Tcb, x: set<Tid>)
    requires Placed(k, x) && t in k.th
    requires t in x || Where(c) == Where(k.th[t])
    ensures Placed(SetT(k, t, c), x)
  {
    var k' := SetT(k, t, c);
    forall id ensures Q(k', id) == Q(k, id) {}
  }

  /** thread_list holds exactly the live threads, each once. */
  ghost predicate Registered(k: Kernel) {
    && NoDup(k.list)
    && (forall t :: t in k.list <==> Live(k, t))
  }

  /** At most one thread joins a target; while it waits the target has not exited, and once it has
      been woken with success the target has exited and is still linked. */
  ghost predicate JoinsOk(k: Kernel) {
    && (forall j, t {:trigger Joining(k, j, t)} :: Joining(k, j, t) ==>
          && Live(k, t) && !k.th[t].detached
          && (k.th[j].state == Blocked <==> k.th[t].state != Death))
    && (forall j, j', t {:trigger Joining(k, j, t), Joining(k, j', t)} ::
          Joining(k, j, t) && Joining(k, j', t) ==> j == j')
  }

  ghost predicate Inv(k: Kernel) {
    Scheduled(k) && Registered(k) && JoinsOk(k)
  }

  /** The invariant at the point where thread_resched is called. */
  ghost predicate MidInv(k: Kernel) {
    Reschedulable(k) && Registered(k) && JoinsOk(k)
  }

  // ----- dispatching -----

  /** The chosen thread is the first of the highest non-empty level; the idle thread is only ever
      chosen past the queues while it has never run. */
  lemma NextIsReady(k: Kernel)
    requires Reschedulable(k)
    ensures NextThread(k) in k.th
    ensures Top(k) >= 0 ==> k.th[NextThread(k)].state == Ready && k.th[NextThread(k)].priority == Top(k)
    ensures Top(k) < 0 ==> k.th[k.idle].state == Suspended
  {
    var p := Top(k);
    if p >= 0 {
      assert k.rq[p][0] in Q(k, RunQ(p));
    } else {
      assert k.idle !in Q(k, RunQ(IDLE_PRIORITY));
    }
  }

  lemma NextStands(k: Kernel)
    requires Reschedulable(k)
    ensures NextThread(k) in k.th && k.th[NextThread(k)].state in {Ready, Suspended}
  {
    hide Top, Placed;
    NextIsReady(k);
  }

  lemma PopTopPlaced(k: Kernel)
    requires Reschedulable(k)
    ensures Placed(PopTop(k), if Top(k) >= 0 then {NextThread(k)} else {})
  {
    hide Placed, Sane, Top, PopTop, NextThread, Q, SetQ;
    PopsTop(k);
    if Top(k) >= 0 {
      var q := Q(k, RunQ(Top(k)));
      PlacedOnce(k, RunQ(Top(k)), {});
      FirstOut(q);
      Unlinked(k, RunQ(Top(k)), q[1..], q[0], {});
      assert {} + {q[0]} == {NextThread(k)};
    }
  }

  lemma PlacedOnce(k: Kernel, w: QueueId, x: set<Tid>)
    requires Placed(k, x)
    ensures NoDup(Q(k, w))
  {
  }

  lemma FirstOut(q: seq<Tid>)
    requires NoDup(q) && q != []
    ensures NoDup(q[1..]) && forall u :: u in q[1..] <==> u != q[0] && u in q
  {
    assert q == [q[0]] + q[1..];
  }

  lemma PopsTop(k: Kernel)
    ensures Top(k) < 0 ==> PopTop(k) == k
    ensures Top(k) >= 0 ==>
      var w, q := RunQ(Top(k)), Q(k, RunQ(Top(k)));
      Valid(k, w) && q != [] && NextThread(k) == q[0] && PopTop(k) == SetQ(k, w, q[1..])
  {
  }

  lemma SamePlaces(k: Kernel, k': Kernel, x: set<Tid>)
    requires Placed(k, x) && k'.rq == k.rq && k'.wq == k.wq && k'.th == k.th
    ensures Placed(k', x)
  {
    forall id ensures Q(k', id) == Q(k, id) {}
  }

  /** A thread that belongs in no queue need not be listed as an exception. */
  lemma Unplaced(k: Kernel, t: Tid, x: set<Tid>)
    requires Placed(k, x) && t in k.th && Where(k.th[t]) == None
    ensures Placed(k, x - {t}) && Placed(k, x + {t})
  {
  }

  /** thread_resched leaves every thread in the queue its fields name, the chosen one in none. */
  lemma ReschedPlaces(k: Kernel)
    requires Reschedulable(k)
    ensures Placed(Resched(k), {})
  {
    hide PopTop, Placed, Sane, T;
    var n, k1 := NextThread(k), PopTop(k);
    NextIsReady(k);
    PopTopPlaced(k);
    PopTopObjects(k);
    var x := if Top(k) >= 0 then {n} else {};
    Relabelled(k1, n, Dispatched(k, n), x);
    var k2 := SetT(k1, n, Dispatched(k, n));
    SamePlaces(k2, Resched(k), x);
    Unplaced(Resched(k), n, x);
    assert x - {n} == {};
  }

  lemma ContinueEffect(k: Kernel)
    requires k.current in k.th
    requires forall t :: Completes(k.th[k.current], t) ==> t in k.th && t != k.current
    ensures var th, c := ContinueThreads(k), k.th[k.current];
      && th.Keys == k.th.Keys
      && th[k.current] == Continued(k, c)
      && (forall t | t in k.th && t != k.current ::
            th[t] == if Completes(c, t) then k.th[t].(magic := false) else k.th[t])
  {
  }

  /** Everything Dispatch does to the threads: the chosen one runs with its continuation done, and
      if that was a successful join the target is unlinked. */
  lemma DispatchThreads(k: Kernel)
    requires MidInv(k)
    ensures var n, k' := NextThread(k), Dispatch(k);
      && n in k.th && k'.current == n && k'.th.Keys == k.th.Keys && k'.idle == k.idle
      && var c := k.th[n];
        && k'.th[n] == Continued(k, Dispatched(k, n))
        && (forall t | t in k.th && t != n ::
              k'.th[t] == if Completes(c, t) then k.th[t].(magic := false) else k.th[t])
        && k'.list == (if c.cont.JoinCont? && c.blockRet >= 0 then Without(k.list, c.cont.target) else k.list)
        && (forall t | Completes(c, t) :: Joining(k, n, t) && t in k.th && t != n && k.th[t].state == Death)
  {
    hide PopTop, NextThread, Top, Dispatched, Placed, Resched, Registered, TcbOk;
    NextIsReady(k);
    ReschedIs(k);
    var n := NextThread(k);
    var c := k.th[n];
    var k1 := Resched(k);
    forall t | Completes(c, t) ensures Joining(k, n, t) && t in k.th && t != n && k.th[t].state == Death {
      CompletedTarget(k, t);
    }
    hide JoinsOk, MidInv, Joining;
    SameContinuation(k, n);
    ContinueEffect(k1);
    hide ContinueThreads, Continued;
  }

  /** thread_resched up to the context switch, field by field. */
  lemma ReschedIs(k: Kernel)
    ensures var n, k1 := NextThread(k), Resched(k);
      && k1 == k.(rq := k1.rq, th := k.th[n := Dispatched(k, n)], current := n)
      && Dispatched(k, n).cont == T(k, n).cont && Dispatched(k, n).blockRet == T(k, n).blockRet
  {
    hide PopTop, NextThread;
    PopTopObjects(k);
  }

  /** What the chosen thread does next does not depend on its being dispatched. */
  lemma SameContinuation(k: Kernel, n: Tid)
    requires n == NextThread(k) && forall t | Completes(T(k, n), t) :: t != n
    ensures Continued(Resched(k), Dispatched(k, n)) == Continued(k, Dispatched(k, n))
  {
    hide Resched, Dispatched, NextThread;
    ReschedIs(k);
    var c := Dispatched(k, n);
    if c.cont.JoinCont? && c.blockRet >= 0 { assert Completes(T(k, n), c.cont.target); }
  }

  /** Apart from the chosen thread's continuation and the mark of an unlinked thread, Dispatch changes
      the chosen thread's state and quantum only. */
  lemma DispatchFields(k: Kernel)
    requires MidInv(k)
    ensures var n, k' := NextThread(k), Dispatch(k);
      && n in k.th && k'.current == n && k'.th.Keys == k.th.Keys
      && k'.th[n] == Dispatched(k, n).(cont := NoCont, ret := k'.th[n].ret, out := k'.th[n].out)
      && (forall t | t in k.th && t != n :: k'.th[t] == k.th[t].(magic := k'.th[t].magic))
  {
    hide Dispatch, MidInv, Dispatched, Continued;
    DispatchThreads(k);
    var n, k' := NextThread(k), Dispatch(k);
    ContinuedFields(k, Dispatched(k, n));
    forall t | t in k.th && t != n ensures k'.th[t] == k.th[t].(magic := k'.th[t].magic) {
      hide Completes;
    }
    hide NextThread, Completes;
  }

  lemma ContinuedFields(k: Kernel, c: Tcb)
    ensures var c' := Continued(k, c); c' == c.(cont := NoCont, ret := c'.ret, out := c'.out)
  {
  }

  lemma DispatchQueues(k: Kernel)
    ensures Dispatch(k).rq == PopTop(k).rq && Dispatch(k).wq == k.wq
    ensures Dispatch(k).ev == k.ev
  {
  }

  lemma SameWhere(k: Kernel, k': Kernel, x: set<Tid>)
    requires Placed(k, x) && k'.rq == k.rq && k'.wq == k.wq && k'.th.Keys == k.th.Keys
    requires forall t | t in k.th :: Where(k'.th[t]) == Where(k.th[t])
    ensures Placed(k', x)
  {
    forall id ensures Q(k', id) == Q(k, id) {}
  }

  /** A continuation moves no thread between queues. */
  lemma ContinuePlaces(k: Kernel)
    requires k.current in k.th && Placed(k, {})
    requires forall t :: Completes(k.th[k.current], t) ==> t in k.th && t != k.current
    ensures Placed(Continue(k), {})
  {
    hide Continue, ContinueThreads, Placed, Completes, Continued, Where;
    ContinueEffect(k);
    ContinueKeeps(k);
    ContinuedWhere(k, k.th[k.current]);
    forall t | t in k.th ensures Where(Continue(k).th[t]) == Where(k.th[t]) { UnlinkedWhere(k.th[t]); }
    SameWhere(k, Continue(k), {});
  }

  lemma ContinueKeeps(k: Kernel)
    ensures var k' := Continue(k); k'.rq == k.rq && k'.wq == k.wq && k'.th == ContinueThreads(k)
  {
    hide ContinueThreads;
  }

  lemma ContinuedWhere(k: Kernel, c: Tcb)
    ensures Where(Continued(k, c)) == Where(c)
  {
  }

  lemma UnlinkedWhere(c: Tcb)
    ensures Where(c.(magic := false)) == Where(c)
  {
  }

  /** The target of a join about to complete is another thread, dead and still linked. */
  lemma CompletedTarget(k: Kernel, t: Tid)
    requires MidInv(k) && Completes(T(k, NextThread(k)), t)
    ensures t in k.th && t != NextThread(k) && k.th[t].state == Death && k.th[t].magic
    ensures Joining(k, NextThread(k), t)
  {
    NextIsReady(k);
    assert Joining(k, NextThread(k), t);
  }

  lemma DispatchPlaces(k: Kernel)
    requires MidInv(k)
    ensures Placed(Dispatch(k), {})
  {
    ReschedPlaces(k);
    NextIsReady(k);
    forall t | Completes(Dispatched(k, NextThread(k)), t) ensures t in k.th && t != NextThread(k) {
      CompletedTarget(k, t);
    }
    ContinuePlaces(Resched(k));
  }

  lemma DispatchRuns(k: Kernel)
    requires MidInv(k)
    ensures OneRunning(Dispatch(k))
  {
    hide Dispatch, Placed, JoinsOk, Registered, Sane, NextThread, Dispatched, Continued;
    DispatchThreads(k);
    DispatchedStanding(k);
  }

  /** No object of `k` has gone in `k'`. */
  predicate Grown(k: Kernel, k': Kernel) {
    k.th.Keys <= k'.th.Keys && k.mx.Keys <= k'.mx.Keys && k.sm.Keys <= k'.sm.Keys && k.ev.Keys <= k'.ev.Keys
  }

  lemma TcbOkGrows(k: Kernel, k': Kernel, c: Tcb)
    requires TcbOk(k, c) && Grown(k, k')
    ensures TcbOk(k', c)
  {
  }

  lemma PopTopObjects(k: Kernel)
    ensures var k' := PopTop(k); k' == k.(rq := k'.rq) && |k'.rq| == |k.rq|
  {
  }

  lemma DispatchGrows(k: Kernel)
    requires MidInv(k)
    ensures Grown(k, Dispatch(k))
  {
    hide PopTop, NextThread, ContinueThreads, ContinueList;
    DispatchThreads(k);
    var k1 := Resched(k);
    assert k1.mx == k.mx && k1.sm == k.sm && k1.ev == k.ev by { PopTopObjects(k); }
    hide MidInv, Resched;
    assert ContinueMutexes(k1).Keys >= k.mx.Keys && ContinueSems(k1).Keys >= k.sm.Keys;
  }

  lemma DispatchedOk(k: Kernel, k1: Kernel, n: Tid)
    requires n in k.th && TcbOk(k, k.th[n]) && k.th[n].state in {Ready, Suspended}
    ensures TcbOk(k, Continued(k1, Dispatched(k, n)))
  {
  }

  lemma DispatchTcbOk(k: Kernel, t: Tid)
    requires MidInv(k) && t in k.th
    ensures t in Dispatch(k).th && TcbOk(Dispatch(k), Dispatch(k).th[t])
  {
    hide Dispatch, Placed, JoinsOk, Registered, Resched, NextThread, Top;
    var k', n := Dispatch(k), NextThread(k);
    DispatchThreads(k);
    NextStands(k);
    DispatchGrows(k);
    if t == n {
      DispatchedOk(k, k, n);
      TcbOkGrows(k, k', k'.th[t]);
    } else {
      TcbOkGrows(k, k', k.th[t]);
      if Completes(k.th[n], t) { CompletedTarget(k, t); }
    }
  }

  lemma DispatchSane(k: Kernel)
    requires MidInv(k)
    ensures Sane(Dispatch(k))
  {
    hide Dispatch, Placed, JoinsOk, Registered, NextThread, TcbOk, Continued, Completes;
    var k' := Dispatch(k);
    DispatchThreads(k);
    DispatchFields(k);
    DispatchedStanding(k);
    assert |k'.rq| == NUM_PRIORITIES by {
      DispatchQueues(k);
      PopTopObjects(k);
    }
    forall t | t in k'.th ensures TcbOk(k', k'.th[t]) {
      DispatchTcbOk(k, t);
    }
  }

  lemma DispatchRegisters(k: Kernel)
    requires MidInv(k)
    ensures Registered(Dispatch(k))
  {
    hide Dispatch, JoinsOk, NoDup, Reschedulable;
    DispatchFields(k);
    DispatchThreads(k);
    var n := NextThread(k);
    var c := k.th[n];
    if c.cont.JoinCont? && c.blockRet >= 0 {
      assert Completes(c, c.cont.target);
      WithoutMembers(k.list, c.cont.target);
    }
    KeepsMark(k, n);
    hide Continued, Without, Completes;
    forall t ensures t in Dispatch(k).list <==> Live(Dispatch(k), t) {
      assert t in k.list <==> Live(k, t);
      hide Reschedulable;
    }
  }

  lemma KeepsMark(k: Kernel, n: Tid)
    ensures Dispatched(k, n).magic == T(k, n).magic
  {
  }

  lemma DispatchJoins(k: Kernel)
    requires MidInv(k)
    ensures JoinsOk(Dispatch(k))
  {
    hide Dispatch, NextThread, MidInv, Continued, Dispatched, Completes;
    var k', n := Dispatch(k), NextThread(k);
    DispatchThreads(k);
    DispatchedStanding(k);
    assert JoinsOk(k) by { MidJoins(k); }
    forall j, t | Joining(k', j, t) ensures Joining(k, j, t) && j != n && !Completes(k.th[n], t) {}
    forall j, t | Joining(k', j, t)
      ensures Live(k', t) && !k'.th[t].detached && (k'.th[j].state == Blocked <==> k'.th[t].state != Death)
    {
    }
  }

  lemma MidJoins(k: Kernel)
    requires MidInv(k)
    ensures JoinsOk(k)
  {
  }

  /** The chosen thread has no continuation left, and stands as it stood. */
  lemma DispatchedStanding(k: Kernel)
    requires MidInv(k)
    ensures var n, k' := NextThread(k), Dispatch(k);
      && n in k.th && n in k'.th && k.th[n].state != Death && k'.th[n].state == Running && k'.th[n].cont == NoCont
      && k'.th[n].detached == k.th[n].detached && k'.th[n].magic == k.th[n].magic
  {
    hide Dispatch, Placed, JoinsOk, Registered, NextThread;
    NextStands(k);
    DispatchFields(k);
  }

  /** Calling thread_resched from any legitimate point restores the whole invariant. */
  lemma DispatchKeepsInv(k: Kernel)
    requires MidInv(k)
    ensures Inv(Dispatch(k))
  {
    DispatchPlaces(k);
    DispatchRuns(k);
    DispatchSane(k);
    DispatchRegisters(k);
    DispatchJoins(k);
  }

  // ----- the parts of a step -----

  /** The current thread is the only running one if `b`, and no thread runs otherwise. */
  ghost predicate Busy(k: Kernel, b: bool) {
    forall t | t in k.th :: k.th[t].state == Running <==> b && t == k.current
  }

  /** The scheduler invariant in the middle of a step, with the threads in `x` between queues. */
  ghost predicate Core(k: Kernel, x: set<Tid>, b: bool) {
    Sane(k) && Placed(k, x) && Busy(k, b) && Registered(k)
  }

  /** `c` may replace the fields of `t`: still consistent, still live, still in the right queue. */
  predicate Fits(k: Kernel, t: Tid, c: Tcb, x: set<Tid>) {
    && t in k.th && TcbOk(k, c) && c.magic == k.th[t].magic
    && (t in x || Where(c) == Where(k.th[t]))
    && (t == k.idle ==> c.priority == IDLE_PRIORITY && c.cont == NoCont && c.state != Death)
  }

  lemma PutT(k: Kernel, t: Tid, c: Tcb, x: set<Tid>, b: bool, b': bool)
    requires Core(k, x, b) && Fits(k, t, c, x)
    requires if t == k.current then c.state == Running <==> b' else c.state != Running && b' == b
    ensures Core(SetT(k, t, c), x, b')
  {
    hide TcbOk;
    var k' := SetT(k, t, c);
    Relabelled(k, t, c, x);
    forall u | u in k'.th ensures TcbOk(k', k'.th[u]) {
      TcbOkGrows(k, k', if u == t then c else k.th[u]);
    }
  }

  lemma HeadIn(k: Kernel, t: Tid, x: set<Tid>, b: bool)
    requires Core(k, x, b) && t in x && t in k.th && k.th[t].state == Ready
    ensures Core(InsertHead(k, t), x - {t}, b)
  {
    var id := RunQ(k.th[t].priority);
    assert t !in Q(k, id);
    Linked(k, id, [t] + Q(k, id), t, x);
    SaneFrame(k, InsertHead(k, t));
  }

  lemma TailIn(k: Kernel, t: Tid, x: set<Tid>, b: bool)
    requires Core(k, x, b) && t in x && t in k.th && k.th[t].state == Ready
    ensures Core(InsertTail(k, t), x - {t}, b)
  {
    var id := RunQ(k.th[t].priority);
    assert t !in Q(k, id);
    Linked(k, id, Q(k, id) + [t], t, x);
    SaneFrame(k, InsertTail(k, t));
  }

  lemma SaneFrame(k: Kernel, k': Kernel)
    requires Sane(k) && k'.th == k.th && |k'.rq| == |k.rq| && Grown(k, k')
    requires k'.current == k.current && k'.idle == k.idle
    ensures Sane(k')
  {
    forall u | u in k'.th ensures TcbOk(k', k'.th[u]) {
      TcbOkGrows(k, k', k.th[u]);
    }
  }

  /** Taking a thread out of the run of `x`-threads into ready state at the head of its queue. */
  lemma ReadyIn(k: Kernel, t: Tid, err: int, x: set<Tid>, b: bool)
    requires Core(k, x, b) && t in x && t in k.th && (b ==> t != k.current) && err <= 0
    requires k.th[t].magic && k.th[t].state != Death
    ensures Core(MakeReady(k, t, err), x - {t}, b)
  {
    var c := Woken(k.th[t], err);
    PutT(k, t, c, x, b, b);
    HeadIn(SetT(k, t, c), t, x, b);
  }

  // ----- waking -----

  /** From `k` to `k'` exactly the threads of `ts` became ready, with status `err`; otherwise only
      run queues changed. */
  predicate Readied(k: Kernel, k': Kernel, ts: seq<Tid>, err: int) {
    && k'.th.Keys == k.th.Keys
    && (forall t | t in k.th :: k'.th[t] == if t in ts then Woken(k.th[t], err) else k.th[t])
    && k' == k.(th := k'.th, rq := k'.rq) && |k'.rq| == |k.rq|
  }

  lemma MakeReadyEffect(k: Kernel, t: Tid, err: int)
    requires t in k.th
    ensures Readied(k, MakeReady(k, t, err), [t], err)
  {
  }

  lemma ReadiedBoth(k: Kernel, k1: Kernel, k': Kernel, ts: seq<Tid>, err: int)
    requires NoDup(ts) && ts != [] && Readied(k, k1, [ts[0]], err) && Readied(k1, k', ts[1..], err)
    ensures Readied(k, k', ts, err)
  {
    assert forall t :: t in ts <==> t == ts[0] || t in ts[1..];
  }

  lemma {:induction false} MakeAllReadyEffect(k: Kernel, ts: seq<Tid>, err: int)
    requires NoDup(ts) && forall t | t in ts :: t in k.th
    ensures Readied(k, MakeAllReady(k, ts, err), ts, err)
    decreases |ts|
  {
    if ts != [] {
      var k1 := MakeReady(k, ts[0], err);
      MakeReadyEffect(k, ts[0], err);
      MakeAllReadyEffect(k1, ts[1..], err);
      ReadiedBoth(k, k1, MakeAllReady(k, ts, err), ts, err);
    }
  }

  lemma {:induction false} AllReadyIn(k: Kernel, ts: seq<Tid>, err: int, x: set<Tid>, b: bool)
    requires Core(k, x, b) && NoDup(ts) && err <= 0
    requires forall t | t in ts ::
        t in x && t in k.th && (b ==> t != k.current) && k.th[t].magic && k.th[t].state != Death
    ensures Core(MakeAllReady(k, ts, err), x - (set t | t in ts), b)
    decreases |ts|
  {
    hide Sane, Placed, Busy, Registered, InsertHead;
    if ts == [] {
      assert x - (set t | t in ts) == x;
    } else {
      hide Core, MakeReady;
      var k1 := MakeReady(k, ts[0], err);
      ReadyIn(k, ts[0], err, x, b);
      AllReadyIn(k1, ts[1..], err, x - {ts[0]}, b);
      assert x - {ts[0]} - (set t | t in ts[1..]) == x - (set t | t in ts);
    }
  }

  /** Emptying a wait queue. */
  lemma Emptied(k: Kernel, w: QueueId, x: set<Tid>, b: bool)
    requires Core(k, x, b) && !w.RunQ?
    ensures Core(SetQ(k, w, []), x + (set t | t in Q(k, w)), b)
  {
    var k' := SetQ(k, w, []);
    forall id ensures Q(k', id) == if id == w then [] else Q(k, id) {
      QOfSetQ(k, w, [], id);
    }
    SaneFrame(k, k');
  }

  lemma Waiter(k: Kernel, w: QueueId, t: Tid, x: set<Tid>, b: bool)
    requires Core(k, x, b) && !w.RunQ? && t in Q(k, w)
    ensures t in k.th && k.th[t].state == Blocked && k.th[t].cont != NoCont && ContQueue(k.th[t].cont) == w
    ensures k.th[t].magic && t != k.idle && (b ==> t != k.current)
  {
  }

  lemma RequeueIn(k: Kernel, x: set<Tid>)
    requires Core(k, x, true) && k.current !in x
    ensures Core(Requeue(k), x, false)
  {
    var c := Cur(k).(state := Ready);
    CurrentOut(k, c, x);
    HeadIn(SetT(k, k.current, c), k.current, x + {k.current}, false);
    assert x + {k.current} - {k.current} == x;
  }

  /** The current thread, in no queue, takes new fields `c`. */
  lemma CurrentOut(k: Kernel, c: Tcb, x: set<Tid>)
    requires Core(k, x, true) && Fits(k, k.current, c, x + {k.current}) && c.state != Running
    ensures Core(SetT(k, k.current, c), x + {k.current}, false)
  {
    Unplaced(k, k.current, x);
    PutT(k, k.current, c, x + {k.current}, true, false);
  }

  // ----- the building blocks of the calls -----

  /** The kernel objects may change, and so may values no queue depends on. */
  lemma CoreFrame(k: Kernel, k': Kernel, x: set<Tid>, b: bool)
    requires Core(k, x, b) && Grown(k, k')
    requires k'.th == k.th && k'.rq == k.rq && k'.wq == k.wq && k'.list == k.list
    requires k'.current == k.current && k'.idle == k.idle
    ensures Core(k', x, b)
  {
    SamePlaces(k, k', x);
    SaneFrame(k, k');
  }

  lemma ReturnCore(k: Kernel, status: int)
    requires Core(k, {}, true)
    ensures Core(Return(k, status), {}, true)
  {
    PutT(k, k.current, Cur(k).(ret := status), {}, true, true);
  }

  lemma EnqueueCore(k: Kernel, timeout: Timeout, cont: Cont)
    requires Core(k, {}, true) && cont != NoCont && ContKnown(k, cont) && k.current != k.idle
    ensures Core(Enqueue(k, timeout, cont), {}, false)
  {
    var w := ContQueue(cont);
    var c := Cur(k).(state := Blocked, waitOn := Some(w), blockRet := NO_ERROR,
      cont := cont, armed := timeout == Finite);
    CurrentOut(k, c, {});
    var k1 := SetT(k, k.current, c);
    assert Q(k1, w) == Q(k, w);
    assert k.current !in Q(k1, w);
    Linked(k1, w, Q(k, w) + [k.current], k.current, {k.current});
    SaneFrame(k1, Enqueue(k, timeout, cont));
    assert {k.current} - {k.current} == {};
  }

  lemma HeadOut(k: Kernel, w: QueueId)
    requires Core(k, {}, true) && !w.RunQ? && Q(k, w) != []
    ensures Core(SetQ(k, w, Q(k, w)[1..]), {Q(k, w)[0]}, true)
  {
    var q := Q(k, w);
    assert q == [q[0]] + q[1..];
    Unlinked(k, w, q[1..], q[0], {});
    SaneFrame(k, SetQ(k, w, q[1..]));
    assert {} + {q[0]} == {q[0]};
  }

  lemma WakeOneCore(k: Kernel, w: QueueId, resched: bool, err: int)
    requires Core(k, {}, true) && !w.RunQ? && err <= 0
    ensures Core(WakeOne(k, w, resched, err), {}, !(resched && Q(k, w) != []))
  {
    if Q(k, w) != [] {
      var t := Q(k, w)[0];
      Waiter(k, w, t, {}, true);
      HeadOut(k, w);
      var k1 := SetQ(k, w, Q(k, w)[1..]);
      PutT(k1, t, Woken(T(k1, t), err), {t}, true, true);
      var k2 := SetT(k1, t, Woken(T(k1, t), err));
      if resched { RequeueIn(k2, {t}); }
      HeadIn(if resched then Requeue(k2) else k2, t, {t}, !resched);
      assert {t} - {t} == {};
    }
  }

  lemma WakeAllCore(k: Kernel, w: QueueId, resched: bool, err: int, b: bool)
    requires Core(k, {}, b) && !w.RunQ? && err <= 0 && (resched ==> b)
    ensures Core(WakeAll(k, w, resched, err), {}, b && !(resched && Q(k, w) != []))
  {
    var ts := Q(k, w);
    var requeue := resched && ts != [];
    if requeue { RequeueIn(k, {}); }
    var k1 := if requeue then Requeue(k) else k;
    var b1 := b && !requeue;
    assert Q(k1, w) == ts;
    forall t | t in ts ensures t in k1.th && k1.th[t].magic && k1.th[t].state != Death && (b1 ==> t != k1.current) {
      Waiter(k1, w, t, {}, b1);
    }
    Emptied(k1, w, {}, b1);
    var x := set t | t in ts;
    assert {} + x == x && x - x == {};
    AllReadyIn(SetQ(k1, w, []), ts, err, x, b1);
  }

  // ----- each call keeps the scheduler invariant -----

  lemma YieldCore(k: Kernel)
    requires Core(k, {}, true)
    ensures Core(YieldAct(k), {}, false)
  {
    var c := Cur(k).(state := Ready, quantum := 0);
    CurrentOut(k, c, {});
    TailIn(SetT(k, k.current, c), k.current, {k.current}, false);
    assert {k.current} - {k.current} == {};
  }

  lemma PreemptCore(k: Kernel)
    requires Core(k, {}, true)
    ensures Core(PreemptAct(k), {}, false)
  {
    var c := Cur(k).(state := Ready);
    CurrentOut(k, c, {});
    if Cur(k).quantum > 0 {
      HeadIn(SetT(k, k.current, c), k.current, {k.current}, false);
    } else {
      TailIn(SetT(k, k.current, c), k.current, {k.current}, false);
    }
    assert {k.current} - {k.current} == {};
  }

  lemma TickCore(k: Kernel)
    requires Core(k, {}, true)
    ensures Core(TickAct(k), {}, !TickReschedules(k))
  {
    hide SetT, InsertHead, InsertTail;
    hide PreemptAct;
    if !Cur(k).realTime {
      var c := Cur(k).(quantum := Cur(k).quantum - 1);
      PutT(k, k.current, c, {}, true, true);
      assert !Cur(k).idleFlag by { assert TcbOk(k, k.th[k.current]); }
      hide Core;
      if TickReschedules(k) { PreemptCore(SetT(k, k.current, c)); }
    }
  }

  lemma SetPriorityCore(k: Kernel, p: int)
    requires Core(k, {}, true) && k.current != k.idle
    ensures Core(SetPriorityAct(k, p), {}, false)
  {
    var c := Cur(k).(priority := ClampPriority(p));
    PutT(k, k.current, c, {}, true, true);
    RequeueIn(SetT(k, k.current, c), {});
  }

  lemma CreateCore(k: Kernel, t: Tid, base: nat)
    requires Core(k, {}, true) && t !in k.th && base < NUM_PRIORITIES
    ensures Core(CreateAct(k, t, base), {}, true)
  {
    var k' := CreateAct(k, t, base);
    assert t !in k.list;
    forall id ensures Q(k', id) == Q(k, id) {}
    forall u | u in k'.th ensures TcbOk(k', k'.th[u]) {
      if u != t { TcbOkGrows(k, k', k.th[u]); }
    }
  }

  lemma ResumeCore(k: Kernel, t: Tid)
    requires Core(k, {}, true) && t in k.th
    ensures Core(ResumeAct(k, t), {}, true)
  {
    if k.th[t].state == Suspended {
      var c := k.th[t].(state := Ready);
      Unplaced(k, t, {});
      PutT(k, t, c, {} + {t}, true, true);
      HeadIn(SetT(k, t, c), t, {} + {t}, true);
      assert {} + {t} - {t} == {};
      ReturnCore(InsertHead(SetT(k, t, c), t), NO_ERROR);
    } else {
      ReturnCore(k, NO_ERROR);
    }
  }

  lemma UnlinkCore(k: Kernel, t: Tid, b: bool)
    requires Core(k, {}, b) && t in k.th && k.th[t].state == Death
    ensures Core(Unlink(k, t), {}, b)
  {
    hide Placed, TcbOk, Registered;
    var k', c := Unlink(k, t), k.th[t].(magic := false);
    Relabelled(k, t, c, {});
    SamePlaces(SetT(k, t, c), k', {});
    UnlinkRegisters(k, t);
    StillOk(k, t);
    forall u | u in k'.th ensures TcbOk(k', k'.th[u]) {
      TcbOkGrows(k, k', if u == t then c else k.th[u]);
    }
  }

  lemma StillOk(k: Kernel, t: Tid)
    requires t in k.th && TcbOk(k, k.th[t]) && k.th[t].state == Death
    ensures TcbOk(k, k.th[t].(magic := false))
  {
  }

  lemma UnlinkRegisters(k: Kernel, t: Tid)
    requires Registered(k) && t in k.th
    ensures Registered(Unlink(k, t))
  {
    WithoutMembers(k.list, t);
    hide Without, NoDup;
  }

  lemma JoinCore(k: Kernel, t: Tid, timeout: Timeout)
    requires Core(k, {}, true) && Enabled(k, Join(t, timeout))
    ensures Core(JoinAct(k, t, timeout), {}, !Reschedules(k, Join(t, timeout)))
  {
    if T(k, t).detached {
      ReturnCore(k, ERR_THREAD_DETACHED);
    } else if T(k, t).state == Death {
      PutT(k, k.current, Cur(k).(out := T(k, t).retcode, ret := NO_ERROR), {}, true, true);
      UnlinkCore(SetT(k, k.current, Cur(k).(out := T(k, t).retcode, ret := NO_ERROR)), t, true);
    } else if timeout == Poll {
      ReturnCore(k, ERR_TIMED_OUT);
    } else {
      EnqueueCore(k, timeout, JoinCont(t));
    }
  }

  lemma DetachCore(k: Kernel, t: Tid)
    requires Core(k, {}, true) && t in k.th
    ensures Core(DetachAct(k, t), {}, true)
  {
    hide Core, WakeAll, SetDetached;
    WakeAllCore(k, JoinQ(t), false, ERR_THREAD_DETACHED, true);
    WakeAllEffect(k, JoinQ(t), false, ERR_THREAD_DETACHED, true);
    MarkedCore(WakeAll(k, JoinQ(t), false, ERR_THREAD_DETACHED), t);
  }

  lemma MarkedCore(k: Kernel, t: Tid)
    requires Core(k, {}, true) && t in k.th
    ensures Core(SetDetached(k, t), {}, true)
  {
    hide Placed, Registered;
    var c := k.th[t];
    if c.state == Death {
      PutT(k, t, c.(detached := false), {}, true, true);
    } else {
      PutT(k, t, c.(detached := true), {}, true, true);
      ReturnCore(SetT(k, t, c.(detached := true)), NO_ERROR);
    }
  }

  /** The effect of wait_queue_wake_all when the caller keeps running. */
  lemma WakeAllEffect(k: Kernel, w: QueueId, resched: bool, err: int, b: bool)
    requires Core(k, {}, b) && !w.RunQ? && (resched ==> b)
    ensures var ts, k' := Q(k, w), WakeAll(k, w, resched, err);
      && k'.th.Keys == k.th.Keys && k'.wq == k.wq[w := []] && k' == k.(th := k'.th, rq := k'.rq, wq := k'.wq)
      && (forall t | t in k.th :: k'.th[t] ==
            if t in ts then Woken(k.th[t], err)
            else if t == k.current && resched && ts != [] then k.th[t].(state := Ready)
            else k.th[t])
  {
    hide MakeAllReady, Q, Requeue, Core, NoDup, SetQ, Woken, Readied;
    var ts := Q(k, w);
    forall t | t in ts ensures t in k.th && (b ==> t != k.current) { Waiter(k, w, t, {}, b); }
    QueueIsNoDup(k, w, {}, b);
    var k1 := if resched && ts != [] then Requeue(k) else k;
    RequeueEffect(k);
    EmptyQueue(k1, w);
    MakeAllReadyEffect(SetQ(k1, w, []), ts, err);
    ReadiedAfter(k, k1, WakeAll(k, w, resched, err), w, ts, err, resched && ts != []);
  }

  lemma ReadiedAfter(k: Kernel, k1: Kernel, k': Kernel, w: QueueId, ts: seq<Tid>, err: int, requeued: bool)
    requires k.current in k.th && forall t | t in ts :: t in k.th && (requeued ==> t != k.current)
    requires k1 == k.(th := k1.th, rq := k1.rq)
    requires k1.th == if requeued then k.th[k.current := k.th[k.current].(state := Ready)] else k.th
    requires Readied(k1.(wq := k1.wq[w := []]), k', ts, err)
    ensures k'.th.Keys == k.th.Keys && k'.wq == k.wq[w := []] && k' == k.(th := k'.th, rq := k'.rq, wq := k'.wq)
    ensures forall t | t in k.th :: (k'.th[t] ==
      if t in ts then Woken(k.th[t], err)
      else if t == k.current && requeued then k.th[t].(state := Ready)
      else k.th[t])
  {
    hide Woken;
  }

  lemma RequeueEffect(k: Kernel)
    requires k.current in k.th
    ensures var k' := Requeue(k);
      k' == k.(th := k'.th, rq := k'.rq) && k'.th == k.th[k.current := k.th[k.current].(state := Ready)]
  {
  }

  lemma EmptyQueue(k: Kernel, w: QueueId)
    requires !w.RunQ?
    ensures SetQ(k, w, []) == k.(wq := k.wq[w := []])
  {
  }

  lemma QueueIsNoDup(k: Kernel, w: QueueId, x: set<Tid>, b: bool)
    requires Core(k, x, b)
    ensures NoDup(Q(k, w)) && k.current in k.th
  {
  }

  /** The running thread is dead, and in no queue. */
  function Dying(k: Kernel, code: int): Kernel {
    SetT(k, k.current, Cur(k).(state := Death, retcode := code))
  }

  lemma DyingCore(k: Kernel, code: int)
    requires Core(k, {}, true) && k.current != k.idle
    ensures Core(Dying(k, code), {}, false) && k.current in k.th
  {
    var t := k.current;
    CurrentOut(k, Cur(k).(state := Death, retcode := code), {});
    Unplaced(Dying(k, code), t, {} + {t});
    assert {} + {t} - {t} == {};
  }

  lemma ExitCore(k: Kernel, code: int)
    requires Core(k, {}, true) && k.current != k.idle
    ensures Core(ExitAct(k, code), {}, false)
  {
    hide Core, WakeAll, Unlink;
    DyingCore(k, code);
    if Cur(k).detached {
      UnlinkCore(Dying(k, code), k.current, false);
    } else {
      WakeAllCore(Dying(k, code), JoinQ(k.current), false, NO_ERROR, false);
    }
  }

  lemma ExpireCore(k: Kernel, t: Tid)
    requires Core(k, {}, true) && t in k.th
    ensures Core(ExpireAct(k, t), {}, true)
  {
    if k.th[t].state == Blocked {
      var w := k.th[t].waitOn.value;
      var q := Without(Q(k, w), t);
      assert t in Q(k, w);
      WithoutMembers(Q(k, w), t);
      Unlinked(k, w, q, t, {});
      SaneFrame(k, SetQ(k, w, q));
      assert {} + {t} - {t} == {};
      ReadyIn(SetQ(k, w, q), t, ERR_TIMED_OUT, {} + {t}, true);
    }
  }

  lemma MutexAcquireCore(k: Kernel, m: nat, timeout: Timeout)
    requires Core(k, {}, true) && m in k.mx && k.current != k.idle
    ensures Core(MutexAcquireAct(k, m, timeout), {}, !Reschedules(k, MutexAcquire(m, timeout)))
  {
    hide Core, Enqueue, WakeOne, WakeAll;
    var s := Mx(k, m);
    if s.count + 1 <= 1 {
      var k1 := SetMx(k, m, MutexState(Some(k.current), s.count + 1));
      CoreFrame(k, k1, {}, true);
      ReturnCore(k1, NO_ERROR);
    } else if timeout == Poll {
      ReturnCore(k, ERR_TIMED_OUT);
    } else {
      var k1 := SetMx(k, m, s.(count := s.count + 1));
      CoreFrame(k, k1, {}, true);
      EnqueueCore(k1, timeout, AcquireCont(m));
    }
  }

  lemma MutexReleaseCore(k: Kernel, m: nat)
    requires Core(k, {}, true)
    ensures Core(MutexReleaseAct(k, m), {}, !Reschedules(k, MutexRelease(m)))
  {
    hide Core, Enqueue, WakeOne, WakeAll;
    var k0 := SetMx(k, m, MutexState(None, Mx(k, m).count - 1));
    CoreFrame(k, k0, {}, true);
    ReturnCore(k0, NO_ERROR);
    WakeOneCore(Return(k0, NO_ERROR), MutexQ(m), true, NO_ERROR);
  }

  lemma SemWaitCore(k: Kernel, s: nat, timeout: Timeout, timed: bool)
    requires Core(k, {}, true) && s in k.sm && k.current != k.idle
    ensures Core(SemTimedWaitAct(k, s, timeout, timed), {}, !(Sm(k, s) <= 0 && timeout != Poll))
  {
    hide Core, Enqueue, WakeOne, WakeAll;
    var k1 := SetSm(k, s, Sm(k, s) - 1);
    CoreFrame(k, k1, {}, true);
    ReturnCore(k1, NO_ERROR);
    ReturnCore(k, ERR_TIMED_OUT);
    if timeout != Poll { EnqueueCore(k1, timeout, SemCont(s, timed)); }
  }

  lemma SemPostCore(k: Kernel, s: nat, resched: bool)
    requires Core(k, {}, true)
    ensures Core(SemPostAct(k, s, resched), {}, !Reschedules(k, SemPost(s, resched)))
  {
    hide Core, Enqueue, WakeOne, WakeAll;
    var k1 := SetSm(k, s, Sm(k, s) + 1);
    var status := if Q(k, SemQ(s)) == [] then 0 else 1;
    CoreFrame(k, k1, {}, true);
    ReturnCore(k1, 0);
    ReturnCore(k1, status);
    WakeOneCore(Return(k1, status), SemQ(s), resched, NO_ERROR);
  }

  lemma EventWaitCore(k: Kernel, e: nat, timeout: Timeout)
    requires Core(k, {}, true) && e in k.ev && k.current != k.idle
    ensures Core(EventWaitAct(k, e, timeout), {}, !Reschedules(k, EventWait(e, timeout)))
  {
    hide Core, Enqueue, Grown, SetT, Cur, Q;
    var k1 := SetEv(k, e, Ev(k, e).(signaled := false));
    CoreFrame(k, k1, {}, true);
    ReturnCore(k1, NO_ERROR);
    ReturnCore(k, NO_ERROR);
    ReturnCore(k, ERR_TIMED_OUT);
    if timeout != Poll { EnqueueCore(k, timeout, EventCont(e)); }
  }

  lemma EventSignalCore(k: Kernel, e: nat, resched: bool)
    requires Core(k, {}, true)
    ensures Core(EventSignalAct(k, e, resched), {}, !Reschedules(k, EventSignal(e, resched)))
  {
    hide Core, Enqueue, WakeOne, WakeAll;
    var k1 := Return(k, NO_ERROR);
    var k2 := SetEv(k1, e, Ev(k, e).(signaled := true));
    ReturnCore(k, NO_ERROR);
    CoreFrame(k1, k2, {}, true);
    WakeOneCore(k1, EventQ(e), resched, NO_ERROR);
    WakeAllCore(k2, EventQ(e), resched, NO_ERROR, true);
  }

  lemma ObjectCore(k: Kernel, op: Op)
    requires Core(k, {}, true)
    requires op.MutexInit? || op.SemInit? || op.EventInit? || op.EventUnsignal? || op.SemTryWait?
    ensures Core(Act(k, op), {}, true)
  {
    hide Core, Return, Grown, SemTryWaitAct;
    match op
    case MutexInit(m) => CoreFrame(k, SetMx(k, m, MutexState(None, 0)), {}, true);
    case SemInit(s, n) => CoreFrame(k, SetSm(k, s, n), {}, true);
    case EventInit(e, i, a) => CoreFrame(k, SetEv(k, e, EventState(i, a)), {}, true);
    case EventUnsignal(e) =>
      CoreFrame(k, SetEv(k, e, Ev(k, e).(signaled := false)), {}, true);
      ReturnCore(SetEv(k, e, Ev(k, e).(signaled := false)), NO_ERROR);
    case SemTryWait(s) => SemTryWaitCore(k, s);
  }

  lemma SemTryWaitCore(k: Kernel, s: nat)
    requires Core(k, {}, true)
    ensures Core(SemTryWaitAct(k, s), {}, true)
  {
    hide Core, Return;
    CoreFrame(k, SetSm(k, s, Sm(k, s) - 1), {}, true);
    ReturnCore(SetSm(k, s, Sm(k, s) - 1), NO_ERROR);
    ReturnCore(k, ERR_NOT_READY);
  }

  lemma SetRealTimeCore(k: Kernel, t: Tid)
    requires Core(k, {}, true) && t in k.th
    ensures Core(Act(k, SetRealTime(t)), {}, true)
  {
    PutT(k, t, k.th[t].(realTime := true), {}, true, true);
    ReturnCore(SetT(k, t, k.th[t].(realTime := true)), NO_ERROR);
  }

  predicate Schedules(op: Op) {
    op.Yield? || op.Preempt? || op.Tick? || op.SetPriority? || op.SetRealTime? || op.Create? || op.Resume?
    || op.Join? || op.Detach? || op.Exit? || op.Expire?
  }

  lemma SchedulingCore(k: Kernel, op: Op)
    requires Core(k, {}, true) && Enabled(k, op) && Schedules(op)
    ensures Core(Act(k, op), {}, !Reschedules(k, op))
  {
    hide Core, YieldAct, PreemptAct, TickAct, SetPriorityAct, CreateAct, ResumeAct, JoinAct, DetachAct, ExitAct;
    hide ExpireAct, TickReschedules;
    match op
    case Yield => YieldCore(k);
    case Preempt => PreemptCore(k);
    case Tick => TickCore(k);
    case SetPriority(p) => SetPriorityCore(k, p);
    case SetRealTime(t) => SetRealTimeCore(k, t);
    case Create(t, base) => CreateCore(k, t, base);
    case Resume(t) => ResumeCore(k, t);
    case Join(t, timeout) => JoinCore(k, t, timeout);
    case Detach(t) => DetachCore(k, t);
    case Exit(code) => ExitCore(k, code);
    case Expire(t) => ExpireCore(k, t);
  }

  lemma ActCore(k: Kernel, op: Op)
    requires Core(k, {}, true) && Enabled(k, op)
    ensures Core(Act(k, op), {}, !Reschedules(k, op))
  {
    hide Core, MutexAcquireAct, MutexReleaseAct, SemTimedWaitAct, SemPostAct, EventWaitAct, EventSignalAct;
    match op
    case MutexAcquire(m, timeout) => MutexAcquireCore(k, m, timeout);
    case MutexRelease(m) => MutexReleaseCore(k, m);
    case SemWait(s) => SemWaitCore(k, s, Infinite, false);
    case SemTimedWait(s, timeout) => SemWaitCore(k, s, timeout, true);
    case SemPost(s, resched) => SemPostCore(k, s, resched);
    case EventWait(e, timeout) => EventWaitCore(k, e, timeout);
    case EventSignal(e, resched) => EventSignalCore(k, e, resched);
    case MutexInit(_) | SemInit(_, _) | EventInit(_, _, _) | EventUnsignal(_) | SemTryWait(_) => ObjectCore(k, op);
    case _ => SchedulingCore(k, op);
  }

  /** Making one waiter ready and then the others is making all of them ready. */
  lemma PouredOne(k: Kernel, w: QueueId, err: int)
    requires Q(k, w) != [] && !w.RunQ?
    ensures var k' := MakeReady(SetQ(k, w, Q(k, w)[1..]), Q(k, w)[0], err);
      && Q(k', w) == Q(k, w)[1..]
      && MakeAllReady(SetQ(k', w, []), Q(k', w), err) == MakeAllReady(SetQ(k, w, []), Q(k, w), err)
  {
    var t, k' := Q(k, w)[0], MakeReady(SetQ(k, w, Q(k, w)[1..]), Q(k, w)[0], err);
    assert SetQ(k', w, []) == MakeReady(SetQ(k, w, []), t, err);
  }
}
