/** The abstract state of the single-CPU LK kernel: threads, the queues that hold them and the
    blocking objects. Addresses are natural numbers. A queue is a plain sequence here: the
    run-queue bitmap and the wait queues' counters belong to the implementation (kernel.dfy). */
module KernelState {
  import opened Wrappers

  type Tid = nat

  const NUM_PRIORITIES := 32
  const HIGHEST_PRIORITY := NUM_PRIORITIES - 1
  const IDLE_PRIORITY := 0
  const QUANTUM := 5

  const NO_ERROR := 0
  const ERR_NOT_READY := -3
  const ERR_TIMED_OUT := -13
  const ERR_NOT_BLOCKED := -12
  const ERR_THREAD_DETACHED := -34

  datatype ThreadState = Suspended | Ready | Running | Blocked | Death

  /** A timeout argument: zero, a finite number of ticks, or INFINITE_TIME. */
  datatype Timeout = Poll | Finite | Infinite

  /** The address of a list a thread's queue_node can be linked into. */
  datatype QueueId =
    | RunQ(priority: nat)
    | JoinQ(thread: Tid)
    | MutexQ(mutex: nat)
    | SemQ(sem: nat)
    | EventQ(event: nat)

  /** What a thread still has to do, with the lock held, once thread_resched returns to it. */
  datatype Cont =
    | NoCont
    | JoinCont(target: Tid)
    | AcquireCont(mutex: nat)
    | SemCont(sem: nat, timed: bool)
    | EventCont(event: nat)

  /** The wait queue a continuation belongs to. */
  function ContQueue(c: Cont): QueueId
    requires c != NoCont
  {
    match c
    case JoinCont(t) => JoinQ(t)
    case AcquireCont(m) => MutexQ(m)
    case SemCont(s, _) => SemQ(s)
    case EventCont(e) => EventQ(e)
  }

  /** thread_t. `magic` says the structure is live, `armed` that a wait timer is set, `ret` is the
      status the last call made by the thread returned, `out` the exit code its last join stored. */
  datatype Tcb = Tcb(
    state: ThreadState,
    priority: nat,
    quantum: int,
    detached: bool,
    realTime: bool,
    idleFlag: bool,
    waitOn: Option<QueueId>,
    blockRet: int,
    retcode: int,
    magic: bool,
    cont: Cont,
    armed: bool,
    ret: int,
    out: int)

  const BLANK_TCB := Tcb(Suspended, 0, 0, false, false, false, None, NO_ERROR, 0, true, NoCont, false, 0, 0)

  datatype MutexState = MutexState(holder: Option<Tid>, count: int)
  datatype EventState = EventState(signaled: bool, auto: bool)

  datatype Kernel = Kernel(
    rq: seq<seq<Tid>>,
    wq: map<QueueId, seq<Tid>>,
    th: map<Tid, Tcb>,
    current: Tid,
    idle: Tid,
    list: seq<Tid>,
    mx: map<nat, MutexState>,
    sm: map<nat, int>,
    ev: map<nat, EventState>)

  // ----- reading and writing the state -----

  function T(k: Kernel, t: Tid): Tcb {
    if t in k.th then k.th[t] else BLANK_TCB
  }

  function Cur(k: Kernel): Tcb {
    T(k, k.current)
  }

  function SetT(k: Kernel, t: Tid, c: Tcb): Kernel {
    k.(th := k.th[t := c])
  }

  function Q(k: Kernel, id: QueueId): seq<Tid> {
    match id
    case RunQ(p) => if p < |k.rq| then k.rq[p] else []
    case _ => if id in k.wq then k.wq[id] else []
  }

  function SetQ(k: Kernel, id: QueueId, q: seq<Tid>): (r: Kernel)
    ensures r == k.(rq := r.rq, wq := r.wq)
  {
    match id
    case RunQ(p) => if p < |k.rq| then k.(rq := k.rq[p := q]) else k
    case _ => k.(wq := k.wq[id := q])
  }

  function Mx(k: Kernel, m: nat): MutexState {
    if m in k.mx then k.mx[m] else MutexState(None, 0)
  }

  function Sm(k: Kernel, s: nat): int {
    if s in k.sm then k.sm[s] else 0
  }

  function Ev(k: Kernel, e: nat): EventState {
    if e in k.ev then k.ev[e] else EventState(false, false)
  }

  /** The sequence without the first occurrence of `t`. */
  function Without(q: seq<Tid>, t: Tid): seq<Tid> {
    if q == [] then []
    else if q[0] == t then q[1..]
    else [q[0]] + Without(q[1..], t)
  }

  predicate NoDup(q: seq<Tid>) {
    forall i, j :: 0 <= i < j < |q| ==> q[i] != q[j]
  }

  lemma {:induction false} WithoutMembers(q: seq<Tid>, t: Tid)
    requires NoDup(q)
    ensures NoDup(Without(q, t))
    ensures forall u :: u in Without(q, t) <==> u in q && u != t
    ensures t !in q ==> Without(q, t) == q
    ensures |Without(q, t)| == if t in q then |q| - 1 else |q|
  {
    if q != [] && q[0] != t {
      WithoutMembers(q[1..], t);
      assert q[0] !in Without(q[1..], t);
      assert forall u :: u in q <==> u == q[0] || u in q[1..];
    } else if q != [] {
      assert forall u :: u in q <==> u == q[0] || u in q[1..];
    }
  }
}
