/** The kernel as the C files hold it: thread, wait-queue and lock structures updated in place,
    thirty-two run queues with their bitmap, and wait queues with their counters. Each call is
    proved to take the abstract kernel through the corresponding step. */
module KernelImplementation {
  import opened Bitmap
  import opened Wrappers
  import opened KernelState
  import opened KernelSteps
  import opened KernelInvariant
  import opened KernelJoins
  import opened KernelFrames
  import opened KernelFairness

  class Thread {
    var state: ThreadState
    var priority: nat
    var quantum: int
    var detached: bool
    var realTime: bool
    var idleFlag: bool
    var waitOn: Option<QueueId>
    var blockRet: int
    var retcode: int
    var magic: bool
    var cont: Cont
    var armed: bool
    var ret: int
    var out: int

    constructor (c: Tcb)
      ensures Fields() == c
    {
      state, priority, quantum := c.state, c.priority, c.quantum;
      detached, realTime, idleFlag := c.detached, c.realTime, c.idleFlag;
      waitOn, blockRet, retcode, magic := c.waitOn, c.blockRet, c.retcode, c.magic;
      cont, armed, ret, out := c.cont, c.armed, c.ret, c.out;
    }

    method Assign(c: Tcb)
      modifies this
      ensures Fields() == c
    {
      AssignScheduling(c);
      AssignWaiting(c);
    }

    method AssignScheduling(c: Tcb)
      modifies this`state, this`priority, this`quantum, this`detached, this`realTime, this`idleFlag
      ensures state == c.state && priority == c.priority && quantum == c.quantum
      ensures detached == c.detached && realTime == c.realTime && idleFlag == c.idleFlag
    {
      state, priority, quantum := c.state, c.priority, c.quantum;
      detached, realTime, idleFlag := c.detached, c.realTime, c.idleFlag;
    }

    method AssignWaiting(c: Tcb)
      modifies this`waitOn, this`blockRet, this`retcode, this`magic, this`cont, this`armed, this`ret, this`out
      ensures waitOn == c.waitOn && blockRet == c.blockRet && retcode == c.retcode && magic == c.magic
      ensures cont == c.cont && armed == c.armed && ret == c.ret && out == c.out
    {
      waitOn, blockRet, retcode, magic := c.waitOn, c.blockRet, c.retcode, c.magic;
      cont, armed, ret, out := c.cont, c.armed, c.ret, c.out;
    }

    function Fields(): Tcb
      reads this
    {
      Tcb(state, priority, quantum, detached, realTime, idleFlag, waitOn, blockRet, retcode, magic, cont, armed, ret,
        out)
    }
  }

  class WaitQueue {
    var list: seq<Tid>
    var count: int

    constructor ()
      ensures list == [] && count == 0
    {
      list, count := [], 0;
    }
  }

  class Mutex {
    var holder: Option<Tid>
    var count: int

    constructor ()
      ensures holder == None && count == 0
    {
      holder, count := None, 0;
    }
  }

  class Semaphore {
    var count: int

    constructor (value: nat)
      ensures count == value
    {
      count := value;
    }
  }

  class Event {
    var signaled: bool
    const auto: bool

    constructor (initially: bool, auto: bool)
      ensures signaled == initially && this.auto == auto
    {
      this.signaled, this.auto := initially, auto;
    }
  }

  class Scheduler {
    const runQueue: array<seq<Tid>>
    var bitmap: nat
    var current: Tid
    const idle: Tid
    var threadList: seq<Tid>

    // what is found at each address
    var threads: map<Tid, Thread>
    var waits: map<QueueId, WaitQueue>
    var mutexes: map<nat, Mutex>
    var sems: map<nat, Semaphore>
    var events: map<nat, Event>

    ghost var model: Kernel

    ghost function Repr(): set<object>
      reads this
    {
      {this, runQueue} + threads.Values + waits.Values + mutexes.Values + sems.Values + events.Values
    }

    /** The run queues hold `rq`, and the bitmap says which of them are in use. */
    ghost predicate RunQueues(rq: seq<seq<Tid>>)
      reads runQueue, this`bitmap
    {
      && runQueue.Length == NUM_PRIORITIES && rq == runQueue[..]
      && (forall p: nat :: Bit(bitmap, p) <==> p < NUM_PRIORITIES && runQueue[p] != [])
    }

    /** Each thread structure holds its fields of `th`; different addresses, different structures. */
    ghost predicate Threads(th: map<Tid, Tcb>)
      reads this`threads, threads.Values
    {
      && th.Keys == threads.Keys
      && (forall t | t in threads :: threads[t].Fields() == th[t] && th[t].priority < NUM_PRIORITIES)
      && (forall t, u | t in threads && u in threads && t != u :: threads[t] != threads[u])
    }

    /** Each wait queue holds its list of `wq`, and its counter is the list's length. */
    ghost predicate WaitQueues(wq: map<QueueId, seq<Tid>>)
      reads this`waits, waits.Values
    {
      && wq.Keys <= waits.Keys
      && (forall w | w in waits :: !w.RunQ? && waits[w].list == (if w in wq then wq[w] else [])
            && waits[w].count == |waits[w].list|)
      && (forall v, w | v in waits && w in waits && v != w :: waits[v] != waits[w])
    }

    ghost predicate Mutexes(mx: map<nat, MutexState>)
      reads this`mutexes, mutexes.Values
    {
      && mx.Keys == mutexes.Keys
      && (forall m | m in mutexes :: mx[m] == MutexState(mutexes[m].holder, mutexes[m].count))
      && (forall m, n | m in mutexes && n in mutexes && m != n :: mutexes[m] != mutexes[n])
    }

    ghost predicate Semaphores(sm: map<nat, int>)
      reads this`sems, sems.Values
    {
      && sm.Keys == sems.Keys
      && (forall s | s in sems :: sm[s] == sems[s].count)
      && (forall m, n | m in sems && n in sems && m != n :: sems[m] != sems[n])
    }

    ghost predicate Events(ev: map<nat, EventState>)
      reads this`events, events.Values
    {
      && ev.Keys == events.Keys
      && (forall e | e in events :: ev[e] == EventState(events[e].signaled, events[e].auto))
      && (forall m, n | m in events && n in events && m != n :: events[m] != events[n])
    }

    /** Every thread and every blocking object contains a wait queue, and there are no others. */
    ghost predicate Embedded(th: set<Tid>, mx: set<nat>, sm: set<nat>, ev: set<nat>)
      reads this`waits
    {
      forall w :: w in waits <==> match w
        case RunQ(_) => false
        case JoinQ(t) => t in th
        case MutexQ(m) => m in mx
        case SemQ(s) => s in sm
        case EventQ(e) => e in ev
    }

    ghost predicate Holds()
      reads this, Repr()
    {
      && model.current == current && model.idle == idle && model.list == threadList
      && RunQueues(model.rq) && Threads(model.th) && WaitQueues(model.wq)
      && Mutexes(model.mx) && Semaphores(model.sm) && Events(model.ev)
    }

    /** The structures hold the abstract kernel `model`. */
    ghost predicate Valid()
      reads this, Repr()
    {
      Holds() && Embedded(model.th.Keys, model.mx.Keys, model.sm.Keys, model.ev.Keys)
    }

    // ----- reading and writing the structures -----

    function At(t: Tid): (c: Tcb)
      requires Valid() && t in model.th
      reads this, Repr()
      ensures c == model.th[t]
    {
      threads[t].Fields()
    }

    function Waiters(w: QueueId): (q: seq<Tid>)
      requires Valid() && w in waits
      reads this, Repr()
      ensures q == Q(model, w)
    {
      waits[w].list
    }

    function WaitCount(w: QueueId): (n: int)
      requires Valid() && w in waits
      reads this, Repr()
      ensures n == |Q(model, w)|
    {
      waits[w].count
    }

    function Level(p: nat): (q: seq<Tid>)
      requires Valid() && p < NUM_PRIORITIES
      reads this, Repr()
      ensures q == Q(model, RunQ(p))
    {
      runQueue[p]
    }

    function CurrentThread(): (t: Tid)
      requires Valid()
      reads this, Repr()
      ensures t == model.current
    {
      current
    }

    function IdleThread(): (t: Tid)
      requires Valid()
      reads this, Repr()
      ensures t == model.idle
    {
      idle
    }

    function MutexAt(m: nat): (s: MutexState)
      requires Valid() && m in model.mx
      reads this, Repr()
      ensures s == model.mx[m]
    {
      MutexState(mutexes[m].holder, mutexes[m].count)
    }

    function SemAt(s: nat): (n: int)
      requires Valid() && s in model.sm
      reads this, Repr()
      ensures n == model.sm[s]
    {
      sems[s].count
    }

    function EventAt(e: nat): (s: EventState)
      requires Valid() && e in model.ev
      reads this, Repr()
      ensures s == model.ev[e]
    {
      EventState(events[e].signaled, events[e].auto)
    }

    /** The address of a wait queue inside an existing structure leads to it. */
    lemma QueueExists(w: QueueId)
      requires Valid()
      requires match w
        case RunQ(_) => false
        case JoinQ(t) => t in model.th
        case MutexQ(m) => m in model.mx
        case SemQ(s) => s in model.sm
        case EventQ(e) => e in model.ev
      ensures w in waits
    {
      hide RunQueues, Threads, WaitQueues, Mutexes, Semaphores, Events;
    }

    lemma PriorityInRange(t: Tid)
      requires Valid() && t in model.th
      ensures T(model, t).priority < NUM_PRIORITIES && t in threads
    {
    }

    method Assign(t: Tid, c: Tcb)
      requires Valid() && t in model.th && c.priority < NUM_PRIORITIES
      modifies threads.Values, this`model
      ensures Valid() && model == SetT(old(model), t, c)
    {
      hide RunQueues, Threads, WaitQueues, Mutexes, Semaphores, Events, Embedded;
      assert t in threads by { PriorityInRange(t); }
      AssignFields(t, c, model.th);
      model := SetT(model, t, c);
      assert model.th.Keys == old(model.th.Keys);
    }

    method AssignFields(t: Tid, c: Tcb, ghost th: map<Tid, Tcb>)
      requires Threads(th) && t in threads && c.priority < NUM_PRIORITIES
      modifies threads.Values
      ensures Threads(th[t := c])
    {
      hide Thread.Fields;
      threads[t].Assign(c);
    }

    method AssignMutex(m: nat, s: MutexState)
      requires Valid() && m in model.mx
      modifies mutexes.Values, this`model
      ensures Valid() && model == SetMx(old(model), m, s)
    {
      hide RunQueues, WaitQueues, Threads, Semaphores, Events;
      mutexes[m].holder, mutexes[m].count := s.holder, s.count;
      model := SetMx(model, m, s);
      assert model.mx.Keys == old(model.mx.Keys);
    }

    method AssignSem(s: nat, n: int)
      requires Valid() && s in model.sm
      modifies sems.Values, this`model
      ensures Valid() && model == SetSm(old(model), s, n)
    {
      hide RunQueues, WaitQueues, Threads, Mutexes, Events;
      sems[s].count := n;
      model := SetSm(model, s, n);
      assert model.sm.Keys == old(model.sm.Keys);
    }

    method AssignEvent(e: nat, signaled: bool)
      requires Valid() && e in model.ev
      modifies events.Values, this`model
      ensures Valid() && model == SetEv(old(model), e, Ev(old(model), e).(signaled := signaled))
    {
      hide RunQueues, WaitQueues, Threads, Mutexes, Semaphores;
      events[e].signaled := signaled;
      model := SetEv(model, e, Ev(model, e).(signaled := signaled));
      assert model.ev.Keys == old(model.ev.Keys);
    }

    method AssignQueue(w: QueueId, q: seq<Tid>, n: int)
      requires Valid() && w in waits && n == |q|
      modifies waits.Values, this`model
      ensures Valid() && model == SetQ(old(model), w, q)
    {
      hide RunQueues, Threads, WaitQueues, Mutexes, Semaphores, Events, Embedded;
      WriteQueue(w, q, n, model);
      model := SetQ(model, w, q);
    }

    method WriteQueue(w: QueueId, q: seq<Tid>, n: int, ghost k: Kernel)
      requires WaitQueues(k.wq) && w in waits && n == |q|
      modifies waits.Values
      ensures WaitQueues(SetQ(k, w, q).wq) && SetQ(k, w, q).rq == k.rq
    {
      waits[w].list, waits[w].count := q, n;
    }

    /** list_add_tail and the counter. */
    method AddWaiter(w: QueueId, t: Tid)
      requires Valid() && w in waits
      modifies waits.Values, this`model
      ensures Valid() && model == SetQ(old(model), w, Q(old(model), w) + [t])
    {
      hide Valid, Q, SetQ;
      AssignQueue(w, Waiters(w) + [t], WaitCount(w) + 1);
    }

    /** list_remove_head and the counter. */
    method RemoveHead(w: QueueId) returns (t: Tid)
      requires Valid() && w in waits && Q(model, w) != []
      modifies waits.Values, this`model
      ensures Valid() && t == Q(old(model), w)[0] && model == SetQ(old(model), w, Q(old(model), w)[1..])
    {
      hide Valid, Q, SetQ;
      t := Waiters(w)[0];
      AssignQueue(w, Waiters(w)[1..], WaitCount(w) - 1);
    }

    /** list_delete and the counter. */
    method RemoveWaiter(w: QueueId, t: Tid)
      requires Valid() && w in waits && t in Q(model, w) && NoDup(Q(model, w))
      modifies waits.Values, this`model
      ensures Valid() && model == SetQ(old(model), w, Without(Q(old(model), w), t))
    {
      hide Valid, Q, SetQ, Without;
      WithoutMembers(Waiters(w), t);
      AssignQueue(w, Without(Waiters(w), t), WaitCount(w) - 1);
    }

    method AssignThreadList(q: seq<Tid>)
      requires Valid()
      modifies this`threadList, this`model
      ensures Valid() && model == old(model).(list := q)
    {
      hide RunQueues, Threads, WaitQueues, Mutexes, Semaphores, Events, Embedded;
      threadList := q;
      model := model.(list := q);
    }

    function ThreadList(): (q: seq<Tid>)
      requires Valid()
      reads this, Repr()
      ensures q == model.list
    {
      threadList
    }

    /** list_delete on the thread list, and the end of the structure's life. */
    method UnlinkThread(t: Tid)
      requires Valid() && t in model.th && t in model.list
      modifies threads.Values, this`threadList, this`model
      ensures Valid() && model == Unlink(old(model), t)
    {
      hide Valid, Without;
      PriorityInRange(t);
      Assign(t, At(t).(magic := false));
      AssignThreadList(Without(ThreadList(), t));
    }

    // ----- run queues -----

    /** The run queue of level `p`, now in use, and its bit. */
    method AssignLevel(p: nat, q: seq<Tid>)
      requires Valid() && p < NUM_PRIORITIES && q != []
      modifies runQueue, this`bitmap, this`model
      ensures Valid() && model == SetQ(old(model), RunQ(p), q)
    {
      hide WaitQueues, Threads, Mutexes, Semaphores, Events, Embedded;
      runQueue[p] := q;
      forall i: nat ensures Bit(OrBit(bitmap, p), i) <==> i == p || Bit(bitmap, i) { OrBitSets(bitmap, p, i); }
      bitmap := OrBit(bitmap, p);
      model := SetQ(model, RunQ(p), q);
    }

    method InsertInRunQueueHead(t: Tid)
      requires Valid() && t in model.th
      modifies runQueue, this`bitmap, this`model
      ensures Valid() && model == InsertHead(old(model), t)
    {
      hide Valid, Q, SetQ;
      PriorityInRange(t);
      var p := At(t).priority;
      AssignLevel(p, [t] + Level(p));
    }

    method InsertInRunQueueTail(t: Tid)
      requires Valid() && t in model.th
      modifies runQueue, this`bitmap, this`model
      ensures Valid() && model == InsertTail(old(model), t)
    {
      hide Valid, Q, SetQ;
      PriorityInRange(t);
      var p := At(t).priority;
      AssignLevel(p, Level(p) + [t]);
    }

    /** Unlink the first thread of level `p`; a level left empty is struck from the bitmap. */
    method RemoveFirst(p: nat) returns (t: Tid)
      requires Valid() && p < NUM_PRIORITIES && Q(model, RunQ(p)) != []
      modifies runQueue, this`bitmap, this`model
      ensures Valid() && t == Q(old(model), RunQ(p))[0]
      ensures model == SetQ(old(model), RunQ(p), Q(old(model), RunQ(p))[1..])
    {
      hide Threads, WaitQueues, Mutexes, Semaphores, Events, Embedded;
      t := runQueue[p][0];
      runQueue[p] := runQueue[p][1..];
      if runQueue[p] == [] {
        forall q: nat ensures Bit(AndNotBit(bitmap, p), q) <==> q != p && Bit(bitmap, q) {
          AndNotBitClears(bitmap, p, q);
        }
        bitmap := AndNotBit(bitmap, p);
      }
      model := SetQ(model, RunQ(p), Q(model, RunQ(p))[1..]);
    }

    /** A run queue in use has its bit set. */
    lemma BitmapCoversQueues()
      requires Valid()
      ensures |model.rq| == NUM_PRIORITIES && Width(bitmap) <= WORD_BITS
      ensures forall p: nat | p < NUM_PRIORITIES :: Q(model, RunQ(p)) != [] ==> Bit(bitmap, p)
    {
      WidthFromBits(bitmap);
    }

    /** get_top_thread: scan the bitmap from its leading bit down. */
    method GetTopThread() returns (t: Tid)
      requires Valid()
      modifies runQueue, this`bitmap, this`model
      ensures Valid() && t == NextThread(old(model)) && model == PopTop(old(model))
    {
      hide Valid, Q, Bit, Width, AndNotBit, Clz, PopTop, NextThread;
      BitmapCoversQueues();
      var local := bitmap;
      while local != 0
        invariant Valid() && model == old(model) && |model.rq| == NUM_PRIORITIES
        invariant Width(local) <= WORD_BITS
        invariant forall p: nat | p < NUM_PRIORITIES :: Q(model, RunQ(p)) != [] ==> Bit(local, p)
      {
        HighestBit(local);
        var next := HIGHEST_PRIORITY - Clz(local) - (WORD_BITS - NUM_PRIORITIES);
        if Level(next) != [] {
          NextOfLevel(model, next);
          t := RemoveFirst(next);
          return;
        }
        AndNotBitShrinks(local, next);
        WidthMonotone(AndNotBit(local, next), local);
        forall p: nat ensures Bit(AndNotBit(local, next), p) <==> p != next && Bit(local, p) {
          AndNotBitClears(local, next, p);
        }
        local := AndNotBit(local, next);
      }
      NoLevelInUse(model, local);
      t := IdleThread();
    }

    // ----- rescheduling -----

    /** thread_resched: choose the next thread, refill a spent quantum, switch, and let the chosen
        thread do what it had left to do. */
    method ThreadResched()
      requires Valid() && MidInv(model)
      modifies runQueue, threads.Values, mutexes.Values, sems.Values
      modifies this`bitmap, this`current, this`threadList, this`model
      ensures Valid() && model == Dispatch(old(model))
    {
      hide Valid, MayResume, NextThread, PopTop, Resched, Dispatched, Registered, JoinsOk, Reschedulable;
      ghost var k := model;
      NextIsReady(k);
      ResumeAllowed(k);
      ReschedInSteps(k);
      hide MidInv;
      var newthread := GetTopThread();
      SwitchTo(newthread);
      ResumeCurrent();
    }

    method SwitchTo(newthread: Tid)
      requires Valid() && newthread in model.th
      modifies threads.Values, this`current, this`model
      ensures Valid()
      ensures model == SetT(old(model), newthread, Dispatched(old(model), newthread)).(current := newthread)
    {
      hide Valid;
      PriorityInRange(newthread);
      ghost var k := model;
      var c := At(newthread);
      Assign(newthread, c.(state := Running));
      if newthread != CurrentThread() {
        if c.quantum <= 0 {
          SetTwice(k, newthread, c.(state := Running), c.(state := Running, quantum := QUANTUM));
          Assign(newthread, c.(state := Running, quantum := QUANTUM));
        }
        SetCurrentThread(newthread);
      }
    }

    method SetCurrentThread(t: Tid)
      requires Valid()
      modifies this`current, this`model
      ensures Valid() && model == old(model).(current := t)
    {
      hide RunQueues, Threads, WaitQueues, Mutexes, Semaphores, Events, Embedded;
      current := t;
      model := model.(current := t);
    }

    /** What the running thread does once thread_resched has returned to it. */
    method ResumeCurrent()
      requires Valid() && MayResume(model)
      modifies threads.Values, mutexes.Values, sems.Values, this`threadList, this`model
      ensures Valid() && model == Continue(old(model))
    {
      hide Valid;
      match At(CurrentThread()).cont
      case NoCont => assert Continue(model) == model;
      case JoinCont(t) => ResumeJoin(t);
      case AcquireCont(m) => ResumeAcquire(m);
      case SemCont(s, timed) => ResumeSem(s, timed);
      case EventCont(e) => EndWait();
    }

    /** wait_queue_block returns its status. */
    method EndWait()
      requires Valid() && MayResume(model) && Cur(model).cont != NoCont
      modifies threads.Values, this`model
      ensures Valid()
      ensures model == SetT(old(model), old(model).current,
        Cur(old(model)).(cont := NoCont, ret := Cur(old(model)).blockRet))
    {
      hide Valid;
      PriorityInRange(model.current);
      var t := CurrentThread();
      Assign(t, At(t).(cont := NoCont, ret := At(t).blockRet));
    }

    /** thread_join after wait_queue_block. */
    method ResumeJoin(target: Tid)
      requires Valid() && MayResume(model) && Cur(model).cont == JoinCont(target)
      modifies threads.Values, this`threadList, this`model
      ensures Valid() && model == Continue(old(model))
    {
      hide Valid, Without;
      PriorityInRange(model.current);
      ghost var k := model;
      var t, code := CurrentThread(), At(target).retcode;
      EndWait();
      if At(t).blockRet >= 0 {
        SetTwice(k, t, At(t), At(t).(out := code, ret := NO_ERROR));
        Assign(t, At(t).(out := code, ret := NO_ERROR));
        UnlinkThread(target);
      }
    }

    /** mutex_acquire_timeout after wait_queue_block. */
    method ResumeAcquire(m: nat)
      requires Valid() && MayResume(model) && Cur(model).cont == AcquireCont(m)
      modifies threads.Values, mutexes.Values, this`model
      ensures Valid() && model == Continue(old(model))
    {
      hide Valid;
      var t := CurrentThread();
      EndWait();
      if At(t).blockRet >= 0 {
        AssignMutex(m, MutexAt(m).(holder := Some(t)));
      } else if At(t).blockRet == ERR_TIMED_OUT {
        AssignMutex(m, MutexAt(m).(count := MutexAt(m).count - 1));
      }
    }

    /** sem_wait and sem_timedwait after wait_queue_block. */
    method ResumeSem(s: nat, timed: bool)
      requires Valid() && MayResume(model) && Cur(model).cont == SemCont(s, timed)
      modifies threads.Values, sems.Values, this`model
      ensures Valid() && model == Continue(old(model))
    {
      hide Valid;
      var t := CurrentThread();
      EndWait();
      if timed && At(t).blockRet == ERR_TIMED_OUT { AssignSem(s, SemAt(s) + 1); }
    }

    // ----- wait queues -----

    /** wait_queue_block. With timeout zero it returns at once; otherwise the caller is queued and
        another thread runs, and `cont` says what the caller does when its turn comes. */
    method WaitQueueBlock(cont: Cont, timeout: Timeout) returns (status: Option<int>)
      requires Valid() && cont != NoCont && ContQueue(cont) in waits && model.current in model.th
      requires timeout != Poll ==> MidInv(Enqueue(model, timeout, cont))
      modifies runQueue, threads.Values, waits.Values, mutexes.Values, sems.Values, events.Values
      modifies this`bitmap, this`current, this`threadList, this`model
      ensures Valid()
      ensures timeout == Poll ==> status == Some(ERR_TIMED_OUT) && model == old(model)
      ensures timeout != Poll ==> status == None && model == Dispatch(Enqueue(old(model), timeout, cont))
    {
      hide Valid, MidInv, Dispatch, Enqueue;
      if timeout == Poll { return Some(ERR_TIMED_OUT); }
      QueueCaller(cont, timeout);
      ThreadResched();
      return None;
    }

    /** wait_queue_block up to thread_resched. */
    method QueueCaller(cont: Cont, timeout: Timeout)
      requires Valid() && cont != NoCont && ContQueue(cont) in waits && model.current in model.th
      modifies threads.Values, waits.Values, this`model
      ensures Valid() && model == Enqueue(old(model), timeout, cont)
    {
      hide Valid, Q, Enqueue, SetQ;
      EnqueueInSteps(model, timeout, cont);
      var t, w := CurrentThread(), ContQueue(cont);
      PriorityInRange(t);
      AddWaiter(w, t);
      Assign(t, Waiting(At(t), timeout, cont));
    }

    /** The wait, and the status if it may not last. */
    method BlockOrReturn(cont: Cont, timeout: Timeout)
      requires Valid() && cont != NoCont && ContQueue(cont) in waits && model.current in model.th
      requires timeout != Poll ==> MidInv(Enqueue(model, timeout, cont))
      modifies runQueue, threads.Values, waits.Values, mutexes.Values, sems.Values, events.Values
      modifies this`bitmap, this`current, this`threadList, this`model
      ensures Valid()
      ensures model ==
        if timeout == Poll then Return(old(model), ERR_TIMED_OUT) else Dispatch(Enqueue(old(model), timeout, cont))
    {
      hide Valid, MidInv, Dispatch, Enqueue, Return;
      var status := WaitQueueBlock(cont, timeout);
      if status.Some? { SetReturn(status.value); }
    }

    /** The caller goes back to the head of its run queue. */
    method RequeueCurrent()
      requires Valid() && model.current in model.th
      modifies runQueue, threads.Values, waits.Values, mutexes.Values, sems.Values, events.Values
      modifies this`bitmap, this`current, this`threadList, this`model
      ensures Valid() && model == Requeue(old(model))
    {
      hide Valid;
      var t := CurrentThread();
      PriorityInRange(t);
      Assign(t, At(t).(state := Ready));
      InsertInRunQueueHead(t);
    }

    method MakeThreadReady(t: Tid, err: int)
      requires Valid() && t in model.th
      modifies runQueue, threads.Values, waits.Values, mutexes.Values, sems.Values, events.Values
      modifies this`bitmap, this`current, this`threadList, this`model
      ensures Valid() && model == MakeReady(old(model), t, err)
    {
      hide Valid;
      PriorityInRange(t);
      Assign(t, Woken(At(t), err));
      InsertInRunQueueHead(t);
    }

    /** Take the first waiter off the queue and mark it ready. */
    method TakeWaiter(w: QueueId, err: int) returns (t: Tid)
      requires Valid() && w in waits && Q(model, w) != [] && Q(model, w)[0] in model.th
      modifies runQueue, threads.Values, waits.Values, mutexes.Values, sems.Values, events.Values
      modifies this`bitmap, this`current, this`threadList, this`model
      ensures Valid() && t == Q(old(model), w)[0]
      ensures model == Popped(old(model), w, err)
    {
      hide Valid, Q, SetQ;
      t := RemoveHead(w);
      PriorityInRange(t);
      Assign(t, Woken(At(t), err));
    }

    /** wait_queue_wake_one up to thread_resched, for a queue that is not empty. */
    method WakeFirst(w: QueueId, resched: bool, err: int)
      requires Valid() && w in waits && Q(model, w) != [] && Q(model, w)[0] in model.th && model.current in model.th
      modifies runQueue, threads.Values, waits.Values, mutexes.Values, sems.Values, events.Values
      modifies this`bitmap, this`current, this`threadList, this`model
      ensures Valid() && model == WakeOne(old(model), w, resched, err)
    {
      hide Valid, WakeOne, Requeue, InsertHead, Q, Popped;
      WakeOneInSteps(model, w, resched, err);
      var t := TakeWaiter(w, err);
      if resched { RequeueCurrent(); }
      InsertInRunQueueHead(t);
    }

    /** wait_queue_wake_one */
    method WaitQueueWakeOne(w: QueueId, resched: bool, err: int) returns (woken: int)
      requires Valid() && w in waits && MayWakeOne(model, w, resched, err)
      modifies runQueue, threads.Values, waits.Values, mutexes.Values, sems.Values, events.Values
      modifies this`bitmap, this`current, this`threadList, this`model
      ensures Valid() && woken == (if Q(old(model), w) != [] then 1 else 0)
      ensures model == WakeOneResched(old(model), w, resched, err)
    {
      hide Valid, MidInv, Dispatch, WakeOne, Q, MayWakeOne, WakeOneResched;
      WakeOneCases(model, w, resched, err);
      if Waiters(w) == [] { return 0; }
      WakeFirst(w, resched, err);
      if resched { ThreadResched(); }
      return 1;
    }

    /** Pop the first waiter into its run queue. */
    method PourWaiter(w: QueueId, err: int)
      requires Valid() && w in waits && !w.RunQ? && Q(model, w) != [] && Q(model, w)[0] in model.th
      modifies runQueue, threads.Values, waits.Values, mutexes.Values, sems.Values, events.Values
      modifies this`bitmap, this`current, this`threadList, this`model
      ensures Valid() && Q(model, w) == Q(old(model), w)[1..]
      ensures forall t | t in old(model).th :: t in model.th
      ensures Poured(model, w, err) == Poured(old(model), w, err)
    {
      hide Valid, MakeReady, MakeAllReady;
      PouredOne(model, w, err);
      var t := RemoveHead(w);
      MakeThreadReady(t, err);
    }

    /** Pop all the waiters into the run queues. */
    method PourWaiters(w: QueueId, err: int) returns (woken: nat)
      requires Valid() && w in waits && !w.RunQ?
      requires forall t | t in Q(model, w) :: t in model.th
      modifies runQueue, threads.Values, waits.Values, mutexes.Values, sems.Values, events.Values
      modifies this`bitmap, this`current, this`threadList, this`model
      ensures Valid() && woken == |Q(old(model), w)|
      ensures model == Poured(old(model), w, err)
    {
      hide Valid, Poured, Q, SetQ;
      ghost var k := model;
      woken := 0;
      while Waiters(w) != []
        invariant Valid() && waits == old(waits) && w in waits
        invariant woken + |Q(model, w)| == |Q(k, w)|
        invariant forall t | t in Q(model, w) :: t in model.th
        invariant Poured(model, w, err) == Poured(k, w, err)
        decreases |Q(model, w)|
      {
        PourWaiter(w, err);
        woken := woken + 1;
      }
      PouredNobody(model, w, err);
      ForgetEmpty(w);
    }

    /** wait_queue_wake_all. Whether the caller is requeued is decided by the counter, whether it
        reschedules by the number of threads woken. */
    method WaitQueueWakeAll(w: QueueId, resched: bool, err: int) returns (woken: nat)
      requires Valid() && w in waits && MayWakeAll(model, w, resched, err)
      modifies runQueue, threads.Values, waits.Values, mutexes.Values, sems.Values, events.Values
      modifies this`bitmap, this`current, this`threadList, this`model
      ensures Valid() && woken == |Q(old(model), w)|
      ensures model == WakeAllResched(old(model), w, resched, err)
    {
      hide Valid, MidInv, Dispatch, WakeAll, Q;
      woken := WakeEverybody(w, resched, err);
      if woken > 0 && resched { ThreadResched(); }
    }

    /** wait_queue_wake_all up to thread_resched. */
    method WakeEverybody(w: QueueId, resched: bool, err: int) returns (woken: nat)
      requires Valid() && w in waits && !w.RunQ? && model.current in model.th
      requires forall t | t in Q(model, w) :: t in model.th
      modifies runQueue, threads.Values, waits.Values, mutexes.Values, sems.Values, events.Values
      modifies this`bitmap, this`current, this`threadList, this`model
      ensures Valid() && woken == |Q(old(model), w)| && model == WakeAll(old(model), w, resched, err)
    {
      hide Valid, Requeue, SetQ, Q, WakeAll, Poured;
      WakeAllInSteps(model, w, resched, err);
      MakeWay(w, resched);
      woken := PourWaiters(w, err);
    }

    /** Before anybody is woken the caller goes back to its run queue, if it reschedules and somebody waits. */
    method MakeWay(w: QueueId, resched: bool)
      requires Valid() && w in waits && model.current in model.th
      modifies runQueue, threads.Values, waits.Values, mutexes.Values, sems.Values, events.Values
      modifies this`bitmap, this`current, this`threadList, this`model
      ensures Valid() && model == if resched && Q(old(model), w) != [] then Requeue(old(model)) else old(model)
    {
      hide Valid, Requeue, Q;
      if resched && WaitCount(w) > 0 { RequeueCurrent(); }
    }

    /** An empty wait queue is the same queue whether or not the abstract kernel lists it. */
    ghost method ForgetEmpty(w: QueueId)
      requires Valid() && w in waits && Q(model, w) == [] && !w.RunQ?
      modifies this`model
      ensures Valid() && model == SetQ(old(model), w, [])
    {
      hide RunQueues, Threads, Mutexes, Semaphores, Events, Embedded;
      model := SetQ(model, w, []);
    }

    // ----- creation -----

    /** thread_init_early, which turns the running code into a thread, and thread_create_idle. */
    constructor (boot: Tid, idleThread: Tid)
      requires boot != idleThread
      ensures Valid() && model == Boot(boot, idleThread)
      ensures fresh(runQueue) && fresh(threads.Values) && fresh(waits.Values)
      ensures mutexes == map[] && sems == map[] && events == map[]
    {
      hide Valid;
      runQueue := new seq<Tid>[NUM_PRIORITIES](_ => []);
      bitmap, current, idle, threadList := 0, boot, idleThread, [];
      threads, waits, mutexes, sems, events := map[], map[], map[], map[], map[];
      model := Kernel(seq(NUM_PRIORITIES, p => []), map[], map[], boot, idleThread, [], map[], map[], map[]);
      new;
      EmptyIsValid();
      AddThread(boot, BLANK_TCB.(state := Running, priority := HIGHEST_PRIORITY, detached := true));
      AddThread(idleThread, BLANK_TCB.(priority := IDLE_PRIORITY, detached := true));
      assert model.th == Boot(boot, idleThread).th;
    }

    lemma EmptyIsValid()
      requires runQueue.Length == NUM_PRIORITIES && (forall p | 0 <= p < NUM_PRIORITIES :: runQueue[p] == [])
        && bitmap == 0
      requires threads == map[] && waits == map[] && mutexes == map[] && sems == map[] && events == map[]
      requires model == Kernel(seq(NUM_PRIORITIES, p => []), map[], map[], current, idle, threadList, map[], map[],
        map[])
      ensures Valid()
    {
      forall p: nat ensures !Bit(bitmap, p) { ZeroHasNoBit(p); }
      assert runQueue[..] == model.rq;
    }

    method AddThread(t: Tid, c: Tcb)
      requires Valid() && t !in model.th && c.priority < NUM_PRIORITIES
      modifies this`threads, this`waits, this`threadList, this`model
      ensures Valid() && model == old(model).(th := old(model).th[t := c], list := [t] + old(model).list)
      ensures t in threads && fresh(threads[t]) && threads == old(threads)[t := threads[t]]
      ensures JoinQ(t) in waits && fresh(waits[JoinQ(t)]) && waits == old(waits)[JoinQ(t) := waits[JoinQ(t)]]
    {
      hide Holds;
      NewWaitQueue(JoinQ(t));
      NewThread(t, c);
    }

    /** A new, empty wait queue at address `w`. */
    method NewWaitQueue(w: QueueId)
      requires Holds() && w !in waits && !w.RunQ?
      modifies this`waits
      ensures Holds() && w in waits && fresh(waits[w]) && waits == old(waits)[w := waits[w]]
    {
      hide RunQueues, Threads, Mutexes, Semaphores, Events;
      var q := new WaitQueue();
      waits := waits[w := q];
    }

    method NewThread(t: Tid, c: Tcb)
      requires Holds() && t !in model.th && c.priority < NUM_PRIORITIES
      modifies this`threads, this`threadList, this`model
      ensures Holds() && model == old(model).(th := old(model).th[t := c], list := [t] + old(model).list)
      ensures t in threads && fresh(threads[t]) && threads == old(threads)[t := threads[t]]
    {
      hide RunQueues, WaitQueues, Mutexes, Semaphores, Events, Thread.Fields;
      var x := new Thread(c);
      EnterThread(t, x, c);
    }

    method EnterThread(t: Tid, x: Thread, ghost c: Tcb)
      requires Holds() && t !in model.th && x !in threads.Values && x.Fields() == c && c.priority < NUM_PRIORITIES
      modifies this`threads, this`threadList, this`model
      ensures Holds() && model == old(model).(th := old(model).th[t := c], list := [t] + old(model).list)
      ensures threads == old(threads)[t := x]
    {
      hide RunQueues, WaitQueues, Mutexes, Semaphores, Events, Thread.Fields;
      threads, threadList := threads[t := x], [t] + threadList;
      model := model.(th := model.th[t := c], list := [t] + model.list);
      assert model.th.Keys == threads.Keys;
    }

    /** thread_create_etc: a suspended thread at a new address. */
    method ThreadCreate(t: Tid, base: nat)
      requires Valid() && t !in model.th && base < NUM_PRIORITIES
      modifies this`threads, this`waits, this`threadList, this`model
      ensures Valid() && model == Step(old(model), Create(t, base))
      ensures t in threads && fresh(threads[t]) && threads == old(threads)[t := threads[t]]
    {
      hide Valid;
      AddThread(t, BLANK_TCB.(priority := base));
    }

    method NewMutex(m: nat)
      requires Holds() && m !in model.mx
      modifies this`mutexes, this`model
      ensures Holds() && model == SetMx(old(model), m, MutexState(None, 0))
      ensures m in mutexes && fresh(mutexes[m]) && mutexes == old(mutexes)[m := mutexes[m]]
    {
      hide RunQueues, WaitQueues, Threads, Semaphores, Events;
      var x := new Mutex();
      EnterMutex(m, x);
    }

    method EnterMutex(m: nat, x: Mutex)
      requires Holds() && m !in model.mx && x !in mutexes.Values && x.holder == None && x.count == 0
      modifies this`mutexes, this`model
      ensures Holds() && model == SetMx(old(model), m, MutexState(None, 0)) && mutexes == old(mutexes)[m := x]
    {
      hide RunQueues, WaitQueues, Threads, Semaphores, Events;
      mutexes := mutexes[m := x];
      model := SetMx(model, m, MutexState(None, 0));
    }

    /** mutex_init */
    method MutexInitialize(m: nat)
      requires Valid() && m !in model.mx
      modifies this`mutexes, this`waits, this`model
      ensures Valid() && model == Step(old(model), MutexInit(m))
      ensures m in mutexes && fresh(mutexes[m]) && mutexes == old(mutexes)[m := mutexes[m]]
    {
      hide Holds;
      NewWaitQueue(MutexQ(m));
      NewMutex(m);
    }

    method NewSemaphore(s: nat, value: nat)
      requires Holds() && s !in model.sm
      modifies this`sems, this`model
      ensures Holds() && model == SetSm(old(model), s, value)
      ensures s in sems && fresh(sems[s]) && sems == old(sems)[s := sems[s]]
    {
      hide RunQueues, WaitQueues, Threads, Mutexes, Events;
      var x := new Semaphore(value);
      EnterSemaphore(s, x);
    }

    method EnterSemaphore(s: nat, x: Semaphore)
      requires Holds() && s !in model.sm && x !in sems.Values && x.count >= 0
      modifies this`sems, this`model
      ensures Holds() && model == SetSm(old(model), s, x.count) && sems == old(sems)[s := x]
    {
      hide RunQueues, WaitQueues, Threads, Mutexes, Events;
      sems := sems[s := x];
      model := SetSm(model, s, x.count);
    }

    /** sem_init */
    method SemaphoreInitialize(s: nat, value: nat)
      requires Valid() && s !in model.sm
      modifies this`sems, this`waits, this`model
      ensures Valid() && model == Step(old(model), SemInit(s, value))
      ensures s in sems && fresh(sems[s]) && sems == old(sems)[s := sems[s]]
    {
      hide Holds;
      NewWaitQueue(SemQ(s));
      NewSemaphore(s, value);
    }

    method NewEvent(e: nat, initially: bool, auto: bool)
      requires Holds() && e !in model.ev
      modifies this`events, this`model
      ensures Holds() && model == SetEv(old(model), e, EventState(initially, auto))
      ensures e in events && fresh(events[e]) && events == old(events)[e := events[e]]
    {
      hide RunQueues, WaitQueues, Threads, Mutexes, Semaphores;
      var x := new Event(initially, auto);
      EnterEvent(e, x);
    }

    method EnterEvent(e: nat, x: Event)
      requires Holds() && e !in model.ev && x !in events.Values
      modifies this`events, this`model
      ensures Holds() && model == SetEv(old(model), e, EventState(x.signaled, x.auto)) && events == old(events)[e := x]
    {
      hide RunQueues, WaitQueues, Threads, Mutexes, Semaphores;
      events := events[e := x];
      model := SetEv(model, e, EventState(x.signaled, x.auto));
    }

    /** event_init */
    method EventInitialize(e: nat, initially: bool, auto: bool)
      requires Valid() && e !in model.ev
      modifies this`events, this`waits, this`model
      ensures Valid() && model == Step(old(model), EventInit(e, initially, auto))
      ensures e in events && fresh(events[e]) && events == old(events)[e := events[e]]
    {
      hide Holds, Step;
      StepEventInit(model, e, initially, auto);
      NewWaitQueue(EventQ(e));
      NewEvent(e, initially, auto);
    }

    // ----- thread calls -----

    /** The status a call hands back to its caller. */
    method SetReturn(status: int)
      requires Valid() && model.current in model.th
      modifies threads.Values, this`model
      ensures Valid() && model == Return(old(model), status)
    {
      hide Valid;
      var t := CurrentThread();
      PriorityInRange(t);
      Assign(t, At(t).(ret := status));
    }

    method ThreadYield()
      requires Valid() && Inv(model) && Enabled(model, Yield)
      modifies runQueue, threads.Values, waits.Values, mutexes.Values, sems.Values, events.Values
      modifies this`bitmap, this`current, this`threadList, this`model
      ensures Valid() && model == Step(old(model), Yield)
    {
      hide Valid, Inv, MidInv, Dispatch, YieldAct;
      StepKeepsInv(model, Yield);
      CurrentExists(model);
      GiveUpQuantum();
      ThreadResched();
    }

    /** thread_yield up to thread_resched. */
    method GiveUpQuantum()
      requires Valid() && model.current in model.th
      modifies runQueue, threads.Values, waits.Values, mutexes.Values, sems.Values, events.Values
      modifies this`bitmap, this`current, this`threadList, this`model
      ensures Valid() && model == YieldAct(old(model))
    {
      hide Valid, InsertTail;
      var t := CurrentThread();
      var c := At(t);
      PriorityInRange(t);
      Assign(t, c.(state := Ready, quantum := 0));
      if !c.idleFlag { InsertInRunQueueTail(t); }
    }

    /** thread_preempt up to thread_resched. */
    method PutBack()
      requires Valid() && model.current in model.th
      modifies runQueue, threads.Values, waits.Values, mutexes.Values, sems.Values, events.Values
      modifies this`bitmap, this`current, this`threadList, this`model
      ensures Valid() && model == PreemptAct(old(model))
    {
      hide Valid, InsertHead, InsertTail;
      var t := CurrentThread();
      var c := At(t);
      PriorityInRange(t);
      Assign(t, c.(state := Ready));
      if !c.idleFlag {
        if c.quantum > 0 { InsertInRunQueueHead(t); } else { InsertInRunQueueTail(t); }
      }
    }

    method ThreadPreempt()
      requires Valid() && Inv(model) && Enabled(model, Preempt)
      modifies runQueue, threads.Values, waits.Values, mutexes.Values, sems.Values, events.Values
      modifies this`bitmap, this`current, this`threadList, this`model
      ensures Valid() && model == Step(old(model), Preempt)
    {
      hide Valid, Inv, MidInv, Dispatch, PreemptAct;
      StepKeepsInv(model, Preempt);
      CurrentExists(model);
      PutBack();
      ThreadResched();
    }

    /** thread_timer_tick: whether the running thread's time is up. */
    method ThreadTimerTick() returns (reschedule: bool)
      requires Valid() && model.current in model.th
      modifies threads.Values, this`model
      ensures Valid() && reschedule == TickReschedules(old(model))
      ensures model == Ticked(old(model))
    {
      hide Valid;
      var t := CurrentThread();
      var c := At(t);
      PriorityInRange(t);
      if c.realTime || c.idleFlag { return false; }
      Assign(t, c.(quantum := c.quantum - 1));
      return c.quantum - 1 <= 0;
    }

    /** TimerCallback: the tick, then the preemption it asks for. */
    method TimerCallback()
      requires Valid() && Inv(model) && Enabled(model, Tick)
      modifies runQueue, threads.Values, waits.Values, mutexes.Values, sems.Values, events.Values
      modifies this`bitmap, this`current, this`threadList, this`model
      ensures Valid() && model == Step(old(model), Tick)
    {
      hide Valid, Inv, MidInv, Dispatch, PreemptAct, Step, Ticked, TickReschedules, Enabled;
      TickAllowed(model);
      var reschedule := ThreadTimerTick();
      if reschedule {
        PutBack();
        ThreadResched();
      }
    }

    method ThreadSetPriority(priority: int)
      requires Valid() && Inv(model) && Enabled(model, SetPriority(priority))
      modifies runQueue, threads.Values, waits.Values, mutexes.Values, sems.Values, events.Values
      modifies this`bitmap, this`current, this`threadList, this`model
      ensures Valid() && model == Step(old(model), SetPriority(priority))
    {
      hide Valid, Inv, MidInv, Dispatch, SetPriorityAct;
      StepKeepsInv(model, SetPriority(priority));
      CurrentExists(model);
      ChangePriority(priority);
      ThreadResched();
    }

    /** thread_set_priority up to thread_resched. */
    method ChangePriority(priority: int)
      requires Valid() && model.current in model.th
      modifies runQueue, threads.Values, waits.Values, mutexes.Values, sems.Values, events.Values
      modifies this`bitmap, this`current, this`threadList, this`model
      ensures Valid() && model == SetPriorityAct(old(model), priority)
    {
      hide Valid, Requeue;
      var p := priority;
      if p <= IDLE_PRIORITY { p := IDLE_PRIORITY + 1; }
      if p > HIGHEST_PRIORITY { p := HIGHEST_PRIORITY; }
      AssignPriority(p);
      RequeueCurrent();
    }

    method AssignPriority(p: nat)
      requires Valid() && model.current in model.th && p < NUM_PRIORITIES
      modifies threads.Values, this`model
      ensures Valid() && model == SetT(old(model), old(model).current, Cur(old(model)).(priority := p))
    {
      hide Valid;
      var t := CurrentThread();
      Assign(t, At(t).(priority := p));
    }

    method ThreadSetRealTime(t: Tid)
      requires Valid() && Inv(model) && Enabled(model, SetRealTime(t))
      modifies runQueue, threads.Values, waits.Values, mutexes.Values, sems.Values, events.Values
      modifies this`bitmap, this`current, this`threadList, this`model
      ensures Valid() && model == Step(old(model), SetRealTime(t))
    {
      hide Valid, Inv;
      CurrentExists(model);
      PriorityInRange(t);
      Assign(t, At(t).(realTime := true));
      SetReturn(NO_ERROR);
    }

    /** The locked part of thread_resume. */
    method ThreadResume(t: Tid)
      requires Valid() && Inv(model) && Enabled(model, Resume(t))
      modifies runQueue, threads.Values, waits.Values, mutexes.Values, sems.Values, events.Values
      modifies this`bitmap, this`current, this`threadList, this`model
      ensures Valid() && model == Step(old(model), Resume(t))
    {
      hide Valid, Inv, InsertHead;
      CurrentExists(model);
      MakeRunnable(t);
      SetReturn(NO_ERROR);
    }

    method MakeRunnable(t: Tid)
      requires Valid() && t in model.th
      modifies runQueue, threads.Values, waits.Values, mutexes.Values, sems.Values, events.Values
      modifies this`bitmap, this`current, this`threadList, this`model
      ensures Valid()
      ensures model ==
        if T(old(model), t).state == Suspended
        then InsertHead(SetT(old(model), t, T(old(model), t).(state := Ready)), t)
        else old(model)
    {
      hide Valid, InsertHead;
      PriorityInRange(t);
      if At(t).state == Suspended {
        Assign(t, At(t).(state := Ready));
        InsertInRunQueueHead(t);
      }
    }

    method ThreadJoin(t: Tid, timeout: Timeout)
      requires Valid() && Inv(model) && Enabled(model, Join(t, timeout))
      modifies runQueue, threads.Values, waits.Values, mutexes.Values, sems.Values, events.Values
      modifies this`bitmap, this`current, this`threadList, this`model
      ensures Valid() && model == Step(old(model), Join(t, timeout))
    {
      hide Valid, Inv, MidInv, Dispatch, Enqueue, Unlink, Step;
      StepJoin(model, t, timeout);
      StepKeepsInv(model, Join(t, timeout));
      CurrentExists(model);
      LinkedWhileLive(model, t);
      QueueExists(JoinQ(t));
      if At(t).detached {
        SetReturn(ERR_THREAD_DETACHED);
      } else if At(t).state != Death {
        BlockOrReturn(JoinCont(t), timeout);
      } else {
        CompleteJoin(t);
      }
    }

    /** The tail of thread_join on a thread that has exited. */
    method CompleteJoin(t: Tid)
      requires Valid() && model.current in model.th && t in model.th && t in model.list
      modifies threads.Values, this`threadList, this`model
      ensures Valid() && model == FinishJoin(old(model), old(model).current, t)
    {
      hide Valid, Unlink;
      var c := CurrentThread();
      PriorityInRange(c);
      Assign(c, At(c).(out := At(t).retcode, ret := NO_ERROR));
      UnlinkThread(t);
    }

    /** The first critical section of thread_detach. */
    method ThreadDetach(t: Tid)
      requires Valid() && Inv(model) && Enabled(model, Detach(t))
      modifies runQueue, threads.Values, waits.Values, mutexes.Values, sems.Values, events.Values
      modifies this`bitmap, this`current, this`threadList, this`model
      ensures Valid() && model == Step(old(model), Detach(t))
    {
      hide Valid, Inv, WakeAll, SetDetached, Step;
      StepDetach(model, t);
      CurrentExists(model);
      WaitersExist(model, JoinQ(t));
      QueueExists(JoinQ(t));
      var _ := WaitQueueWakeAll(JoinQ(t), false, ERR_THREAD_DETACHED);
      MarkDetached(t);
    }

    method MarkDetached(t: Tid)
      requires Valid() && t in model.th && model.current in model.th
      modifies threads.Values, this`model
      ensures Valid() && model == SetDetached(old(model), t)
    {
      hide Valid;
      PriorityInRange(t);
      if At(t).state == Death {
        Assign(t, At(t).(detached := false));
      } else {
        Assign(t, At(t).(detached := true));
        SetReturn(NO_ERROR);
      }
    }

    /** thread_exit up to thread_resched. */
    method Die(code: int)
      requires Valid() && model.current in model.th && model.current in model.list && JoinQ(model.current) in waits
      requires forall t | t in Q(model, JoinQ(model.current)) :: t in model.th
      modifies runQueue, threads.Values, waits.Values, mutexes.Values, sems.Values, events.Values
      modifies this`bitmap, this`current, this`threadList, this`model
      ensures Valid() && model == ExitAct(old(model), code)
    {
      hide Valid, WakeAll, Unlink, MidInv;
      var t := CurrentThread();
      var c := At(t);
      PriorityInRange(t);
      Assign(t, c.(state := Death, retcode := code));
      if c.detached {
        UnlinkThread(t);
      } else {
        assert Q(model, JoinQ(t)) == Q(old(model), JoinQ(t));
        var _ := WaitQueueWakeAll(JoinQ(t), false, NO_ERROR);
      }
    }

    method ThreadExit(code: int)
      requires Valid() && Inv(model) && Enabled(model, Exit(code))
      modifies runQueue, threads.Values, waits.Values, mutexes.Values, sems.Values, events.Values
      modifies this`bitmap, this`current, this`threadList, this`model
      ensures Valid() && model == Step(old(model), Exit(code))
    {
      hide Valid, Inv, MidInv, Dispatch, ExitAct, Step, Act, Reschedules;
      StepKeepsInv(model, Exit(code));
      StepExit(model, code);
      CurrentExists(model);
      LinkedWhileLive(model, model.current);
      WaitersExist(model, JoinQ(model.current));
      QueueExists(JoinQ(model.current));
      Die(code);
      ThreadResched();
    }

    /** thread_unblock_from_wait_queue, which the wait timer of a thread calls with ERR_TIMED_OUT. */
    method ThreadUnblockFromWaitQueue(t: Tid, err: int) returns (status: int)
      requires Valid() && Inv(model) && t in model.th
      modifies runQueue, threads.Values, waits.Values, mutexes.Values, sems.Values, events.Values
      modifies this`bitmap, this`current, this`threadList, this`model
      ensures Valid() && status == (if old(model).th[t].state == Blocked then NO_ERROR else ERR_NOT_BLOCKED)
      ensures model == Unblocked(old(model), t, err)
      ensures err == ERR_TIMED_OUT && Enabled(old(model), Expire(t)) ==> model == Step(old(model), Expire(t))
    {
      hide Valid, Inv, MakeReady, Without, Unblocked;
      UnblockedInSteps(model, t, err);
      if At(t).state != Blocked { return ERR_NOT_BLOCKED; }
      ExpiredWaiter(model, t);
      var w := At(t).waitOn.value;
      QueueExists(w);
      RemoveWaiter(w, t);
      MakeThreadReady(t, err);
      return NO_ERROR;
    }

    // ----- mutexes -----

    method MutexAcquireTimeout(m: nat, timeout: Timeout)
      requires Valid() && Inv(model) && Enabled(model, MutexAcquire(m, timeout))
      modifies runQueue, threads.Values, waits.Values, mutexes.Values, sems.Values, events.Values
      modifies this`bitmap, this`current, this`threadList, this`model
      ensures Valid() && model == Step(old(model), MutexAcquire(m, timeout))
    {
      hide Valid, Inv, MidInv, Dispatch, MutexAcquireAct;
      StepKeepsInv(model, MutexAcquire(m, timeout));
      CurrentExists(model);
      QueueExists(MutexQ(m));
      LineUp(m, timeout);
    }

    method LineUp(m: nat, timeout: Timeout)
      requires Valid() && model.current in model.th && m in model.mx && MutexQ(m) in waits
      requires Mx(model, m).count >= 1 && timeout != Poll ==> MidInv(MutexAcquireAct(model, m, timeout))
      modifies runQueue, threads.Values, waits.Values, mutexes.Values, sems.Values, events.Values
      modifies this`bitmap, this`current, this`threadList, this`model
      ensures Valid()
      ensures model ==
        if Mx(old(model), m).count >= 1 && timeout != Poll then Dispatch(MutexAcquireAct(old(model), m, timeout))
        else MutexAcquireAct(old(model), m, timeout)
    {
      hide Valid, MidInv, Dispatch, Enqueue, MutexAcquireAct, Return, SetMx;
      AcquireInSteps(model, m, timeout);
      var s := MutexAt(m);
      SetMxTwice(model, m, s.(count := s.count + 1), s);
      SetMxTwice(model, m, s.(count := s.count + 1), MutexState(Some(CurrentThread()), s.count + 1));
      AssignMutex(m, s.(count := s.count + 1));
      if s.count + 1 > 1 {
        WaitInLine(m, timeout);
      } else {
        UpdateMutex(m, MutexAt(m).(holder := Some(CurrentThread())), NO_ERROR);
      }
    }

    /** The contended path: wait, and back the count out if the wait may not last. */
    method WaitInLine(m: nat, timeout: Timeout)
      requires Valid() && model.current in model.th && m in model.mx && MutexQ(m) in waits
      requires timeout != Poll ==> MidInv(Enqueue(model, timeout, AcquireCont(m)))
      modifies runQueue, threads.Values, waits.Values, mutexes.Values, sems.Values, events.Values
      modifies this`bitmap, this`current, this`threadList, this`model
      ensures Valid()
      ensures model ==
        if timeout != Poll then Dispatch(Enqueue(old(model), timeout, AcquireCont(m)))
        else Return(SetMx(old(model), m, Mx(old(model), m).(count := Mx(old(model), m).count - 1)), ERR_TIMED_OUT)
    {
      hide Valid, MidInv, Dispatch, Enqueue, Return;
      var status := WaitQueueBlock(AcquireCont(m), timeout);
      if status.Some? { UpdateMutex(m, MutexAt(m).(count := MutexAt(m).count - 1), status.value); }
    }

    method UpdateMutex(m: nat, s: MutexState, status: int)
      requires Valid() && model.current in model.th && m in model.mx
      modifies threads.Values, mutexes.Values, this`model
      ensures Valid() && model == Return(SetMx(old(model), m, s), status)
    {
      hide Valid, Return;
      AssignMutex(m, s);
      SetReturn(status);
    }

    /** mutex_release */
    method MutexReleaseHeld(m: nat)
      requires Valid() && Inv(model) && Enabled(model, MutexRelease(m))
      modifies runQueue, threads.Values, waits.Values, mutexes.Values, sems.Values, events.Values
      modifies this`bitmap, this`current, this`threadList, this`model
      ensures Valid() && model == Step(old(model), MutexRelease(m))
    {
      hide Valid, Inv, MayWakeOne, WakeOneResched, Return, Step, SetMx, Enabled;
      CurrentExists(model);
      ReleasedInSteps(model, m);
      QueueExists(MutexQ(m));
      var n := MutexAt(m).count - 1;
      UpdateMutex(m, MutexState(None, n), NO_ERROR);
      if n >= 1 {
        var _ := WaitQueueWakeOne(MutexQ(m), true, NO_ERROR);
      }
    }

    // ----- semaphores -----

    /** sem_post: the caller is told how many threads it woke. */
    method SemaphorePost(s: nat, resched: bool)
      requires Valid() && Inv(model) && Enabled(model, SemPost(s, resched))
      modifies runQueue, threads.Values, waits.Values, mutexes.Values, sems.Values, events.Values
      modifies this`bitmap, this`current, this`threadList, this`model
      ensures Valid() && model == Step(old(model), SemPost(s, resched))
    {
      hide Valid, Inv, MidInv, Dispatch, WakeOne, Core, Step, SetSm, Q, Posted, Returned;
      PostedInSteps(model, s, resched);
      PostAllowed(model, s, resched);
      QueueExists(SemQ(s));
      var t := CurrentThread();
      var woken := Post(s, resched);
      Tell(t, woken);
    }

    method Post(s: nat, resched: bool) returns (woken: int)
      requires Valid() && s in model.sm && SemQ(s) in waits
      requires Sm(model, s) + 1 <= 0 ==>
        MayWakeOne(SetSm(model, s, Sm(model, s) + 1), SemQ(s), resched, NO_ERROR)
      modifies runQueue, threads.Values, waits.Values, mutexes.Values, sems.Values, events.Values
      modifies this`bitmap, this`current, this`threadList, this`model
      ensures Valid() && model == Posted(old(model), s, resched)
      ensures woken == if Sm(old(model), s) < 0 && Q(old(model), SemQ(s)) != [] then 1 else 0
    {
      hide Valid, MayWakeOne, WakeOneResched, Q;
      AddingToken(model, s);
      AssignSem(s, SemAt(s) + 1);
      woken := 0;
      if SemAt(s) <= 0 { woken := WaitQueueWakeOne(SemQ(s), resched, NO_ERROR); }
    }

    /** The status a call hands back to the thread that made it. */
    method Tell(t: Tid, status: int)
      requires Valid() && t in model.th
      modifies threads.Values, this`model
      ensures Valid() && model == Returned(old(model), t, status)
    {
      hide Valid;
      PriorityInRange(t);
      Assign(t, At(t).(ret := status));
    }

    /** sem_wait, and with `timed` sem_timedwait, up to and including the wait. */
    method TakeToken(s: nat, timeout: Timeout, timed: bool)
      requires Valid() && model.current in model.th && s in model.sm && SemQ(s) in waits
      requires Sm(model, s) <= 0 && timeout != Poll ==> MidInv(SemTimedWaitAct(model, s, timeout, timed))
      modifies runQueue, threads.Values, waits.Values, mutexes.Values, sems.Values, events.Values
      modifies this`bitmap, this`current, this`threadList, this`model
      ensures Valid()
      ensures model ==
        if Sm(old(model), s) <= 0 && timeout != Poll then Dispatch(SemTimedWaitAct(old(model), s, timeout, timed))
        else SemTimedWaitAct(old(model), s, timeout, timed)
    {
      hide Valid, MidInv, Dispatch, Enqueue, SemTimedWaitAct, Return, SetSm;
      SemWaitInSteps(model, s, timeout, timed);
      var n := SemAt(s) - 1;
      SetSmTwice(model, s, n, n + 1);
      AssignSem(s, n);
      if n < 0 {
        AwaitToken(s, timeout, timed);
      } else {
        SetReturn(NO_ERROR);
      }
    }

    /** The contended path: wait, and give the place back if the wait may not last. */
    method AwaitToken(s: nat, timeout: Timeout, timed: bool)
      requires Valid() && model.current in model.th && s in model.sm && SemQ(s) in waits
      requires timeout != Poll ==> MidInv(Enqueue(model, timeout, SemCont(s, timed)))
      modifies runQueue, threads.Values, waits.Values, mutexes.Values, sems.Values, events.Values
      modifies this`bitmap, this`current, this`threadList, this`model
      ensures Valid()
      ensures model ==
        if timeout != Poll then Dispatch(Enqueue(old(model), timeout, SemCont(s, timed)))
        else Return(SetSm(old(model), s, Sm(old(model), s) + 1), ERR_TIMED_OUT)
    {
      hide Valid, MidInv, Dispatch, Enqueue, Return, SetSm;
      var status := WaitQueueBlock(SemCont(s, timed), timeout);
      if status.Some? { GiveBack(s, status.value); }
    }

    method GiveBack(s: nat, status: int)
      requires Valid() && model.current in model.th && s in model.sm
      modifies threads.Values, sems.Values, this`model
      ensures Valid() && model == Return(SetSm(old(model), s, Sm(old(model), s) + 1), status)
    {
      hide Valid, Return;
      AssignSem(s, SemAt(s) + 1);
      SetReturn(status);
    }

    /** sem_wait */
    method SemaphoreWait(s: nat)
      requires Valid() && Inv(model) && Enabled(model, SemWait(s))
      modifies runQueue, threads.Values, waits.Values, mutexes.Values, sems.Values, events.Values
      modifies this`bitmap, this`current, this`threadList, this`model
      ensures Valid() && model == Step(old(model), SemWait(s))
    {
      hide Valid, Inv, MidInv, Dispatch, SemTimedWaitAct;
      StepKeepsInv(model, SemWait(s));
      CurrentExists(model);
      QueueExists(SemQ(s));
      TakeToken(s, Infinite, false);
    }

    /** sem_timedwait */
    method SemaphoreTimedWait(s: nat, timeout: Timeout)
      requires Valid() && Inv(model) && Enabled(model, SemTimedWait(s, timeout))
      modifies runQueue, threads.Values, waits.Values, mutexes.Values, sems.Values, events.Values
      modifies this`bitmap, this`current, this`threadList, this`model
      ensures Valid() && model == Step(old(model), SemTimedWait(s, timeout))
    {
      hide Valid, Inv, MidInv, Dispatch, SemTimedWaitAct;
      StepKeepsInv(model, SemTimedWait(s, timeout));
      CurrentExists(model);
      QueueExists(SemQ(s));
      TakeToken(s, timeout, true);
    }

    /** sem_trywait */
    method SemaphoreTryWait(s: nat)
      requires Valid() && Inv(model) && Enabled(model, SemTryWait(s))
      modifies runQueue, threads.Values, waits.Values, mutexes.Values, sems.Values, events.Values
      modifies this`bitmap, this`current, this`threadList, this`model
      ensures Valid() && model == Step(old(model), SemTryWait(s))
    {
      hide Valid, Inv;
      CurrentExists(model);
      if SemAt(s) <= 0 {
        SetReturn(ERR_NOT_READY);
      } else {
        AssignSem(s, SemAt(s) - 1);
        SetReturn(NO_ERROR);
      }
    }

    // ----- events -----

    method EventWaitTimeout(e: nat, timeout: Timeout)
      requires Valid() && Inv(model) && Enabled(model, EventWait(e, timeout))
      modifies runQueue, threads.Values, waits.Values, mutexes.Values, sems.Values, events.Values
      modifies this`bitmap, this`current, this`threadList, this`model
      ensures Valid() && model == Step(old(model), EventWait(e, timeout))
    {
      hide Valid, Inv, MidInv, Dispatch, Enqueue, Step, EventWaitAct;
      StepEventWait(model, e, timeout);
      StepKeepsInv(model, EventWait(e, timeout));
      CurrentExists(model);
      QueueExists(EventQ(e));
      if EventAt(e).signaled {
        FallThrough(e);
      } else {
        BlockOrReturn(EventCont(e), timeout);
      }
    }

    /** The wait on a signaled event, which clears it if it is automatic. */
    method FallThrough(e: nat)
      requires Valid() && model.current in model.th && e in model.ev
      modifies threads.Values, events.Values, this`model
      ensures Valid()
      ensures var k := old(model);
        model == Return(if Ev(k, e).auto then SetEv(k, e, Ev(k, e).(signaled := false)) else k, NO_ERROR)
    {
      hide Valid, Return;
      if EventAt(e).auto { AssignEvent(e, false); }
      SetReturn(NO_ERROR);
    }

    /** event_signal */
    method EventRaise(e: nat, resched: bool)
      requires Valid() && Inv(model) && Enabled(model, EventSignal(e, resched))
      modifies runQueue, threads.Values, waits.Values, mutexes.Values, sems.Values, events.Values
      modifies this`bitmap, this`current, this`threadList, this`model
      ensures Valid() && model == Step(old(model), EventSignal(e, resched))
    {
      hide Valid, Inv, Step, Return, Raised, MayRaise;
      CurrentExists(model);
      RaiseAllowed(model, e, resched);
      RaisedInSteps(model, e, resched);
      QueueExists(EventQ(e));
      SetReturn(NO_ERROR);
      Raise(e, resched);
    }

    method Raise(e: nat, resched: bool)
      requires Valid() && EventQ(e) in waits && MayRaise(model, e, resched)
      modifies runQueue, threads.Values, waits.Values, mutexes.Values, sems.Values, events.Values
      modifies this`bitmap, this`current, this`threadList, this`model
      ensures Valid() && model == Raised(old(model), e, resched)
    {
      hide Valid, MayWakeOne, MayWakeAll, WakeOneResched, WakeAllResched, SetEv, Q;
      if !EventAt(e).signaled {
        if EventAt(e).auto {
          if Waiters(EventQ(e)) == [] {
            AssignEvent(e, true);
          } else {
            var _ := WaitQueueWakeOne(EventQ(e), resched, NO_ERROR);
          }
        } else {
          RaiseForAll(e, resched);
        }
      }
    }

    method RaiseForAll(e: nat, resched: bool)
      requires Valid() && EventQ(e) in waits && e in model.ev
      requires MayWakeAll(SetEv(model, e, Ev(model, e).(signaled := true)), EventQ(e), resched, NO_ERROR)
      modifies runQueue, threads.Values, waits.Values, mutexes.Values, sems.Values, events.Values
      modifies this`bitmap, this`current, this`threadList, this`model
      ensures Valid()
      ensures model ==
        WakeAllResched(SetEv(old(model), e, Ev(old(model), e).(signaled := true)), EventQ(e), resched, NO_ERROR)
    {
      hide Valid, MayWakeAll, WakeAllResched, SetEv, Q;
      AssignEvent(e, true);
      var _ := WaitQueueWakeAll(EventQ(e), resched, NO_ERROR);
    }

    /** event_unsignal */
    method EventClear(e: nat)
      requires Valid() && Inv(model) && Enabled(model, EventUnsignal(e))
      modifies runQueue, threads.Values, waits.Values, mutexes.Values, sems.Values, events.Values
      modifies this`bitmap, this`current, this`threadList, this`model
      ensures Valid() && model == Step(old(model), EventUnsignal(e))
    {
      hide Valid, Inv;
      CurrentExists(model);
      AssignEvent(e, false);
      SetReturn(NO_ERROR);
    }
  }

  /** The running thread's continuation refers to existing structures, and to a linked thread if it
      is about to complete a join. */
  predicate MayResume(k: Kernel) {
    && k.current in k.th && ContKnown(k, Cur(k).cont)
    && (Cur(k).cont.JoinCont? && Cur(k).blockRet >= 0 ==>
        Cur(k).cont.target in k.list && Cur(k).cont.target != k.current)
  }

  lemma ResumeAllowed(k: Kernel)
    requires MidInv(k)
    ensures MayResume(Resched(k))
  {
    hide Placed, JoinsOk, NextThread, Top, Resched, Dispatched;
    NextIsReady(k);
    ReschedIs(k);
    var n := NextThread(k);
    assert TcbOk(k, k.th[n]);
    if k.th[n].cont.JoinCont? && k.th[n].blockRet >= 0 { CompletedTarget(k, k.th[n].cont.target); }
    hide TcbOk, Completes, MidInv;
  }

  lemma SetTwice(k: Kernel, t: Tid, c: Tcb, d: Tcb)
    ensures SetT(SetT(k, t, c), t, d) == SetT(k, t, d)
  {
  }

  lemma SetMxTwice(k: Kernel, m: nat, s: MutexState, s': MutexState)
    ensures var k1 := SetMx(k, m, s);
      SetMx(k1, m, s') == SetMx(k, m, s') && Mx(k1, m) == s && m in k1.mx && k1.th == k.th && k1.current == k.current
  {
    assert k.mx[m := s][m := s'] == k.mx[m := s'];
  }

  lemma SetSmTwice(k: Kernel, s: nat, n: int, n': int)
    ensures var k1 := SetSm(k, s, n);
      SetSm(k1, s, n') == SetSm(k, s, n') && Sm(k1, s) == n && s in k1.sm && k1.th == k.th && k1.current == k.current
  {
    assert k.sm[s := n][s := n'] == k.sm[s := n'];
  }

  /** wait_queue_wake_one and wait_queue_wake_all with the thread_resched they end in. */
  function WakeOneResched(k: Kernel, w: QueueId, resched: bool, err: int): Kernel {
    if resched && Q(k, w) != [] then Dispatch(WakeOne(k, w, true, err)) else WakeOne(k, w, resched, err)
  }

  function WakeAllResched(k: Kernel, w: QueueId, resched: bool, err: int): Kernel {
    if resched && Q(k, w) != [] then Dispatch(WakeAll(k, w, true, err)) else WakeAll(k, w, resched, err)
  }

  ghost predicate MayWakeOne(k: Kernel, w: QueueId, resched: bool, err: int) {
    Core(k, {}, true) && !w.RunQ? && (resched && Q(k, w) != [] ==> MidInv(WakeOne(k, w, true, err)))
  }

  ghost predicate MayWakeAll(k: Kernel, w: QueueId, resched: bool, err: int) {
    && !w.RunQ? && k.current in k.th && (forall t | t in Q(k, w) :: t in k.th)
    && (resched && Q(k, w) != [] ==> MidInv(WakeAll(k, w, true, err)))
  }

  /** All who wait at `w` moved to their run queues. */
  function Poured(k: Kernel, w: QueueId, err: int): Kernel {
    MakeAllReady(SetQ(k, w, []), Q(k, w), err)
  }

  lemma WakeAllInSteps(k: Kernel, w: QueueId, resched: bool, err: int)
    requires !w.RunQ?
    ensures var k1 := if resched && Q(k, w) != [] then Requeue(k) else k;
      && Q(k1, w) == Q(k, w) && k.th.Keys <= k1.th.Keys
      && WakeAll(k, w, resched, err) == Poured(k1, w, err)
  {
    hide MakeAllReady;
  }

  lemma ReschedInSteps(k: Kernel)
    ensures var k1, n := PopTop(k), NextThread(k);
      SetT(k1, n, Dispatched(k1, n)).(current := n) == Resched(k) && k1.th == k.th
  {
  }

  lemma {:induction false} NoTop(rq: seq<seq<Tid>>, n: nat)
    requires n <= |rq| && forall p | 0 <= p < n :: rq[p] == []
    ensures TopBelow(rq, n) == -1
  {
    if n > 0 { NoTop(rq, n - 1); }
  }

  lemma NoLevelInUse(k: Kernel, b: nat)
    requires b == 0 && |k.rq| == NUM_PRIORITIES
    requires forall p: nat | p < NUM_PRIORITIES :: Q(k, RunQ(p)) != [] ==> Bit(b, p)
    ensures Top(k) == -1 && NextThread(k) == k.idle && PopTop(k) == k
  {
    forall p | 0 <= p < NUM_PRIORITIES ensures k.rq[p] == [] {
      ZeroHasNoBit(p);
      assert Q(k, RunQ(p)) == k.rq[p];
    }
    NoTop(k.rq, |k.rq|);
  }

  lemma WakeOneCases(k: Kernel, w: QueueId, resched: bool, err: int)
    requires MayWakeOne(k, w, resched, err)
    ensures Q(k, w) == [] ==> WakeOneResched(k, w, resched, err) == k
    ensures Q(k, w) != [] ==>
      && Q(k, w)[0] in k.th && k.current in k.th
      && (resched ==> MidInv(WakeOne(k, w, true, err)))
      && WakeOneResched(k, w, resched, err) ==
        if resched then Dispatch(WakeOne(k, w, true, err)) else WakeOne(k, w, false, err)
  {
    hide Core, MidInv, Dispatch, WakeOne, Q;
    if Q(k, w) == [] {
      WakesNobody(k, w, resched, err);
    } else {
      Waiter(k, w, Q(k, w)[0], {}, true);
      CurrentHasNoCont(k);
    }
  }

  // the calls one by one

  lemma StepJoin(k: Kernel, t: Tid, timeout: Timeout)
    ensures var waits := !T(k, t).detached && T(k, t).state != Death && timeout != Poll;
      Step(k, Join(t, timeout)) == if waits then Dispatch(Enqueue(k, timeout, JoinCont(t))) else JoinAct(k, t, timeout)
  {
    hide Dispatch, Enqueue, FinishJoin;
  }

  lemma StepExit(k: Kernel, code: int)
    ensures Step(k, Exit(code)) == Dispatch(ExitAct(k, code))
    ensures Reschedules(k, Exit(code)) && Act(k, Exit(code)) == ExitAct(k, code)
  {
    hide Dispatch, ExitAct;
  }

  lemma StepDetach(k: Kernel, t: Tid)
    ensures Step(k, Detach(t)) == SetDetached(WakeAll(k, JoinQ(t), false, ERR_THREAD_DETACHED), t)
  {
    hide Dispatch, WakeAll, SetDetached;
  }

  lemma StepEventInit(k: Kernel, e: nat, initially: bool, auto: bool)
    ensures Step(k, EventInit(e, initially, auto)) == SetEv(k, e, EventState(initially, auto))
  {
    hide Dispatch;
  }

  lemma StepEventWait(k: Kernel, e: nat, timeout: Timeout)
    ensures Step(k, EventWait(e, timeout)) ==
      if Ev(k, e).signaled then Return(if Ev(k, e).auto then SetEv(k, e, Ev(k, e).(signaled := false)) else k, NO_ERROR)
      else if timeout == Poll then Return(k, ERR_TIMED_OUT)
      else Dispatch(Enqueue(k, timeout, EventCont(e)))
    ensures !Ev(k, e).signaled && timeout != Poll ==>
      Act(k, EventWait(e, timeout)) == Enqueue(k, timeout, EventCont(e)) && Reschedules(k, EventWait(e, timeout))
  {
    hide Dispatch, Enqueue;
  }

  /** The running thread's fields after a tick. */
  function Ticked(k: Kernel): Kernel {
    if Cur(k).realTime || Cur(k).idleFlag then k
    else SetT(k, k.current, Cur(k).(quantum := Cur(k).quantum - 1))
  }

  lemma TickAllowed(k: Kernel)
    requires Inv(k) && Enabled(k, Tick)
    ensures k.current in k.th && k.current in Ticked(k).th && Ticked(k).current in Ticked(k).th
    ensures Step(k, Tick) == if TickReschedules(k) then Dispatch(PreemptAct(Ticked(k))) else Ticked(k)
    ensures TickReschedules(k) ==> MidInv(PreemptAct(Ticked(k)))
  {
    hide Inv, MidInv, Dispatch, PreemptAct, Step, Ticked, Act, Reschedules, TickReschedules, Enabled;
    StepKeepsInv(k, Tick);
    CurrentExists(k);
    StepTick(k);
  }

  lemma StepTick(k: Kernel)
    requires k.current in k.th
    ensures var k1 := Ticked(k);
      && k1.current == k.current && k1.th.Keys == k.th.Keys
      && Act(k, Tick) == (if TickReschedules(k) then PreemptAct(k1) else k1)
      && (Reschedules(k, Tick) <==> TickReschedules(k))
      && Step(k, Tick) == if TickReschedules(k) then Dispatch(PreemptAct(k1)) else k1
  {
    hide Dispatch, PreemptAct;
  }

  lemma EnqueueInSteps(k: Kernel, timeout: Timeout, cont: Cont)
    requires cont != NoCont && k.current in k.th
    ensures var w := ContQueue(cont);
      Enqueue(k, timeout, cont) == SetT(SetQ(k, w, Q(k, w) + [k.current]), k.current, Waiting(Cur(k), timeout, cont))
  {
    hide Q;
  }

  lemma WakeOneInSteps(k: Kernel, w: QueueId, resched: bool, err: int)
    ensures Q(k, w) == [] ==> WakeOne(k, w, resched, err) == k
    ensures Q(k, w) != [] ==>
      var t, k1 := Q(k, w)[0], Popped(k, w, err);
      && WakeOne(k, w, resched, err) == InsertHead(if resched then Requeue(k1) else k1, t)
      && k1.current == k.current && k.th.Keys + {t} == k1.th.Keys
      && (k.current in k.th ==> Requeue(k1).th.Keys == k1.th.Keys)
  {
  }

  /** The first waiter is off the queue and ready, but in no run queue yet. */
  function Popped(k: Kernel, w: QueueId, err: int): Kernel
    requires Q(k, w) != []
  {
    var t, k1 := Q(k, w)[0], SetQ(k, w, Q(k, w)[1..]);
    SetT(k1, t, Woken(T(k1, t), err))
  }

  lemma PouredNobody(k: Kernel, w: QueueId, err: int)
    requires Q(k, w) == []
    ensures Poured(k, w, err) == SetQ(k, w, [])
  {
  }

  lemma CurrentExists(k: Kernel)
    requires Inv(k)
    ensures k.current in k.th
  {
  }

  lemma LinkedWhileLive(k: Kernel, t: Tid)
    requires Inv(k)
    ensures Live(k, t) ==> t in k.list
    ensures k.th[k.current].magic
  {
    assert TcbOk(k, k.th[k.current]);
  }

  lemma WaitersExist(k: Kernel, w: QueueId)
    requires Inv(k)
    ensures forall t | t in Q(k, w) :: t in k.th
  {
  }

  /** A blocked thread taken off its queue and made ready with the status given; nobody else changes. */
  function Unblocked(k: Kernel, t: Tid, err: int): Kernel {
    if T(k, t).state != Blocked || T(k, t).waitOn == None then k
    else
      var w := T(k, t).waitOn.value;
      MakeReady(SetQ(k, w, Without(Q(k, w), t)), t, err)
  }

  /** The thread leaves the queue it waits in and is READY, first in its run queue, with the status given; other
      threads and queues are as they were. */
  lemma UnblockedIsReady(k: Kernel, t: Tid, err: int)
    requires Inv(k) && t in k.th && k.th[t].state == Blocked
    ensures var k', w, p := Unblocked(k, t, err), ContQueue(k.th[t].cont), k.th[t].priority;
      && t in k'.th && k'.th[t].state == Ready && k'.th[t].blockRet == err && !k'.th[t].armed
      && t in Q(k, w) && t !in Q(k', w) && (forall u | u != t :: u in Q(k', w) <==> u in Q(k, w))
      && Q(k', RunQ(p)) == [t] + Q(k, RunQ(p))
      && (forall u | u in k.th && u != t :: u in k'.th && k'.th[u] == k.th[u])
      && (forall v: QueueId | v != w && v != RunQ(p) :: Q(k', v) == Q(k, v))
  {
    var w := ContQueue(k.th[t].cont);
    WaitsInItsQueue(k, t);
    WithoutMembers(Q(k, w), t);
    hide Inv, Without, NoDup;
    forall v: QueueId ensures Q(SetQ(k, w, Without(Q(k, w), t)), v) == if v == w then Without(Q(k, w), t) else Q(k, v) {
      QOfSetQ(k, w, Without(Q(k, w), t), v);
    }
    hide SetQ;
    ReadyAtHead(SetQ(k, w, Without(Q(k, w), t)), t, err);
    hide MakeReady;
  }

  lemma WaitsInItsQueue(k: Kernel, t: Tid)
    requires Inv(k) && t in k.th && k.th[t].state == Blocked
    ensures var w := ContQueue(k.th[t].cont);
      && k.th[t].cont != NoCont && k.th[t].waitOn == Some(w) && !w.RunQ? && t in Q(k, w) && NoDup(Q(k, w))
      && k.th[t].priority < |k.rq|
  {
    assert TcbOk(k, k.th[t]);
  }

  lemma ReadyAtHead(k: Kernel, t: Tid, err: int)
    requires t in k.th && k.th[t].priority < |k.rq|
    ensures var k' := MakeReady(k, t, err);
      && k'.th == k.th[t := Woken(k.th[t], err)]
      && forall v: QueueId :: Q(k', v) == if v == RunQ(k.th[t].priority) then [t] + Q(k, v) else Q(k, v)
  {
  }

  lemma UnblockedInSteps(k: Kernel, t: Tid, err: int)
    requires Inv(k) && t in k.th
    ensures k.th[t].state != Blocked ==> Unblocked(k, t, err) == k
    ensures k.th[t].state == Blocked ==>
      && k.th[t].waitOn.Some?
      && var w := k.th[t].waitOn.value; Unblocked(k, t, err) == MakeReady(SetQ(k, w, Without(Q(k, w), t)), t, err)
    ensures err == ERR_TIMED_OUT ==> Step(k, Expire(t)) == Unblocked(k, t, err)
  {
    hide Inv, MakeReady, Without, SetQ, Dispatch;
    ExpiredWaiter(k, t);
  }

  lemma ExpiredWaiter(k: Kernel, t: Tid)
    requires Inv(k) && t in k.th
    ensures var c := k.th[t];
      c.state == Blocked ==>
      && c.waitOn.Some? && t in Q(k, c.waitOn.value) && NoDup(Q(k, c.waitOn.value))
      && match c.waitOn.value
         case RunQ(_) => false
         case JoinQ(u) => u in k.th
         case MutexQ(m) => m in k.mx
         case SemQ(s) => s in k.sm
         case EventQ(e) => e in k.ev
  {
    assert TcbOk(k, k.th[t]);
  }

  lemma ReleasedInSteps(k: Kernel, m: nat)
    requires Inv(k) && Enabled(k, MutexRelease(m))
    ensures m in k.mx
    ensures var n, w := Mx(k, m).count - 1, MutexQ(m);
      var k1 := Return(SetMx(k, m, MutexState(None, n)), NO_ERROR);
      && Step(k, MutexRelease(m)) == (if n >= 1 then WakeOneResched(k1, w, true, NO_ERROR) else k1)
      && (n >= 1 ==> MayWakeOne(k1, w, true, NO_ERROR))
  {
    hide Inv, Core, WakeOne, MidInv, Dispatch, Act, Reschedules;
    var k0 := SetMx(k, m, MutexState(None, Mx(k, m).count - 1));
    InvIsCore(k);
    StepKeepsInv(k, MutexRelease(m));
    ReleaseActs(k, m);
    CoreFrame(k, k0, {}, true);
    ReturnCore(k0, NO_ERROR);
  }

  lemma ReleaseActs(k: Kernel, m: nat)
    ensures var n, w := Mx(k, m).count - 1, MutexQ(m);
      var k1 := Return(SetMx(k, m, MutexState(None, n)), NO_ERROR);
      && Q(k1, w) == Q(k, w)
      && Act(k, MutexRelease(m)) == (if n >= 1 then WakeOne(k1, w, true, NO_ERROR) else k1)
      && (Reschedules(k, MutexRelease(m)) <==> n >= 1 && Q(k, w) != [])
  {
    hide WakeOne;
  }

  // a status known only after thread_resched

  /** `t` is told `status` by the last call it made. */
  function Returned(k: Kernel, t: Tid, status: int): Kernel {
    SetT(k, t, T(k, t).(ret := status))
  }

  lemma StatusIrrelevant(k: Kernel, t: Tid, status: int)
    requires MidInv(k) && t in k.th
    ensures MidInv(Returned(k, t, status))
  {
    var c := k.th[t].(ret := status);
    InvIsCore(k);
    StillFits(k, t, status);
    hide MidInv, Core, JoinsOk, Fits;
    PutT(k, t, c, {}, false, false);
    NeutralThread(k, Returned(k, t, status), t, c, RunQ(0));
    NeutralKeeps(k, Returned(k, t, status), RunQ(0));
    InvIsCore(Returned(k, t, status));
  }

  lemma StillFits(k: Kernel, t: Tid, status: int)
    requires Core(k, {}, false) && t in k.th
    ensures Fits(k, t, k.th[t].(ret := status), {}) && k.th[t].state != Running
  {
    assert TcbOk(k, k.th[t]);
  }

  lemma ToldTwice(k: Kernel, t: Tid, status: int)
    requires t in k.th
    ensures t in Returned(k, t, status).th && Returned(Returned(k, t, status), t, k.th[t].ret) == k
  {
  }

  /** Telling a thread its status commutes with all that does not concern the status: changes to another thread
      and to the same one, and to queues. */
  lemma ToldAfterSetT(k: Kernel, u: Tid, c: Tcb, t: Tid, status: int)
    requires t in k.th
    ensures SetT(Returned(k, t, status), u, if u == t then c.(ret := status) else c) ==
      Returned(SetT(k, u, c), t, status)
  {
    ToldInMap(k.th, u, c, t, status);
  }

  lemma ToldInMap(th: map<Tid, Tcb>, u: Tid, c: Tcb, t: Tid, status: int)
    requires t in th
    ensures th[t := th[t].(ret := status)][u := if u == t then c.(ret := status) else c] ==
      var th' := th[u := c]; th'[t := th'[t].(ret := status)]
  {
  }

  lemma ToldAfterSetQ(k: Kernel, w: QueueId, q: seq<Tid>, t: Tid, status: int)
    ensures SetQ(Returned(k, t, status), w, q) == Returned(SetQ(k, w, q), t, status)
    ensures Q(Returned(k, t, status), w) == Q(k, w)
  {
  }

  lemma ToldFields(k: Kernel, u: Tid, t: Tid, status: int)
    requires t in k.th
    ensures T(Returned(k, t, status), u) == if u == t then k.th[t].(ret := status) else T(k, u)
    ensures T(Returned(k, t, status), u).priority == T(k, u).priority
  {
  }

  lemma ToldAfterInsertHead(k: Kernel, u: Tid, t: Tid, status: int)
    requires t in k.th
    ensures InsertHead(Returned(k, t, status), u) == Returned(InsertHead(k, u), t, status)
  {
    hide T, Returned, Q, SetQ;
    ToldFields(k, u, t, status);
    var id := RunQ(T(k, u).priority);
    ToldAfterSetQ(k, id, [u] + Q(k, id), t, status);
  }

  lemma ToldAfterRequeue(k: Kernel, status: int)
    requires k.current in k.th
    ensures Requeue(Returned(k, k.current, status)) == Returned(Requeue(k), k.current, status)
  {
    hide SetT, Returned, InsertHead;
    ToldAfterSetT(k, k.current, Cur(k).(state := Ready), k.current, status);
    ReadyTold(k, status);
    ToldAfterInsertHead(SetT(k, k.current, Cur(k).(state := Ready)), k.current, k.current, status) by {
      InsertKeepsThreads(k, k.current, Cur(k).(state := Ready));
    }
  }

  lemma ReadyTold(k: Kernel, status: int)
    requires k.current in k.th
    ensures var r := Returned(k, k.current, status);
      Cur(r).(state := Ready) == Cur(k).(state := Ready).(ret := status) && r.current == k.current
  {
  }

  lemma InsertKeepsThreads(k: Kernel, t: Tid, c: Tcb)
    ensures t in SetT(k, t, c).th && SetT(k, t, c).current == k.current
  {
  }

  /** It makes no difference whether the caller is told before the wake-up ... */
  lemma ToldAfterWaking(k: Kernel, w: QueueId, resched: bool, status: int)
    requires Core(k, {}, true) && !w.RunQ?
    ensures WakeOne(Returned(k, k.current, status), w, resched, NO_ERROR) ==
      Returned(WakeOne(k, w, resched, NO_ERROR), k.current, status)
    ensures k.current in WakeOne(k, w, resched, NO_ERROR).th
    ensures Q(k, w) != [] ==> T(WakeOne(k, w, resched, NO_ERROR), k.current).cont == NoCont
  {
    hide Core, WakeOne, Returned, Q, SetQ, Requeue, InsertHead, SetT;
    CurrentHasNoCont(k);
    var t, r := k.current, Returned(k, k.current, status);
    ToldAfterSetQ(k, w, [], t, status);
    WakeOneInSteps(k, w, resched, NO_ERROR);
    WakeOneInSteps(r, w, resched, NO_ERROR);
    if Q(k, w) != [] {
      WakeOneEffect(k, w, resched, NO_ERROR);
      var u := Q(k, w)[0];
      var k1 := SetQ(k, w, Q(k, w)[1..]);
      var k2 := Popped(k, w, NO_ERROR);
      ToldAfterSetQ(k, w, Q(k, w)[1..], t, status);
      WokenTold(k1, u, t, status);
      if resched { ToldAfterRequeue(k2, status); }
      ToldAfterInsertHead(if resched then Requeue(k2) else k2, u, t, status);
    }
  }

  lemma WokenTold(k1: Kernel, u: Tid, t: Tid, status: int)
    requires t in k1.th && u != t
    ensures var k2 := SetT(k1, u, Woken(T(k1, u), NO_ERROR));
      && SetT(Returned(k1, t, status), u, Woken(T(Returned(k1, t, status), u), NO_ERROR)) == Returned(k2, t, status)
      && t in k2.th && k2.current == k1.current && Requeue(k2).th.Keys == k2.th.Keys + {k1.current}
  {
    hide Woken;
    ToldFields(k1, u, t, status);
    ToldAfterSetT(k1, u, Woken(T(k1, u), NO_ERROR), t, status);
  }

  /** ... and before or after thread_resched. */
  lemma ToldAfterResched(k: Kernel, t: Tid, status: int)
    requires t in k.th && k.th[t].cont == NoCont
    ensures Dispatch(Returned(k, t, status)) == Returned(Dispatch(k), t, status) && t in Dispatch(k).th
  {
    hide Continue, Resched, Returned;
    ToldAfterSwitch(k, t, status);
    ToldAfterContinuing(Resched(k), t, status);
  }

  lemma ToldAfterSwitch(k: Kernel, t: Tid, status: int)
    requires t in k.th && k.th[t].cont == NoCont
    ensures Resched(Returned(k, t, status)) == Returned(Resched(k), t, status)
    ensures t in Resched(k).th && Resched(k).th[t].cont == NoCont
  {
    hide NextThread, PopTop, Dispatched, Returned;
    var n := NextThread(k);
    ToldAfterPop(k, t, status);
    ToldAfterSetT(PopTop(k), n, Dispatched(k, n), t, status);
    DispatchedTold(k, n, t, status);
    ToldAfterMove(SetT(PopTop(k), n, Dispatched(k, n)), n, t, status);
  }

  lemma ToldAfterMove(k: Kernel, n: Tid, t: Tid, status: int)
    ensures Returned(k, t, status).(current := n) == Returned(k.(current := n), t, status)
  {
  }

  lemma DispatchedTold(k: Kernel, n: Tid, t: Tid, status: int)
    requires t in k.th
    ensures Dispatched(Returned(k, t, status), n) ==
      if n == t then Dispatched(k, n).(ret := status) else Dispatched(k, n)
    ensures Dispatched(k, n).cont == T(k, n).cont
  {
    ToldFields(k, n, t, status);
  }

  lemma ToldAfterPop(k: Kernel, t: Tid, status: int)
    ensures var r := Returned(k, t, status);
      NextThread(r) == NextThread(k) && PopTop(r) == Returned(PopTop(k), t, status) && PopTop(k).th == k.th
  {
    hide TopBelow;
  }

  lemma ToldAfterContinuing(k: Kernel, t: Tid, status: int)
    requires t in k.th && k.th[t].cont == NoCont
    ensures Continue(Returned(k, t, status)) == Returned(Continue(k), t, status) && t in Continue(k).th
  {
    hide ContinueThreads, ContinueList, ContinueMutexes, ContinueSems;
    ToldWhileContinuing(k, t, status);
    ToldElsewhere(k, t, status);
  }

  lemma ToldElsewhere(k: Kernel, t: Tid, status: int)
    requires t in k.th && k.th[t].cont == NoCont
    ensures var r := Returned(k, t, status);
      && ContinueList(r) == ContinueList(k) && ContinueMutexes(r) == ContinueMutexes(k)
      && ContinueSems(r) == ContinueSems(k)
  {
    hide Without;
  }

  lemma ToldWhileContinuing(k: Kernel, t: Tid, status: int)
    requires t in k.th && k.th[t].cont == NoCont
    ensures t in ContinueThreads(k)
    ensures ContinueThreads(Returned(k, t, status)) == ContinueThreads(k)[t := ContinueThreads(k)[t].(ret := status)]
  {
    hide Continued, T;
    var r, c := Returned(k, t, status), Continued(k, Cur(k));
    ThreadFields(k, k.current);
    ThreadFields(k, t);
    ToldFields(k, k.current, t, status);
    ContinuedTold(k, t, status);
    ToldInMap(k.th, k.current, c, t, status);
    if Cur(k).cont.JoinCont? {
      var u := Cur(k).cont.target;
      ToldFields(k, u, t, status);
      ToldInMap(k.th[k.current := c], u, T(k, u).(magic := false), t, status);
    }
  }

  lemma ThreadFields(k: Kernel, t: Tid)
    ensures t in k.th ==> T(k, t) == k.th[t]
  {
  }

  lemma ContinuedTold(k: Kernel, t: Tid, status: int)
    requires t in k.th && k.th[t].cont == NoCont
    ensures var r := Returned(k, t, status);
      Continued(r, Cur(r)) == if k.current == t then Continued(k, Cur(k)).(ret := status) else Continued(k, Cur(k))
  {
  }

  /** A post up to the point where the caller is told the number of threads woken. */
  function Posted(k: Kernel, s: nat, resched: bool): Kernel {
    var k1 := SetSm(k, s, Sm(k, s) + 1);
    if Sm(k, s) + 1 > 0 then k1 else WakeOneResched(k1, SemQ(s), resched, NO_ERROR)
  }

  lemma PostAllowed(k: Kernel, s: nat, resched: bool)
    requires Inv(k) && Enabled(k, SemPost(s, resched))
    ensures Sm(k, s) + 1 <= 0 ==> MayWakeOne(SetSm(k, s, Sm(k, s) + 1), SemQ(s), resched, NO_ERROR)
  {
    hide Inv, Core, Dispatch, WakeOne, MidInv, Q, Returned, Act, Reschedules;
    var k1, w := SetSm(k, s, Sm(k, s) + 1), SemQ(s);
    InvIsCore(k);
    AddingToken(k, s);
    CoreFrame(k, k1, {}, true);
    if Sm(k, s) < 0 && resched && Q(k, w) != [] {
      var k2 := WakeOne(k1, w, true, NO_ERROR);
      ToldAfterWaking(k1, w, true, 1);
      StepKeepsInv(k, SemPost(s, resched));
      PostActs(k, s, resched);
      ToldTwice(k2, k.current, 1);
      StatusIrrelevant(Returned(k2, k.current, 1), k.current, k2.th[k.current].ret);
    }
  }

  /** Up to thread_resched a post is the wake-up, its status told. */
  lemma PostActs(k: Kernel, s: nat, resched: bool)
    ensures var k1, w := SetSm(k, s, Sm(k, s) + 1), SemQ(s);
      && Reschedules(k, SemPost(s, resched)) == (resched && Sm(k, s) < 0 && Q(k, w) != [])
      && Act(k, SemPost(s, resched)) ==
        if Sm(k, s) + 1 > 0 then Returned(k1, k.current, 0)
        else WakeOne(Returned(k1, k.current, if Q(k, w) == [] then 0 else 1), w, resched, NO_ERROR)
  {
    hide WakeOne, Q;
  }

  lemma PostedInSteps(k: Kernel, s: nat, resched: bool)
    requires Inv(k) && Enabled(k, SemPost(s, resched))
    ensures k.current in Posted(k, s, resched).th
    ensures Step(k, SemPost(s, resched)) ==
      Returned(Posted(k, s, resched), k.current, if Sm(k, s) < 0 && Q(k, SemQ(s)) != [] then 1 else 0)
  {
    hide Inv, Core, Dispatch, WakeOne, MidInv, Q, Returned, Act, Reschedules;
    var k1, w, woken := SetSm(k, s, Sm(k, s) + 1), SemQ(s), if Q(k, SemQ(s)) != [] then 1 else 0;
    InvIsCore(k);
    CurrentHasNoCont(k);
    AddingToken(k, s);
    CoreFrame(k, k1, {}, true);
    PostActs(k, s, resched);
    ToldAfterWaking(k1, w, resched, woken);
    if Sm(k, s) < 0 && resched && Q(k, w) != [] {
      ToldAfterResched(WakeOne(k1, w, true, NO_ERROR), k.current, woken);
    }
  }

  lemma AddingToken(k: Kernel, s: nat)
    ensures var k1 := SetSm(k, s, Sm(k, s) + 1);
      && Q(k1, SemQ(s)) == Q(k, SemQ(s)) && k1.th == k.th && k1.current == k.current
      && s in k1.sm && k1.sm[s] == Sm(k, s) + 1
  {
  }

  // ----- signals -----

  /** A signal once the caller's status is noted. */
  function Raised(k: Kernel, e: nat, resched: bool): Kernel {
    var x, w := Ev(k, e), EventQ(e);
    if x.signaled then k
    else if x.auto then
      if Q(k, w) == [] then SetEv(k, e, x.(signaled := true)) else WakeOneResched(k, w, resched, NO_ERROR)
    else WakeAllResched(SetEv(k, e, x.(signaled := true)), w, resched, NO_ERROR)
  }

  ghost predicate MayRaise(k: Kernel, e: nat, resched: bool) {
    var x, w := Ev(k, e), EventQ(e);
    && e in k.ev
    && (!x.signaled && x.auto ==> MayWakeOne(k, w, resched, NO_ERROR))
    && (!x.signaled && !x.auto ==> MayWakeAll(SetEv(k, e, x.(signaled := true)), w, resched, NO_ERROR))
  }

  lemma RaisedInSteps(k: Kernel, e: nat, resched: bool)
    ensures Step(k, EventSignal(e, resched)) == Raised(Return(k, NO_ERROR), e, resched)
  {
    hide WakeOne, WakeAll, Dispatch, Act, Reschedules, Q;
    RaiseActs(k, e, resched);
  }

  /** Up to thread_resched a signal wakes one waiter or all of them. */
  lemma RaiseActs(k: Kernel, e: nat, resched: bool)
    ensures var k1, x, w := Return(k, NO_ERROR), Ev(k, e), EventQ(e);
      var k2, some := SetEv(k1, e, x.(signaled := true)), Q(k, w) != [];
      && (Reschedules(k, EventSignal(e, resched)) <==> resched && !x.signaled && some)
      && Act(k, EventSignal(e, resched)) ==
        (if x.signaled then k1
         else if x.auto then if some then WakeOne(k1, w, resched, NO_ERROR) else k2
         else WakeAll(k2, w, resched, NO_ERROR))
      && Q(k1, w) == Q(k, w) == Q(k2, w) && Ev(k1, e) == x
  {
    hide WakeOne, WakeAll;
  }

  lemma RaiseAllowed(k: Kernel, e: nat, resched: bool)
    requires Inv(k) && Enabled(k, EventSignal(e, resched))
    ensures MayRaise(Return(k, NO_ERROR), e, resched)
  {
    hide Inv, Core, WakeOne, WakeAll, MidInv, Act, Reschedules, Q;
    var k1 := Return(k, NO_ERROR);
    var k2 := SetEv(k1, e, Ev(k, e).(signaled := true));
    InvIsCore(k);
    StepKeepsInv(k, EventSignal(e, resched));
    RaiseActs(k, e, resched);
    ReturnCore(k, NO_ERROR);
    CoreFrame(k1, k2, {}, true);
    WaitersLive(k2, EventQ(e));
  }

  lemma WaitersLive(k: Kernel, w: QueueId)
    requires Core(k, {}, true)
    ensures k.current in k.th && forall t | t in Q(k, w) :: t in k.th
  {
  }
}
