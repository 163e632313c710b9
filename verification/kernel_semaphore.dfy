/** Semaphores: tokens are neither lost nor made, judging by the posts made and by the statuses waits
    return, with timeouts of every kind; and exactly when somebody waits beside a free token. */
module KernelSemaphore {
  import opened KernelState
  import opened KernelSteps
  import opened KernelInvariant
  import opened KernelJoins
  import opened KernelFrames
  import opened KernelWaits

  // ----- the semaphore on its own -----

  /** The count of a semaphore and its wait queue. */
  datatype SemView = SemView(count: int, wait: WaitView)

  function Semaphore(k: Kernel, s: nat): SemView
    requires s in k.sm
  {
    SemView(k.sm[s], View(k, SemQ(s)))
  }

  /** The free tokens: the count has one less for every waiter and for every thread whose wait timed out
      and that has not yet given its place back. */
  function Tokens(v: SemView): int {
    v.count + |v.wait.queue| + |v.wait.stale|
  }

  /** What a call made by thread `t` does to the semaphore, up to thread_resched. */
  function Called(v: SemView, s: nat, t: Tid, op: Op): SemView {
    var w := v.wait;
    match op
    case SemWait(s') => if s' != s then v else Taken(v, t, false)
    case SemTimedWait(s', timeout) => if s' != s then v else Taken(v, t, timeout == Poll)
    case SemTryWait(s') => if s' != s || v.count <= 0 then v else v.(count := v.count - 1)
    case SemPost(s', _) =>
      if s' != s then v
      else if v.count + 1 <= 0 && w.queue != [] then
        SemView(v.count + 1, w.(queue := w.queue[1..], handed := w.handed + {w.queue[0]}))
      else v.(count := v.count + 1)
    case Expire(u) =>
      if u in w.queue then v.(wait := w.(queue := Without(w.queue, u), stale := w.stale + {u})) else v
    case _ => v
  }

  function Taken(v: SemView, t: Tid, poll: bool): SemView {
    if v.count - 1 >= 0 then v.(count := v.count - 1)
    else if poll then v
    else SemView(v.count - 1, v.wait.(queue := v.wait.queue + [t]))
  }

  /** What thread `n` does to it when it comes back from thread_resched. */
  function Back(v: SemView, n: Tid): SemView {
    var w := v.wait;
    SemView(if n in w.stale then v.count + 1 else v.count, w.(stale := w.stale - {n}, handed := w.handed - {n}))
  }

  function After(k: Kernel, s: nat, op: Op): SemView
    requires s in k.sm
  {
    var v := Called(Semaphore(k, s), s, k.current, op);
    if Reschedules(k, op) then Back(v, NextThread(Act(k, op))) else v
  }

  /** Nobody is counted twice, and there is no debt of tokens. */
  predicate Sound(v: SemView) {
    && NoDup(v.wait.queue)
    && (forall t | t in v.wait.queue :: t !in v.wait.stale + v.wait.handed)
    && v.wait.stale !! v.wait.handed
    && Tokens(v) >= 0
  }

  predicate Outside(v: SemView, t: Tid) {
    t !in v.wait.queue && t !in v.wait.stale + v.wait.handed
  }

  /** The call waits for the semaphore. */
  predicate WaitsOn(op: Op, s: nat) {
    op == SemWait(s) || op == SemTryWait(s) || (op.SemTimedWait? && op.sem == s)
  }

  predicate Posts(op: Op, s: nat) {
    op.SemPost? && op.sem == s
  }

  // ----- on the semaphore alone -----

  /** The call takes a token at once. */
  predicate TakesAtOnce(v: SemView, s: nat, op: Op) {
    WaitsOn(op, s) && v.count > 0
  }

  lemma CalledConserves(v: SemView, s: nat, t: Tid, op: Op)
    requires Sound(v) && Outside(v, t)
    ensures var v' := Called(v, s, t, op);
      && Sound(v')
      && Tokens(v') + |v'.wait.handed| + (if TakesAtOnce(v, s, op) then 1 else 0)
        == Tokens(v) + |v.wait.handed| + (if Posts(op, s) then 1 else 0)
  {
    hide Sound, Taken, Tokens, Without;
    match op
    case SemWait(_) => TakenConserves(v, t, false);
    case SemTimedWait(_, timeout) => TakenConserves(v, t, timeout == Poll);
    case SemTryWait(_) => if v.count > 0 { CountConserves(v, v.count - 1); }
    case SemPost(_, resched) => if op.sem == s { PostConserves(v, s, t, resched); }
    case Expire(u) => if u in v.wait.queue { ExpiryConserves(v, u); }
    case _ =>
  }

  lemma PostConserves(v: SemView, s: nat, t: Tid, resched: bool)
    requires Sound(v)
    ensures var v' := Called(v, s, t, SemPost(s, resched));
      Sound(v') && Tokens(v') + |v'.wait.handed| == Tokens(v) + |v.wait.handed| + 1
  {
    hide Sound, Tokens;
    if v.count + 1 <= 0 && v.wait.queue != [] { HandingConserves(v); } else { CountConserves(v, v.count + 1); }
  }

  lemma CountConserves(v: SemView, n: int)
    requires Sound(v) && v.count - 1 <= n && (n < v.count ==> v.count > 0)
    ensures var v' := v.(count := n); Sound(v') && Tokens(v') == Tokens(v) + n - v.count
  {
  }

  lemma TakenConserves(v: SemView, t: Tid, poll: bool)
    requires Sound(v) && Outside(v, t)
    ensures var v' := Taken(v, t, poll);
      && Sound(v') && v'.wait.handed == v.wait.handed
      && Tokens(v') == Tokens(v) - (if v.count > 0 then 1 else 0)
  {
  }

  lemma HandingConserves(v: SemView)
    requires Sound(v) && v.wait.queue != []
    ensures var q, h := v.wait.queue, v.wait.handed;
      var v' := SemView(v.count + 1, v.wait.(queue := q[1..], handed := h + {q[0]}));
      Sound(v') && Tokens(v') == Tokens(v) && |h + {q[0]}| == |h| + 1
  {
    assert v.wait.queue[0] in v.wait.queue;
  }

  lemma ExpiryConserves(v: SemView, u: Tid)
    requires Sound(v) && u in v.wait.queue
    ensures var w := v.wait;
      var v' := v.(wait := w.(queue := Without(w.queue, u), stale := w.stale + {u}));
      Sound(v') && Tokens(v') == Tokens(v)
  {
    WithoutMembers(v.wait.queue, u);
    hide Without;
  }

  lemma BackConserves(v: SemView, n: Tid)
    requires Sound(v)
    ensures var v' := Back(v, n);
      && Sound(v') && Tokens(v') == Tokens(v)
      && |v'.wait.handed| + (if n in v.wait.handed then 1 else 0) == |v.wait.handed|
  {
    Less(v.wait.stale, n);
    Less(v.wait.handed, n);
  }

  lemma Less(x: set<Tid>, n: Tid)
    ensures |x - {n}| == |x| - (if n in x then 1 else 0)
  {
    if n !in x { assert x - {n} == x; }
  }

  // ----- the kernel's semaphore -----

  predicate SemOk(k: Kernel, s: nat) {
    s in k.sm && Fine(k, SemQ(s), true) && Sound(Semaphore(k, s))
  }

  lemma CurrentOutside(k: Kernel, s: nat)
    requires Core(k, {}, true) && s in k.sm
    ensures Outside(Semaphore(k, s), k.current)
  {
    hide Core;
    CurrentHasNoCont(k);
    if k.current in Q(k, SemQ(s)) { WaiterNotBack(k, SemQ(s), k.current); }
  }

  /** The count and the caller's status change; nobody comes or goes. */
  lemma CountShows(k: Kernel, s: nat, n: int, status: int)
    requires k.current in k.th && k.th[k.current].cont == NoCont && s in k.sm
    ensures var k' := Return(SetSm(k, s, n), status);
      s in k'.sm && Semaphore(k', s) == SemView(n, View(k, SemQ(s))) && StaysFine(k, k', SemQ(s), false)
  {
    hide Q, View, StaysFine, Return, SetSm;
    var k', w := Return(SetSm(k, s, n), status), SemQ(s);
    CountChanges(k, s, n, status);
    QuietView(k, k', k.current, k'.th[k.current], w);
  }

  lemma CountChanges(k: Kernel, s: nat, n: int, status: int)
    requires k.current in k.th
    ensures var k' := Return(SetSm(k, s, n), status);
      && k'.th == k.th[k.current := k.th[k.current].(ret := status)] && k'.sm == k.sm[s := n]
      && Q(k', SemQ(s)) == Q(k, SemQ(s))
  {
  }

  lemma WaitShows(k: Kernel, s: nat, timeout: Timeout, timed: bool)
    requires Core(k, {}, true) && s in k.sm && (timeout == Finite ==> timed)
    ensures var k' := SemTimedWaitAct(k, s, timeout, timed);
      && s in k'.sm && Semaphore(k', s) == Taken(Semaphore(k, s), k.current, timeout == Poll)
      && StaysFine(k, k', SemQ(s), timeout == Finite)
  {
    hide Core, View, StaysFine, Q, Return, Enqueue, SetSm, SemTimedWaitAct;
    CurrentHasNoCont(k);
    SemWaitInSteps(k, s, timeout, timed);
    var n := k.sm[s];
    if n - 1 >= 0 {
      CountShows(k, s, n - 1, NO_ERROR);
      StaysTwice(k, Return(SetSm(k, s, n - 1), NO_ERROR), Return(SetSm(k, s, n - 1), NO_ERROR), SemQ(s), false,
        timeout == Finite)
        by { StaysItself(Return(SetSm(k, s, n - 1), NO_ERROR), SemQ(s), timeout == Finite); }
    } else if timeout == Poll {
      CountShows(k, s, n, ERR_TIMED_OUT);
    } else {
      QueueShows(k, s, timeout, timed);
    }
  }

  lemma QueueShows(k: Kernel, s: nat, timeout: Timeout, timed: bool)
    requires k.current in k.th && k.th[k.current].cont == NoCont && s in k.sm && (timeout == Finite ==> timed)
    ensures var v, k' := View(k, SemQ(s)), Enqueue(SetSm(k, s, k.sm[s] - 1), timeout, SemCont(s, timed));
      && s in k'.sm && Semaphore(k', s) == SemView(k.sm[s] - 1, v.(queue := v.queue + [k.current]))
      && StaysFine(k, k', SemQ(s), timeout == Finite)
  {
    var k1, w := SetSm(k, s, k.sm[s] - 1), SemQ(s);
    assert Q(k1, w) == Q(k, w);
    SameView(k, k1, w);
    hide View, StaysFine, Q, Enqueue;
    EnqueueView(k1, timeout, SemCont(s, timed));
    StaysTwice(k, k1, Enqueue(k1, timeout, SemCont(s, timed)), w, false, timeout == Finite);
  }

  lemma TryWaitShows(k: Kernel, s: nat)
    requires Core(k, {}, true) && s in k.sm
    ensures var k' := SemTryWaitAct(k, s);
      && s in k'.sm && Semaphore(k', s) == Called(Semaphore(k, s), s, k.current, SemTryWait(s))
      && StaysFine(k, k', SemQ(s), false)
  {
    hide Core, View, StaysFine, Q, Return;
    CurrentHasNoCont(k);
    assert SetSm(k, s, k.sm[s]) == k;
    CountShows(k, s, k.sm[s], ERR_NOT_READY);
    CountShows(k, s, k.sm[s] - 1, NO_ERROR);
  }

  /** A post: the first waiter is handed the token, or the count goes up. */
  lemma PostShows(k: Kernel, s: nat, resched: bool)
    requires Core(k, {}, true) && s in k.sm
    ensures var k' := SemPostAct(k, s, resched);
      && s in k'.sm && Semaphore(k', s) == Called(Semaphore(k, s), s, k.current, SemPost(s, resched))
      && StaysFine(k, k', SemQ(s), false)
  {
    hide Core, WakeOne, View, StaysFine, Q, Return;
    var w, n := SemQ(s), k.sm[s] + 1;
    var status := if n > 0 || Q(k, w) == [] then 0 else 1;
    var k2 := Return(SetSm(k, s, n), status);
    CurrentHasNoCont(k);
    CountShows(k, s, n, status);
    CoreFrame(k, SetSm(k, s, n), {}, true);
    ReturnCore(SetSm(k, s, n), status);
    ViewQueue(k2, w);
    ViewQueue(k, w);
    if n <= 0 {
      if Q(k2, w) != [] {
        WakeOneView(k2, w, resched);
        StaysTwice(k, k2, WakeOne(k2, w, resched, NO_ERROR), w, false, false);
      } else {
        WakesNobody(k2, w, resched, NO_ERROR);
      }
    }
  }

  predicate Timed(op: Op, s: nat) {
    op == SemTimedWait(s, Finite)
  }

  lemma OwnCall(k: Kernel, s: nat, op: Op)
    requires s in k.sm && (WaitsOn(op, s) || Posts(op, s))
    ensures var v, v' := Semaphore(k, s), Called(Semaphore(k, s), s, k.current, op);
      match op
      case SemWait(_) => Act(k, op) == SemTimedWaitAct(k, s, Infinite, false) && v' == Taken(v, k.current, false)
      case SemTimedWait(_, timeout) =>
        Act(k, op) == SemTimedWaitAct(k, s, timeout, true) && v' == Taken(v, k.current, timeout == Poll)
      case SemTryWait(_) => Act(k, op) == SemTryWaitAct(k, s)
      case SemPost(_, resched) => Act(k, op) == SemPostAct(k, s, resched)
      case _ => true
  {
    hide Semaphore, Taken, SemTimedWaitAct, SemTryWaitAct, SemPostAct;
  }

  lemma OwnCallShows(k: Kernel, s: nat, op: Op)
    requires Core(k, {}, true) && s in k.sm && (WaitsOn(op, s) || Posts(op, s))
    ensures var k' := Act(k, op);
      && s in k'.sm && Semaphore(k', s) == Called(Semaphore(k, s), s, k.current, op)
      && StaysFine(k, k', SemQ(s), Timed(op, s))
  {
    hide Core, Semaphore, StaysFine, Called, Act, Taken;
    OwnCall(k, s, op);
    match op
    case SemWait(_) => WaitShows(k, s, Infinite, false);
    case SemTimedWait(_, timeout) => WaitShows(k, s, timeout, true);
    case SemTryWait(_) => TryWaitShows(k, s);
    case SemPost(_, resched) => PostShows(k, s, resched);
  }

  lemma ActShows(k: Kernel, s: nat, op: Op)
    requires Inv(k) && Enabled(k, op) && s in k.sm && Fine(k, SemQ(s), true)
    ensures var k' := Act(k, op);
      && s in k'.sm && Semaphore(k', s) == Called(Semaphore(k, s), s, k.current, op)
      && StaysFine(k, k', SemQ(s), Timed(op, s))
  {
    InvIsCore(k);
    hide Inv, Core, View, Fine, StaysFine, Aside, Act;
    if WaitsOn(op, s) || Posts(op, s) {
      OwnCallShows(k, s, op);
    } else if op.Expire? {
      ExpireView(k, op.thread, SemQ(s));
      ExpireKeepsSems(k, op);
      ViewQueue(k, SemQ(s));
    } else {
      NotTarget(k, s, op);
      ActObjects(k, op);
      OtherView(k, op, SemQ(s));
    }
  }

  lemma ExpireKeepsSems(k: Kernel, op: Op)
    requires op.Expire?
    ensures Act(k, op) == ExpireAct(k, op.thread) && ExpireAct(k, op.thread).sm == k.sm
  {
    ExpireObjects(k, op.thread);
    hide ExpireAct;
  }

  lemma NotTarget(k: Kernel, s: nat, op: Op)
    requires Core(k, {}, true) && Enabled(k, op) && s in k.sm && !op.Expire? && !WaitsOn(op, s) && !Posts(op, s)
    ensures Target(k, op) != SemQ(s) && Called(Semaphore(k, s), s, k.current, op) == Semaphore(k, s)
  {
    hide Core;
  }

  lemma DispatchShows(k1: Kernel, s: nat)
    requires MidInv(k1) && s in k1.sm && Fine(k1, SemQ(s), true)
    ensures var k' := Dispatch(k1);
      s in k'.sm && Semaphore(k', s) == Back(Semaphore(k1, s), NextThread(k1)) && StaysFine(k1, k', SemQ(s), false)
  {
    ChosenWaited(k1, SemQ(s));
    ChosenGivesBack(k1, s);
    hide MidInv, Dispatch, NextThread, Q, View, StaysFine;
    DispatchView(k1, SemQ(s));
  }

  lemma ChosenGivesBack(k1: Kernel, s: nat)
    requires MidInv(k1) && s in k1.sm && Fine(k1, SemQ(s), true)
    ensures var n, k' := NextThread(k1), Dispatch(k1);
      s in k'.sm && k'.sm[s] == k1.sm[s] + (if n in View(k1, SemQ(s)).stale then 1 else 0)
  {
    hide Dispatch, NextThread, Q;
    ChosenWaited(k1, SemQ(s));
    DispatchObjects(k1);
    DispatchAside(k1, SemQ(s));
    hide MidInv;
    if Concerns(k1.th[NextThread(k1)], SemQ(s)) { assert FineThread(k1.th[NextThread(k1)]); }
  }

  /** Every call does to a semaphore just what `After` says. */
  lemma StepShows(k: Kernel, s: nat, op: Op)
    requires Inv(k) && Enabled(k, op) && s in k.sm && Fine(k, SemQ(s), true)
    ensures var k' := Step(k, op);
      s in k'.sm && Semaphore(k', s) == After(k, s, op) && StaysFine(k, k', SemQ(s), Timed(op, s))
  {
    hide Inv, Act, Called, View, Fine, StaysFine, Enabled, Reschedules, Dispatch, MidInv;
    StepKeepsInv(k, op);
    ActShows(k, s, op);
    StillFine(k, Act(k, op), SemQ(s), Timed(op, s));
    if Reschedules(k, op) {
      DispatchShows(Act(k, op), s);
      StaysTwice(k, Act(k, op), Step(k, op), SemQ(s), Timed(op, s), false);
    }
  }

  // ----- conservation -----

  /** The waits for `s` that return NO_ERROR in this step: the caller's own at once, or that of the thread
      that comes back from waiting. */
  function GrantedAt(k: Kernel, s: nat, op: Op): nat {
    var n := NextThread(Act(k, op));
    (if WaitsOn(op, s) && !Reschedules(k, op) && T(Step(k, op), k.current).ret == NO_ERROR then 1 else 0)
    + (if Reschedules(k, op) && Concerns(T(Act(k, op), n), SemQ(s)) && T(Step(k, op), n).ret == NO_ERROR then 1 else 0)
  }

  function PostedAt(s: nat, op: Op): nat {
    if Posts(op, s) then 1 else 0
  }

  function Granted(k: Kernel, s: nat, ops: seq<Op>): nat
    decreases |ops|
  {
    if ops == [] then 0 else GrantedAt(k, s, ops[0]) + Granted(Step(k, ops[0]), s, ops[1..])
  }

  function Posted(s: nat, ops: seq<Op>): nat {
    if ops == [] then 0 else PostedAt(s, ops[0]) + Posted(s, ops[1..])
  }

  /** Tokens free or handed to a thread that has not run since. */
  function Held(k: Kernel, s: nat): int
    requires s in k.sm
  {
    Tokens(Semaphore(k, s)) + |Semaphore(k, s).wait.handed|
  }

  /** Which waits return at once, and how. */
  lemma OwnStatus(k: Kernel, s: nat, op: Op)
    requires Inv(k) && Enabled(k, op) && s in k.sm && WaitsOn(op, s)
    ensures !Reschedules(k, op) ==> (T(Step(k, op), k.current).ret == NO_ERROR <==> k.sm[s] > 0)
    ensures Reschedules(k, op) ==> k.sm[s] <= 0
  {
    hide Core, Inv, Enabled, Dispatch, SemTimedWaitAct, SemTryWaitAct;
    InvIsCore(k);
    CurrentHasNoCont(k);
    match op
    case SemWait(_) => WaitStatus(k, s, Infinite, false);
    case SemTimedWait(_, timeout) => WaitStatus(k, s, timeout, true);
    case SemTryWait(_) => TryWaitStatus(k, s);
  }

  lemma WaitStatus(k: Kernel, s: nat, timeout: Timeout, timed: bool)
    requires k.current in k.th && s in k.sm
    ensures var k' := SemTimedWaitAct(k, s, timeout, timed);
      && (k.sm[s] > 0 ==> T(k', k.current).ret == NO_ERROR)
      && (k.sm[s] <= 0 && timeout == Poll ==> T(k', k.current).ret == ERR_TIMED_OUT)
  {
    hide Enqueue;
  }

  lemma TryWaitStatus(k: Kernel, s: nat)
    requires k.current in k.th && s in k.sm
    ensures T(SemTryWaitAct(k, s), k.current).ret == if k.sm[s] > 0 then NO_ERROR else ERR_NOT_READY
  {
  }

  /** Tokens are neither lost nor made in a step, judging by the posts and by the statuses returned. */
  lemma StepConserves(k: Kernel, s: nat, op: Op)
    requires Inv(k) && Enabled(k, op) && SemOk(k, s)
    ensures SemOk(Step(k, op), s)
    ensures Held(Step(k, op), s) + GrantedAt(k, s, op) == Held(k, s) + PostedAt(s, op)
  {
    hide Inv, Core, MidInv, Act, Step, Fine, View, Called, Back, Reschedules, Enabled, NextThread, GrantedAt, Sound,
      Tokens, Semaphore, StaysFine;
    StepShows(k, s, op);
    StillFine(k, Step(k, op), SemQ(s), Timed(op, s));
    InvIsCore(k);
    CurrentOutside(k, s);
    GrantedIs(k, s, op);
    var v1 := Called(Semaphore(k, s), s, k.current, op);
    CalledConserves(Semaphore(k, s), s, k.current, op);
    BackConserves(v1, NextThread(Act(k, op)));
  }

  lemma GrantedIs(k: Kernel, s: nat, op: Op)
    requires Inv(k) && Enabled(k, op) && s in k.sm && Fine(k, SemQ(s), true)
    ensures var v := Semaphore(k, s);
      GrantedAt(k, s, op) ==
        if Reschedules(k, op) then (if NextThread(Act(k, op)) in Called(v, s, k.current, op).wait.handed then 1 else 0)
        else if TakesAtOnce(v, s, op) then 1 else 0
    ensures Reschedules(k, op) ==> !TakesAtOnce(Semaphore(k, s), s, op)
  {
    hide Inv, Act, Step, Fine, View, Called, Reschedules, Enabled, NextThread, Concerns;
    if WaitsOn(op, s) { OwnStatus(k, s, op); }
    if Reschedules(k, op) { ComesBack(k, s, op); }
  }

  /** The thread that comes back returns NO_ERROR from a wait for `s` exactly if it was handed a token. */
  lemma ComesBack(k: Kernel, s: nat, op: Op)
    requires Inv(k) && Enabled(k, op) && s in k.sm && Fine(k, SemQ(s), true) && Reschedules(k, op)
    ensures var n := NextThread(Act(k, op));
      n in Called(Semaphore(k, s), s, k.current, op).wait.handed <==>
        (Concerns(T(Act(k, op), n), SemQ(s)) && T(Step(k, op), n).ret == NO_ERROR)
  {
    hide Inv, Enabled, Reschedules, Act, Called, View, Fine, StaysFine, MidInv, Dispatch, NextThread;
    StepKeepsInv(k, op);
    ActShows(k, s, op);
    StillFine(k, Act(k, op), SemQ(s), Timed(op, s));
    ChosenWaited(Act(k, op), SemQ(s));
    ChosenStatus(Act(k, op));
  }

  /** Over every run, with timeouts of every kind: the tokens at the start plus the posts are the tokens
      held at the end plus the waits that returned NO_ERROR. */
  lemma {:induction false} RunConserves(k: Kernel, s: nat, ops: seq<Op>)
    requires Inv(k) && Runs(k, ops) && SemOk(k, s)
    ensures SemOk(Run(k, ops), s)
    ensures Held(Run(k, ops), s) + Granted(k, s, ops) == Held(k, s) + Posted(s, ops)
    decreases |ops|
  {
    hide Inv, Enabled, SemOk, Held, GrantedAt, PostedAt;
    if ops != [] {
      StepKeepsInv(k, ops[0]);
      StepConserves(k, s, ops[0]);
      RunConserves(Step(k, ops[0]), s, ops[1..]);
    } else {
      assert s in k.sm by { OkExists(k, s); }
    }
  }

  lemma OkExists(k: Kernel, s: nat)
    requires SemOk(k, s)
    ensures s in k.sm
  {
  }

  /** A new semaphore has its initial value of tokens and nobody waiting. */
  lemma InitConserves(k: Kernel, s: nat, n: nat)
    requires Inv(k) && Enabled(k, SemInit(s, n))
    ensures var k' := Step(k, SemInit(s, n));
      SemOk(k', s) && Semaphore(k', s) == SemView(n, WaitView([], {}, {})) && Fine(k', SemQ(s), false)
  {
    hide Inv, Core, View, Fine, StaysFine, SetSm;
    InvIsCore(k);
    FreshView(k, SemQ(s));
    InitView(k, s, n);
    FineWithTimers(SetSm(k, s, n), SemQ(s));
    assert StaysFine(k, SetSm(k, s, n), SemQ(s), false) && Fine(k, SemQ(s), false);
    StaysUntimed(k, SetSm(k, s, n), SemQ(s));
  }

  lemma InitView(k: Kernel, s: nat, n: nat)
    ensures var k' := SetSm(k, s, n);
      && Step(k, SemInit(s, n)) == k' && k'.sm == k.sm[s := n]
      && View(k', SemQ(s)) == View(k, SemQ(s)) && StaysFine(k, k', SemQ(s), false)
  {
    assert Q(SetSm(k, s, n), SemQ(s)) == Q(k, SemQ(s));
    hide Q, View, StaysFine, Dispatch;
    SameView(k, SetSm(k, s, n), SemQ(s));
  }

  /** From its creation on: initial tokens plus posts are successful waits, tokens on their way to a woken
      thread and free tokens, of which there are never fewer than none. */
  lemma TokensConserved(k: Kernel, s: nat, n: nat, ops: seq<Op>)
    requires Inv(k) && Enabled(k, SemInit(s, n)) && Runs(Step(k, SemInit(s, n)), ops)
    ensures var k1, k' := Step(k, SemInit(s, n)), Run(Step(k, SemInit(s, n)), ops);
      && s in k'.sm
      && var v := Semaphore(k', s);
        n + Posted(s, ops) == Granted(k1, s, ops) + |v.wait.handed| + Tokens(v) && Tokens(v) >= 0
  {
    InitConserves(k, s, n);
    StepKeepsInv(k, SemInit(s, n));
    hide Inv, Enabled, Step, Run, Runs, Granted, Posted, View;
    RunConserves(Step(k, SemInit(s, n)), s, ops);
  }

  // ----- waiting beside a free token -----

  /** Somebody waits although a token is free. */
  predicate Stranded(v: SemView) {
    v.wait.queue != [] && Tokens(v) > 0
  }

  /** The call queues its caller while the free tokens, though some, do not exceed the threads whose wait
      timed out and that have not run since. */
  predicate Strands(v: SemView, s: nat, op: Op) {
    && (op == SemWait(s) || (op.SemTimedWait? && op.sem == s && op.timeout != Poll))
    && v.count <= 0 && v.wait.queue == [] && v.count + |v.wait.stale| > 0
  }

  lemma CalledStrands(v: SemView, s: nat, t: Tid, op: Op)
    requires Sound(v) && !Stranded(v) && Outside(v, t)
    ensures Stranded(Called(v, s, t, op)) <==> Strands(v, s, op)
  {
    CalledConserves(v, s, t, op);
    if op.Expire? { WithoutMembers(v.wait.queue, op.thread); }
  }

  lemma BackStrands(v: SemView, n: Tid)
    requires Sound(v)
    ensures Stranded(Back(v, n)) <==> Stranded(v)
  {
    BackConserves(v, n);
  }

  /** With timeouts of every kind: a call leaves somebody waiting beside a free token, where nobody was,
      exactly if it queues its caller behind timed-out threads that hold the count down. */
  lemma StrandedExactlyIf(k: Kernel, s: nat, op: Op)
    requires Inv(k) && Enabled(k, op) && SemOk(k, s) && !Stranded(Semaphore(k, s))
    ensures s in Step(k, op).sm
    ensures Stranded(Semaphore(Step(k, op), s)) <==> Strands(Semaphore(k, s), s, op)
  {
    hide Inv, Core, Act, Step, Fine, View, Called, Back, Reschedules, Enabled, NextThread, Stranded, Strands;
    hide Sound, StaysFine, Outside;
    StepShows(k, s, op);
    InvIsCore(k);
    CurrentOutside(k, s);
    var v1 := Called(Semaphore(k, s), s, k.current, op);
    CalledStrands(Semaphore(k, s), s, k.current, op);
    CalledConserves(Semaphore(k, s), s, k.current, op);
    BackStrands(v1, NextThread(Act(k, op)));
  }

  predicate NeverStrands(k: Kernel, s: nat, ops: seq<Op>)
    decreases |ops|
  {
    ops == [] || (s in k.sm && !Strands(Semaphore(k, s), s, ops[0]) && NeverStrands(Step(k, ops[0]), s, ops[1..]))
  }

  /** Over a run with timeouts of every kind in which no call does that, nobody ever waits beside a free
      token; if somebody waits, the count is minus the waiters and the timed-out threads yet to run. */
  lemma {:induction false} RunStaysPrompt(k: Kernel, s: nat, ops: seq<Op>)
    requires Inv(k) && Runs(k, ops) && SemOk(k, s) && !Stranded(Semaphore(k, s)) && NeverStrands(k, s, ops)
    ensures SemOk(Run(k, ops), s)
    ensures var v := Semaphore(Run(k, ops), s);
      && !Stranded(v)
      && (v.wait.queue != [] ==> v.count == -(|v.wait.queue| + |v.wait.stale|))
    decreases |ops|
  {
    if ops == [] {
      PromptCount(Semaphore(k, s));
    } else {
      assert s in k.sm;
      hide Inv, Enabled, SemOk, Semaphore, Stranded, Strands;
      StepKeepsInv(k, ops[0]);
      StepConserves(k, s, ops[0]);
      StrandedExactlyIf(k, s, ops[0]);
      RunStaysPrompt(Step(k, ops[0]), s, ops[1..]);
    }
  }

  lemma PromptCount(v: SemView)
    requires Sound(v) && !Stranded(v)
    ensures v.wait.queue != [] ==> v.count == -(|v.wait.queue| + |v.wait.stale|)
  {
  }

  /** Without finite timeouts nobody ever waits beside a free token: a count that is not negative means no
      waiter, and a negative one counts the waiters. */
  lemma {:induction false} UntimedRunStaysPrompt(k: Kernel, s: nat, ops: seq<Op>)
    requires Inv(k) && Runs(k, ops) && SemOk(k, s) && !Stranded(Semaphore(k, s))
    requires Fine(k, SemQ(s), false) && Semaphore(k, s).wait.stale == {} && SemTimedWait(s, Finite) !in ops
    ensures NeverStrands(k, s, ops) && SemOk(Run(k, ops), s)
    ensures var v := Semaphore(Run(k, ops), s);
      !Stranded(v) && |v.wait.queue| == (if v.count < 0 then -v.count else 0)
    decreases |ops|
  {
    assert s in k.sm;
    if ops == [] {
      hide Inv, Fine;
    } else {
      hide Inv, SemOk, Enabled, Stranded, Fine;
      var op := ops[0];
      assert op != SemTimedWait(s, Finite);
      StepKeepsInv(k, op);
      StepConserves(k, s, op);
      StrandedExactlyIf(k, s, op);
      NobodyTimesOut(k, s, op);
      NoStranding(Semaphore(k, s), s, op);
      hide Semaphore, Strands;
      UntimedRunStaysPrompt(Step(k, op), s, ops[1..]);
    }
  }

  lemma NoStranding(v: SemView, s: nat, op: Op)
    requires v.wait.stale == {}
    ensures !Strands(v, s, op)
  {
  }

  lemma NobodyTimesOut(k: Kernel, s: nat, op: Op)
    requires Inv(k) && Enabled(k, op) && SemOk(k, s) && Fine(k, SemQ(s), false) && Semaphore(k, s).wait.stale == {}
    requires op != SemTimedWait(s, Finite)
    ensures s in Step(k, op).sm && Fine(Step(k, op), SemQ(s), false) && Semaphore(Step(k, op), s).wait.stale == {}
  {
    hide Inv, Core, Act, Enabled, Sound, Fine, StaysFine, View, Called, Back, Step, Reschedules, NextThread;
    InvIsCore(k);
    StepShows(k, s, op);
    StaysUntimed(k, Step(k, op), SemQ(s));
    if op.Expire? { NobodyToExpire(k, op.thread, SemQ(s)); }
    UntimedView(Semaphore(k, s), s, k.current, op, NextThread(Act(k, op)));
  }

  lemma UntimedView(v: SemView, s: nat, t: Tid, op: Op, n: Tid)
    requires v.wait.stale == {} && (op.Expire? ==> op.thread !in v.wait.queue)
    ensures var v' := Called(v, s, t, op); v'.wait.stale == {} && Back(v', n).wait.stale == {}
  {
  }

  /** Posting to waiters: the first of them becomes ready with success, and no other thread is woken. */
  lemma PostEffect(k: Kernel, s: nat, resched: bool, u: Tid, k': Kernel)
    requires Core(k, {}, true) && Sm(k, s) < 0 && Q(k, SemQ(s)) != [] && u == Q(k, SemQ(s))[0]
    requires k' == SemPostAct(k, s, resched)
    ensures u in k.th && u != k.current && k.current in k.th && k'.th.Keys == k.th.Keys
    ensures Q(k', SemQ(s)) == Q(k, SemQ(s))[1..]
    ensures forall t | t in k.th :: (k'.th[t] ==
      if t == u then Woken(k.th[t], NO_ERROR)
      else if t == k.current then k.th[t].(ret := 1, state := if resched then Ready else k.th[t].state)
      else k.th[t])
  {
    hide Core, WakeOne, SemPostAct, Q, Registered;
    var k1, w := SetSm(k, s, Sm(k, s) + 1), SemQ(s);
    var k2 := Return(k1, 1);
    CoreFrame(k, k1, {}, true);
    ReturnCore(k1, 1);
    CurrentHasNoCont(k);
    PostInSteps(k, s, resched);
    WakeOneEffect(k2, w, resched, NO_ERROR);
    PoppedQueue(k2, k', w);
  }

  lemma PoppedQueue(k: Kernel, k': Kernel, w: QueueId)
    requires !w.RunQ? && Q(k, w) != [] && k'.wq == k.wq[w := Q(k, w)[1..]]
    ensures Q(k', w) == Q(k, w)[1..]
  {
  }

  lemma PostInSteps(k: Kernel, s: nat, resched: bool)
    requires Sm(k, s) < 0 && Q(k, SemQ(s)) != []
    ensures var k2 := Return(SetSm(k, s, Sm(k, s) + 1), 1);
      SemPostAct(k, s, resched) == WakeOne(k2, SemQ(s), resched, NO_ERROR) && Q(k2, SemQ(s)) == Q(k, SemQ(s))
  {
    hide WakeOne;
  }

  /** A post that finds waiters makes the first of them, until then blocked, ready with NO_ERROR, takes it
      off the queue and wakes no other thread. */
  lemma PostWakes(k: Kernel, s: nat, resched: bool, t: Tid)
    requires Inv(k) && Enabled(k, SemPost(s, resched)) && k.sm[s] < 0 && Q(k, SemQ(s)) != []
    requires t in k.th && t != k.current
    ensures var u, k' := Q(k, SemQ(s))[0], SemPostAct(k, s, resched);
      && u in k.th && k.th[u].state == Blocked && t in k'.th
      && k'.th[t] == (if t == u then Woken(k.th[t], NO_ERROR) else k.th[t])
      && Q(k', SemQ(s)) == Q(k, SemQ(s))[1..]
  {
    InvIsCore(k);
    hide Core, Inv, SemPostAct;
    WaiterNotBack(k, SemQ(s), Q(k, SemQ(s))[0]);
    PostEffect(k, s, resched, Q(k, SemQ(s))[0], SemPostAct(k, s, resched));
    hide Q;
  }
}
