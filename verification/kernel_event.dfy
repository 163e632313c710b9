/** Events: a signaled event never has waiters, and in automatic mode every signal is accounted for by the
    waits that return with success. */
module KernelEvent {
  import opened KernelState
  import opened KernelSteps
  import opened KernelInvariant
  import opened KernelJoins
  import opened KernelFrames
  import opened KernelWaits

  // ----- the event on its own -----

  /** The state and mode of an event and its wait queue. */
  datatype EventView = EventView(signaled: bool, auto: bool, wait: WaitView)

  function Event(k: Kernel, e: nat): EventView
    requires e in k.ev
  {
    EventView(k.ev[e].signaled, k.ev[e].auto, View(k, EventQ(e)))
  }

  /** What a call made by thread `t` does to the event, up to thread_resched. */
  function Called(v: EventView, e: nat, t: Tid, op: Op): EventView {
    var w := v.wait;
    match op
    case EventWait(e', timeout) =>
      if e' != e then v
      else if v.signaled then v.(signaled := !v.auto)
      else if timeout == Poll then v
      else v.(wait := w.(queue := w.queue + [t]))
    case EventSignal(e', _) =>
      if e' != e || v.signaled then v
      else if !v.auto then EventView(true, v.auto, WaitView([], w.stale, w.handed + (set u | u in w.queue)))
      else if w.queue == [] then v.(signaled := true)
      else v.(wait := w.(queue := w.queue[1..], handed := w.handed + {w.queue[0]}))
    case EventUnsignal(e') => if e' != e then v else v.(signaled := false)
    case Expire(u) =>
      if u in w.queue then v.(wait := w.(queue := Without(w.queue, u), stale := w.stale + {u})) else v
    case _ => v
  }

  /** Thread `n` comes back from thread_resched. */
  function Back(v: EventView, n: Tid): EventView {
    v.(wait := v.wait.(stale := v.wait.stale - {n}, handed := v.wait.handed - {n}))
  }

  function After(k: Kernel, e: nat, op: Op): EventView
    requires e in k.ev
  {
    var v := Called(Event(k, e), e, k.current, op);
    if Reschedules(k, op) then Back(v, NextThread(Act(k, op))) else v
  }

  /** Nobody waits for a signaled event. */
  predicate Prompt(v: EventView) {
    && (v.signaled ==> v.wait.queue == [])
    && (forall t | t in v.wait.queue :: t !in v.wait.handed)
  }

  predicate EventOk(k: Kernel, e: nat) {
    e in k.ev && Fine(k, EventQ(e), true) && Prompt(Event(k, e))
  }

  predicate Outside(v: EventView, t: Tid) {
    t !in v.wait.queue && t !in v.wait.stale + v.wait.handed
  }

  /** Signals that find the event clear, and clearings by hand that find it signaled. */
  predicate Raises(v: EventView, e: nat, op: Op) {
    op.EventSignal? && op.event == e && !v.signaled
  }

  predicate Clears(v: EventView, e: nat, op: Op) {
    op == EventUnsignal(e) && v.signaled
  }

  predicate PassesAtOnce(v: EventView, e: nat, op: Op) {
    op.EventWait? && op.event == e && v.signaled
  }

  /** The pending signal, if there is one, and the threads released that have not run since. */
  function Pending(v: EventView): nat {
    (if v.signaled then 1 else 0) + |v.wait.handed|
  }

  lemma CalledAccounts(v: EventView, e: nat, t: Tid, op: Op)
    requires Prompt(v) && Outside(v, t) && NoDup(v.wait.queue)
    ensures var v' := Called(v, e, t, op);
      && Prompt(v') && v'.auto == v.auto
      && (v.auto ==>
        Pending(v') + (if PassesAtOnce(v, e, op) then 1 else 0) + (if Clears(v, e, op) then 1 else 0)
          == Pending(v) + (if Raises(v, e, op) then 1 else 0))
  {
    match op
    case Expire(u) => ExpiryAccounts(v, e, t, u);
    case EventSignal(_, resched) => SignalAccounts(v, e, t, op.event, resched);
    case _ =>
  }

  lemma ExpiryAccounts(v: EventView, e: nat, t: Tid, u: Tid)
    requires Prompt(v) && NoDup(v.wait.queue)
    ensures var v' := Called(v, e, t, Expire(u)); Prompt(v') && v'.auto == v.auto && Pending(v') == Pending(v)
  {
    if u in v.wait.queue { WithoutMembers(v.wait.queue, u); }
  }

  lemma SignalAccounts(v: EventView, e: nat, t: Tid, e': nat, resched: bool)
    requires Prompt(v) && NoDup(v.wait.queue)
    ensures var v' := Called(v, e, t, EventSignal(e', resched));
      && Prompt(v') && v'.auto == v.auto
      && (v.auto ==> Pending(v') == Pending(v) + (if e' == e && !v.signaled then 1 else 0))
  {
    if v.wait.queue != [] { assert v.wait.queue[0] in v.wait.queue; }
  }

  lemma BackAccounts(v: EventView, n: Tid)
    requires Prompt(v)
    ensures var v' := Back(v, n);
      Prompt(v') && v'.auto == v.auto && Pending(v') + (if n in v.wait.handed then 1 else 0) == Pending(v)
  {
    if n !in v.wait.handed { assert v.wait.handed - {n} == v.wait.handed; }
  }

  // ----- the kernel's event -----

  lemma CurrentOutside(k: Kernel, e: nat)
    requires Core(k, {}, true) && e in k.ev
    ensures Outside(Event(k, e), k.current) && NoDup(Event(k, e).wait.queue)
  {
    CurrentHasNoCont(k);
    QueueHasNoDup(k, EventQ(e));
    if k.current in Q(k, EventQ(e)) { WaiterNotBack(k, EventQ(e), k.current); }
    hide Core, Q;
  }

  /** The event's flag and the caller's status change; nobody comes or goes. */
  lemma FlagShows(k: Kernel, e: nat, x: EventState, status: int)
    requires k.current in k.th && k.th[k.current].cont == NoCont && e in k.ev
    ensures var k' := Return(SetEv(k, e, x), status);
      && e in k'.ev && Event(k', e) == EventView(x.signaled, x.auto, View(k, EventQ(e)))
      && StaysFine(k, k', EventQ(e), false)
  {
    var k', w := Return(SetEv(k, e, x), status), EventQ(e);
    assert Q(k', w) == Q(k, w);
    hide Q;
    QuietView(k, k', k.current, k'.th[k.current], w);
    hide View, StaysFine;
  }

  predicate Timed(op: Op, e: nat) {
    op == EventWait(e, Finite)
  }

  lemma WaitInSteps(k: Kernel, e: nat, timeout: Timeout)
    requires e in k.ev
    ensures var x := k.ev[e];
      EventWaitAct(k, e, timeout) ==
        if x.signaled then Return(SetEv(k, e, EventState(!x.auto, x.auto)), NO_ERROR)
        else if timeout == Poll then Return(SetEv(k, e, x), ERR_TIMED_OUT)
        else Enqueue(k, timeout, EventCont(e))
  {
    assert SetEv(k, e, k.ev[e]) == k;
    hide Return, Enqueue;
  }

  lemma WaitShows(k: Kernel, e: nat, timeout: Timeout)
    requires Core(k, {}, true) && e in k.ev
    ensures var k' := EventWaitAct(k, e, timeout);
      && e in k'.ev && Event(k', e) == Called(Event(k, e), e, k.current, EventWait(e, timeout))
      && StaysFine(k, k', EventQ(e), timeout == Finite)
  {
    hide Core, View, StaysFine, Q, Return, Enqueue, SetEv, EventWaitAct;
    CurrentHasNoCont(k);
    WaitInSteps(k, e, timeout);
    var x := k.ev[e];
    if x.signaled {
      var x' := EventState(!x.auto, x.auto);
      FlagShows(k, e, x', NO_ERROR);
      StaysTwice(k, Return(SetEv(k, e, x'), NO_ERROR), Return(SetEv(k, e, x'), NO_ERROR), EventQ(e), false,
        timeout == Finite)
        by { StaysItself(Return(SetEv(k, e, x'), NO_ERROR), EventQ(e), timeout == Finite); }
    } else if timeout == Poll {
      FlagShows(k, e, x, ERR_TIMED_OUT);
    } else {
      EnqueueView(k, timeout, EventCont(e));
    }
  }

  lemma SignalShows(k: Kernel, e: nat, resched: bool)
    requires Core(k, {}, true) && e in k.ev
    ensures var k' := EventSignalAct(k, e, resched);
      && e in k'.ev && Event(k', e) == Called(Event(k, e), e, k.current, EventSignal(e, resched))
      && StaysFine(k, k', EventQ(e), false)
  {
    hide Core, WakeOne, WakeAll, View, StaysFine, Q, Return, EventSignalAct;
    var w, x := EventQ(e), k.ev[e];
    var k1 := Return(k, NO_ERROR);
    CurrentHasNoCont(k);
    SignalInSteps(k, e, resched);
    ReturnCore(k, NO_ERROR);
    assert SetEv(k, e, x) == k;
    FlagShows(k, e, x, NO_ERROR);
    ViewQueue(k1, w);
    ViewQueue(k, w);
    if !x.signaled && x.auto && Q(k1, w) != [] {
      WakeOneView(k1, w, resched);
      StaysTwice(k, k1, WakeOne(k1, w, resched, NO_ERROR), w, false, false);
    } else if !x.signaled {
      var k2 := Return(SetEv(k, e, EventState(true, x.auto)), NO_ERROR);
      FlagShows(k, e, EventState(true, x.auto), NO_ERROR);
      if !x.auto {
        CoreFrame(k, SetEv(k, e, EventState(true, x.auto)), {}, true);
        ReturnCore(SetEv(k, e, EventState(true, x.auto)), NO_ERROR);
        WakeAllView(k2, w, resched);
        StaysTwice(k, k2, WakeAll(k2, w, resched, NO_ERROR), w, false, false);
      }
    }
  }

  lemma SignalInSteps(k: Kernel, e: nat, resched: bool)
    requires e in k.ev
    ensures var x, w, k1 := k.ev[e], EventQ(e), Return(k, NO_ERROR);
      var k2 := Return(SetEv(k, e, EventState(true, x.auto)), NO_ERROR);
      && Q(k1, w) == Q(k, w)
      && EventSignalAct(k, e, resched) ==
        if x.signaled then k1
        else if !x.auto then WakeAll(k2, w, resched, NO_ERROR)
        else if Q(k, w) == [] then k2
        else WakeOne(k1, w, resched, NO_ERROR)
  {
    var k1 := Return(k, NO_ERROR);
    assert Q(k1, EventQ(e)) == Q(k, EventQ(e));
    hide WakeOne, WakeAll;
  }

  predicate About(op: Op, e: nat) {
    (op.EventWait? || op.EventSignal? || op.EventUnsignal?) && op.event == e
  }

  lemma OwnCallShows(k: Kernel, e: nat, op: Op)
    requires Core(k, {}, true) && e in k.ev && About(op, e)
    ensures var k' := Act(k, op);
      && e in k'.ev && Event(k', e) == Called(Event(k, e), e, k.current, op)
      && StaysFine(k, k', EventQ(e), Timed(op, e))
  {
    hide Core, StaysFine, EventWaitAct, EventSignalAct, View, Return, SetEv;
    match op
    case EventWait(_, timeout) => WaitShows(k, e, timeout);
    case EventSignal(_, resched) => SignalShows(k, e, resched);
    case EventUnsignal(_) =>
      CurrentHasNoCont(k);
      FlagShows(k, e, EventState(false, k.ev[e].auto), NO_ERROR);
  }

  lemma ActShows(k: Kernel, e: nat, op: Op)
    requires Inv(k) && Enabled(k, op) && e in k.ev && Fine(k, EventQ(e), true)
    ensures var k' := Act(k, op);
      && e in k'.ev && Event(k', e) == Called(Event(k, e), e, k.current, op)
      && StaysFine(k, k', EventQ(e), Timed(op, e))
  {
    InvIsCore(k);
    hide Inv, Core, View, Fine, StaysFine, Aside, Act;
    if About(op, e) {
      OwnCallShows(k, e, op);
    } else if op.Expire? {
      ExpireView(k, op.thread, EventQ(e));
      ExpireKeepsEvents(k, op);
      ViewQueue(k, EventQ(e));
    } else {
      NotTarget(k, e, op);
      ActObjects(k, op);
      OtherView(k, op, EventQ(e));
    }
  }

  lemma ExpireKeepsEvents(k: Kernel, op: Op)
    requires op.Expire?
    ensures Act(k, op) == ExpireAct(k, op.thread) && ExpireAct(k, op.thread).ev == k.ev
  {
    ExpireObjects(k, op.thread);
    hide ExpireAct;
  }

  lemma NotTarget(k: Kernel, e: nat, op: Op)
    requires Core(k, {}, true) && Enabled(k, op) && e in k.ev && !op.Expire? && !About(op, e)
    ensures Target(k, op) != EventQ(e) && Called(Event(k, e), e, k.current, op) == Event(k, e)
  {
    hide Core;
  }

  /** Every call does to an event just what `After` says: waiters queue in order of arrival, and signals
      release the first of them or all. */
  lemma StepShows(k: Kernel, e: nat, op: Op)
    requires Inv(k) && Enabled(k, op) && e in k.ev && Fine(k, EventQ(e), true)
    ensures var k' := Step(k, op);
      e in k'.ev && Event(k', e) == After(k, e, op) && StaysFine(k, k', EventQ(e), Timed(op, e))
  {
    hide Inv, Act, Called, View, Fine, StaysFine, Enabled, Reschedules, Dispatch, MidInv;
    StepKeepsInv(k, op);
    ActShows(k, e, op);
    if Reschedules(k, op) {
      DispatchView(Act(k, op), EventQ(e));
      DispatchObjects(Act(k, op));
      StaysTwice(k, Act(k, op), Step(k, op), EventQ(e), Timed(op, e), false);
    }
  }

  // ----- accounting -----

  /** The waits for `e` that return NO_ERROR in this step: the caller's own at once, or that of the thread
      that comes back from waiting. */
  function PassedAt(k: Kernel, e: nat, op: Op): nat {
    var n := NextThread(Act(k, op));
    (if op.EventWait? && op.event == e && !Reschedules(k, op)
      && T(Step(k, op), k.current).ret == NO_ERROR
     then 1 else 0)
    + (if Reschedules(k, op) && Concerns(T(Act(k, op), n), EventQ(e))
      && T(Step(k, op), n).ret == NO_ERROR then 1 else 0)
  }

  function RaisedAt(k: Kernel, e: nat, op: Op): nat
    requires e in k.ev
  {
    if Raises(Event(k, e), e, op) then 1 else 0
  }

  function ClearedAt(k: Kernel, e: nat, op: Op): nat
    requires e in k.ev
  {
    if Clears(Event(k, e), e, op) then 1 else 0
  }

  /** Totals over a run: waits that returned NO_ERROR, signals that found the event clear, clearings by
      hand that found it signaled. */
  function Passed(k: Kernel, e: nat, ops: seq<Op>): nat
    decreases |ops|
  {
    if ops == [] then 0 else PassedAt(k, e, ops[0]) + Passed(Step(k, ops[0]), e, ops[1..])
  }

  function Raised(k: Kernel, e: nat, ops: seq<Op>): nat
    decreases |ops|
  {
    if ops == [] || e !in k.ev then 0 else RaisedAt(k, e, ops[0]) + Raised(Step(k, ops[0]), e, ops[1..])
  }

  function Cleared(k: Kernel, e: nat, ops: seq<Op>): nat
    decreases |ops|
  {
    if ops == [] || e !in k.ev then 0 else ClearedAt(k, e, ops[0]) + Cleared(Step(k, ops[0]), e, ops[1..])
  }

  lemma OwnStatus(k: Kernel, e: nat, timeout: Timeout)
    requires Inv(k) && Enabled(k, EventWait(e, timeout))
    ensures var op := EventWait(e, timeout);
      && (!Reschedules(k, op) ==> (T(Step(k, op), k.current).ret == NO_ERROR <==> k.ev[e].signaled))
      && (Reschedules(k, op) ==> !k.ev[e].signaled)
  {
    hide Core, Inv, Enqueue, Dispatch;
    InvIsCore(k);
    CurrentHasNoCont(k);
  }

  /** The thread that comes back returns NO_ERROR from a wait for `e` exactly if it was released. */
  lemma ComesBack(k: Kernel, e: nat, op: Op)
    requires Inv(k) && Enabled(k, op) && e in k.ev && Fine(k, EventQ(e), true) && Reschedules(k, op)
    ensures var n := NextThread(Act(k, op));
      n in Called(Event(k, e), e, k.current, op).wait.handed <==>
        (Concerns(T(Act(k, op), n), EventQ(e)) && T(Step(k, op), n).ret == NO_ERROR)
  {
    hide Inv, Enabled, Reschedules, Act, Called, View, Fine, StaysFine, MidInv, Dispatch, NextThread;
    StepKeepsInv(k, op);
    ActShows(k, e, op);
    StillFine(k, Act(k, op), EventQ(e), Timed(op, e));
    ChosenWaited(Act(k, op), EventQ(e));
    ChosenStatus(Act(k, op));
  }

  lemma PassedIs(k: Kernel, e: nat, op: Op)
    requires Inv(k) && Enabled(k, op) && e in k.ev && Fine(k, EventQ(e), true)
    ensures var v := Event(k, e);
      PassedAt(k, e, op) ==
        if Reschedules(k, op) then (if NextThread(Act(k, op)) in Called(v, e, k.current, op).wait.handed then 1 else 0)
        else if PassesAtOnce(v, e, op) then 1 else 0
    ensures Reschedules(k, op) ==> !PassesAtOnce(Event(k, e), e, op)
  {
    hide Inv, Act, Step, Fine, View, Called, Reschedules, Enabled, NextThread, Concerns;
    if op.EventWait? && op.event == e { OwnStatus(k, e, op.timeout); }
    if Reschedules(k, op) { ComesBack(k, e, op); }
  }

  /** A step, with timeouts of every kind: nobody waits for a signaled event, and in automatic mode a signal
      that finds the event clear lets exactly one wait return with success, is pending or cleared. */
  lemma StepAccounts(k: Kernel, e: nat, op: Op)
    requires Inv(k) && Enabled(k, op) && EventOk(k, e)
    ensures EventOk(Step(k, op), e) && Event(Step(k, op), e).auto == Event(k, e).auto
    ensures Event(k, e).auto ==>
      Pending(Event(Step(k, op), e)) + PassedAt(k, e, op) + ClearedAt(k, e, op) ==
        Pending(Event(k, e)) + RaisedAt(k, e, op)
  {
    hide Inv, Core, Act, Step, Fine, Called, Back, Reschedules, Enabled, NextThread, PassedAt, Pending, Prompt;
    hide Event, PassesAtOnce, Clears, Raises, StaysFine, JoinsOk, MidInv;
    StepShows(k, e, op);
    StillFine(k, Step(k, op), EventQ(e), Timed(op, e));
    InvIsCore(k);
    CurrentOutside(k, e);
    PassedIs(k, e, op);
    var v1 := Called(Event(k, e), e, k.current, op);
    CalledAccounts(Event(k, e), e, k.current, op);
    BackAccounts(v1, NextThread(Act(k, op)));
  }

  /** Over every run, with timeouts of every kind: a signaled event has no waiters, and in automatic mode
      what was pending plus the signals that found the event clear are the waits that returned with success,
      the clearings by hand and what is pending. */
  lemma {:induction false} RunAccounts(k: Kernel, e: nat, ops: seq<Op>)
    requires Inv(k) && Runs(k, ops) && EventOk(k, e)
    ensures EventOk(Run(k, ops), e) && Event(Run(k, ops), e).auto == Event(k, e).auto
    ensures Event(k, e).auto ==>
      Pending(Event(Run(k, ops), e)) + Passed(k, e, ops) + Cleared(k, e, ops) ==
        Pending(Event(k, e)) + Raised(k, e, ops)
    decreases |ops|
  {
    assert e in k.ev;
    hide Inv, Enabled, EventOk, Event, PassedAt, RaisedAt, ClearedAt, Pending;
    if ops != [] {
      StepKeepsInv(k, ops[0]);
      StepAccounts(k, e, ops[0]);
      RunAccounts(Step(k, ops[0]), e, ops[1..]);
    }
  }

  /** A new event has nobody waiting, and is pending if it starts signaled. */
  lemma InitAccounts(k: Kernel, e: nat, initially: bool, auto: bool)
    requires Inv(k) && Enabled(k, EventInit(e, initially, auto))
    ensures var k' := Step(k, EventInit(e, initially, auto));
      EventOk(k', e) && Event(k', e) == EventView(initially, auto, WaitView([], {}, {}))
  {
    hide Inv, Core, Q, BackWith;
    InvIsCore(k);
    FreshView(k, EventQ(e));
    var k' := SetEv(k, e, EventState(initially, auto));
    SetEvKeeps(k, e, EventState(initially, auto), EventQ(e));
    SameView(k, k', EventQ(e));
    FineWithTimers(k', EventQ(e));
  }

  // ----- who is released -----

  /** Whether a signal releases the thread: the first waiter, or every waiter. */
  predicate Releases(k: Kernel, e: nat, t: Tid) {
    var q := Q(k, EventQ(e));
    !Ev(k, e).signaled && q != [] && (if Ev(k, e).auto then t == q[0] else t in q)
  }

  /** The threads a signal releases are made ready with success; no other thread is woken. */
  lemma SignalReleases(k: Kernel, e: nat, resched: bool, t: Tid, k': Kernel)
    requires Inv(k) && Enabled(k, EventSignal(e, resched)) && t in k.th && t != k.current
    requires k' == EventSignalAct(k, e, resched)
    ensures T(k', t) == if Releases(k, e, t) then Woken(k.th[t], NO_ERROR) else k.th[t]
    ensures Releases(k, e, t) ==> k.th[t].state == Blocked
  {
    hide EventSignalAct, Inv, Core, WakeOne, WakeAll, Return, SetEv, Q, BackWith;
    var w, x := EventQ(e), k.ev[e];
    InvIsCore(k);
    SignalInSteps(k, e, resched);
    if t in Q(k, w) { WaiterNotBack(k, w, t); }
    if x.signaled {
      ReturnKeeps(k, t);
    } else if !x.auto {
      LatchedReleases(k, e, resched, t);
    } else if Q(k, w) == [] {
      ReturnKeeps(SetEv(k, e, EventState(true, true)), t) by { SetEvKeeps(k, e, EventState(true, true), w); }
      SetEvKeeps(k, e, EventState(true, true), w);
    } else {
      AutomaticReleases(k, e, resched, t);
    }
  }

  lemma SetEvKeeps(k: Kernel, e: nat, x: EventState, w: QueueId)
    ensures var k' := SetEv(k, e, x); k'.th == k.th && k'.current == k.current && Q(k', w) == Q(k, w)
  {
  }

  lemma ReturnQ(k: Kernel, w: QueueId)
    ensures Q(Return(k, NO_ERROR), w) == Q(k, w)
  {
  }

  lemma AutomaticReleases(k: Kernel, e: nat, resched: bool, t: Tid)
    requires Core(k, {}, true) && Q(k, EventQ(e)) != [] && t in k.th && t != k.current
    ensures T(WakeOne(Return(k, NO_ERROR), EventQ(e), resched, NO_ERROR), t) ==
      if t == Q(k, EventQ(e))[0] then Woken(k.th[t], NO_ERROR) else k.th[t]
  {
    hide Core, WakeOne, Return, Q;
    ReturnKeeps(k, t);
    ReturnQ(k, EventQ(e));
    ReturnCore(k, NO_ERROR);
    OneWoken(Return(k, NO_ERROR), EventQ(e), resched, t);
  }

  lemma LatchedReleases(k: Kernel, e: nat, resched: bool, t: Tid)
    requires Core(k, {}, true) && e in k.ev && t in k.th && t != k.current
    ensures T(WakeAll(Return(SetEv(k, e, EventState(true, k.ev[e].auto)), NO_ERROR), EventQ(e), resched, NO_ERROR), t)
      ==
      if t in Q(k, EventQ(e)) then Woken(k.th[t], NO_ERROR) else k.th[t]
  {
    var k0 := SetEv(k, e, EventState(true, k.ev[e].auto));
    CoreFrame(k, k0, {}, true);
    hide Core, WakeAll, Return, Q, SetEv;
    SetEvKeeps(k, e, EventState(true, k.ev[e].auto), EventQ(e));
    ReturnKeeps(k0, t);
    ReturnQ(k0, EventQ(e));
    ReturnCore(k0, NO_ERROR);
    AllWoken(Return(k0, NO_ERROR), EventQ(e), resched, t);
  }

  lemma ReturnKeeps(k: Kernel, t: Tid)
    requires t in k.th && t != k.current
    ensures var k' := Return(k, NO_ERROR); t in k'.th && k'.th[t] == k.th[t] && k'.current == k.current
  {
  }

  lemma OneWoken(k: Kernel, w: QueueId, resched: bool, t: Tid)
    requires Core(k, {}, true) && !w.RunQ? && Q(k, w) != [] && t in k.th && t != k.current
    ensures T(WakeOne(k, w, resched, NO_ERROR), t) == if t == Q(k, w)[0] then Woken(k.th[t], NO_ERROR) else k.th[t]
  {
    hide Core, WakeOne, Q;
    WakeOneEffect(k, w, resched, NO_ERROR);
  }

  lemma AllWoken(k: Kernel, w: QueueId, resched: bool, t: Tid)
    requires Core(k, {}, true) && !w.RunQ? && t in k.th && t != k.current
    ensures T(WakeAll(k, w, resched, NO_ERROR), t) == if t in Q(k, w) then Woken(k.th[t], NO_ERROR) else k.th[t]
  {
    hide Core, WakeAll, Q;
    WakeAllEffect(k, w, resched, NO_ERROR, true);
  }
}
