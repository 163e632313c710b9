/** The host's non-recursive lock: a semaphore of value one. A lock call yields, then waits on the
    semaphore; an unlock call posts it. Paired use gives mutual exclusion. */
module HostLock {
  import opened KernelState
  import opened KernelSteps
  import opened KernelInvariant
  import opened KernelJoins
  import opened KernelWaits
  import opened KernelSemaphore

  /** Who is inside after a call of the current thread, before any other thread runs. */
  function InsideAct(k: Kernel, x: set<Tid>, s: nat, op: Op): set<Tid> {
    if Posts(op, s) then x - {k.current}
    else if op == SemWait(s) && !Reschedules(k, op) && T(Step(k, op), k.current).ret == NO_ERROR then x + {k.current}
    else x
  }

  /** The threads that have come back from locking `s` with success and have not unlocked it since,
      as they can tell from the values their own calls returned. */
  function InsideStep(k: Kernel, x: set<Tid>, s: nat, op: Op): set<Tid> {
    var x1, n := InsideAct(k, x, s, op), NextThread(Act(k, op));
    if Reschedules(k, op) && Concerns(T(Act(k, op), n), SemQ(s))
      && T(Step(k, op), n).ret == NO_ERROR then x1 + {n} else x1
  }

  function InsideRun(k: Kernel, x: set<Tid>, s: nat, ops: seq<Op>): set<Tid>
    decreases |ops|
  {
    if ops == [] then x else InsideRun(Step(k, ops[0]), InsideStep(k, x, s, ops[0]), s, ops[1..])
  }

  /** `s` is only locked and unlocked, and only a thread inside unlocks it. */
  predicate Paired(k: Kernel, x: set<Tid>, s: nat, op: Op) {
    && (Posts(op, s) ==> k.current in x)
    && op != SemTryWait(s) && !(op.SemTimedWait? && op.sem == s)
  }

  predicate PairedRun(k: Kernel, x: set<Tid>, s: nat, ops: seq<Op>)
    decreases |ops|
  {
    ops == [] || (Paired(k, x, s, ops[0]) && PairedRun(Step(k, ops[0]), InsideStep(k, x, s, ops[0]), s, ops[1..]))
  }

  /** There is one token: free, in a thread's hands, or on its way to a thread. */
  predicate OneToken(k: Kernel, s: nat, x: set<Tid>) {
    SemOk(k, s) && Held(k, s) + |x| == 1
  }

  /** Everyone who comes in by this step was outside, and the caller of an unlock was inside. */
  lemma InsideCounts(k: Kernel, s: nat, x: set<Tid>, op: Op)
    requires Inv(k) && Enabled(k, op) && OneToken(k, s, x) && Paired(k, x, s, op)
    ensures |InsideStep(k, x, s, op)| == |x| + GrantedAt(k, s, op) - PostedAt(s, op)
  {
    hide Inv, Core, Act, Step, Fine, Reschedules, Enabled, NextThread, Concerns, Called, Semaphore, Tokens;
    hide JoinsOk, T;
    var v := Semaphore(k, s);
    InvIsCore(k);
    CurrentOutside(k, s);
    CalledConserves(v, s, k.current, op);
    GrantedIs(k, s, op);
    if WaitsOn(op, s) { OwnStatus(k, s, op); }
    if Reschedules(k, op) { ComesBack(k, s, op); }
    if Posts(op, s) { Less(x, k.current); }
    var v1 := Called(v, s, k.current, op);
    assert Reschedules(k, op) ==> Tokens(v1) + |v1.wait.handed| + |InsideAct(k, x, s, op)| == 1;
    assert Tokens(v1) >= 0;
    if Reschedules(k, op) && NextThread(Act(k, op)) in v1.wait.handed {
      assert InsideAct(k, x, s, op) == {} by { NotEmpty(v1.wait.handed, NextThread(Act(k, op))); }
    } else if TakesAtOnce(v, s, op) {
      assert x == {} by { TokenFree(v); }
    }
  }

  lemma NotEmpty(h: set<Tid>, n: Tid)
    requires n in h
    ensures |h| > 0
  {
  }

  lemma TokenFree(v: SemView)
    requires v.count > 0
    ensures Tokens(v) + |v.wait.handed| > 0
  {
  }

  /** The single token is never lost or doubled. */
  lemma StepKeepsToken(k: Kernel, s: nat, x: set<Tid>, op: Op)
    requires Inv(k) && Enabled(k, op) && OneToken(k, s, x) && Paired(k, x, s, op)
    ensures OneToken(Step(k, op), s, InsideStep(k, x, s, op))
  {
    hide Inv, Enabled, SemOk, Step, InsideStep, GrantedAt, Paired, Held;
    assert s in k.sm by { OkExists(k, s); }
    StepConserves(k, s, op);
    OkExists(Step(k, op), s);
    InsideCounts(k, s, x, op);
  }

  /** Mutual exclusion: however the threads interleave, at most one is inside. */
  lemma {:induction false} RunExcludes(k: Kernel, s: nat, x: set<Tid>, ops: seq<Op>)
    requires Inv(k) && Runs(k, ops) && OneToken(k, s, x) && PairedRun(k, x, s, ops)
    ensures |InsideRun(k, x, s, ops)| <= 1
    decreases |ops|
  {
    if ops == [] {
      HeldNotNegative(k, s);
    } else {
      hide Inv, Enabled, OneToken, InsideStep, Paired;
      StepKeepsInv(k, ops[0]);
      StepKeepsToken(k, s, x, ops[0]);
      RunExcludes(Step(k, ops[0]), s, InsideStep(k, x, s, ops[0]), ops[1..]);
    }
  }

  lemma HeldNotNegative(k: Kernel, s: nat)
    requires SemOk(k, s)
    ensures Held(k, s) >= 0
  {
  }

  /** A freshly allocated host lock: a semaphore of value one, nobody inside. */
  lemma AllocatedLock(k: Kernel, s: nat)
    requires Inv(k) && Enabled(k, SemInit(s, 1))
    ensures OneToken(Step(k, SemInit(s, 1)), s, {})
  {
    hide Inv, Enabled, Step, View;
    InitConserves(k, s, 1);
  }
}
