/** Semaphores over whole runs: units are conserved and waiters complete in the order they came. */
module SemHistory {
  import opened ListModel
  import opened KernelSpec
  import opened KernelInvariants
  import opened KernelFrames
  import opened KernelTicks

  /**
    What an observer of one semaphore has seen: puts that counted, the callers of sem_get, and those no longer waiting.
   */
  datatype History = History(puts: nat, started: seq<Entry>, completed: seq<Entry>)

  function Waiters(s: KS, i: nat): seq<Entry> { Q(s.v, SemWait(i)) }

  /** A put on a full semaphore nobody waits for is lost. */
  predicate Saturated(s: KS, i: nat) { Waiters(s, i) == [] && SemCount(s, i) == SEM_MAX }

  /** One call observed from outside: who is on the wait list before and after it. */
  function Observe(s: KS, c: Call, i: nat, h: History): History {
    var w, w' := Waiters(s, i), Waiters(Step(s, c), i);
    History(
      h.puts + (if c == CallSemPut(i) && !Saturated(s, i) then 1 else 0),
      h.started + (if c == CallSemGet(i) then [Task(s.running)] else []),
      h.completed + (if w != [] && w[0] !in w' then [w[0]] else [])
                  + (if c == CallSemGet(i) && Task(s.running) !in w' then [Task(s.running)] else []))
  }

  function Observed(s: KS, calls: seq<Call>, i: nat, h: History): History
    decreases |calls|
  {
    if calls == [] then h else Observed(Step(s, calls[0]), calls[1..], i, Observe(s, calls[0], i, h))
  }

  /** Every unit put in is still counted or was taken, and the gets still waiting are the latest ones, in order. */
  ghost predicate Balanced(s: KS, i: nat, start: nat, h: History) {
    && start + h.puts == SemCount(s, i) as int + |h.completed|
    && h.started == h.completed + Waiters(s, i)
    && (SemCount(s, i) > 0 ==> Waiters(s, i) == [])
  }

  /** Calls that do not name the semaphore leave its count and its waiters alone. */
  lemma OtherCallsSkip(s: KS, c: Call, i: nat)
    requires Inv(s) && Enabled(s, c) && i in s.count && c != CallSemGet(i) && c != CallSemPut(i)
    ensures i in Step(s, c).count && SemCount(Step(s, c), i) == SemCount(s, i)
            && Waiters(Step(s, c), i) == Waiters(s, i)
  {
    hide Inv, Step, HardwareTimer;
    if c.CallHardwareTimer? {
      HardwareTimerMeaning(s);
      StepIsHardwareTimer(s);
    } else {
      CallEffect(s, c);
      CallFrame(s, c, SemWait(i));
    }
  }

  lemma StepIsHardwareTimer(s: KS)
    ensures Step(s, CallHardwareTimer) == HardwareTimer(s)
  {
    hide HardwareTimer;
  }

  lemma WaitersDistinct(s: KS, i: nat)
    requires Inv(s)
    ensures NoDup(Waiters(s, i)) && (i in s.count && SemCount(s, i) > 0 ==> Waiters(s, i) == [])
  {
  }

  lemma BalancedGet(s: KS, i: nat, start: nat, h: History)
    requires Inv(s) && Enabled(s, CallSemGet(i)) && Balanced(s, i, start, h)
    ensures i in SemGet(s, i).count && Balanced(SemGet(s, i), i, start, Observe(s, CallSemGet(i), i, h))
  {
    hide Inv, SemGet, Kept;
    var w := Waiters(s, i);
    WaitersDistinct(s, i);
    SemGetFrame(s, i);
    assert w + [Task(s.running)] != [] && (w != [] ==> w[0] in w + [Task(s.running)]);
  }

  lemma PutCounts(s: KS, i: nat)
    requires Inv(s) && i in s.count
    ensures var s', w := SemPut(s, i), Waiters(s, i);
            && i in s'.count && Waiters(s', i) == (if w == [] then [] else w[1..])
            && SemCount(s', i) == if w == [] && SemCount(s, i) != SEM_MAX then SemCount(s, i) + 1 else SemCount(s, i)
  {
    hide Inv, SemPut, Kept;
    SemPutFrame(s, i);
  }

  lemma BalancedPut(s: KS, i: nat, start: nat, h: History)
    requires Inv(s) && i in s.count && Balanced(s, i, start, h)
    ensures i in SemPut(s, i).count && Balanced(SemPut(s, i), i, start, Observe(s, CallSemPut(i), i, h))
  {
    hide Inv, SemPut, Waiters, SemCount, Balanced;
    var w, w' := Waiters(s, i), Waiters(SemPut(s, i), i);
    WaitersDistinct(s, i);
    PutCounts(s, i);
    var h' := Observe(s, CallSemPut(i), i, h);
    if w == [] {
      assert h' == History(h.puts + (if SemCount(s, i) == SEM_MAX then 0 else 1), h.started, h.completed);
    } else {
      assert w == [w[0]] + w[1..] && w[0] !in w[1..];
      assert h' == History(h.puts + 1, h.started, h.completed + [w[0]]);
      assert h.completed + [w[0]] + w[1..] == h.completed + w;
    }
    BalancedUnfolds(s, i, start, h);
    BalancedFolds(SemPut(s, i), i, start, h');
  }

  lemma BalancedUnfolds(s: KS, i: nat, start: nat, h: History)
    requires Balanced(s, i, start, h)
    ensures start + h.puts == SemCount(s, i) as int + |h.completed| && h.started == h.completed + Waiters(s, i)
    ensures SemCount(s, i) > 0 ==> Waiters(s, i) == []
  {
  }

  lemma BalancedFolds(s: KS, i: nat, start: nat, h: History)
    requires start + h.puts == SemCount(s, i) as int + |h.completed| && h.started == h.completed + Waiters(s, i)
    requires SemCount(s, i) > 0 ==> Waiters(s, i) == []
    ensures Balanced(s, i, start, h)
  {
  }

  lemma BalancedOther(s: KS, c: Call, i: nat, start: nat, h: History)
    requires Inv(s) && Enabled(s, c) && i in s.count && c != CallSemGet(i) && c != CallSemPut(i)
             && Balanced(s, i, start, h)
    ensures i in Step(s, c).count && Balanced(Step(s, c), i, start, Observe(s, c, i, h))
  {
    hide Inv, Step, Enabled, Waiters, SemCount, Saturated;
    OtherCallsSkip(s, c, i);
  }

  lemma BalancedStep(s: KS, c: Call, i: nat, start: nat, h: History)
    requires Inv(s) && Enabled(s, c) && i in s.count && Balanced(s, i, start, h)
    ensures i in Step(s, c).count && Balanced(Step(s, c), i, start, Observe(s, c, i, h))
  {
    hide Inv, SemGet, SemPut, Observe, Balanced;
    if c == CallSemGet(i) {
      BalancedGet(s, i, start, h);
    } else if c == CallSemPut(i) {
      BalancedPut(s, i, start, h);
    } else {
      BalancedOther(s, c, i, start, h);
    }
  }

  lemma {:induction false} BalancedRun(s: KS, calls: seq<Call>, i: nat, start: nat, h: History)
    requires Inv(s) && CanRun(s, calls) && i in s.count && Balanced(s, i, start, h)
    ensures Balanced(Run(s, calls), i, start, Observed(s, calls, i, h))
    decreases |calls|
  {
    hide Inv, Step, Enabled, Balanced, Observe;
    if calls != [] {
      StepKeeps(s, calls[0]);
      BalancedStep(s, calls[0], i, start, h);
      BalancedRun(Step(s, calls[0]), calls[1..], i, start, Observe(s, calls[0], i, h));
    }
  }

  /**
    Conservation: starting with no waiters, after any run the initial count and the puts that counted equal the count
    and the completed gets; the started gets are the completed ones followed by the waiters; and nobody waits while
    units are left.
   */
  lemma SemaphoreConserves(s: KS, calls: seq<Call>, i: nat)
    requires Inv(s) && CanRun(s, calls) && i in s.count && Waiters(s, i) == []
    ensures var h := Observed(s, calls, i, History(0, [], []));
            var s' := Run(s, calls);
            && SemCount(s, i) as int + h.puts == SemCount(s', i) as int + |h.completed|
            && h.started == h.completed + Waiters(s', i)
            && (SemCount(s', i) > 0 ==> Waiters(s', i) == [])
  {
    hide Inv, Run, CanRun, Observed;
    BalancedRun(s, calls, i, SemCount(s, i), History(0, [], []));
  }

  /** A put hands its unit to the longest waiter, which becomes ready while the count stays zero. */
  lemma PutHandsOff(s: KS, i: nat)
    requires Inv(s) && i in s.count && Waiters(s, i) != []
    ensures Waiters(s, i)[0].Task? && OnReady(SemPut(s, i), Waiters(s, i)[0].t)
    ensures SemCount(SemPut(s, i), i) == SemCount(s, i) == 0
  {
    hide SemPut, OnReady, Core;
    SemPutFrame(s, i);
    SemPutKeeps(s, i);
    WaiterIsTask(s, SemWait(i));
    UnitsMeanNoWaiters(s, i);
    WaiterOnlyThere(s, SemWait(i));
    OffWaitsIsReady(SemPut(s, i), Waiters(s, i)[0].t);
  }
}
