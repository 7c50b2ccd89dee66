/** Time over whole runs: how long a sleeper sleeps, how often a timer fires, and in which order sleepers wake. */
module TickRuns {
  import opened Words
  import opened ListModel
  import opened KernelSpec
  import opened KernelInvariants
  import opened KernelFrames
  import opened KernelTicks

  /** The hardware_timer calls in a run. */
  function TickCalls(calls: seq<Call>): nat {
    if calls == [] then 0 else (if calls[0].CallHardwareTimer? then 1 else 0) + TickCalls(calls[1..])
  }

  lemma ClockStep(s: KS, c: Call)
    requires Inv(s) && Enabled(s, c)
    ensures Step(s, c).tick as int == (s.tick as int + if c.CallHardwareTimer? then 1 else 0) % 0x1_0000_0000
  {
    hide Inv, Step, HardwareTimer;
    if c.CallHardwareTimer? {
      HardwareTimerMeaning(s);
      StepIsTick(s);
    } else {
      CallEffect(s, c);
    }
  }

  lemma StepIsTick(s: KS)
    ensures Step(s, CallHardwareTimer) == HardwareTimer(s)
  {
    hide HardwareTimer;
  }

  /** fos_tick counts the hardware_timer calls of every run. */
  lemma {:induction false} ClockCounts(s: KS, calls: seq<Call>)
    requires Inv(s) && CanRun(s, calls)
    ensures Run(s, calls).tick as int == (s.tick as int + TickCalls(calls)) % 0x1_0000_0000
    decreases |calls|
  {
    hide Inv, Step, Enabled;
    if calls != [] {
      ClockStep(s, calls[0]);
      StepKeeps(s, calls[0]);
      ClockCounts(Step(s, calls[0]), calls[1..]);
    }
  }

  predicate Queued(s: KS, e: Entry) { e in Q(s.v, Ticks) }

  function Timeout(s: KS, e: Entry): u32 { TickOf(s, e).timeout }

  lemma {:induction false} SurvivorsMeaning(s: KS, es: seq<Entry>, e: Entry)
    ensures e in Survivors(s, es) <==> e in es && !Leaves(s, e)
  {
    hide Leaves;
    if es != [] {
      SurvivorsMeaning(s, es[1..], e);
      assert es == [es[0]] + es[1..];
    }
  }

  /** A timer that is queued fires at most once in a call, and then because it has run down. */
  lemma {:induction false} DueCount(s: KS, es: seq<Entry>, k: nat)
    requires NoDup(es)
    ensures multiset(Due(s, es))[k] == if Timer(k) in es && Timeout(s, Timer(k)) == 0 then 1 else 0
  {
    if es != [] {
      DueCount(s, es[1..], k);
      assert es == [es[0]] + es[1..];
      assert forall i | 0 <= i < |es[1..]| :: es[1..][i] == es[i + 1] != es[0];
      var one := if es[0].Timer? && TickOf(s, es[0]).timeout == 0 then [es[0].k] else [];
      assert multiset(one + Due(s, es[1..])) == multiset(one) + multiset(Due(s, es[1..]));
    }
  }

  // ----- one call, seen from one node

  lemma TickCall(s: KS, e: Entry)
    requires Inv(s) && Queued(s, e)
    ensures Queued(HardwareTimer(s), e) <==> !Leaves(s, e)
    ensures TickOf(HardwareTimer(s), e) == Ticked(s, e)
    ensures e.Timer? ==>
              multiset(HardwareTimer(s).fired)[e.k] == multiset(s.fired)[e.k] + if Timeout(s, e) == 0 then 1 else 0
  {
    hide Inv, HardwareTimer, Leaves, Ticked, Due, Survivors;
    HardwareTimerMeaning(s);
    SurvivorsMeaning(s, Q(s.v, Ticks), e);
    if e.Timer? {
      TicksDistinct(s);
      DueCount(s, Q(s.v, Ticks), e.k);
      assert multiset(s.fired + Due(s, Q(s.v, Ticks))) == multiset(s.fired) + multiset(Due(s, Q(s.v, Ticks)));
    }
  }

  /** A queued node counts down by one per hardware_timer call whatever other calls are made, until it reaches zero. */
  lemma {:induction false} CountsDown(s: KS, e: Entry, calls: seq<Call>)
    requires Inv(s) && CanRun(s, calls) && Queued(s, e) && TickCalls(calls) <= Timeout(s, e)
    ensures Queued(Run(s, calls), e) && Timeout(Run(s, calls), e) as int == Timeout(s, e) as int - TickCalls(calls)
    ensures TickOf(Run(s, calls), e).cycle == TickOf(s, e).cycle && TickOf(Run(s, calls), e).copy == TickOf(s, e).copy
    ensures e.Timer? ==> multiset(Run(s, calls).fired)[e.k] == multiset(s.fired)[e.k]
    decreases |calls|
  {
    hide Inv, HardwareTimer, Enabled;
    if calls != [] {
      StepKeeps(s, calls[0]);
      if calls[0].CallHardwareTimer? {
        TickCall(s, e);
      } else {
        OtherCallsGrow(s, calls[0]);
      }
      CountsDown(Step(s, calls[0]), e, calls[1..]);
    }
  }

  // ----- sleeping

  predicate Asleep(s: KS, t: nat) { Queued(s, Delay(t)) && !OnReady(s, t) }

  lemma SleeperIsOff(s: KS, t: nat)
    requires Inv(s) && Queued(s, Delay(t))
    ensures Asleep(s, t) && t in s.created && Task(t) !in s.v.at
  {
    QueuedTick(s, Delay(t));
  }

  lemma WokenIsReady(s: KS, t: nat)
    requires Inv(s) && Queued(s, Delay(t)) && Timeout(s, Delay(t)) == 0
    ensures OnReady(HardwareTimer(s), t) && !Queued(HardwareTimer(s), Delay(t))
  {
    hide HardwareTimer, Inv, OnReady, Survivors, Due, Ticked;
    SleeperIsOff(s, t);
    TickCall(s, Delay(t));
    HardwareTimerKeeps(s);
    SleeperWaitsNowhere(s, t);
    HardwareTimerMeaning(s);
    OffWaitsIsReady(HardwareTimer(s), t);
  }

  lemma SleeperWaitsNowhere(s: KS, t: nat)
    requires Inv(s) && Queued(s, Delay(t))
    ensures forall l :: Task(t) !in Q(s.v, l)
  {
    SleeperIsOff(s, t);
    OkOff(s.v, Task(t));
  }

  /**
    os_delay(n): over any run of calls the caller sleeps through the first n hardware_timer calls, and the next one
    makes it ready.
   */
  lemma DelayIsExact(s: KS, n: u32, calls: seq<Call>)
    requires Inv(s) && Enabled(s, CallDelay(n)) && CanRun(OsDelay(s, n), calls) && TickCalls(calls) <= n
    ensures var t := s.running;
            var s' := Run(OsDelay(s, n), calls);
            && Asleep(s', t) && (OnReady(HardwareTimer(s'), t) <==> TickCalls(calls) == n)
  {
    hide Inv, OsDelay, HardwareTimer, OnReady;
    var t, s0 := s.running, OsDelay(s, n);
    OsDelayKeeps(s, n);
    OsDelayFrame(s, n);
    CountsDown(s0, Delay(t), calls);
    RunKeeps(s0, calls);
    var s' := Run(s0, calls);
    SleeperIsOff(s', t);
    if TickCalls(calls) == n {
      WokenIsReady(s', t);
    } else {
      TickCall(s', Delay(t));
      HardwareTimerKeeps(s');
      SleeperIsOff(HardwareTimer(s'), t);
    }
  }

  // ----- software timers

  /** A one-shot timer fires on the tick after its timeout has run down, and is then off the queue. */
  lemma OneShotFiresOnce(s: KS, k: nat, timeout: u32, calls: seq<Call>)
    requires Inv(s) && Enabled(s, CallTimerReq(k, timeout, false)) && timeout > 0
    requires CanRun(TimerReq(s, k, timeout, false), calls) && TickCalls(calls) == timeout
    ensures var s' := Run(TimerReq(s, k, timeout, false), calls);
            && multiset(s'.fired)[k] == multiset(s.fired)[k] && Queued(s', Timer(k))
            && multiset(HardwareTimer(s').fired)[k] == multiset(s.fired)[k] + 1 && !Queued(HardwareTimer(s'), Timer(k))
  {
    hide Inv, HardwareTimer;
    var s0 := TimerReq(s, k, timeout, false);
    TimerReqKeeps(s, k, timeout, false);
    TimerReqQueues(s, k, timeout, false);
    CountsDown(s0, Timer(k), calls);
    RunKeeps(s0, calls);
    TickCall(Run(s0, calls), Timer(k));
  }

  lemma TimerReqQueues(s: KS, k: nat, timeout: u32, cycle: bool)
    requires Inv(s) && timeout > 0
    ensures Queued(TimerReq(s, k, timeout, cycle), Timer(k))
    ensures TickOf(TimerReq(s, k, timeout, cycle), Timer(k)) == TickV(timeout, timeout, cycle)
    ensures TimerReq(s, k, timeout, cycle).fired == s.fired
  {
  }

  /**
    Time accounted for by a cyclic timer: completed periods of copy + 1 ticks, and the part of this one already spent.
   */
  function Elapsed(s: KS, k: nat): int {
    multiset(s.fired)[k] * (TickOf(s, Timer(k)).copy as int + 1)
        + (TickOf(s, Timer(k)).copy as int - Timeout(s, Timer(k)) as int)
  }

  predicate Cycling(s: KS, k: nat) {
    Queued(s, Timer(k)) && TickOf(s, Timer(k)).cycle && Timeout(s, Timer(k)) <= TickOf(s, Timer(k)).copy
  }

  lemma CycleTick(s: KS, k: nat)
    requires Inv(s) && Cycling(s, k)
    ensures Cycling(HardwareTimer(s), k) && Elapsed(HardwareTimer(s), k) == Elapsed(s, k) + 1
    ensures TickOf(HardwareTimer(s), Timer(k)).copy == TickOf(s, Timer(k)).copy
  {
    hide Inv, HardwareTimer;
    TickCall(s, Timer(k));
    if Timeout(s, Timer(k)) == 0 {
      var f, c := multiset(s.fired)[k], TickOf(s, Timer(k)).copy as int + 1;
      assert (f + 1) * c == f * c + c;
    }
  }

  lemma CycleOther(s: KS, k: nat, c: Call)
    requires Inv(s) && Enabled(s, c) && !c.CallHardwareTimer? && Cycling(s, k)
    ensures Cycling(Step(s, c), k) && Elapsed(Step(s, c), k) == Elapsed(s, k)
    ensures TickOf(Step(s, c), Timer(k)).copy == TickOf(s, Timer(k)).copy
  {
    hide Inv, Step, TickOf;
    OtherCallsGrow(s, c);
  }

  /** A cyclic timer never stops and never drifts, whatever else is called. */
  lemma {:induction false} CycleRun(s: KS, k: nat, calls: seq<Call>)
    requires Inv(s) && Cycling(s, k) && CanRun(s, calls)
    ensures Cycling(Run(s, calls), k) && Elapsed(Run(s, calls), k) == Elapsed(s, k) + TickCalls(calls)
    ensures TickOf(Run(s, calls), Timer(k)).copy == TickOf(s, Timer(k)).copy
    decreases |calls|
  {
    hide Inv, HardwareTimer, Enabled, Cycling, Elapsed, TickOf;
    if calls != [] {
      StepKeeps(s, calls[0]);
      if calls[0].CallHardwareTimer? {
        CycleTick(s, k);
      } else {
        CycleOther(s, k, calls[0]);
      }
      CycleRun(Step(s, calls[0]), k, calls[1..]);
    }
  }

  /** Requested with period `timeout`, a cyclic timer has fired once for every timeout + 1 hardware_timer calls. */
  lemma CyclicTimerPeriod(s: KS, k: nat, timeout: u32, calls: seq<Call>)
    requires Inv(s) && Enabled(s, CallTimerReq(k, timeout, true)) && timeout > 0
    requires CanRun(TimerReq(s, k, timeout, true), calls)
    ensures multiset(Run(TimerReq(s, k, timeout, true), calls).fired)[k]
         == multiset(s.fired)[k] + TickCalls(calls) / (timeout as int + 1)
  {
    hide Inv, Run, CanRun, TickCalls, TimerReq;
    var s0 := TimerReq(s, k, timeout, true);
    TimerReqKeeps(s, k, timeout, true);
    TimerReqQueues(s, k, timeout, true);
    CycleRun(s0, k, calls);
    var s' := Run(s0, calls);
    Quotient(TickCalls(calls), timeout as int + 1, multiset(s.fired)[k], multiset(s'.fired)[k],
             timeout as int - Timeout(s', Timer(k)) as int);
  }

  lemma Quotient(m: int, c: int, f: int, f': int, r: int)
    requires c > 0 && 0 <= r < c && f' * c + r == f * c + m
    ensures f' == f + m / c
  {
    var d := f' - f;
    assert d * c == f' * c - f * c;
    var x := d - m / c;
    assert x * c == d * c - (m / c) * c;
    assert x >= 1 ==> x * c >= c;
    assert x <= -1 ==> x * c <= -c;
  }

  // ----- order

  ghost predicate Before<T>(q: seq<T>, a: T, b: T) { exists i, j :: 0 <= i < j < |q| && q[i] == a && q[j] == b }

  lemma BeforeTail<T>(q: seq<T>, a: T, b: T)
    requires q != []
    ensures Before(q, a, b) <==> (q[0] == a && b in q[1..]) || Before(q[1..], a, b)
  {
  }

  lemma {:induction false} SurvivorsOrder(s: KS, es: seq<Entry>, a: Entry, b: Entry)
    requires Before(es, a, b) && !Leaves(s, a) && !Leaves(s, b)
    ensures Before(Survivors(s, es), a, b)
  {
    hide Leaves, Before;
    if es == [] {
      BeforeNeedsTwo(es, a, b);
    } else {
      BeforeTail(es, a, b);
      SurvivorsMeaning(s, es[1..], b);
      if !Leaves(s, es[0]) {
        assert Survivors(s, es)[1..] == Survivors(s, es[1..]);
        BeforeTail(Survivors(s, es), a, b);
      } else {
        assert Survivors(s, es) == Survivors(s, es[1..]);
      }
      if Before(es[1..], a, b) {
        SurvivorsOrder(s, es[1..], a, b);
      }
    }
  }

  lemma BeforeNeedsTwo<T>(q: seq<T>, a: T, b: T)
    requires Before(q, a, b)
    ensures |q| >= 2 && a in q && b in q
  {
  }

  lemma {:induction false} WokenContains(s: KS, es: seq<Entry>, t: nat)
    requires Delay(t) in es && Leaves(s, Delay(t))
    ensures Task(t) in Woken(s, es, PrioOf(s, t))
  {
    hide Leaves, PrioOf;
    assert es == [es[0]] + es[1..];
    if es[0] != Delay(t) {
      WokenContains(s, es[1..], t);
    }
  }

  /** Due sleepers of one priority are appended to its ready queue in tick queue order. */
  lemma {:induction false} WokenOrder(s: KS, es: seq<Entry>, a: nat, b: nat)
    requires Before(es, Delay(a), Delay(b)) && Leaves(s, Delay(a)) && Leaves(s, Delay(b))
             && PrioOf(s, a) == PrioOf(s, b)
    ensures Before(Woken(s, es, PrioOf(s, a)), Task(a), Task(b))
  {
    hide Leaves, Before, PrioOf;
    if es == [] {
      BeforeNeedsTwo(es, Delay(a), Delay(b));
    } else {
      var p := PrioOf(s, a);
      BeforeTail(es, Delay(a), Delay(b));
      var one := if es[0].Delay? && Leaves(s, es[0]) && PrioOf(s, es[0].t) == p then [Task(es[0].t)] else [];
      assert Woken(s, es, p) == one + Woken(s, es[1..], p);
      if one != [] {
        assert Woken(s, es, p)[1..] == Woken(s, es[1..], p);
        BeforeTail(Woken(s, es, p), Task(a), Task(b));
      } else {
        assert Woken(s, es, p) == Woken(s, es[1..], p);
      }
      if Before(es[1..], Delay(a), Delay(b)) {
        WokenOrder(s, es[1..], a, b);
      } else {
        WokenContains(s, es[1..], b);
      }
    }
  }

  lemma GrowsOrder(s: KS, s': KS, a: Entry, b: Entry)
    requires Grows(s, s') && Before(Q(s.v, Ticks), a, b)
    ensures Before(Q(s'.v, Ticks), a, b)
  {
  }

  /** Over any run, two nodes keep their order on the tick queue as long as neither has run down. */
  lemma {:induction false} OrderKept(s: KS, a: Entry, b: Entry, calls: seq<Call>)
    requires Inv(s) && CanRun(s, calls) && Before(Q(s.v, Ticks), a, b)
    requires TickCalls(calls) <= Timeout(s, a) && TickCalls(calls) <= Timeout(s, b)
    ensures Before(Q(Run(s, calls).v, Ticks), a, b)
    decreases |calls|
  {
    hide Inv, Step, Enabled, Before;
    if calls != [] {
      OrderStep(s, calls[0], a, b);
      StepKeeps(s, calls[0]);
      OrderKept(Step(s, calls[0]), a, b, calls[1..]);
    }
  }

  /** One step keeps the order, and a tick counts both nodes down by one. */
  lemma OrderStep(s: KS, c: Call, a: Entry, b: Entry)
    requires Inv(s) && Enabled(s, c) && Before(Q(s.v, Ticks), a, b)
    requires c.CallHardwareTimer? ==> Timeout(s, a) > 0 && Timeout(s, b) > 0
    ensures Before(Q(Step(s, c).v, Ticks), a, b)
    ensures var n := if c.CallHardwareTimer? then 1 else 0;
            Timeout(Step(s, c), a) == Timeout(s, a) - n && Timeout(Step(s, c), b) == Timeout(s, b) - n
  {
    hide Inv, HardwareTimer, Enabled, Before;
    BeforeNeedsTwo(Q(s.v, Ticks), a, b);
    if c.CallHardwareTimer? {
      TickCall(s, a);
      TickCall(s, b);
      HardwareTimerMeaning(s);
      SurvivorsOrder(s, Q(s.v, Ticks), a, b);
    } else {
      hide Step;
      OtherCallsGrow(s, c);
      GrowsOrder(s, Step(s, c), a, b);
    }
  }

  /**
    Sleepers due on the same tick: `a` went to sleep before the running task calls os_delay(n), and has n ticks left
    then. When both are due, after n ticks of any run, the pass appends them to their ready queue, if it is the same,
    with `a` first.
   */
  lemma SleepersWakeInOrder(s: KS, a: nat, n: u32, calls: seq<Call>)
    requires Inv(s) && Enabled(s, CallDelay(n)) && CanRun(OsDelay(s, n), calls) && TickCalls(calls) == n
    requires Queued(s, Delay(a)) && Timeout(s, Delay(a)) == n
    ensures var s' := Run(OsDelay(s, n), calls);
            PrioOf(s', a) == PrioOf(s', s.running) ==>
              var p := PrioOf(s', a);
              var woken := Woken(s', Q(s'.v, Ticks), p);
              && Before(woken, Task(a), Task(s.running))
              && Q(HardwareTimer(s').v, Ready(p)) == Q(s'.v, Ready(p)) + woken
  {
    hide Inv, OsDelay, Before, Woken, HardwareTimer, OnReady, Survivors, Due, Ticked;
    var b, s0 := s.running, OsDelay(s, n);
    OsDelayKeeps(s, n);
    OsDelayFrame(s, n);
    LastIsAfter(Q(s.v, Ticks), Delay(a), Delay(b));
    CountsDown(s0, Delay(a), calls);
    CountsDown(s0, Delay(b), calls);
    OrderKept(s0, Delay(a), Delay(b), calls);
    RunKeeps(s0, calls);
    var s' := Run(s0, calls);
    HardwareTimerMeaning(s');
    if PrioOf(s', a) == PrioOf(s', b) {
      WokenOrder(s', Q(s'.v, Ticks), a, b);
    }
  }

  lemma LastIsAfter<T>(q: seq<T>, a: T, b: T)
    requires a in q
    ensures Before(q + [b], a, b)
  {
    var i :| 0 <= i < |q| && q[i] == a;
    assert (q + [b])[i] == a && (q + [b])[|q|] == b;
  }
}
