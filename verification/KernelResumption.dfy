/**
 What follows a tick inside task_create or task_prio_change. While the caller is away other tasks run, with a priority
 marked too early or a task on no list, and what they do to the mark decides how the call ends.
 */
module KernelResumption {
  import opened Words
  import opened ListModel
  import opened KernelSpec
  import opened KernelInvariants
  import opened KernelScheduling
  import opened KernelFrames
  import opened KernelSwitching
  import opened KernelTicks
  import opened KernelInterrupts
  import B = Bitmap

  // ----- runs in which a task does not run

  /** Task `r` does not run before the end of the run. */
  predicate Away(s: KS, calls: seq<Call>, r: nat)
    decreases |calls|
  {
    calls == [] || (s.running != r && Away(Step(s, calls[0]), calls[1..], r))
  }

  /** Only the running task's priority changes. */
  lemma PrioStays(s: KS, c: Call, u: nat)
    requires Inv(s) && Enabled(s, c) && u in s.created && u != s.running
    ensures PrioOf(Step(s, c), u) == PrioOf(s, u)
  {
    hide Inv, Step;
    if c.CallHardwareTimer? {
      TimerStep(s);
    } else {
      CallEffect(s, c);
    }
  }

  lemma TimerStep(s: KS)
    ensures var h := Step(s, CallHardwareTimer);
            h.prio == s.prio && h.running == s.running && h.created == s.created && h.locked == s.locked
  {
    hide HardwareTimer;
    TickFields(s);
  }

  /** `v` is ready at priority `p` and will be until `r` runs: it is `r`, or waits behind `r`. */
  predicate Waits(s: KS, r: nat, v: nat, p: Prio) {
    && OnReady(s, r) && OnReady(s, v) && PrioOf(s, v) == p && PrioOf(s, r) <= p
    && (v == r || (PrioOf(s, r) < p && v != s.running))
  }

  lemma StepWaits(s: KS, c: Call, r: nat, v: nat, p: Prio)
    requires Inv(s) && Enabled(s, c) && Waits(s, r, v, p) && s.running != r
    ensures Waits(Step(s, c), r, v, p)
  {
    hide Inv, Step, Enabled;
    ReadyIsCreated(s, r);
    ReadyIsCreated(s, v);
    PrioStays(s, c, r);
    PrioStays(s, c, v);
    StaysReady(s, c, r);
    StaysReady(s, c, v);
    SwitchesToMostUrgent(s, c);
  }

  lemma {:induction false} RunWaits(s: KS, calls: seq<Call>, r: nat, v: nat, p: Prio)
    requires Inv(s) && CanRun(s, calls) && Away(s, calls, r) && Waits(s, r, v, p)
    ensures Inv(Run(s, calls)) && Waits(Run(s, calls), r, v, p)
    decreases |calls|
  {
    hide Inv, Step, Enabled, Waits;
    if calls != [] {
      StepWaits(s, calls[0], r, v, p);
      StepKeeps(s, calls[0]);
      RunWaits(Step(s, calls[0]), calls[1..], r, v, p);
    }
  }

  // ----- stepping aside: whoever runs goes to sleep until `r` runs

  function ReadySet(s: KS): set<nat> { set u | u in s.created && OnReady(s, u) }

  /** Just scheduled: the running task is a most urgent one and last in its queue. */
  ghost predicate Chosen(s: KS) {
    && OnReady(s, s.running) && MostUrgent(s)
    && var q := Q(s.v, Ready(PrioOf(s, s.running))); q != [] && q[|q| - 1] == Task(s.running)
  }

  /** The first task of the most urgent queue is chosen, and nobody's readiness changes. */
  lemma ScheduleChooses(s: KS)
    requires Inv(s) && !s.locked
    ensures var s' := Schedule(s);
            && Inv(s') && !s'.locked && s'.prio == s.prio && s'.created == s.created && ReadySet(s') == ReadySet(s)
            && Chosen(s') && Q(s.v, Ready(PrioOf(s, s'.running))) != []
            && Q(s.v, Ready(PrioOf(s, s'.running)))[0] == Task(s'.running)
  {
    hide Core, OnReady, MostUrgent, Fetch, ReadyDelete, ReadyTail, TableSearch;
    ScheduleKeeps(s);
    ScheduleSwitches(s);
    TableFindsTask(s, {});
    FetchRotates(s);
    FetchFields(s);
  }

  /** Only the sleeper's readiness changes. */
  lemma DelaySleeps(s: KS, n: u32)
    requires Inv(s) && !s.locked && OnReady(s, s.running) && s.running != IDLE
    ensures var s' := OsDelay(s, n);
            && Inv(s') && !s'.locked && s'.prio == s.prio && s'.created == s.created && s'.running == s.running
            && ReadySet(s') == ReadySet(s) - {s.running}
  {
    hide Core, OsDelay;
    OsDelayKeeps(s, n);
    OsDelayFrame(s, n);
    SleeperGone(s, n);
    ReadyIsCreated(s, s.running);
  }

  lemma SleeperGone(s: KS, n: u32)
    requires Inv(s) && OnReady(s, s.running)
    ensures !OnReady(OsDelay(s, n), s.running)
    ensures forall u | u != s.running :: OnReady(OsDelay(s, n), u) == OnReady(s, u)
  {
  }

  /** The run consists of sleeping and scheduling. */
  predicate Sleepy(calls: seq<Call>) { forall i | 0 <= i < |calls| :: calls[i].CallDelay? || calls[i].CallSchedule? }

  /** What a run of stepping aside leads from and to. */
  ghost predicate SteppedAside(s: KS, s': KS, calls: seq<Call>, r: nat) {
    && CanRun(s, calls) && Away(s, calls, r) && Sleepy(calls) && Run(s, calls) == s'
    && Inv(s') && s'.running == r && Chosen(s') && s'.prio == s.prio && ReadySet(s') <= ReadySet(s)
  }

  lemma RunFirst(s: KS, c: Call, rest: seq<Call>, r: nat)
    requires Enabled(s, c) && CanRun(Step(s, c), rest)
    ensures CanRun(s, [c] + rest) && Run(s, [c] + rest) == Run(Step(s, c), rest)
    ensures s.running != r && Away(Step(s, c), rest, r) ==> Away(s, [c] + rest, r)
    ensures Sleepy(rest) && (c.CallDelay? || c.CallSchedule?) ==> Sleepy([c] + rest)
  {
    hide Step, Enabled;
    assert ([c] + rest)[1..] == rest;
  }

  /**
    Whoever is in front of `r` can sleep until `r` runs. The idle task, which cannot, has nobody behind it in its queue.
   */
  lemma {:induction false} StepAside(s: KS, r: nat) returns (calls: seq<Call>)
    requires Inv(s) && !s.locked && Chosen(s) && OnReady(s, r) && PrioOf(s, IDLE) == B.SYSTEM_WORD - 1
    ensures SteppedAside(s, Run(s, calls), calls, r)
    decreases |ReadySet(s)|, if s.running == IDLE then 1 else 0
  {
    hide Inv, OnReady, Schedule, OsDelay;
    if s.running == r {
      return [];
    }
    ReadyHere(s, s.running);
    ReadyHere(s, r);
    if s.running == IDLE {
      ScheduleChooses(s);
      IdleGivesWay(s, r);
      var rest := StepAside(Schedule(s), r);
      RunFirst(s, CallSchedule, rest, r);
      calls := [CallSchedule] + rest;
    } else {
      DelaySleeps(s, 0);
      var s1 := OsDelay(s, 0);
      ScheduleChooses(s1);
      ReadyHere(s1, r);
      ReadyHere(Schedule(s1), r);
      var rest := StepAside(Schedule(s1), r);
      RunFirst(s1, CallSchedule, rest, r);
      RunFirst(s, CallDelay(0), [CallSchedule] + rest, r);
      calls := [CallDelay(0)] + ([CallSchedule] + rest);
    }
  }

  lemma ReadyHere(s: KS, r: nat)
    ensures r in ReadySet(s) <==> OnReady(s, r)
  {
  }

  /** The idle task last in the least urgent queue with somebody before it: that somebody is chosen next. */
  lemma IdleGivesWay(s: KS, r: nat)
    requires Inv(s) && !s.locked && Chosen(s) && s.running == IDLE && PrioOf(s, IDLE) == B.SYSTEM_WORD - 1
    requires OnReady(s, r) && r != IDLE
    ensures Schedule(s).running != IDLE
  {
    hide Core, Schedule, B.Valid, B.Marked;
    ScheduleChooses(s);
    InLeastUrgent(s, r);
    NoDupHead(Q(s.v, Ready(PrioOf(s, IDLE))));
  }

  lemma InLeastUrgent(s: KS, r: nat)
    requires Core(s, {}) && OnReady(s, r) && PrioOf(s, r) >= B.SYSTEM_WORD - 1
    ensures PrioOf(s, r) == B.SYSTEM_WORD - 1 && Task(r) in Q(s.v, Ready(PrioOf(s, r)))
    ensures NoDup(Q(s.v, Ready(PrioOf(s, r))))
  {
    hide Indexed, Counted, Ok, NoDup;
    Located(s, Task(r), {});
    QueueNoDup(s.v, Ready(PrioOf(s, r)));
  }

  lemma NoDupHead(q: seq<Entry>)
    ensures NoDup(q) && q != [] && q[0] == q[|q| - 1] ==> |q| == 1
  {
  }

  // ----- the same while task `t` is on no list

  lemma StepForgets(s: KS, t: nat, c: Call)
    requires RunsWithout(s, t) && (Enabled(s, c) || (Enabled(Forget(s, t), c) && (c.CallDelay? || c.CallSchedule?)))
    ensures Enabled(s, c) && Enabled(Forget(s, t), c)
    ensures RunsWithout(Step(s, c), t) && Forget(Step(s, c), t) == Step(Forget(s, t), c)
    ensures Forget(s, t).running == s.running
  {
    hide Core, Step;
    var others := s.created - {t};
    assert Forget(s, t) == Fewer(s, others) && Enabled(s, c) && Enabled(Forget(s, t), c);
    StepWithout(s, t, c);
    StepKeeps(Forget(s, t), c);
    StepCreates(s, others, c);
    StepCreates(s, s.created, c);
    assert Fewer(s, s.created) == s;
    assert Forget(Step(s, c), t) == Step(Forget(s, t), c);
  }

  lemma {:induction false} RunForgets(s: KS, t: nat, calls: seq<Call>, r: nat)
    requires RunsWithout(s, t) && (CanRun(s, calls) || (CanRun(Forget(s, t), calls) && Sleepy(calls)))
    ensures CanRun(s, calls) && CanRun(Forget(s, t), calls) && (Away(s, calls, r) <==> Away(Forget(s, t), calls, r))
    ensures RunsWithout(Run(s, calls), t) && Run(Forget(s, t), calls) == Forget(Run(s, calls), t)
    decreases |calls|
  {
    hide RunsWithout, Step, Enabled, Forget;
    if calls != [] {
      assert !CanRun(s, calls) ==> Sleepy(calls[1..]) && (calls[0].CallDelay? || calls[0].CallSchedule?);
      StepForgets(s, t, calls[0]);
      RunForgets(Step(s, calls[0]), t, calls[1..], r);
    }
  }

  lemma WithoutLacks(s: KS, t: nat)
    requires RunsWithout(s, t) && PrioOf(s, t) < B.SYSTEM_WORD
    ensures Lacks(s, t) && ReadySet(Forget(s, t)) == ReadySet(s)
    ensures forall u :: OnReady(Forget(s, t), u) <==> OnReady(s, u)
  {
    hide Core, OnReady;
    RememberCore(s, t);
    LacksReady(s, t);
  }

  lemma LacksReady(s: KS, t: nat)
    requires Core(s, {t}) && t in s.created
    ensures !OnReady(s, t)
  {
  }

  lemma StaysEmpty(s: KS, n: u32, q: Prio)
    requires Q(s.v, Ready(q)) == []
    ensures Q(OsDelay(s, n).v, Ready(q)) == []
  {
  }

  // ----- a mark too many

  /** `x` is `h` with priority `q` marked though its queue is empty; somebody more urgent runs. */
  ghost predicate Stale(h: KS, x: KS, t: nat, q: Prio) {
    && Extra(h, x, q) && q < B.SYSTEM_WORD && Q(h.v, Ready(q)) == [] && RunsWithout(h, t) && !h.locked
    && PrioOf(h, t) < B.SYSTEM_WORD && PrioOf(h, IDLE) == B.SYSTEM_WORD - 1
    && OnReady(h, h.running) && PrioOf(h, h.running) < q
  }

  /** Somebody more urgent than the mark is ready, or nobody is. */
  ghost predicate Drained(h: KS, x: KS, t: nat, q: Prio) {
    && Extra(h, x, q) && q < B.SYSTEM_WORD && Q(h.v, Ready(q)) == [] && RunsWithout(h, t) && !h.locked
    && PrioOf(h, t) < B.SYSTEM_WORD && PrioOf(h, IDLE) == B.SYSTEM_WORD - 1 && Lacks(h, t)
  }

  /** The running task goes to sleep: the mark stays. */
  lemma DelayExtra(h: KS, x: KS, q: Prio, n: u32)
    requires Extra(h, x, q) && PrioOf(h, h.running) != q
    ensures Extra(OsDelay(h, n), OsDelay(x, n), q)
  {
    hide B.Valid, B.Marked, B.Clear, InsertTail;
    B.ClearMeaning(h.idx, PrioOf(h, h.running));
    B.ClearMeaning(x.idx, PrioOf(h, h.running));
  }

  lemma StaleDelay(h: KS, x: KS, t: nat, q: Prio)
    requires Stale(h, x, t, q)
    ensures var h1, x1 := OsDelay(h, 0), OsDelay(x, 0);
            && Enabled(x, CallDelay(0)) && x.running == h.running && h1.prio == h.prio && x1.running == h.running
            && Drained(h1, x1, t, q) && ReadySet(h1) < ReadySet(h)
  {
    hide Inv, OsDelay, OnReady, Lacks, RunsWithout, Extra, ReadySet;
    ExtraFields(h, x, q);
    var f := Forget(h, t);
    WithoutLacks(h, t);
    ForgetInv(h, t);
    DelaySleeps(f, 0);
    StepForgets(h, t, CallDelay(0));
    StaysEmpty(h, 0, q);
    DelayExtra(h, x, q, 0);
    ExtraFields(OsDelay(h, 0), OsDelay(x, 0), q);
    WithoutLacks(OsDelay(h, 0), t);
    ReadyHere(h, h.running);
  }

  lemma ExtraFields(h: KS, x: KS, q: Prio)
    requires Extra(h, x, q)
    ensures x.running == h.running && x.locked == h.locked && x.prio == h.prio && x.v == h.v
    ensures forall u :: OnReady(x, u) == OnReady(h, u)
  {
    hide B.Valid, B.Marked;
  }

  lemma ForgetInv(h: KS, t: nat)
    requires RunsWithout(h, t)
    ensures Inv(Forget(h, t)) && Forget(h, t).running == h.running
  {
    hide Inv;
  }

  /** Somebody more urgent is left: schedule() finds them, whatever is marked. */
  lemma DrainedFetch(h: KS, x: KS, t: nat, q: Prio)
    requires Drained(h, x, t, q) && !NobodyUpTo(h, q)
    ensures Stale(Schedule(h), Schedule(x), t, q) && ReadySet(Schedule(h)) == ReadySet(h)
    ensures Schedule(h).prio == h.prio
  {
    hide Inv, Schedule, OnReady, Lacks, RunsWithout, Extra, ReadySet, Chosen;
    var f := Forget(h, t);
    WithoutLacks(h, t);
    ForgetInv(h, t);
    ScheduleChooses(f);
    LeavesEmpty(f, q);
    StepForgets(h, t, CallSchedule);
    ForgetInv(Schedule(h), t);
    WithoutLacks(Schedule(h), t);
    FetchExtra(h, x, q, t);
    ExtraFields(h, x, q);
    Unlocked(h);
    Unlocked(x);
  }

  lemma Unlocked(s: KS)
    requires !s.locked
    ensures Schedule(s) == Fetch(s) && Enabled(s, CallSchedule)
  {
  }

  /** With somebody ready before queue `q`, which is empty, one of those is chosen and `q` stays empty. */
  lemma LeavesEmpty(s: KS, q: Prio)
    requires Inv(s) && !s.locked && Q(s.v, Ready(q)) == [] && !NobodyUpTo(s, q)
    ensures var s' := Schedule(s); Q(s'.v, Ready(q)) == [] && PrioOf(s', s'.running) < q && OnReady(s', s'.running)
  {
    hide Core, Fetch, OnReady, TableSearch, B.Get;
    FetchKeeps(s);
    FetchRotates(s);
    TableFindsTask(s, {});
    KeptFields(s);
    assert PrioOf(Fetch(s), Fetch(s).running) == B.Get(s.idx);
  }

  lemma KeptFields(s: KS)
    ensures Fetch(s).prio == s.prio && Fetch(s).locked == s.locked
  {
    hide Fetch;
    FetchFields(s);
  }

  /** When everybody more urgent has gone to sleep, schedule() follows the head of the marked queue. */
  lemma {:induction false} SleepersExpose(h: KS, x: KS, t: nat, q: Prio) returns (calls: seq<Call>)
    requires Stale(h, x, t, q)
    ensures CanRun(x, calls) && !Run(x, calls).locked && TableSearch(Run(x, calls)) == Head(Ready(q))
    ensures PrioOf(h, Run(x, calls).running) < q && forall r | PrioOf(h, r) >= q :: Away(x, calls, r)
    decreases ReadySet(h)
  {
    hide RunsWithout, Extra, OsDelay, Schedule, TableSearch, OnReady, NobodyUpTo, Lacks, Enabled, ReadySet;
    var h1, x1 := OsDelay(h, 0), OsDelay(x, 0);
    StaleDelay(h, x, t, q);
    ExtraFields(h1, x1, q);
    var rest: seq<Call> := [];
    if NobodyUpTo(h1, q) {
      ExtraSearch(h1, x1, q, t);
    } else {
      DrainedFetch(h1, x1, t, q);
      var more := SleepersExpose(Schedule(h1), Schedule(x1), t, q);
      Unlocked(x1);
      forall r | PrioOf(h, r) >= q
        ensures Away(x1, [CallSchedule] + more, r)
      {
        RunFirst(x1, CallSchedule, more, r);
      }
      RunFirst(x1, CallSchedule, more, 0);
      rest := [CallSchedule] + more;
    }
    calls := [CallDelay(0)] + rest;
    RunFirst(x, CallDelay(0), rest, 0);
    forall r | PrioOf(h, r) >= q
      ensures Away(x, calls, r)
    {
      RunFirst(x, CallDelay(0), rest, r);
    }
  }

  // ----- the tick inside task_create

  /** What the tick leaves, `h` without the mark of priority `p` and `x` with it. */
  ghost predicate Interim(h: KS, x: KS, t: nat, p: Prio, r: nat) {
    && Lacks(h, t) && Extra(h, x, p) && p < B.SYSTEM_WORD && PrioOf(h, t) == p
    && h.running == r && r != t && OnReady(h, r)
  }

  lemma AfterTick(s: KS, t: nat, p: Prio)
    requires Inv(s) && OnReady(s, s.running) && t !in s.created && p < B.SYSTEM_WORD
    ensures var h, x := HardwareTimer(Known(s, t, p)), HardwareTimer(Creating(s, t, p));
            && Interim(h, x, t, p, s.running) && h.locked == s.locked
            && (forall u | u in s.created :: PrioOf(h, u) == PrioOf(s, u))
            && (forall q :: Q(h.v, Ready(q)) == Q(s.v, Ready(q)) + Woken(s, Q(s.v, Ticks), q))
  {
    hide Inv, Core, HardwareTimer, Woken, Lacks, Extra;
    var b, r := Known(s, t, p), s.running;
    KnownLacks(s, t, p);
    TickLacks(b, t);
    TickExtra(b, Creating(s, t, p), p);
    KnownQueues(s, t, p, r);
    ListedIsReady(HardwareTimer(b), t, r);
  }

  lemma KnownQueues(s: KS, t: nat, p: Prio, r: nat)
    requires Inv(s) && OnReady(s, r) && t !in s.created
    ensures forall l :: Q(Known(s, t, p).v, l) == Q(s.v, l)
    ensures forall u | u in s.created :: PrioOf(Known(s, t, p), u) == PrioOf(s, u)
    ensures r in s.created && Task(r) in Q(s.v, Ready(PrioOf(s, r))) && Known(s, t, p).created == s.created + {t}
    ensures Known(s, t, p).running == s.running
  {
    hide Indexed, Counted;
    Located(s, Task(r), {});
  }

  lemma ListedIsReady(h: KS, t: nat, r: nat)
    requires Lacks(h, t) && r in h.created && Task(r) in Q(h.v, Ready(PrioOf(h, r)))
    ensures OnReady(h, r)
  {
    hide Indexed, Counted;
  }

  /**
    The caller is first in its ready queue, and nobody is ready, or wakes with the next tick, at a more urgent priority.
   */
  predicate GoesOn(s: KS) {
    var r := PrioOf(s, s.running);
    && Q(s.v, Ready(r)) != [] && Q(s.v, Ready(r))[0] == Task(s.running)
    && forall q | 0 <= q < r :: Q(s.v, Ready(q)) == [] && Woken(s, Q(s.v, Ticks), q) == []
  }

  predicate First(h: KS, r: nat) {
    && Q(h.v, Ready(PrioOf(h, r))) != [] && Q(h.v, Ready(PrioOf(h, r)))[0] == Task(r)
    && forall q | 0 <= q < PrioOf(h, r) :: Q(h.v, Ready(q)) == []
  }

  lemma FetchedIsFirst(h: KS, t: nat, r: nat)
    requires Lacks(h, t) && OnReady(h, r)
    ensures Fetch(h).running == r <==> First(h, r)
    ensures forall q: Prio | NobodyUpTo(h, q) :: q < PrioOf(h, r)
    ensures forall q: Prio | !NobodyUpTo(h, q) :: PrioOf(h, Fetch(h).running) <= q
    ensures OnReady(h, Fetch(h).running) && PrioOf(h, Fetch(h).running) <= PrioOf(h, r)
  {
    hide Core, OnReady, Fetch, TableSearch, B.Get;
    TableFindsTask(h, {t});
    FetchRuns(h);
    ReadyIsListed(h, r, {t});
  }

  lemma FetchRuns(h: KS)
    requires TableSearch(h).Task?
    ensures Fetch(h).running == TableSearch(h).t
  {
    hide ReadyDelete, ReadyTail, TableSearch, Fetch;
    FetchSwitches(h);
  }

  lemma GoesOnMeaning(s: KS, t: nat, p: Prio)
    requires Inv(s) && OnReady(s, s.running) && t !in s.created && p < B.SYSTEM_WORD
    ensures First(HardwareTimer(Known(s, t, p)), s.running) <==> GoesOn(s)
  {
    hide Inv, OnReady, Interim, HardwareTimer, Woken, Known;
    AfterTick(s, t, p);
    KnownQueues(s, t, p, s.running);
  }

  /**
    The tick leaves the processor with task_create's caller if and only if the scheduler is locked, or the caller is as
    urgent as the new priority, first in its queue, and nobody more urgent is ready or wakes.
   */
  lemma CallerGoesOnIff(s: KS, t: nat, p: Prio)
    requires Inv(s) && OnReady(s, s.running) && t !in s.created && p < B.SYSTEM_WORD
    ensures var x := HardwareTimer(Creating(s, t, p));
            (x.locked || TableSearch(x).Task?) && Schedule(x).running == s.running
            <==> s.locked || (PrioOf(s, s.running) <= p && GoesOn(s))
  {
    hide Inv, OnReady, HardwareTimer, Known, Creating, Lacks, GoesOn, First, TableSearch, Fetch, NobodyUpTo, Extra;
    var h, x, r := HardwareTimer(Known(s, t, p)), HardwareTimer(Creating(s, t, p)), s.running;
    AfterTick(s, t, p);
    GoesOnMeaning(s, t, p);
    KnownQueues(s, t, p, r);
    FetchedIsFirst(h, t, r);
    ExtraFields(h, x, p);
    ExtraSearch(h, x, p, t);
    if !NobodyUpTo(h, p) {
      FetchExtra(h, x, p, t);
      ExtraFields(Fetch(h), Fetch(x), p);
    }
  }

  // ----- the whole call

  /** Between the tick and the caller's turn the table leads to tasks, and then the rest of the call ends well. */
  ghost predicate Resumes(y: KS, r: nat, t: nat, p: Prio) {
    if y.running == r then Inv(Linked(y, t, p)) else y.locked || TableSearch(y).Task?
  }

  /**
    task_create with a tick between its marking the priority and its linking the task, over everything that may run
    before its caller goes on: schedule() never follows a list head, and the call ends well.
   */
  ghost predicate EndsWell(s: KS, t: nat, p: Prio) {
    var x := HardwareTimer(Creating(s, t, p));
    && (x.locked || TableSearch(x).Task?)
    && forall calls | CanRun(Schedule(x), calls) && Away(Schedule(x), calls, s.running) ::
         Resumes(Run(Schedule(x), calls), s.running, t, p)
  }

  /** Somebody is ready at the priority, or wakes to it with the next tick. */
  predicate Occupied(s: KS, p: Prio) { Q(s.v, Ready(p)) != [] || Woken(s, Q(s.v, Ticks), p) != [] }

  /** What a caller of task_create can check beforehand. */
  predicate Survivable(s: KS, p: Prio) { s.locked || (PrioOf(s, s.running) <= p && (GoesOn(s) || Occupied(s, p))) }

  lemma StepKeepsPrio(s: KS, t: nat, c: Call)
    requires RunsWithout(s, t) && Enabled(s, c)
    ensures PrioOf(Step(s, c), t) == PrioOf(s, t)
  {
    hide Inv, Step, RunsWithout;
    ForgetInv(s, t);
    StepForgets(s, t, c);
    ForgetsPrio(s, t, c);
    if c.CallHardwareTimer? {
      TimerStep(s);
    } else {
      CallEffect(Forget(s, t), c);
    }
  }

  lemma ForgetsPrio(s: KS, t: nat, c: Call)
    requires RunsWithout(s, t)
    ensures Forget(s, t).prio == s.prio && Forget(s, t).running == s.running && t in s.created
  {
    hide Inv;
  }

  lemma {:induction false} RunKeepsPrio(s: KS, t: nat, calls: seq<Call>)
    requires RunsWithout(s, t) && CanRun(s, calls)
    ensures RunsWithout(Run(s, calls), t) && PrioOf(Run(s, calls), t) == PrioOf(s, t)
    decreases |calls|
  {
    hide RunsWithout, Step, Enabled;
    if calls != [] {
      StepWithout(s, t, calls[0]);
      StepKeepsPrio(s, t, calls[0]);
      RunKeepsPrio(Step(s, calls[0]), t, calls[1..]);
    }
  }

  /** Somebody is ready at the new task's priority: its mark is right, and the task can be linked. */
  lemma MarkedLinks(y: KS, t: nat, v: nat)
    requires RunsWithout(y, t) && PrioOf(y, t) < B.SYSTEM_WORD && OnReady(y, v) && PrioOf(y, v) == PrioOf(y, t)
    ensures Inv(Linked(y, t, PrioOf(y, t)))
  {
    hide Inv, Core, OnReady, Linked, B.Valid, B.Marked;
    WithoutLacks(y, t);
    ReadyIsListed(y, v, {t});
    ValidIndex(y, {t});
    LinkedCreates(y, y, t);
  }

  lemma ValidIndex(y: KS, off: set<nat>)
    requires Core(y, off)
    ensures B.Valid(y.idx)
  {
    hide B.Valid, B.Marked;
  }

  /** Nobody is ready at the new task's priority: it is not marked, and the task is linked without a mark. */
  lemma UnmarkedLinks(y: KS, t: nat)
    requires RunsWithout(y, t) && PrioOf(y, t) < B.SYSTEM_WORD
    requires forall v | OnReady(y, v) :: PrioOf(y, v) != PrioOf(y, t)
    ensures !Inv(Linked(y, t, PrioOf(y, t)))
  {
    hide Inv, Core, OnReady, B.Valid, B.Marked;
    var p := PrioOf(y, t);
    WithoutLacks(y, t);
    if Q(y.v, Ready(p)) != [] {
      HeadIsReady(y, {t}, p);
    }
    NotMarked(y, {t}, p);
    LinkedQueue(y, t, p);
  }

  lemma NotMarked(y: KS, off: set<nat>, p: Prio)
    requires Core(y, off) && Q(y.v, Ready(p)) == []
    ensures !B.Marked(y.idx, p)
  {
  }

  lemma LinkedQueue(y: KS, t: nat, p: Prio)
    requires !B.Marked(y.idx, p) && p < B.SYSTEM_WORD
    ensures !Inv(Linked(y, t, p))
  {
    hide Placed, Counted, Shaped, OnReady, B.Marked, B.Valid;
    assert Q(Linked(y, t, p).v, Ready(p)) != [];
    assert Linked(y, t, p).idx == y.idx;
  }

  /** Somebody is ready at the new priority: the mark set too early is right all the same. */
  lemma InterimMarked(h: KS, x: KS, t: nat, p: Prio, r: nat)
    requires Interim(h, x, t, p, r) && !h.locked && Q(h.v, Ready(p)) != []
    ensures RunsWithout(x, t) && x.running == r && OnReady(x, r) && !x.locked && x.prio == h.prio && x.v == h.v
  {
    hide Core, OnReady, B.Valid, B.Marked;
    MarkedAnyway(h, t, p);
    SameMarksCore(h, x, {t});
    LacksWithout(x, t);
  }

  /** A scheduling point without the task. */
  lemma ScheduleWithout(x: KS, t: nat)
    requires RunsWithout(x, t) && !x.locked && PrioOf(x, t) < B.SYSTEM_WORD
    ensures var y, f := Schedule(x), Forget(Schedule(x), t);
            && RunsWithout(y, t) && Inv(f) && f.running == y.running && !y.locked && y.prio == x.prio
            && Chosen(f) && (forall u :: OnReady(f, u) == OnReady(x, u)) && (forall u :: OnReady(y, u) == OnReady(x, u))
  {
    hide Inv, OnReady, Schedule, RunsWithout, Chosen, ReadySet;
    ForgetInv(x, t);
    ForgetsPrio(x, t, CallSchedule);
    WithoutLacks(x, t);
    ScheduleChooses(Forget(x, t));
    ScheduleSwitches(Forget(x, t));
    Unlocked(x);
    StepForgets(x, t, CallSchedule);
    ForgetInv(Schedule(x), t);
    ForgetsPrio(Schedule(x), t, CallSchedule);
    WithoutLacks(Schedule(x), t);
  }

  /** The caller is as urgent as the new priority, where somebody is ready: all goes well while it is away. */
  lemma OccupiedResumes(h: KS, x: KS, t: nat, p: Prio, r: nat, calls: seq<Call>)
    requires Interim(h, x, t, p, r) && !h.locked && PrioOf(h, r) <= p && Q(h.v, Ready(p)) != []
    requires CanRun(Schedule(x), calls) && Away(Schedule(x), calls, r)
    ensures Resumes(Run(Schedule(x), calls), r, t, p)
  {
    hide Inv, Core, OnReady, Schedule, RunsWithout, Run, CanRun, Away, Linked, Lacks, Extra, TableSearch, Chosen;
    ExtraFields(h, x, p);
    InterimMarked(h, x, t, p, r);
    ScheduleWithout(x, t);
    var y, f := Schedule(x), Forget(Schedule(x), t);
    ForgetsPrio(y, t, CallSchedule);
    ChosenUrgent(f);
    LacksCore(h, t);
    HeadIsReady(h, {t}, p);
    var v := if PrioOf(h, r) == p then r else Q(h.v, Ready(p))[0].t;
    RunForgets(y, t, calls, r);
    RunWaits(f, calls, r, v, p);
    RunKeepsPrio(y, t, calls);
    var z := Run(y, calls);
    ForgetsPrio(z, t, CallSchedule);
    WithoutLacks(z, t);
    if z.running == r {
      MarkedLinks(z, t, v);
    } else {
      SearchLacks(z, t);
    }
  }

  lemma LacksCore(h: KS, t: nat)
    requires Lacks(h, t)
    ensures Core(h, {t})
  {
    hide Core;
  }

  // ----- how the call fails

  /** The caller is less urgent and nobody is at the new priority: those before it sleep, and the mark is followed. */
  lemma MarkIsFollowed(h: KS, x: KS, t: nat, p: Prio, r: nat) returns (calls: seq<Call>)
    requires Interim(h, x, t, p, r) && !h.locked && PrioOf(h, IDLE) == B.SYSTEM_WORD - 1
    requires p < PrioOf(h, r) && Q(h.v, Ready(p)) == [] && !NobodyUpTo(h, p)
    ensures CanRun(Schedule(x), calls) && Away(Schedule(x), calls, r) && !Resumes(Run(Schedule(x), calls), r, t, p)
  {
    hide Inv, Core, OnReady, Schedule, RunsWithout, Run, CanRun, Away, Linked, Lacks, Extra, TableSearch, NobodyUpTo;
    LacksWithout(h, t);
    DrainedFetch(h, x, t, p);
    calls := SleepersExpose(Schedule(h), Schedule(x), t, p);
  }

  /**
    The caller is less urgent than somebody at the new priority: when it goes on, those have left, and the mark with
    them.
   */
  lemma MarkIsLost(h: KS, x: KS, t: nat, p: Prio, r: nat) returns (calls: seq<Call>)
    requires Interim(h, x, t, p, r) && !h.locked && PrioOf(h, IDLE) == B.SYSTEM_WORD - 1
    requires p < PrioOf(h, r) && Q(h.v, Ready(p)) != []
    ensures CanRun(Schedule(x), calls) && Away(Schedule(x), calls, r) && !Resumes(Run(Schedule(x), calls), r, t, p)
  {
    hide Inv, Core, OnReady, Schedule, RunsWithout, Run, CanRun, Away, Linked, Lacks, Extra, TableSearch, Chosen;
    InterimMarked(h, x, t, p, r);
    ScheduleWithout(x, t);
    var y, f := Schedule(x), Forget(Schedule(x), t);
    ForgetsPrio(y, t, CallSchedule);
    calls := StepAside(f, r);
    RunForgets(y, t, calls, r);
    RunKeepsPrio(y, t, calls);
    var z := Run(y, calls);
    ForgetsPrio(z, t, CallSchedule);
    WithoutLacks(z, t);
    ChosenUrgent(Forget(z, t));
    UnmarkedLinks(z, t);
  }

  lemma ChosenUrgent(s: KS)
    requires Chosen(s)
    ensures forall u | OnReady(s, u) :: PrioOf(s, s.running) <= PrioOf(s, u)
  {
    hide OnReady;
  }

  /** The running task is the only one ready at priority `p`. */
  ghost predicate AloneAt(y: KS, p: Prio) {
    OnReady(y, y.running) && forall v | OnReady(y, v) && PrioOf(y, v) == p :: v == y.running
  }

  lemma ReprioritizeExtra(s: KS, x: KS, q: Prio)
    requires Extra(s, x, q)
    ensures var s', x' := Reprioritize(s, q), Reprioritize(x, q);
            && x' == s'.(idx := x'.idx) && B.Valid(x'.idx)
            && forall p: nat | p < 64 :: B.Marked(x'.idx, p) <==> B.Marked(s'.idx, p)
  {
    hide B.Valid, B.Marked, B.Set, B.Clear, Delete;
    var p, t := PrioOf(s, s.running), s.running;
    B.ClearMeaning(s.idx, p);
    B.ClearMeaning(x.idx, p);
    B.SetMeaning(SetPrio(ReadyDelete(s, t), t, q).idx, q);
    B.SetMeaning(SetPrio(ReadyDelete(x, t), t, q).idx, q);
  }

  /** The running task moves to the priority with the mark too many: now it is right. */
  lemma MovesThere(g: KS, y: KS, t: nat, p: Prio)
    requires Stale(g, y, t, p)
    ensures var c, y1 := CallPrioChange(p), Reprioritize(y, p);
            && Enabled(y, c) && Step(y, c) == y1 && RunsWithout(y1, t) && !y1.locked && y1.running == g.running
            && y1.prio == g.prio[g.running := p] && AloneAt(y1, p) && (forall u | OnReady(g, u) :: OnReady(y1, u))
  {
    hide Inv, Core, OnReady, Reprioritize, Extra, AloneAt, B.Valid, B.Marked;
    var c, g1, y1, f := CallPrioChange(p), Reprioritize(g, p), Reprioritize(y, p), Forget(g, t);
    WithoutLacks(g, t);
    ForgetInv(g, t);
    ExtraFields(g, y, p);
    ReprioritizeKeeps(f, p);
    ReprioritizeExtra(g, y, p);
    StepForgets(g, t, c);
    assert Forget(g1, t) == Reprioritize(f, p);
    WithoutMarks(g1, y1, t);
    WithoutLacks(g1, t);
    WithoutLacks(y1, t);
    hide RunsWithout;
    ForgetInv(y1, t);
    NewQueue(g, p);
    AloneInQueue(y1, t, p);
  }

  lemma WithoutMarks(g: KS, y: KS, t: nat)
    requires RunsWithout(g, t) && y == g.(idx := y.idx) && B.Valid(y.idx)
    requires forall p: nat | p < 64 :: B.Marked(y.idx, p) <==> B.Marked(g.idx, p)
    ensures RunsWithout(y, t) && forall u :: OnReady(y, u) == OnReady(g, u)
  {
    hide Core, B.Valid, B.Marked;
    SameMarksCore(Forget(g, t), Forget(y, t), {});
  }

  lemma NewQueue(g: KS, p: Prio)
    requires Q(g.v, Ready(p)) == []
    ensures Q(Reprioritize(g, p).v, Ready(p)) == [Task(g.running)]
  {
    hide B.Set, B.Clear;
  }

  lemma AloneInQueue(y: KS, t: nat, p: Prio)
    requires Inv(Forget(y, t)) && OnReady(y, y.running) && Q(y.v, Ready(p)) == [Task(y.running)] && t != IDLE
    requires forall u :: OnReady(Forget(y, t), u) <==> OnReady(y, u)
    ensures AloneAt(y, p)
  {
    hide Indexed, Counted, Ok;
    forall v | OnReady(y, v) && PrioOf(y, v) == p
      ensures v == y.running
    {
      Located(Forget(y, t), Task(v), {});
    }
  }

  /** It goes to sleep there, and others step aside: the caller comes back to find the priority not marked. */
  lemma SleepsThere(y: KS, t: nat, p: Prio, r: nat) returns (calls: seq<Call>)
    requires RunsWithout(y, t) && !y.locked && AloneAt(y, p) && PrioOf(y, t) == p && p < B.SYSTEM_WORD
    requires OnReady(y, r) && y.running != r && y.running != IDLE && PrioOf(y, IDLE) == B.SYSTEM_WORD - 1
    ensures CanRun(y, calls) && Away(y, calls, r) && !Resumes(Run(y, calls), r, t, p)
  {
    hide Inv, Core, OnReady, Schedule, RunsWithout, Run, CanRun, Away, Linked, Chosen, OsDelay, ReadySet;
    var f, y2 := Forget(y, t), OsDelay(y, 0);
    ForgetInv(y, t);
    ForgetsPrio(y, t, CallSchedule);
    WithoutLacks(y, t);
    DelaySleeps(f, 0);
    StepForgets(y, t, CallDelay(0));
    ForgetInv(y2, t);
    ForgetsPrio(y2, t, CallSchedule);
    WithoutLacks(y2, t);
    ReadyHere(y, r);
    ReadyHere(y2, r);
    ScheduleWithout(y2, t);
    var y3 := Schedule(y2);
    var rest := StepAside(Forget(y3, t), r);
    RunForgets(y3, t, rest, r);
    RunKeepsPrio(y3, t, rest);
    Unlocked(y2);
    RunFirst(y2, CallSchedule, rest, r);
    RunFirst(y, CallDelay(0), [CallSchedule] + rest, r);
    calls := [CallDelay(0)] + ([CallSchedule] + rest);
    WithoutLacks(y3, t);
    SameReady(y2, y3);
    ForgetsPrio(y3, t, CallSchedule);
    ForgetsPrio(Run(y3, rest), t, CallSchedule);
    ComesBack(y, y3, Run(y3, rest), t, p, r);
  }

  lemma SameReady(y: KS, z: KS)
    requires forall u :: OnReady(z, u) == OnReady(y, u)
    ensures ReadySet(z) == ReadySet(y)
  {
  }

  lemma ComesBack(y: KS, y3: KS, z: KS, t: nat, p: Prio, r: nat)
    requires RunsWithout(y, t) && AloneAt(y, p) && ReadySet(y3) == ReadySet(y) - {y.running}
    requires RunsWithout(z, t) && PrioOf(z, t) == p && p < B.SYSTEM_WORD && z.running == r
    requires ReadySet(Forget(z, t)) <= ReadySet(y3) && z.prio == y.prio
    ensures !Resumes(z, r, t, p)
  {
    hide Inv, OnReady, RunsWithout, ReadySet, Linked;
    WithoutLacks(z, t);
    forall v | OnReady(z, v)
      ensures PrioOf(z, v) != p
    {
      ReadyHere(z, v);
      ReadyHere(y, v);
    }
    UnmarkedLinks(z, t);
  }

  /**
    Somebody more urgent was chosen and nobody is at the new priority. That task moves there, which marks it anyway, and
    goes to sleep, which clears the mark: the caller then finds it gone.
   */
  lemma MarkIsCleared(h: KS, x: KS, t: nat, p: Prio, r: nat) returns (calls: seq<Call>)
    requires Interim(h, x, t, p, r) && !h.locked && PrioOf(h, IDLE) == B.SYSTEM_WORD - 1
    requires PrioOf(h, r) < p && Q(h.v, Ready(p)) == [] && Fetch(h).running != r
    ensures CanRun(Schedule(x), calls) && Away(Schedule(x), calls, r) && !Resumes(Run(Schedule(x), calls), r, t, p)
  {
    hide Inv, Core, OnReady, Schedule, RunsWithout, Run, CanRun, Away, Linked, Lacks, Extra, TableSearch, Chosen,
        OsDelay;
    hide Enabled, Step;
    LacksWithout(h, t);
    FetchedIsFirst(h, t, r);
    DrainedFetch(h, x, t, p);
    var g, y := Schedule(h), Schedule(x);
    Unlocked(h);
    var y1 := Reprioritize(y, p);
    MovesThere(g, y, t, p);
    ReadyHere(h, r);
    ReadyHere(g, r);
    ForgetInv(g, t);
    ExtraFields(g, y, p);
    assert g.running == Fetch(h).running && g.running != t;
    var more := SleepsThere(y1, t, p, r);
    RunFirst(y, CallPrioChange(p), more, r);
    calls := [CallPrioChange(p)] + more;
  }

  // ----- exactly when it ends well

  /** The caller keeps the processor: the call ends well at once. */
  lemma KeptResumes(s: KS, t: nat, p: Prio, calls: seq<Call>)
    requires Inv(s) && OnReady(s, s.running) && t !in s.created && p < B.SYSTEM_WORD
    requires s.locked || (PrioOf(s, s.running) <= p && GoesOn(s))
    requires var y := Schedule(HardwareTimer(Creating(s, t, p))); CanRun(y, calls) && Away(y, calls, s.running)
    ensures Resumes(Run(Schedule(HardwareTimer(Creating(s, t, p))), calls), s.running, t, p)
  {
    hide Inv, OnReady, HardwareTimer, Known, Creating, GoesOn, TableSearch, Schedule, Linked;
    CallerGoesOnIff(s, t, p);
    TaskCreateInterrupted(s, t, p);
    ResumedAtOnce(s, t, p);
  }

  /** Over everything that may run before the caller goes on, task_create ends well under the condition. */
  lemma SurvivableEndsWell(s: KS, t: nat, p: Prio)
    requires Inv(s) && OnReady(s, s.running) && t !in s.created && p < B.SYSTEM_WORD && Survivable(s, p)
    ensures EndsWell(s, t, p)
  {
    hide Inv, OnReady, HardwareTimer, Known, Creating, GoesOn, TableSearch, Schedule, Woken, Resumes, CanRun, Away, Run;
    hide NobodyElse, Interim;
    var h, x, r := HardwareTimer(Known(s, t, p)), HardwareTimer(Creating(s, t, p)), s.running;
    AfterTick(s, t, p);
    KnownQueues(s, t, p, r);
    TaskCreateInterrupted(s, t, p);
    if !s.locked {
      SomebodyThere(s, t, p);
    }
    forall calls | CanRun(Schedule(x), calls) && Away(Schedule(x), calls, r)
      ensures Resumes(Run(Schedule(x), calls), r, t, p)
    {
      if s.locked || (PrioOf(s, r) <= p && GoesOn(s)) {
        KeptResumes(s, t, p, calls);
      } else {
        OccupiedResumes(h, x, t, p, r, calls);
      }
    }
  }

  lemma SomebodyThere(s: KS, t: nat, p: Prio)
    requires Inv(s) && OnReady(s, s.running) && t !in s.created && p < B.SYSTEM_WORD && PrioOf(s, s.running) <= p
    ensures var x := HardwareTimer(Creating(s, t, p)); TableSearch(x).Task? && x.locked == s.locked
  {
    hide Inv, OnReady, HardwareTimer, Known, Creating, TableSearch, Woken;
    TaskCreateInterrupted(s, t, p);
    KnownQueues(s, t, p, s.running);
  }

  /**
    Otherwise there is a run after which the table leads to a list head or the caller leaves the kernel inconsistent.
   */
  lemma NotSurvivableFails(s: KS, t: nat, p: Prio)
    requires Inv(s) && OnReady(s, s.running) && t !in s.created && p < B.SYSTEM_WORD && !Survivable(s, p)
    requires PrioOf(s, IDLE) == B.SYSTEM_WORD - 1
    ensures !EndsWell(s, t, p)
  {
    hide Inv, OnReady, HardwareTimer, Known, Creating, GoesOn, TableSearch, Schedule, Woken, Resumes, CanRun, Away, Run;
    hide NobodyElse, Interim, NobodyUpTo, Fetch;
    var h, x, r := HardwareTimer(Known(s, t, p)), HardwareTimer(Creating(s, t, p)), s.running;
    AfterTick(s, t, p);
    IdleCreated(s);
    KnownQueues(s, t, p, r);
    TaskCreateInterrupted(s, t, p);
    NobodyMeaning(s, t, p);
    GoesOnMeaning(s, t, p);
    InterimFirst(h, x, t, p, r);
    if !NobodyElse(s, t, p) {
      var calls;
      if PrioOf(h, r) > p {
        if Q(h.v, Ready(p)) == [] {
          calls := MarkIsFollowed(h, x, t, p, r);
        } else {
          calls := MarkIsLost(h, x, t, p, r);
        }
      } else {
        calls := MarkIsCleared(h, x, t, p, r);
      }
    }
  }

  lemma InterimFirst(h: KS, x: KS, t: nat, p: Prio, r: nat)
    requires Interim(h, x, t, p, r)
    ensures Fetch(h).running == r <==> First(h, r)
    ensures Q(h.v, Ready(PrioOf(h, r))) != []
  {
    hide Lacks, Extra, First, Fetch;
    FetchedIsFirst(h, t, r);
    LacksCore(h, t);
    ReadyIsListed(h, r, {t});
  }

  lemma IdleCreated(s: KS)
    requires Inv(s)
    ensures IDLE in s.created
  {
    hide Core;
  }

  /**
    A tick inside task_create, between its marking the priority and its linking the task. Over everything that may run
    before the caller goes on the call ends well if and only if the scheduler is locked, or the caller is at least as
    urgent as the new task and either keeps the processor or somebody is ready, or wakes, at the new priority.
   */
  lemma TaskCreateEndsWellIff(s: KS, t: nat, p: Prio)
    requires Inv(s) && OnReady(s, s.running) && t !in s.created && p < B.SYSTEM_WORD
    requires PrioOf(s, IDLE) == B.SYSTEM_WORD - 1
    ensures EndsWell(s, t, p) <==> Survivable(s, p)
  {
    hide Inv, OnReady, EndsWell, Survivable;
    if Survivable(s, p) {
      SurvivableEndsWell(s, t, p);
    } else {
      NotSurvivableFails(s, t, p);
    }
  }

  // ----- a failing input

  /**
    Two tasks are created, the second more urgent; it runs, goes to sleep until the next tick, and the first one runs.
   */
  function Failing(c: Prio, q: Prio): seq<Call> {
    [CallTaskCreate(1, c), CallTaskCreate(2, q), CallSchedule, CallDelay(0), CallSchedule]
  }

  /** Both tasks created, the idle task running. */
  lemma BothCreated(s: KS, c: Prio, q: Prio)
    requires Blank(s) && c < B.SYSTEM_WORD && q < B.SYSTEM_WORD
    ensures var b, d := Boot(s), TaskCreate(TaskCreate(Boot(s), 1, c), 2, q);
            && CanRun(b, [CallTaskCreate(1, c), CallTaskCreate(2, q)])
            && Run(b, [CallTaskCreate(1, c), CallTaskCreate(2, q)]) == d
            && Inv(d) && !d.locked && d.created == {0, 1, 2} && OnReady(d, 1) && OnReady(d, 2)
            && PrioOf(d, 0) == 31 && PrioOf(d, 1) == c && PrioOf(d, 2) == q
  {
    hide Inv, OnReady, ReadyTail;
    BootInv(s);
    BootFields(s);
    var b := Boot(s);
    var b1 := TaskCreate(b, 1, c);
    TaskCreateKeeps(b, 1, c);
    CreateFields(b, 1, c);
    TaskCreateKeeps(b1, 2, q);
    CreateFields(b1, 2, q);
    CreatedReady(b, 1, c);
    CreatedReady(b1, 2, q);
    RunFirst(b1, CallTaskCreate(2, q), [], 0);
    RunFirst(b, CallTaskCreate(1, c), [CallTaskCreate(2, q)] + [], 0);
    assert [CallTaskCreate(1, c)] + ([CallTaskCreate(2, q)] + []) == [CallTaskCreate(1, c), CallTaskCreate(2, q)];
  }

  lemma BootFields(s: KS)
    requires Blank(s)
    ensures Boot(s).created == {0} && !Boot(s).locked && PrioOf(Boot(s), 0) == 31
  {
    hide ReadyTail;
    CreateFields(s, IDLE, 31);
  }

  lemma CreateFields(s: KS, t: nat, p: Prio)
    ensures var s' := TaskCreate(s, t, p);
            && s'.created == s.created + {t} && s'.locked == s.locked && s'.prio == s.prio[t := p]
            && s'.running == s.running
  {
    hide ReadyTail;
    HeadFields(SetPrio(s, t, p).(created := s.created + {t}), t);
  }

  lemma CreatedReady(s: KS, t: nat, p: Prio)
    ensures OnReady(TaskCreate(s, t, p), t)
  {
  }

  /** The sleeper runs, goes to sleep, and the caller runs. */
  lemma SleeperLeaves(d: KS, c: Prio, q: Prio)
    requires Inv(d) && !d.locked && d.created == {0, 1, 2} && OnReady(d, 1) && OnReady(d, 2)
    requires PrioOf(d, 0) == 31 && PrioOf(d, 1) == c && PrioOf(d, 2) == q && q < c < 31
    ensures var calls := [CallSchedule, CallDelay(0), CallSchedule];
            && CanRun(d, calls) && Run(d, calls) == Schedule(OsDelay(Schedule(d), 0))
            && var w := Run(d, calls);
               && Inv(w) && w.running == 1 && OnReady(w, 1) && !w.locked && w.created == d.created && w.prio == d.prio
               && Delay(2) in Q(w.v, Ticks) && TickOf(w, Delay(2)).timeout == 0
  {
    hide Inv, OnReady, Schedule, OsDelay;
    ScheduleKeeps(d);
    ScheduleSwitches(d);
    ScheduleFrame(d);
    var d1 := Schedule(d);
    ReadyIsCreated(d1, d1.running);
    assert d1.running == 2;
    OsDelayKeeps(d1, 0);
    OsDelayFrame(d1, 0);
    SleeperGone(d1, 0);
    var d2 := OsDelay(d1, 0);
    ScheduleKeeps(d2);
    ScheduleSwitches(d2);
    ScheduleFrame(d2);
    var w := Schedule(d2);
    ReadyIsCreated(w, w.running);
    assert Kept(d2, w, {});
  }

  lemma {:induction false} SomebodyWakes(s: KS, es: seq<Entry>, t: nat)
    requires Delay(t) in es && TickOf(s, Delay(t)).timeout == 0
    ensures Woken(s, es, PrioOf(s, t)) != []
    decreases |es|
  {
    if es[0] != Delay(t) {
      assert Delay(t) in es[1..];
      SomebodyWakes(s, es[1..], t);
    }
  }

  /**
    A reachable failing input: with the sleeper at the new priority 5 or a more urgent one and the caller at a less
    urgent one, the tick finds somebody to switch to and the call does not end well.
   */
  lemma FailingInput(s: KS, c: Prio, q: Prio)
    requires Blank(s) && q <= 5 < c < 31
    ensures CanRun(Boot(s), Failing(c, q))
    ensures var w := Run(Boot(s), Failing(c, q));
            && Inv(w) && w.running == 1 && !w.locked && 3 !in w.created && !NobodyElse(w, 3, 5) && !EndsWell(w, 3, 5)
  {
    hide Blank, Boot, Inv, OnReady, Step, Enabled, EndsWell, Woken, GoesOn, TaskCreate, Schedule, OsDelay;
    BothCreated(s, c, q);
    var b, d := Boot(s), TaskCreate(TaskCreate(Boot(s), 1, c), 2, q);
    SleeperLeaves(d, c, q);
    RunInParts(b, [CallTaskCreate(1, c), CallTaskCreate(2, q)], [CallSchedule, CallDelay(0), CallSchedule]);
    assert Failing(c, q) == [CallTaskCreate(1, c), CallTaskCreate(2, q)] + [CallSchedule, CallDelay(0), CallSchedule];
    var w := Run(b, Failing(c, q));
    SomebodyWakes(w, Q(w.v, Ticks), 2);
    NotSurvivableFails(w, 3, 5);
  }

  lemma {:induction false} RunInParts(s: KS, a: seq<Call>, b: seq<Call>)
    requires CanRun(s, a) && CanRun(Run(s, a), b)
    ensures CanRun(s, a + b) && Run(s, a + b) == Run(Run(s, a), b)
    decreases |a|
  {
    hide Step, Enabled;
    if a == [] {
      assert a + b == b;
    } else {
      assert (a + b)[1..] == a[1..] + b;
      RunInParts(Step(s, a[0]), a[1..], b);
    }
  }

  // ----- the mark that task_prio_change leaves

  lemma FetchSees(h: KS, c: set<nat>, r: nat)
    ensures Fetch(Seen(h, c, r)).v == Fetch(h).v
    ensures TableSearch(h).Task? ==> Fetch(Seen(h, c, r)).running == Fetch(h).running
  {
    hide B.Get, Fetch, ReadyDelete, ReadyTail;
    var u := TableSearch(h);
    assert TableSearch(Seen(h, c, r)) == u;
    FetchFields(h);
    FetchFields(Seen(h, c, r));
    if u.Task? {
      FetchRuns(h);
      FetchRuns(Seen(h, c, r));
      DeleteSeen(h, c, r, u.t);
      SeenParts(ReadyDelete(h, u.t), c, r, u, u.t);
    } else {
      NotFetched(h);
      NotFetched(Seen(h, c, r));
    }
  }

  lemma DeleteSeen(h: KS, c: set<nat>, r: nat, u: nat)
    ensures ReadyDelete(Seen(h, c, r), u) == Seen(ReadyDelete(h, u), c, r)
  {
    hide B.Clear, Delete;
  }

  lemma NotFetched(h: KS)
    requires !TableSearch(h).Task?
    ensures Fetch(h) == h
  {
  }

  lemma LackingLeaves(h: KS, t: nat, q: Prio)
    requires Lacks(h, t) && !h.locked && Q(h.v, Ready(q)) == [] && !NobodyUpTo(h, q)
    ensures Q(Fetch(h).v, Ready(q)) == [] && PrioOf(h, Fetch(h).running) < q
  {
    hide Core, Fetch, OnReady, TableSearch;
    var f := Forget(h, t);
    ForgetCore(h, t);
    ReadyIsCreated(h, IDLE);
    LeavesEmpty(f, q);
    FetchSees(h, f.created, f.running);
    TableFindsTask(h, {t});
    KeptFields(f);
  }

  /** Switched away from with a mark left that nobody else makes right, and somebody more urgent to run. */
  lemma LeftStale(s: KS, p: Prio, at: Point)
    requires Inv(s) && OnReady(s, s.running) && s.running != IDLE && p < B.SYSTEM_WORD && !s.locked
    requires !Shared(s, p, at) && !Exposed(s, p, at) && PrioOf(s, IDLE) == B.SYSTEM_WORD - 1
    ensures var h, x := HardwareTimer(Base(s, p, at)), HardwareTimer(Interrupted(s, p, at));
            Stale(Fetch(h), Fetch(x), s.running, Mark(s, p, at)) && !x.locked
  {
    hide Inv, Core, OnReady, HardwareTimer, ReadyDelete, TableSearch, Fetch, Exposed, NobodyUpTo, Woken, Base, Mark;
    hide Lacks, Extra, RunsWithout;
    var t, b, m := s.running, Base(s, p, at), Mark(s, p, at);
    var h, x := HardwareTimer(b), HardwareTimer(Interrupted(s, p, at));
    BaseLacks(s, p, at);
    TickLacks(b, t);
    InterruptedExtra(s, p, at);
    TickExtra(b, Interrupted(s, p, at), m);
    ExtraFields(h, x, m);
    ExposedMeaning(s, p, at);
    NoElements(Q(b.v, Ready(m)));
    FetchLacks(h, t);
    FetchExtra(h, x, m, t);
    LackingLeaves(h, t, m);
    FetchedWithout(h, t);
    BaseIdle(s, p, at);
  }

  lemma FetchedWithout(h: KS, t: nat)
    requires Lacks(h, t)
    ensures RunsWithout(Fetch(h), t)
  {
    hide Core, Fetch, OnReady;
    FetchLacks(h, t);
    LacksWithout(Fetch(h), t);
  }

  lemma BaseIdle(s: KS, p: Prio, at: Point)
    requires s.running != IDLE
    ensures PrioOf(Base(s, p, at), IDLE) == PrioOf(s, IDLE)
  {
    hide Unlink, B.Clear;
  }

  /** The table of a kernel without task `t` finds a task. */
  lemma WithoutFinds(s: KS, t: nat)
    requires Inv(Forget(s, t))
    ensures TableSearch(s).Task?
  {
    hide Core;
    TableFindsTask(Forget(s, t), {});
  }

  /**
    After a tick inside task_prio_change of an unlocked kernel, schedule() follows a list head sooner or later in some
    run, unless somebody besides the task is ready or wakes at the priority that is marked, and then it never does.
   */
  lemma HeadNeverFollowedIff(s: KS, p: Prio, at: Point)
    requires Inv(s) && OnReady(s, s.running) && s.running != IDLE && p < B.SYSTEM_WORD && !s.locked
    requires PrioOf(s, IDLE) == B.SYSTEM_WORD - 1
    ensures var y := Schedule(HardwareTimer(Interrupted(s, p, at)));
            (forall calls | CanRun(y, calls) :: Run(y, calls).locked || TableSearch(Run(y, calls)).Task?)
            <==> Shared(s, p, at)
  {
    hide Inv, OnReady, HardwareTimer, Interrupted, TableSearch, Fetch, Exposed, Shared, CanRun, Run, Mark, Base, Stale;
    var x := HardwareTimer(Interrupted(s, p, at));
    var y := Schedule(x);
    PrioChangeInterrupted(s, p, at);
    if Shared(s, p, at) {
      forall calls | CanRun(y, calls)
        ensures TableSearch(Run(y, calls)).Task?
      {
        InterruptedIsLost(s, p, at, calls);
        WithoutFinds(Run(y, calls), s.running);
      }
    } else if Exposed(s, p, at) {
      HeadAtOnce(s, p, at);
    } else {
      LeftStale(s, p, at);
      var calls := SleepersExpose(Fetch(HardwareTimer(Base(s, p, at))), Fetch(x), s.running, Mark(s, p, at));
    }
  }

  lemma HeadAtOnce(s: KS, p: Prio, at: Point)
    requires Inv(s) && OnReady(s, s.running) && s.running != IDLE && p < B.SYSTEM_WORD && !s.locked && Exposed(s, p, at)
    ensures var y := Schedule(HardwareTimer(Interrupted(s, p, at)));
            CanRun(y, []) && !Run(y, []).locked && !TableSearch(Run(y, [])).Task?
  {
    hide Inv, OnReady, HardwareTimer, Interrupted, TableSearch, Fetch, Exposed;
    TickFound(s, p, at);
    NotFetched(HardwareTimer(Interrupted(s, p, at)));
  }
}
