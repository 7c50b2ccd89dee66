/**
 Immediate-ceiling mutexes over whole runs: whoever holds one runs alone, above everybody else, until its last release.
 */
module Ceiling {
  import opened ListModel
  import opened KernelSpec
  import opened KernelInvariants
  import opened KernelScheduling
  import opened KernelFrames
  import opened KernelTicks
  import opened KernelSwitching
  import B = Bitmap

  /** The mutexes held, oldest first, and the priority their holder had before the first get. */
  datatype Hold = Hold(held: seq<nat>, base: Prio)

  function After(s: KS, h: Hold, c: Call): Hold {
    match c
    case CallMutexGet(i) => Hold(h.held + [i], if h.held == [] then PrioOf(s, s.running) else h.base)
    case CallMutexPut(i) => if h.held == [] then h else Hold(h.held[..|h.held| - 1], h.base)
    case _ => h
  }

  function AfterRun(s: KS, h: Hold, calls: seq<Call>): Hold
    decreases |calls|
  {
    if calls == [] then h else AfterRun(Step(s, calls[0]), After(s, h, calls[0]), calls[1..])
  }

  /**
    The discipline the ceiling protocol asks for: priorities are below the ceiling, the mutex released is the one taken
    last, and a holder neither sleeps, nor waits for a semaphore or a message, nor takes a mutex it holds, nor changes
    its priority.
   */
  predicate Disciplined(s: KS, h: Hold, c: Call) {
    && (h.held != [] ==>
          !c.CallDelay? && !c.CallPrioChange? && !((c.CallSemGet? || c.CallMsgGet?) && Blocks(s, c)))
    && match c
       case CallTaskCreate(_, p) => p > PRIO_MUTEX
       case CallPrioChange(p) => p > PRIO_MUTEX
       case CallMutexGet(i) => i !in h.held
       case CallMutexPut(i) => h.held != [] && i == h.held[|h.held| - 1]
       case _ => true
  }

  predicate DisciplinedRun(s: KS, h: Hold, calls: seq<Call>)
    decreases |calls|
  {
    calls == [] || (Disciplined(s, h, calls[0]) && DisciplinedRun(Step(s, calls[0]), After(s, h, calls[0]), calls[1..]))
  }

  /** Only the running task can be at the ceiling, and it is exactly while it holds something. */
  ghost predicate Above(s: KS, h: Hold) {
    && (forall t | t in s.created && !(h.held != [] && t == s.running) :: PrioOf(s, t) > PRIO_MUTEX)
    && (h.held != [] ==> PrioOf(s, s.running) == PRIO_MUTEX && h.base > PRIO_MUTEX && OnReady(s, s.running))
  }

  /** A mutex is disabled exactly while it is held, and stores the priority to go back to. */
  ghost predicate Stored(s: KS, h: Hold) {
    && NoDup(h.held)
    && (forall i | i in h.held :: i in s.mutexes)
    && (forall i | i in s.mutexes :: MutexOf(s, i).enable <==> i !in h.held)
    && (forall k | 0 <= k < |h.held| :: MutexOf(s, h.held[k]).copyPrio == if k == 0 then h.base else PRIO_MUTEX)
  }

  ghost predicate NobodyWaits(s: KS) { forall i | i in s.mutexes :: Q(s.v, MutexWait(i)) == [] }

  ghost predicate Ceiled(s: KS, h: Hold) { Above(s, h) && Stored(s, h) && NobodyWaits(s) }

  // ----- what it means

  lemma ReadyPlace(s: KS, p: Prio)
    requires Inv(s)
    ensures NoDup(Q(s.v, Ready(p)))
    ensures forall e | e in Q(s.v, Ready(p)) :: e.Task? && e.t in s.created && PrioOf(s, e.t) == p
    ensures OnReady(s, s.running) && PrioOf(s, s.running) == p ==> Task(s.running) in Q(s.v, Ready(p))
    ensures Q(s.v, Ready(p)) == [] || exists t :: t in s.created && PrioOf(s, t) == p
  {
    hide Indexed, Counted;
    if Q(s.v, Ready(p)) != [] {
      assert Q(s.v, Ready(p))[0] in Q(s.v, Ready(p));
    }
    forall e | e in Q(s.v, Ready(p))
      ensures e.Task? && e.t in s.created && PrioOf(s, e.t) == p
    {
      OkAt(s.v, Ready(p), e);
    }
  }

  lemma Alone<T>(q: seq<T>, x: T)
    requires NoDup(q) && x in q && forall y | y in q :: y == x
    ensures q == [x]
  {
    assert q[0] in q && q[|q| - 1] in q;
  }

  /**
    While a mutex is held its holder is the running task, alone in ready queue 1 with queue 0 empty, and schedule()
    keeps it.
   */
  lemma HolderIsAlone(s: KS, h: Hold)
    requires Inv(s) && Ceiled(s, h) && h.held != []
    ensures Q(s.v, Ready(0)) == [] && Q(s.v, Ready(PRIO_MUTEX)) == [Task(s.running)]
    ensures Schedule(s).running == s.running && forall l :: Q(Schedule(s).v, l) == Q(s.v, l)
  {
    hide Inv, Core, OnReady, Fetch, B.Get;
    ReadyPlace(s, 0);
    ReadyPlace(s, 1);
    Alone(Q(s.v, Ready(1)), Task(s.running));
    InvParts(s);
    TableFindsTask(s, {});
    FetchRotates(s);
    var p := B.Get(s.idx);
    assert p == 1;
    assert [Task(s.running)][1..] + [[Task(s.running)][0]] == [Task(s.running)];
  }

  /** The kernel starts under the discipline: only the idle task exists and every mutex is free. */
  lemma BootCeiled(s: KS)
    requires Blank(s) && forall i | i in s.mutexes :: s.mutexes[i].enable
    ensures Ceiled(Boot(s), Hold([], 31))
  {
    hide B.Set;
  }

  // ----- every call keeps it

  lemma TakeFirst(s: KS, h: Hold, i: nat)
    requires Inv(s) && Enabled(s, CallMutexGet(i)) && Ceiled(s, h) && i !in h.held
    ensures MutexOf(s, i).enable && Ceiled(MutexGet(s, i), After(s, h, CallMutexGet(i)))
            && MutexGet(s, i).running == s.running
  {
    hide Inv, MutexGet, OnReady, Ceiled, Enabled;
    FreeMutex(s, h, i);
    MutexGetIsStep(s, i);
    MutexGetFields(s, i);
    StaysReady(s, CallMutexGet(i), s.running);
    TakenCeiled(s, MutexGet(s, i), h, i);
  }

  lemma FreeMutex(s: KS, h: Hold, i: nat)
    requires Enabled(s, CallMutexGet(i)) && Ceiled(s, h) && i !in h.held
    ensures i in s.mutexes && MutexOf(s, i).enable && OnReady(s, s.running) && !Blocks(s, CallMutexGet(i))
  {
  }

  lemma MutexGetFields(s: KS, i: nat)
    requires Inv(s) && Enabled(s, CallMutexGet(i)) && MutexOf(s, i).enable
    ensures var s' := MutexGet(s, i);
            && s'.mutexes == s.mutexes[i := MutexV(false, PrioOf(s, s.running))]
            && s'.prio == s.prio[s.running := PRIO_MUTEX]
            && s'.created == s.created && s'.running == s.running && s.running in s.created
            && forall j :: Q(s'.v, MutexWait(j)) == Q(s.v, MutexWait(j))
  {
    hide Core, MutexGet, OnReady;
    MutexGetFrame(s, i);
  }

  lemma TakenCeiled(s: KS, s': KS, h: Hold, i: nat)
    requires Ceiled(s, h) && i !in h.held && i in s.mutexes && s.running in s.created
    requires s'.mutexes == s.mutexes[i := MutexV(false, PrioOf(s, s.running))]
             && s'.prio == s.prio[s.running := PRIO_MUTEX]
    requires s'.created == s.created && s'.running == s.running && OnReady(s', s.running)
    requires forall j :: Q(s'.v, MutexWait(j)) == Q(s.v, MutexWait(j))
    ensures Ceiled(s', After(s, h, CallMutexGet(i)))
  {
    hide OnReady, Q;
    NoDupAppend(h.held, i);
  }

  lemma NoDupAppend<T>(q: seq<T>, x: T)
    requires NoDup(q) && x !in q
    ensures NoDup(q + [x]) && forall y :: y in q + [x] <==> y in q || y == x
  {
  }

  lemma NoDupFront<T>(q: seq<T>)
    requires NoDup(q) && q != []
    ensures NoDup(q[..|q| - 1]) && forall y :: y in q[..|q| - 1] <==> y in q && y != q[|q| - 1]
  {
  }

  /** A release that is not the last keeps the holder at the ceiling; the last one gives it its own priority back. */
  lemma ReleaseLast(s: KS, h: Hold)
    requires Inv(s) && Ceiled(s, h) && h.held != []
    ensures var i := h.held[|h.held| - 1];
            var h' := After(s, h, CallMutexPut(i));
            var s' := MutexPut(s, i);
            && Stored(s', h') && NobodyWaits(s') && s'.created == s.created
            && (forall t | t in s.created && t != s.running :: PrioOf(s', t) > PRIO_MUTEX)
            && PrioOf(s', s.running) == (if h'.held == [] then h.base else PRIO_MUTEX)
  {
    hide Inv, MutexPut;
    var i := h.held[|h.held| - 1];
    MutexPutFrame(s, i);
    NoDupFront(h.held);
  }

  /** If the caller is at the ceiling and everybody else below it, the caller goes on running. */
  lemma HolderGoesOn(s: KS, c: Call)
    requires Inv(s) && Enabled(s, c) && OnReady(s, s.running) && !Blocks(s, c)
             && PrioOf(Step(s, c), s.running) == PRIO_MUTEX
    requires forall t | t in Step(s, c).created && t != s.running :: PrioOf(Step(s, c), t) > PRIO_MUTEX
    ensures Step(s, c).running == s.running && OnReady(Step(s, c), s.running)
  {
    hide Core, Step, Enabled, Blocks, OnReady;
    SwitchesToMostUrgent(s, c);
    StaysReady(s, c, s.running);
    StepKeeps(s, c);
  }

  /** Calls that take and release nothing. */
  lemma OtherCallsKeep(s: KS, h: Hold, c: Call)
    requires Inv(s) && Enabled(s, c) && Ceiled(s, h) && Disciplined(s, h, c) && !c.CallMutexGet? && !c.CallMutexPut?
    ensures var s' := Step(s, c);
            && Stored(s', h) && NobodyWaits(s')
            && (forall t | t in s'.created && !(h.held != [] && t == s.running) :: PrioOf(s', t) > PRIO_MUTEX)
            && (h.held != [] ==> PrioOf(s', s.running) == PRIO_MUTEX && h.base > PRIO_MUTEX)
  {
    hide Inv, Step, Enabled, Disciplined;
    MutexesKept(s, c);
    PriosKept(s, h, c);
    hide Above;
    SameMutexes(s, Step(s, c), h);
  }

  lemma SameMutexes(s: KS, s': KS, h: Hold)
    requires Stored(s, h) && NobodyWaits(s) && s'.mutexes == s.mutexes
    requires forall i | i in s.mutexes :: Q(s'.v, MutexWait(i)) == Q(s.v, MutexWait(i))
    ensures Stored(s', h) && NobodyWaits(s')
  {
  }

  lemma MutexesKept(s: KS, c: Call)
    requires Inv(s) && Enabled(s, c) && !c.CallMutexGet? && !c.CallMutexPut?
    ensures Step(s, c).mutexes == s.mutexes
    ensures forall i | i in s.mutexes :: Q(Step(s, c).v, MutexWait(i)) == Q(s.v, MutexWait(i))
  {
    hide Inv, Step, Called;
    if c.CallHardwareTimer? {
      TimerFields(s);
    } else {
      CallEffect(s, c);
      forall i | i in s.mutexes
        ensures Q(Step(s, c).v, MutexWait(i)) == Q(s.v, MutexWait(i))
      {
        CallFrame(s, c, MutexWait(i));
      }
    }
  }

  lemma PriosKept(s: KS, h: Hold, c: Call)
    requires Inv(s) && Enabled(s, c) && Above(s, h) && Disciplined(s, h, c) && !c.CallMutexGet? && !c.CallMutexPut?
    ensures var s' := Step(s, c);
            && (forall t | t in s'.created && !(h.held != [] && t == s.running) :: PrioOf(s', t) > PRIO_MUTEX)
            && (h.held != [] ==> PrioOf(s', s.running) == PRIO_MUTEX && h.base > PRIO_MUTEX)
  {
    hide Inv, Step;
    RunningIsCreated(s);
    if c.CallHardwareTimer? {
      TimerFields(s);
    } else {
      CallEffect(s, c);
    }
  }

  lemma RunningIsCreated(s: KS)
    requires Inv(s)
    ensures s.running in s.created
  {
  }

  lemma TimerFields(s: KS)
    requires Inv(s)
    ensures var s' := Step(s, CallHardwareTimer);
            s'.created == s.created && s'.prio == s.prio && s'.mutexes == s.mutexes
            && forall i :: Q(s'.v, MutexWait(i)) == Q(s.v, MutexWait(i))
  {
    hide Inv, HardwareTimer, Survivors, Due, Ticked;
    HardwareTimerMeaning(s);
  }

  /**
    One call under the discipline. No mutex_get blocks; the holder runs on until its last release; and with that release
    it has the priority it had before its first get.
   */
  lemma CeilingStep(s: KS, h: Hold, c: Call)
    requires Inv(s) && Enabled(s, c) && Ceiled(s, h) && Disciplined(s, h, c)
    ensures Ceiled(Step(s, c), After(s, h, c))
    ensures c.CallMutexGet? ==> !Blocks(s, c)
    ensures After(s, h, c).held != [] ==> Step(s, c).running == s.running
    ensures h.held != [] && After(s, h, c).held == [] ==> PrioOf(Step(s, c), s.running) == h.base
  {
    hide Inv, MutexGet, MutexPut, Step;
    if c.CallMutexGet? {
      MutexGetIsStep(s, c.i);
      TakeFirst(s, h, c.i);
    } else if c.CallMutexPut? {
      MutexPutIsStep(s, c.i);
      ReleaseLast(s, h);
      if After(s, h, c).held != [] {
        HolderGoesOn(s, c);
      }
    } else {
      OtherCallsKeep(s, h, c);
      if h.held != [] {
        HolderDoesNotBlock(s, h, c);
        HolderGoesOn(s, c);
      }
    }
  }

  lemma MutexGetIsStep(s: KS, i: nat)
    ensures Step(s, CallMutexGet(i)) == MutexGet(s, i)
  {
    hide MutexGet;
  }

  lemma MutexPutIsStep(s: KS, i: nat)
    ensures Step(s, CallMutexPut(i)) == MutexPut(s, i)
  {
    hide MutexPut;
  }

  lemma HolderDoesNotBlock(s: KS, h: Hold, c: Call)
    requires Disciplined(s, h, c) && h.held != [] && !c.CallMutexGet?
    ensures !Blocks(s, c)
  {
  }

  /** All disciplined runs keep the ceiling invariant. */
  lemma {:induction false} CeilingRun(s: KS, h: Hold, calls: seq<Call>)
    requires Inv(s) && CanRun(s, calls) && Ceiled(s, h) && DisciplinedRun(s, h, calls)
    ensures Inv(Run(s, calls)) && Ceiled(Run(s, calls), AfterRun(s, h, calls))
    decreases |calls|
  {
    hide Inv, Step, Enabled, Ceiled, Disciplined, After;
    if calls != [] {
      StepKeeps(s, calls[0]);
      CeilingStep(s, h, calls[0]);
      CeilingRun(Step(s, calls[0]), After(s, h, calls[0]), calls[1..]);
    }
  }

  /** Something is held after every call of the run. */
  predicate HoldsThroughout(s: KS, h: Hold, calls: seq<Call>)
    decreases |calls|
  {
    h.held != [] && (calls == [] || HoldsThroughout(Step(s, calls[0]), After(s, h, calls[0]), calls[1..]))
  }

  /** Mutual exclusion over time: as long as something is held, the task that holds it is the one that runs. */
  lemma {:induction false} HolderRunsThroughout(s: KS, h: Hold, calls: seq<Call>)
    requires Inv(s) && CanRun(s, calls) && Ceiled(s, h) && DisciplinedRun(s, h, calls) && HoldsThroughout(s, h, calls)
    ensures Run(s, calls).running == s.running && AfterRun(s, h, calls).base == h.base
            && AfterRun(s, h, calls).held != []
    decreases |calls|
  {
    hide Inv, Step, Enabled, Ceiled, Disciplined;
    if calls != [] {
      StepKeeps(s, calls[0]);
      CeilingStep(s, h, calls[0]);
      HolderRunsThroughout(Step(s, calls[0]), After(s, h, calls[0]), calls[1..]);
    }
  }

  /**
    A whole critical section: task r takes a mutex while it holds none, runs `calls` never letting go of everything, and
    then makes a last release. Until then only r has run, and r ends with the priority it started with.
   */
  lemma CriticalSection(s: KS, h: Hold, i: nat, calls: seq<Call>, j: nat)
    requires Inv(s) && Ceiled(s, h) && h.held == []
    requires var s1 := MutexGet(s, i);
             var h1 := After(s, h, CallMutexGet(i));
             && Enabled(s, CallMutexGet(i)) && CanRun(s1, calls) && DisciplinedRun(s1, h1, calls)
             && HoldsThroughout(s1, h1, calls)
             && Enabled(Run(s1, calls), CallMutexPut(j)) && AfterRun(s1, h1, calls).held == [j]
    ensures var s2 := Run(MutexGet(s, i), calls);
            && s2.running == s.running && Q(s2.v, Ready(PRIO_MUTEX)) == [Task(s.running)]
            && PrioOf(MutexPut(s2, j), s.running) == PrioOf(s, s.running)
  {
    hide Inv, MutexGet, MutexPut, Ceiled, Enabled, Run, CanRun, DisciplinedRun, HoldsThroughout, AfterRun, Step;
    var s1, h1 := MutexGet(s, i), After(s, h, CallMutexGet(i));
    MutexGetIsStep(s, i);
    CeilingStep(s, h, CallMutexGet(i));
    StepKeeps(s, CallMutexGet(i));
    CeilingRun(s1, h1, calls);
    HolderRunsThroughout(s1, h1, calls);
    var s2, h2 := Run(s1, calls), AfterRun(s1, h1, calls);
    HolderIsAlone(s2, h2);
    MutexPutIsStep(s2, j);
    CeilingStep(s2, h2, CallMutexPut(j));
  }
}
