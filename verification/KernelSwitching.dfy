/** Who runs after each step: nobody else unless it schedules, and then a task no ready task is more urgent than. */
module KernelSwitching {
  import opened Words
  import opened ListModel
  import opened KernelSpec
  import opened KernelInvariants
  import opened KernelScheduling
  import opened KernelFrames

  ghost predicate MostUrgent(s: KS) { forall t | OnReady(s, t) :: PrioOf(s, s.running) <= PrioOf(s, t) }

  /** A scheduling point on its own: the ready tasks stay ready, and a switch goes to a most urgent one. */
  lemma ScheduleSwitches(s: KS)
    requires Inv(s)
    ensures Schedule(s).running == s.running || MostUrgent(Schedule(s))
    ensures !s.locked ==> MostUrgent(Schedule(s))
    ensures forall t :: OnReady(Schedule(s), t) == OnReady(s, t)
  {
    hide Core, OnReady, Fetch, ReadyDelete, ReadyTail, TableSearch;
    if !s.locked {
      TableFindsTask(s, {});
      FetchFields(s);
      RotateCore(s, TableSearch(s).t, {});
      ReadyByPlace(s, Fetch(s), TableSearch(s).t);
      forall t | OnReady(Schedule(s), t)
        ensures PrioOf(Schedule(s), Schedule(s).running) <= PrioOf(Schedule(s), t)
      {
        ScheduleRunsMostUrgent(s, t);
      }
    }
  }

  lemma ReadyByPlace(s: KS, s': KS, t: nat)
    requires s'.created == s.created && OnReady(s, t) && OnReady(ReadyTail(ReadyDelete(s, t), t), t)
    requires ReadyTail(ReadyDelete(s, t), t) ==
        s.(v := ReadyTail(ReadyDelete(s, t), t).v, idx := ReadyTail(ReadyDelete(s, t), t).idx)
    requires forall u | u != t :: OnReady(ReadyTail(ReadyDelete(s, t), t), u) == OnReady(s, u)
    requires s'.v == s.v || s'.v == ReadyTail(ReadyDelete(s, t), t).v
    ensures forall u :: OnReady(s', u) == OnReady(s, u)
  {
  }

  /** A call that blocks on a wait list of the kernel hands the processor to a most urgent task. */
  lemma BlockingSwitches(s: KS, l: ListId)
    requires Inv(s) && OnReady(s, s.running) && s.running != IDLE && !s.locked
    requires match l
             case SemWait(i) => i in s.count && s.count[i] == 0
             case MutexWait(i) => i in s.mutexes
             case _ => false
    ensures MostUrgent(Schedule(Park(s, l)))
  {
    hide Core, Park, Schedule, MostUrgent, OnReady;
    HasWaitLists(s);
    ParkKeeps(s, l);
    ParkFrame(s, l);
    ScheduleSwitches(Park(s, l));
  }

  /** A step switches only by scheduling, and then to a task no ready task is more urgent than. */
  lemma SwitchesToMostUrgent(s: KS, c: Call)
    requires Inv(s) && Enabled(s, c)
    ensures Step(s, c).running == s.running || MostUrgent(Step(s, c))
    ensures Step(s, c).running != s.running ==> c.CallSchedule? || ((c.CallSemGet? || c.CallMutexGet?) && Blocks(s, c))
  {
    if c.CallSchedule? {
      hide Inv, MostUrgent;
      ScheduleSwitches(s);
    } else if (c.CallSemGet? || c.CallMutexGet?) && Blocks(s, c) {
      hide Inv, Park, Schedule, MostUrgent, OnReady;
      BlockingSwitches(s, if c.CallSemGet? then SemWait(c.i) else MutexWait(c.i));
    } else if c.CallHardwareTimer? {
      hide Inv, HardwareTimer, MostUrgent;
      HardwareTimerKeeps(s);
    } else {
      hide Step, Inv, MostUrgent;
      CallEffect(s, c);
    }
  }

  /** A ready task stays ready unless it is the running one and blocks. */
  lemma StaysReady(s: KS, c: Call, t: nat)
    requires Inv(s) && Enabled(s, c) && OnReady(s, t) && !(Blocks(s, c) && t == s.running)
    ensures OnReady(Step(s, c), t)
  {
    hide Inv, OnReady, Schedule, TaskCreate, OsDelay, TimerReq, HardwareTimer, SemPut, MutexPut, MsgPut, Reprioritize,
        Park;
    match c {
      case CallSchedule => ScheduleSwitches(s);
      case CallLock(lock) => LockIgnored(s, lock);
      case CallTaskCreate(u, p) => TaskCreateKeeps(s, u, p);
      case CallPrioChange(p) =>
        if PrioAccepted(p) {
          ReprioritizeKeeps(s, p);
        }
      case CallDelay(n) => OsDelayKeeps(s, n);
      case CallTimerReq(k, timeout, cycle) => TimerReqKeeps(s, k, timeout, cycle);
      case CallHardwareTimer => HardwareTimerKeeps(s);
      case CallSemPut(i) => SemPutKeeps(s, i);
      case CallMutexPut(i) => MutexPutKeeps(s, i);
      case CallMsgPut(i, m, fifo) => MsgPutKeeps(s, i, m, fifo);
      case _ => TakingKeepsReady(s, c, t);
    }
  }

  lemma LockIgnored(s: KS, lock: bool)
    ensures forall u :: OnReady(s.(locked := lock), u) == OnReady(s, u)
  {
  }

  lemma TakingKeepsReady(s: KS, c: Call, t: nat)
    requires Inv(s) && Enabled(s, c) && OnReady(s, t) && !(Blocks(s, c) && t == s.running)
    requires c.CallSemGet? || c.CallMutexGet? || c.CallMsgGet?
    ensures OnReady(Step(s, c), t)
  {
    hide Core, OnReady, Schedule, Park, Reprioritize, MsgUnlink;
    if Blocks(s, c) {
      HasWaitLists(s);
      var l := if c.CallSemGet? then SemWait(c.i) else if c.CallMutexGet? then MutexWait(c.i) else MsgWait(c.i);
      ParkKeeps(s, l);
      ScheduleSwitches(Park(s, l));
    } else if c.CallSemGet? {
      CountsIgnored(s, s.count[c.i := SemCount(s, c.i) - 1]);
    } else if c.CallMutexGet? {
      ReprioritizeKeeps(s, PRIO_MUTEX);
      MutexesIgnored(Reprioritize(s, PRIO_MUTEX), s.mutexes[c.i := MutexV(false, PrioOf(s, s.running))]);
    } else {
      MsgUnlinkKeeps(s, c.i);
    }
  }

  lemma CountsIgnored(s: KS, count: map<nat, u32>)
    ensures forall u :: OnReady(s.(count := count), u) == OnReady(s, u)
  {
  }
}
