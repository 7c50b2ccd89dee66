/** Which part of the state each kernel call can change. */
module KernelFrames {
  import opened Words
  import opened ListModel
  import opened KernelSpec
  import opened KernelInvariants
  import opened KernelScheduling
  import B = Bitmap

  /** The calls that may change list `l`; the ready queues are open to all of them. */
  predicate Touches(c: Call, l: ListId) {
    match l
    case Ready(_) => true
    case SemWait(i) => c == CallSemGet(i) || c == CallSemPut(i)
    case MutexWait(i) => c == CallMutexGet(i) || c == CallMutexPut(i)
    case MsgWait(i) => c == CallMsgGet(i) || (c.CallMsgPut? && c.i == i)
    case Msgs(i) => c == CallMsgGet(i) || (c.CallMsgPut? && c.i == i)
    case Ticks => c.CallDelay? || c.CallTimerReq? || c.CallHardwareTimer?
  }

  /** Outside the ready queues and `ls`, the lists have the contents they had. */
  ghost predicate Kept(s: KS, s': KS, ls: set<ListId>) {
    forall l: ListId | !l.Ready? && l !in ls :: Q(s'.v, l) == Q(s.v, l)
  }

  lemma ReadyDeleteFrame(s: KS, t: nat)
    requires OnReady(s, t)
    ensures Kept(s, ReadyDelete(s, t), {})
  {
    hide Without, B.Clear;
  }

  lemma InsertFrame(s: KS, t: nat)
    ensures Kept(s, ReadyTail(s, t), {}) && Kept(s, ReadyHead(s, t), {})
  {
    hide B.Set;
  }

  /** old_task when `running` is the task that runs: the one switched away from, if any was. */
  function Previous(s: KS, running: nat): Option<nat> { if running == s.running then s.previous else Some(s.running) }

  lemma ScheduleFrame(s: KS)
    requires Inv(s)
    ensures Kept(s, Schedule(s), {})
    ensures var s' := Schedule(s);
            s' == s.(v := s'.v, idx := s'.idx, running := s'.running, previous := Previous(s, s'.running))
  {
    hide Core, OnReady, B.Get, ReadyDelete, ReadyTail, TableSearch;
    if !s.locked {
      hide Fetch;
      FetchRotates(s);
      FetchKept(s);
    }
  }

  lemma FetchKept(s: KS)
    ensures var s' := Fetch(s);
            s' == s.(v := s'.v, idx := s'.idx, running := s'.running, previous := Previous(s, s'.running))
  {
    hide ReadyDelete, ReadyTail, B.Get;
    if TableSearch(s).Task? {
      var t := TableSearch(s).t;
      DeleteFields(s, t);
      HeadFields(ReadyDelete(s, t), t);
    }
  }

  /** Blocking appends the caller to the wait list. */
  lemma ParkFrame(s: KS, l: ListId)
    requires OnReady(s, s.running) && IsWaitList(l)
    ensures Kept(s, Park(s, l), {l}) && Q(Park(s, l).v, l) == Q(s.v, l) + [Task(s.running)]
    ensures Park(s, l) == s.(v := Park(s, l).v, idx := Park(s, l).idx)
  {
    hide ReadyDelete, OnReady;
    ReadyDeleteFrame(s, s.running);
    DeleteFields(s, s.running);
  }

  /** Waking takes the longest waiter off the wait list. */
  lemma WakeFrame(s: KS, l: ListId)
    requires Inv(s) && IsWaitList(l)
    ensures Kept(s, Wake(s, l), {l}) && Q(Wake(s, l).v, l) == if Q(s.v, l) == [] then [] else Q(s.v, l)[1..]
    ensures Wake(s, l) == s.(v := Wake(s, l).v, idx := Wake(s, l).idx)
  {
    hide Core, ReadyHead, Unlink;
    if Q(s.v, l) != [] {
      WaiterIsTask(s, l);
      var t := Q(s.v, l)[0].t;
      UnlinkFirst(s, l);
      UnlinkFields(s, Task(t));
      InsertFrame(Unlink(s, Task(t)), t);
      HeadFields(Unlink(s, Task(t)), t);
    }
  }

  lemma UnlinkFirst(s: KS, l: ListId)
    requires Q(s.v, l) != [] && Q(s.v, l)[0] in s.v.at && s.v.at[Q(s.v, l)[0]] == l
    ensures Q(Unlink(s, Q(s.v, l)[0]).v, l) == Q(s.v, l)[1..]
    ensures forall l' | l' != l :: Q(Unlink(s, Q(s.v, l)[0]).v, l') == Q(s.v, l')
  {
  }

  lemma ReprioritizeFrame(s: KS, p: Prio)
    requires OnReady(s, s.running)
    ensures Kept(s, Reprioritize(s, p), {})
  {
    hide ReadyDelete, ReadyHead, OnReady;
    ReadyDeleteFrame(s, s.running);
    InsertFrame(SetPrio(ReadyDelete(s, s.running), s.running, p), s.running);
  }

  /** A task that neither sleeps nor waits is ready. */
  lemma OffWaitsIsReady(s: KS, t: nat)
    requires Inv(s) && t in s.created && Delay(t) !in Q(s.v, Ticks)
    requires forall l | l != Ticks && !l.Ready? :: Task(t) !in Q(s.v, l)
    ensures OnReady(s, t)
  {
    assert Task(t) in s.v.at;
    assert Task(t) in Q(s.v, s.v.at[Task(t)]);
  }

  lemma WaiterOnlyThere(s: KS, l: ListId)
    requires Inv(s) && IsWaitList(l) && Q(s.v, l) != [] && Q(s.v, l)[0].Task?
    ensures var t := Q(s.v, l)[0].t;
            && t in s.created && Delay(t) !in Q(s.v, Ticks) && Task(t) !in Q(s.v, l)[1..]
            && forall l' | l' != l :: Task(t) !in Q(s.v, l')
  {
    hide Indexed, Counted;
    FirstListed(s.v, l);
    ExactlyOneList(s, Q(s.v, l)[0].t);
    assert forall k | 0 <= k < |Q(s.v, l)[1..]| :: Q(s.v, l)[1..][k] == Q(s.v, l)[k + 1];
  }

  // ----- calls

  /** A call that blocks with interrupts off appends the caller to the wait list and switches away from it. */
  lemma BlockFrame(s: KS, l: ListId)
    requires Inv(s) && OnReady(s, s.running) && s.running != IDLE && !s.locked && IsWaitList(l) && l in s.v.q
    requires l.SemWait? ==> SemCount(s, l.i) == 0
    ensures var s' := Schedule(Park(s, l));
            && Kept(s, s', {l}) && Q(s'.v, l) == Q(s.v, l) + [Task(s.running)]
            && s' == s.(v := s'.v, idx := s'.idx, running := s'.running, previous := Previous(s, s'.running))
  {
    hide Core, Park, OnReady, Schedule;
    ParkFrame(s, l);
    ParkKeeps(s, l);
    ScheduleFrame(Park(s, l));
  }

  lemma SemGetFrame(s: KS, i: nat)
    requires Inv(s) && Called(s, CallSemGet(i))
    ensures var s' := SemGet(s, i);
            && Kept(s, s', {SemWait(i)})
            && Q(s'.v, SemWait(i)) == Q(s.v, SemWait(i)) + (if SemCount(s, i) == 0 then [Task(s.running)] else [])
            && s' == s.(v := s'.v, idx := s'.idx, running := s'.running, previous := Previous(s, s'.running),
                        count := s.count[i := if SemCount(s, i) == 0 then 0 else SemCount(s, i) - 1])
            && (SemCount(s, i) > 0 ==> s'.running == s.running)
  {
    hide Core, Park, OnReady, Schedule;
    if SemCount(s, i) == 0 {
      HasWaitLists(s);
      BlockFrame(s, SemWait(i));
      assert s.count == s.count[i := 0];
    }
  }

  lemma SemPutFrame(s: KS, i: nat)
    requires Inv(s) && i in s.count
    ensures var s' := SemPut(s, i);
            && Kept(s, s', {SemWait(i)})
            && Q(s'.v, SemWait(i)) == (if Q(s.v, SemWait(i)) == [] then [] else Q(s.v, SemWait(i))[1..])
            && s' == s.(v := s'.v, idx := s'.idx,
                        count := s.count[i := if Q(s.v, SemWait(i)) == [] && SemCount(s, i) != SEM_MAX
                                              then SemCount(s, i) + 1 else SemCount(s, i)])
  {
    hide Core, Wake, OnReady;
    assert s.count == s.count[i := SemCount(s, i)];
    WakeFrame(s, SemWait(i));
  }

  /**
    An enabled mutex is taken by raising the caller to the ceiling and keeping its priority; otherwise the caller
    blocks.
   */
  lemma MutexGetFrame(s: KS, i: nat)
    requires Inv(s) && Called(s, CallMutexGet(i))
    ensures var s' := MutexGet(s, i);
            && Kept(s, s', {MutexWait(i)})
            && Q(s'.v, MutexWait(i)) == Q(s.v, MutexWait(i)) + (if MutexOf(s, i).enable then [] else [Task(s.running)])
            && s' == if MutexOf(s, i).enable
                     then s.(v := s'.v, idx := s'.idx, prio := s.prio[s.running := PRIO_MUTEX],
                             mutexes := s.mutexes[i := MutexV(false, PrioOf(s, s.running))])
                     else s.(v := s'.v, idx := s'.idx, running := s'.running, previous := Previous(s, s'.running))
  {
    hide Core, Park, OnReady, Schedule, Reprioritize;
    if !MutexOf(s, i).enable {
      HasWaitLists(s);
      BlockFrame(s, MutexWait(i));
    } else {
      ReprioritizeFrame(s, PRIO_MUTEX);
      ReprioritizeKeeps(s, PRIO_MUTEX);
    }
  }

  /** A release gives the caller back the priority it had at the matching get and lets the longest waiter go. */
  lemma MutexPutFrame(s: KS, i: nat)
    requires Inv(s) && OnReady(s, s.running) && i in s.mutexes
    ensures var s' := MutexPut(s, i);
            && Kept(s, s', {MutexWait(i)})
            && Q(s'.v, MutexWait(i)) == (if Q(s.v, MutexWait(i)) == [] then [] else Q(s.v, MutexWait(i))[1..])
            && s' == s.(v := s'.v, idx := s'.idx, prio := s.prio[s.running := MutexOf(s, i).copyPrio],
                        mutexes := s.mutexes[i := MutexOf(s, i).(enable := true)])
  {
    hide Core, Wake, OnReady, Reprioritize;
    MutexPutKeeps(s, i);
    var m := MutexOf(s, i);
    PriosBounded(s);
    ReprioritizeFrame(s, m.copyPrio);
    ReprioritizeKeeps(s, m.copyPrio);
    WakeFrame(Reprioritize(s, m.copyPrio).(mutexes := s.mutexes[i := m.(enable := true)]), MutexWait(i));
  }

  /** msg_put: the longest waiter is released, the message goes to one end if there is room. */
  lemma MsgPutFrame(s: KS, i: nat, m: nat, fifo: bool)
    requires Inv(s) && Called(s, CallMsgPut(i, m, fifo))
    ensures var s' := MsgPut(s, i, m, fifo);
            var q := Q(s.v, Msgs(i));
            && Kept(s, s', {MsgWait(i), Msgs(i)})
            && Q(s'.v, Msgs(i)) == (if |q| == QueueOf(s, i).length then q
                                    else if fifo then q + [Msg(m)]
                                    else [Msg(m)] + q)
            && Q(s'.v, MsgWait(i)) == (if Q(s.v, MsgWait(i)) == [] then [] else Q(s.v, MsgWait(i))[1..])
            && i in s'.queues && s' == s.(v := s'.v, idx := s'.idx, queues := s'.queues)
            && s'.queues == s.queues[i := QueueOf(s, i).(count := s'.queues[i].count)]
  {
    hide Core, Wake, OnReady;
    QueueBounded(s, i);
    WakeFrame(s, MsgWait(i));
    assert s.queues == s.queues[i := s.queues[i]];
  }

  lemma MsgGetFrame(s: KS, i: nat)
    requires Inv(s) && Called(s, CallMsgGet(i))
    ensures var s' := MsgGet(s, i);
            var q := Q(s.v, Msgs(i));
            && Kept(s, s', {MsgWait(i), Msgs(i)})
            && Q(s'.v, Msgs(i)) == (if q == [] then [] else q[1..])
            && Q(s'.v, MsgWait(i)) == Q(s.v, MsgWait(i)) + (if q == [] then [Task(s.running)] else [])
            && i in s'.queues && s' == s.(v := s'.v, idx := s'.idx, queues := s'.queues)
            && s'.queues == s.queues[i := QueueOf(s, i).(count := s'.queues[i].count)]
  {
    hide Core, Park, OnReady, Unlink;
    if Q(s.v, Msgs(i)) == [] {
      ParkFrame(s, MsgWait(i));
      assert s.queues == s.queues[i := s.queues[i]];
    } else {
      MessageEntry(s, i);
      UnlinkFirst(s, Msgs(i));
      UnlinkFields(s, Q(s.v, Msgs(i))[0]);
    }
  }

  /** os_delay: the caller's delay node goes to the tail of the tick queue. */
  lemma OsDelayFrame(s: KS, n: u32)
    requires OnReady(s, s.running)
    ensures var s' := OsDelay(s, n);
            && Kept(s, s', {Ticks}) && Q(s'.v, Ticks) == Q(s.v, Ticks) + [Delay(s.running)]
            && s' == s.(v := s'.v, idx := s'.idx,
                        ticks := s.ticks[Delay(s.running) := TickOf(s, Delay(s.running)).(timeout := n, copy := n)])
  {
    hide ReadyDelete;
    var s1 := s.(ticks := s.ticks[Delay(s.running) := TickOf(s, Delay(s.running)).(timeout := n, copy := n)]);
    ReadyDeleteFrame(s1, s.running);
    DeleteFields(s1, s.running);
  }

  lemma TimerReqFrame(s: KS, k: nat, timeout: u32, cycle: bool)
    ensures var s' := TimerReq(s, k, timeout, cycle);
            && Kept(s, s', {Ticks}) && s' == s.(v := s'.v, ticks := s'.ticks)
            && Q(s'.v, Ticks) == Q(s.v, Ticks) + if timeout == 0 then [] else [Timer(k)]
  {
  }

  /** What step `c` made of everything but the lists and the index; only schedule() and the blocking gets switch. */
  predicate Effect(s: KS, c: Call, s': KS) {
    var e := s.(v := s'.v, idx := s'.idx);
    var switched := e.(running := s'.running, previous := Previous(s, s'.running));
    match c
    case CallSchedule => s' == switched
    case CallLock(lock) => s' == e.(locked := lock)
    case CallTaskCreate(t, p) => s' == e.(created := s.created + {t}, prio := s.prio[t := p])
    case CallPrioChange(p) => s' == e.(prio := if PrioAccepted(p) then s.prio[s.running := p] else s.prio)
    case CallDelay(n) =>
      s' == e.(ticks := s.ticks[Delay(s.running) := TickOf(s, Delay(s.running)).(timeout := n, copy := n)])
    case CallTimerReq(k, timeout, cycle) =>
      s' == e.(ticks := if timeout == 0 then s.ticks else s.ticks[Timer(k) := TickV(timeout, timeout, cycle)])
    case CallHardwareTimer => true
    case CallSemGet(i) =>
      if SemCount(s, i) == 0 then s' == switched else s' == e.(count := s.count[i := SemCount(s, i) - 1])
    case CallSemPut(i) =>
      s' == e.(count := s.count[i := if Q(s.v, SemWait(i)) == [] && SemCount(s, i) != SEM_MAX
                                     then SemCount(s, i) + 1 else SemCount(s, i)])
    case CallMutexGet(i) =>
      s' == if MutexOf(s, i).enable
            then e.(prio := s.prio[s.running := PRIO_MUTEX],
                    mutexes := s.mutexes[i := MutexV(false, PrioOf(s, s.running))])
            else switched
    case CallMutexPut(i) =>
      s' == e.(prio := s.prio[s.running := MutexOf(s, i).copyPrio],
               mutexes := s.mutexes[i := MutexOf(s, i).(enable := true)])
    case CallMsgPut(i, _, _) =>
      i in s'.queues && s' == e.(queues := s.queues[i := QueueOf(s, i).(count := s'.queues[i].count)])
    case CallMsgGet(i) =>
      i in s'.queues && s' == e.(queues := s.queues[i := QueueOf(s, i).(count := s'.queues[i].count)])
  }

  lemma CallEffect(s: KS, c: Call)
    requires Inv(s) && Enabled(s, c)
    ensures Effect(s, c, Step(s, c))
  {
    hide Inv, Schedule, HardwareTimer, SemPut, MutexGet, MutexPut, MsgPut, MsgGet, OsDelay, Reprioritize, ReadyTail,
        Kept,
         TickOf, Park, OnReady;
    match c
    case CallSchedule => ScheduleFrame(s);
    case CallLock(lock) =>
    case CallTaskCreate(t, p) => HeadFields(SetPrio(s, t, p).(created := s.created + {t}), t);
    case CallPrioChange(p) => PrioChangeFields(s, p);
    case CallDelay(n) => OsDelayFrame(s, n);
    case CallTimerReq(k, timeout, cycle) =>
    case CallHardwareTimer =>
    case CallSemGet(i) => SemGetSwitch(s, i);
    case CallSemPut(i) => SemPutFrame(s, i);
    case CallMutexGet(i) => MutexGetFrame(s, i);
    case CallMutexPut(i) => MutexPutFrame(s, i);
    case CallMsgPut(i, m, fifo) => MsgPutFrame(s, i, m, fifo);
    case CallMsgGet(i) => MsgGetFrame(s, i);
  }

  lemma PrioChangeFields(s: KS, p: Prio)
    requires Inv(s) && Enabled(s, CallPrioChange(p))
    ensures Effect(s, CallPrioChange(p), PrioChange(s, p))
  {
    hide Inv, Reprioritize, OnReady;
    if PrioAccepted(p) {
      ReprioritizeKeeps(s, p);
    }
  }

  lemma SemGetSwitch(s: KS, i: nat)
    requires Inv(s) && Called(s, CallSemGet(i))
    ensures Effect(s, CallSemGet(i), SemGet(s, i))
  {
    hide Inv, Schedule, Park, OnReady, Kept;
    SemGetFrame(s, i);
    assert SemCount(s, i) == 0 ==> s.count[i := 0] == s.count;
  }

  /** A step other than hardware_timer's leaves every list it does not touch as it is. */
  lemma CallFrame(s: KS, c: Call, l: ListId)
    requires Inv(s) && Called(s, c) && !c.CallHardwareTimer? && !Touches(c, l)
    ensures Q(Step(s, c).v, l) == Q(s.v, l)
  {
    hide Inv, Schedule, SemGet, SemPut, MutexGet, MutexPut, MsgPut, MsgGet, OsDelay, TimerReq, Reprioritize, ReadyTail,
        TickOf;
    match c
    case CallSchedule => ScheduleFrame(s);
    case CallLock(lock) =>
    case CallTaskCreate(t, p) => InsertFrame(SetPrio(s, t, p).(created := s.created + {t}), t);
    case CallPrioChange(p) => ReprioritizeFrame(s, p);
    case CallDelay(n) => OsDelayFrame(s, n);
    case CallTimerReq(k, timeout, cycle) => TimerReqFrame(s, k, timeout, cycle);
    case CallSemGet(i) => SemGetFrame(s, i);
    case CallSemPut(i) => SemPutFrame(s, i);
    case CallMutexGet(i) => MutexGetFrame(s, i);
    case CallMutexPut(i) => MutexPutFrame(s, i);
    case CallMsgPut(i, m, fifo) => MsgPutFrame(s, i, m, fifo);
    case CallMsgGet(i) => MsgGetFrame(s, i);
  }
}
