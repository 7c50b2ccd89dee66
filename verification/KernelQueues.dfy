/** Where each kernel call leaves the ready queues, and whom the scheduling point behind it therefore runs. */
module KernelQueues {
  import opened Words
  import opened ListModel
  import opened KernelSpec
  import opened KernelInvariants
  import opened KernelScheduling
  import opened KernelFrames
  import opened KernelSwitching
  import B = Bitmap

  function ReadyQueue(s: KS, p: nat): seq<Entry> { Q(s.v, Ready(p)) }

  /** The first waiter of list `l`, if its priority is `p`. */
  function WaiterAt(s: KS, l: ListId, p: nat): seq<Entry> {
    if Q(s.v, l) != [] && Q(s.v, l)[0].Task? && PrioOf(s, Q(s.v, l)[0].t) == p then [Q(s.v, l)[0]] else []
  }

  /** Ready queue `p` once the running task left its own. */
  function WithoutCaller(s: KS, p: nat): seq<Entry> { Without(ReadyQueue(s, p), Task(s.running)) }

  /** Ready queue `p` once the running task moved to the front of that of priority `to`. */
  function CallerMoved(s: KS, to: Prio, p: nat): seq<Entry> {
    (if p == to then [Task(s.running)] else []) + WithoutCaller(s, p)
  }

  /** The call runs with interrupts off and does not schedule. */
  predicate Stays(s: KS, c: Call) {
    && !c.CallSchedule? && !c.CallHardwareTimer?
    && (c.CallSemGet? || c.CallMutexGet? ==> !Blocks(s, c))
  }

  /**
    Who is ready at priority `p` after a call, in order: a released waiter goes before everybody, so does the caller
    where its priority changes, a created task behind everybody, and a caller that sleeps or waits is gone.
   */
  function ReadyAfter(s: KS, c: Call, p: nat): seq<Entry> {
    match c
    case CallTaskCreate(t, q) => ReadyQueue(s, p) + if p == q then [Task(t)] else []
    case CallPrioChange(q) => if PrioAccepted(q) then CallerMoved(s, q, p) else ReadyQueue(s, p)
    case CallDelay(_) => WithoutCaller(s, p)
    case CallSemPut(i) => WaiterAt(s, SemWait(i), p) + ReadyQueue(s, p)
    case CallMutexGet(_) => CallerMoved(s, PRIO_MUTEX, p)
    case CallMutexPut(i) => WaiterAt(s, MutexWait(i), p) + CallerMoved(s, MutexOf(s, i).copyPrio, p)
    case CallMsgPut(i, _, _) => WaiterAt(s, MsgWait(i), p) + ReadyQueue(s, p)
    case CallMsgGet(i) => if Q(s.v, Msgs(i)) == [] then WithoutCaller(s, p) else ReadyQueue(s, p)
    case _ => ReadyQueue(s, p)
  }

  lemma {:induction false} WithoutAbsent(q: seq<Entry>, e: Entry)
    requires e !in q
    ensures Without(q, e) == q
  {
    if q != [] {
      assert q[0] != e && e !in q[1..];
      WithoutAbsent(q[1..], e);
    }
  }

  lemma CallerLeaves(s: KS, p: nat)
    requires Inv(s) && OnReady(s, s.running)
    ensures ReadyQueue(ReadyDelete(s, s.running), p) == WithoutCaller(s, p)
  {
    hide Indexed, Counted, B.Clear;
    var e := Task(s.running);
    Located(s, e, {});
    if s.v.at[e] != Ready(p) {
      OnlyThere(s.v, e, Ready(p));
      WithoutAbsent(ReadyQueue(s, p), e);
    }
  }

  lemma OnlyThere(v: Lists, e: Entry, l: ListId)
    requires Ok(v) && e in v.at && v.at[e] != l
    ensures e !in Q(v, l)
  {
  }

  lemma CallerMoves(s: KS, to: Prio, p: nat)
    requires Inv(s) && OnReady(s, s.running)
    ensures ReadyQueue(Reprioritize(s, to), p) == CallerMoved(s, to, p)
  {
    hide Inv, ReadyDelete, WithoutCaller, B.Set;
    CallerLeaves(s, p);
  }

  /** A released waiter enters its ready queue in front. */
  lemma WaiterEnters(s: KS, l: ListId, p: nat)
    requires Inv(s) && IsWaitList(l)
    ensures ReadyQueue(Wake(s, l), p) == WaiterAt(s, l, p) + ReadyQueue(s, p)
  {
    hide Core, Unlink, B.Set;
    if Q(s.v, l) != [] {
      WaiterIsTask(s, l);
      UnlinkFirst(s, l);
      UnlinkFields(s, Q(s.v, l)[0]);
    }
  }

  lemma CallerParks(s: KS, l: ListId, p: nat)
    requires Inv(s) && OnReady(s, s.running) && IsWaitList(l)
    ensures ReadyQueue(Park(s, l), p) == WithoutCaller(s, p)
  {
    hide Inv, ReadyDelete, WithoutCaller;
    CallerLeaves(s, p);
  }

  lemma CallerSleeps(s: KS, n: u32, p: nat)
    requires Inv(s) && OnReady(s, s.running)
    ensures ReadyQueue(OsDelay(s, n), p) == WithoutCaller(s, p)
  {
    hide Core, ReadyDelete, WithoutCaller, OnReady;
    var e := Delay(s.running);
    var s1 := s.(ticks := s.ticks[e := TickOf(s, e).(timeout := n, copy := n)]);
    TimeFieldsIgnored(s, s1.ticks, s.fired, s.tick);
    assert s1 == s.(ticks := s1.ticks, fired := s.fired, tick := s.tick);
    CallerLeaves(s1, p);
    assert WithoutCaller(s1, p) == WithoutCaller(s, p) by { SameQueues(s, s1, p); }
  }

  lemma SameQueues(s: KS, s': KS, p: nat)
    requires s'.v == s.v && s'.running == s.running
    ensures WithoutCaller(s', p) == WithoutCaller(s, p)
  {
    hide Without;
  }

  lemma MutexPutQueues(s: KS, i: nat, p: nat)
    requires Inv(s) && Enabled(s, CallMutexPut(i))
    ensures ReadyQueue(MutexPut(s, i), p) == ReadyAfter(s, CallMutexPut(i), p)
  {
    hide Core, Reprioritize, Wake, OnReady, CallerMoved;
    var m := MutexOf(s, i);
    var s1 := Reprioritize(s, m.copyPrio);
    var s2 := s1.(mutexes := s.mutexes[i := m.(enable := true)]);
    PriosBounded(s);
    ReprioritizeKeeps(s, m.copyPrio);
    ReprioritizeFrame(s, m.copyPrio);
    CallerMoves(s, m.copyPrio, p);
    MutexPutKeeps(s, i);
    WaiterEnters(s2, MutexWait(i), p);
    if Q(s.v, MutexWait(i)) != [] {
      WaiterIsTask(s, MutexWait(i));
    }
  }

  /** The ready queues after every call that does not schedule; CallFrame tells the other lists. */
  lemma ReadyQueues(s: KS, c: Call, p: nat)
    requires Inv(s) && Enabled(s, c) && Stays(s, c)
    ensures ReadyQueue(Step(s, c), p) == ReadyAfter(s, c, p)
  {
    hide Inv, Reprioritize, Park, Wake, OsDelay, MutexPut, WithoutCaller, CallerMoved, WaiterAt;
    match c {
      case CallTaskCreate(t, q) =>
      case CallPrioChange(q) =>
        if PrioAccepted(q) {
          CallerMoves(s, q, p);
        }
      case CallDelay(n) => CallerSleeps(s, n, p);
      case CallSemPut(i) => SemPutQueues(s, i, p);
      case CallMutexGet(i) => CallerMoves(s, PRIO_MUTEX, p);
      case CallMutexPut(i) => MutexPutQueues(s, i, p);
      case CallMsgPut(i, m, fifo) => MsgPutQueues(s, i, m, fifo, p);
      case CallMsgGet(i) => MsgGetQueues(s, i, p);
      case _ =>
    }
  }

  lemma SemPutQueues(s: KS, i: nat, p: nat)
    requires Inv(s) && i in s.count
    ensures ReadyQueue(SemPut(s, i), p) == ReadyAfter(s, CallSemPut(i), p)
  {
    hide Inv, Wake;
    WaiterEnters(s, SemWait(i), p);
  }

  lemma MsgPutQueues(s: KS, i: nat, m: nat, fifo: bool, p: nat)
    requires Inv(s) && Enabled(s, CallMsgPut(i, m, fifo))
    ensures ReadyQueue(MsgPut(s, i, m, fifo), p) == ReadyAfter(s, CallMsgPut(i, m, fifo), p)
  {
    hide Core, Wake;
    QueueBounded(s, i);
    WaiterEnters(s, MsgWait(i), p);
  }

  lemma MsgGetQueues(s: KS, i: nat, p: nat)
    requires Inv(s) && Enabled(s, CallMsgGet(i))
    ensures ReadyQueue(MsgGet(s, i), p) == ReadyAfter(s, CallMsgGet(i), p)
  {
    hide Core, Park, Unlink, WithoutCaller;
    if Q(s.v, Msgs(i)) == [] {
      CallerParks(s, MsgWait(i), p);
    } else {
      MessageEntry(s, i);
      UnlinkFirst(s, Msgs(i));
      UnlinkFields(s, Q(s.v, Msgs(i))[0]);
    }
  }

  // ----- who runs then

  /** The wait list whose first task the call releases, if there is one. */
  function Releases(c: Call): Option<ListId> {
    match c
    case CallSemPut(i) => Some(SemWait(i))
    case CallMutexPut(i) => Some(MutexWait(i))
    case CallMsgPut(i, _, _) => Some(MsgWait(i))
    case _ => None
  }

  predicate NobodyBefore(s: KS, p: nat) { forall t | t in s.created && OnReady(s, t) :: p <= PrioOf(s, t) }

  /** schedule() runs the first task of the most urgent ready queue that has one. */
  lemma FirstRuns(s: KS, w: nat)
    requires Inv(s) && !s.locked && OnReady(s, w)
    requires ReadyQueue(s, PrioOf(s, w)) != [] && ReadyQueue(s, PrioOf(s, w))[0] == Task(w)
    ensures Schedule(s).running == w <==> NobodyBefore(s, PrioOf(s, w))
  {
    hide Core, Fetch, OnReady, TableSearch, B.Get;
    FetchRotates(s);
    TableFindsTask(s, {});
    ReadyIsCreated(s, TableSearch(s).t);
    assert NobodyBefore(s, B.Get(s.idx));
  }

  /**
    sem_put, mutex_put and msg_put: the scheduling point that follows runs the released waiter if and only if no ready
    task is more urgent; a caller of the same priority gives way to it.
   */
  lemma ReleasedRunsIff(s: KS, c: Call)
    requires Inv(s) && Enabled(s, c) && Releases(c).Some? && Q(s.v, Releases(c).value) != []
    ensures var w, s' := Q(s.v, Releases(c).value)[0], Step(s, c);
            && w.Task? && OnReady(s', w.t) && PrioOf(s', w.t) == PrioOf(s, w.t)
            && (!s'.locked ==> (Schedule(s').running == w.t <==> NobodyBefore(s', PrioOf(s, w.t))))
  {
    hide Inv, Step, Enabled, OnReady, Schedule, NobodyBefore;
    var l, s' := Releases(c).value, Step(s, c);
    InvParts(s);
    WaiterIsTask(s, l);
    var w := Q(s.v, l)[0].t;
    ReadyQueues(s, c, PrioOf(s, w));
    StepKeeps(s, c);
    InvParts(s');
    assert ReadyQueue(s', PrioOf(s, w)) != [] && ReadyQueue(s', PrioOf(s, w))[0] == Task(w);
    HeadIsReady(s', {}, PrioOf(s, w));
    if !s'.locked {
      FirstRuns(s', w);
    }
  }

  /**
    task_prio_change: the caller is first at its new priority, and goes on if and only if no ready task is more urgent.
   */
  lemma ChangedGoesOnIff(s: KS, p: Prio)
    requires Inv(s) && Enabled(s, CallPrioChange(p)) && PrioAccepted(p) && !s.locked
    ensures Schedule(PrioChange(s, p)).running == s.running <==> NobodyBefore(PrioChange(s, p), p)
  {
    hide Inv, Step, OnReady, Schedule, Reprioritize, NobodyBefore;
    var s' := PrioChange(s, p);
    ReadyQueues(s, CallPrioChange(p), p);
    StepKeeps(s, CallPrioChange(p));
    StepIsPrioChange(s, p);
    InvParts(s');
    HeadIsReady(s', {}, p);
    ChangeFields(s, p);
    FirstRuns(s', s.running);
  }

  lemma StepIsPrioChange(s: KS, p: Prio)
    ensures Step(s, CallPrioChange(p)) == PrioChange(s, p)
  {
  }

  lemma ChangeFields(s: KS, p: Prio)
    requires Inv(s) && Enabled(s, CallPrioChange(p))
    ensures PrioChange(s, p).running == s.running && PrioChange(s, p).locked == s.locked
  {
    hide Inv, PrioChange;
    StepIsPrioChange(s, p);
    CallEffect(s, CallPrioChange(p));
  }
}
