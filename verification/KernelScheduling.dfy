/** Consequences of the kernel invariant for every reachable state: where tasks are, who runs, and in what rotation. */
module KernelScheduling {
  import opened ListModel
  import opened KernelSpec
  import opened KernelInvariants
  import B = Bitmap

  /** The static data before the first task exists: all lists initialised and empty. */
  ghost predicate Blank(s: KS) {
    && s.v.at == map[] && (forall l | l in s.v.q :: s.v.q[l] == []) && Ticks in s.v.q
    && (forall p | 0 <= p < 32 :: Ready(p) in s.v.q)
    && (forall i | i in s.count :: SemWait(i) in s.v.q)
    && (forall i | i in s.mutexes :: MutexWait(i) in s.v.q)
    && (forall i | i in s.queues :: MsgWait(i) in s.v.q && Msgs(i) in s.v.q && s.queues[i].count == 0)
    && (forall i | i in s.mutexes :: s.mutexes[i].copyPrio < B.SYSTEM_WORD)
    && s.created == {} && s.idx == B.EMPTY && !s.locked
  }

  /** system_init creates the idle task with priority 31, and main starts it. */
  function Boot(s: KS): KS { TaskCreate(s, IDLE, 31).(running := IDLE) }

  lemma BlankCore(s: KS)
    requires Blank(s)
    ensures Core(s, {})
  {
    hide B.Marked, B.Valid;
    B.EmptyMeaning();
    EmptyOk(s.v);
  }

  lemma BootInv(s: KS)
    requires Blank(s)
    ensures Inv(Boot(s)) && OnReady(Boot(s), IDLE)
  {
    hide Core, ReadyTail;
    BlankCore(s);
    var s1 := SetPrio(s, IDLE, 31).(created := s.created + {IDLE});
    FirstTaskCore(s);
    assert {IDLE} - {IDLE} == {};
    ReadyInsertCore(s1, IDLE, {IDLE});
    CoreIgnoresRunning(TaskCreate(s, IDLE, 31), TaskCreate(s, IDLE, 31).previous, IDLE, {});
  }

  lemma FirstTaskCore(s: KS)
    requires Core(s, {}) && s.v.at == map[] && s.created == {}
    ensures Core(SetPrio(s, IDLE, 31).(created := s.created + {IDLE}), {IDLE})
  {
    hide B.Marked, B.Valid, Ok;
  }

  /** Every state a booted kernel can reach satisfies the invariant. */
  lemma ReachableInv(s: KS, calls: seq<Call>)
    requires Blank(s) && CanRun(Boot(s), calls)
    ensures Inv(Run(Boot(s), calls))
  {
    hide Blank, Inv, Boot;
    BootInv(s);
    RunKeeps(Boot(s), calls);
  }

  /**
    The task partition. A created task's TCB.list is on exactly one list and then only once, the ready queue of its
    current priority or a wait list; or it is on none and the task sleeps, its TCB.delay being on the tick queue.
   */
  lemma ExactlyOneList(s: KS, t: nat)
    requires Inv(s) && t in s.created
    ensures Delay(t) in Q(s.v, Ticks) <==> forall l :: Task(t) !in Q(s.v, l)
    ensures forall l, l' | Task(t) in Q(s.v, l) && Task(t) in Q(s.v, l') :: l == l'
    ensures forall l | Task(t) in Q(s.v, l) :: IsWaitList(l) || l == Ready(PrioOf(s, t))
    ensures forall l :: NoDup(Q(s.v, l))
  {
    hide Indexed, Counted;
    if Task(t) in s.v.at {
      assert Task(t) in Q(s.v, s.v.at[Task(t)]);
    }
  }

  /** Bit p of the stored index, and the summary bit of its byte, say whether ready queue p is empty. */
  lemma IndexAgrees(s: KS, p: Prio)
    requires Inv(s)
    ensures B.Bit(s.idx.c[p / 8], p % 8) <==> p < B.SYSTEM_WORD && Q(s.v, Ready(p)) != []
    ensures B.Bit(s.idx.y, p / 8) <==> s.idx.c[p / 8] != 0
  {
    hide B.Bit;
    assert B.Marked(s.idx, p) <==> p < B.SYSTEM_WORD && Q(s.v, Ready(p)) != [];
  }

  /** After an unlocked scheduling point the running task is ready and no ready task is more urgent. */
  lemma ScheduleRunsMostUrgent(s: KS, t: nat)
    requires Inv(s) && !s.locked && OnReady(Schedule(s), t)
    ensures var s' := Schedule(s);
            OnReady(s', s'.running) && PrioOf(s', s'.running) <= PrioOf(s', t)
  {
    hide Core, ReadyDelete, ReadyTail, TableSearch, Fetch;
    FetchKeeps(s);
    TableFindsTask(s, {});
    var u := TableSearch(s).t;
    RotateCore(s, u, {});
    FetchFields(s);
    if |Q(s.v, Ready(B.Get(s.idx)))| > 1 {
      assert OnReady(ReadyTail(ReadyDelete(s, u), u), t);
    }
    assert OnReady(s, t);
  }

  lemma FetchFields(s: KS)
    ensures Fetch(s).prio == s.prio && Fetch(s).created == s.created && Fetch(s).locked == s.locked
    ensures TableSearch(s).Task? ==>
              var t := TableSearch(s).t;
              Fetch(s).v == if |Q(s.v, Ready(B.Get(s.idx)))| > 1 then ReadyTail(ReadyDelete(s, t), t).v else s.v
  {
    hide ReadyDelete, ReadyTail, B.Get;
    if TableSearch(s).Task? {
      var t := TableSearch(s).t;
      DeleteFields(s, t);
      HeadFields(ReadyDelete(s, t), t);
    }
  }

  /** One fetch moves the first task of the top queue to its tail, runs it, and leaves every other queue alone. */
  lemma FetchRotates(s: KS)
    requires Core(s, {}) && OnReady(s, IDLE)
    ensures var p := B.Get(s.idx);
            var q := Q(s.v, Ready(p));
            var s' := Fetch(s);
            && q != [] && q[0].Task? && s'.running == q[0].t
            && Q(s'.v, Ready(p)) == q[1..] + [q[0]]
            && (forall l | l != Ready(p) :: Q(s'.v, l) == Q(s.v, l))
            && B.Get(s'.idx) == p && s'.locked == s.locked
  {
    hide Core, ReadyDelete, ReadyTail, OnReady, Fetch, B.Get, Ok;
    TableFindsTask(s, {});
    var p := B.Get(s.idx);
    var q := Q(s.v, Ready(p));
    var t := TableSearch(s).t;
    FetchKeeps(s);
    FetchFields(s);
    if |q| > 1 {
      RotateLists(s, t);
    }
    var s' := Fetch(s);
    TableFindsTask(s', {});
    assert Q(s'.v, Ready(p)) == q[1..] + [q[0]];
  }

  lemma RotateLists(s: KS, t: nat)
    requires Core(s, {}) && Q(s.v, Ready(PrioOf(s, t))) != [] && Q(s.v, Ready(PrioOf(s, t)))[0] == Task(t)
    ensures var q := Q(s.v, Ready(PrioOf(s, t)));
            var s' := ReadyTail(ReadyDelete(s, t), t);
            && Q(s'.v, Ready(PrioOf(s, t))) == q[1..] + [q[0]]
            && forall l | l != Ready(PrioOf(s, t)) :: Q(s'.v, l) == Q(s.v, l)
  {
    hide B.Clear, B.Set;
    FirstListed(s.v, Ready(PrioOf(s, t)));
  }

  lemma InvParts(s: KS)
    requires Inv(s)
    ensures Core(s, {}) && OnReady(s, IDLE)
  {
  }

  function ScheduleTimes(s: KS, k: nat): KS { if k == 0 then s else Schedule(ScheduleTimes(s, k - 1)) }

  /** k schedules in a row: the top queue is rotated by k, its k-th task runs, nothing else moved. */
  lemma {:induction false} RotatedBy(s: KS, k: nat)
    requires Inv(s) && !s.locked && k <= |Q(s.v, Ready(B.Get(s.idx)))|
    ensures var p := B.Get(s.idx);
            var q := Q(s.v, Ready(p));
            var s' := ScheduleTimes(s, k);
            && Inv(s') && !s'.locked && B.Get(s'.idx) == p
            && Q(s'.v, Ready(p)) == q[k..] + q[..k]
            && (forall l | l != Ready(p) :: Q(s'.v, l) == Q(s.v, l))
            && (k > 0 ==> q[k - 1] == Task(s'.running))
  {
    hide Inv, Core, OnReady, Fetch, B.Get;
    if k > 0 {
      RotatedBy(s, k - 1);
      var s' := ScheduleTimes(s, k - 1);
      InvParts(s');
      FetchRotates(s');
      ScheduleKeeps(s');
      var q := Q(s.v, Ready(B.Get(s.idx)));
      assert q[k - 1..][1..] == q[k..] && q[..k] == q[..k - 1] + [q[k - 1]];
    }
  }

  /**
    Round robin: as many schedules as the top queue has tasks run each of them once, in queue order, and restore the
    queue.
   */
  lemma RoundRobin(s: KS, k: nat)
    requires Inv(s) && !s.locked
    ensures var q := Q(s.v, Ready(B.Get(s.idx)));
            && (1 <= k <= |q| ==> q[k - 1] == Task(ScheduleTimes(s, k).running))
            && forall l :: Q(ScheduleTimes(s, |q|).v, l) == Q(s.v, l)
  {
    hide Inv, Core, OnReady, Schedule, B.Get;
    var q := Q(s.v, Ready(B.Get(s.idx)));
    if 1 <= k <= |q| {
      RotatedBy(s, k);
    }
    RotatedBy(s, |q|);
    assert q[|q|..] + q[..|q|] == q;
  }

  // ----- priorities without a ready queue

  /** The task a call gives a priority to. */
  function Ranks(s: KS, c: Call): nat { if c.CallTaskCreate? then c.t else s.running }

  /** The state when the task is on no list, just before it is inserted at its new priority. */
  function Unqueued(s: KS, c: Call): KS {
    if c.CallTaskCreate? then SetPrio(s, c.t, c.p).(created := s.created + {c.t})
    else if c.CallPrioChange? then SetPrio(ReadyDelete(s, s.running), s.running, c.p)
    else s
  }

  lemma UnqueuedIndex(s: KS, c: Call)
    requires Inv(s) && Called(s, c) && (c.CallTaskCreate? || c.CallPrioChange?)
    ensures var m := Unqueued(s, c);
            && B.Valid(m.idx) && PrioOf(m, Ranks(s, c)) == c.p && Task(Ranks(s, c)) !in m.v.at && Ok(m.v)
            && (Ranks(s, c) != IDLE ==> PrioOf(m, IDLE) < B.SYSTEM_WORD && B.Marked(m.idx, PrioOf(m, IDLE)))
  {
    hide Counted, ReadyDelete, B.Valid, B.Marked;
    if c.CallPrioChange? {
      ReadyDeleteCore(s, s.running, {});
      DeleteFields(s, s.running);
      assert {} + {s.running} == {s.running};
      StillMarked(ReadyDelete(s, s.running), {s.running}, IDLE);
    } else {
      StillMarked(s, {}, IDLE);
    }
  }

  lemma StillMarked(s: KS, off: set<nat>, t: nat)
    requires Core(s, off) && t in s.created
    ensures PrioOf(s, t) < B.SYSTEM_WORD && B.Valid(s.idx) && Ok(s.v)
    ensures OnReady(s, t) ==> B.Marked(s.idx, PrioOf(s, t))
    ensures t in off ==> Task(t) !in s.v.at
  {
    hide Counted, B.Valid, B.Marked;
    if OnReady(s, t) {
      Located(s, Task(t), off);
    }
  }

  /**
    What goes wrong at a priority without a ready queue: its index bit is set with no queue behind it, and the task is
    on none of the queues, so that schedule() never finds it.
   */
  lemma UnqueuedTaskIsLost(s: KS, c: Call)
    requires Inv(s) && Called(s, c) && !HasQueue(c)
    ensures var s', t := Step(s, c), Ranks(s, c);
            && PrioOf(s', t) >= B.SYSTEM_WORD && B.Marked(s'.idx, PrioOf(s', t)) && !Indexed(s')
            && (forall p | 0 <= p < B.SYSTEM_WORD :: Task(t) !in Q(s'.v, Ready(p)))
            && (t != IDLE ==> TableSearch(s') != Task(t))
  {
    hide Core, OnReady, ReadyDelete, B.Valid, B.Marked, B.Set, B.Get, Ok;
    var m, t := Unqueued(s, c), Ranks(s, c);
    UnqueuedIndex(s, c);
    B.SetMeaning(m.idx, c.p);
    OkOffAll(m.v, Task(t));
    var s' := Step(s, c);
    assert s'.idx == B.Set(m.idx, c.p) && PrioOf(s', t) == c.p;
    assert forall l | l != Ready(c.p) :: Q(s'.v, l) == Q(m.v, l);
    if t != IDLE {
      B.GetIsMinimum(s'.idx, PrioOf(m, IDLE));
    }
  }

  lemma OkOffAll(v: Lists, e: Entry)
    requires Ok(v) && e !in v.at
    ensures forall l :: e !in Q(v, l)
  {
  }

  /**
    The priority checks of task_create, which has none, and of task_prio_change, which lets SYSTEM_WORD itself pass:
    over all calls, the invariant survives exactly those that give a task a priority with a ready queue.
   */
  lemma KeptIffQueued(s: KS, c: Call)
    requires Inv(s) && Called(s, c)
    ensures Inv(Step(s, c)) <==> HasQueue(c)
  {
    hide Step, Called;
    if HasQueue(c) {
      hide Inv;
      StepKeeps(s, c);
    } else {
      UnqueuedTaskIsLost(s, c);
    }
  }

  /**
    task_prio_change alone: of the priorities its check accepts exactly the one equal to SYSTEM_WORD breaks the kernel.
   */
  lemma PrioChangeKeptIff(s: KS, p: Prio)
    requires Inv(s) && OnReady(s, s.running) && PrioAccepted(p)
    ensures Inv(PrioChange(s, p)) <==> p < B.SYSTEM_WORD
  {
    hide Inv, PrioChange, OnReady;
    KeptIffQueued(s, CallPrioChange(p));
  }

  lemma OffIsNowhere(s: KS, t: nat)
    requires Core(s, {t}) && t in s.created
    ensures forall l :: Task(t) !in Q(s.v, l) && Delay(t) !in Q(s.v, l)
  {
    OkOffAll(s.v, Task(t));
    OkOffAll(s.v, Delay(t));
  }
}
