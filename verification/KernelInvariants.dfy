/**
 What every step of the kernel keeps: each created task on exactly one list, the index in step, someone ready to run.
 */
module KernelInvariants {
  import opened Words
  import opened ListModel
  import opened KernelSpec
  import B = Bitmap

  /** Every list there should be exists, and no entry is on two lists or twice on one. */
  ghost predicate Shaped(s: KS) {
    && Ok(s.v) && Ticks in s.v.q
    && (forall p | 0 <= p < 32 :: Ready(p) in s.v.q)
    && (forall i | i in s.count :: SemWait(i) in s.v.q)
    && (forall i | i in s.mutexes :: MutexWait(i) in s.v.q)
    && (forall i | i in s.queues :: MsgWait(i) in s.v.q && Msgs(i) in s.v.q)
  }

  /**
    Entry `e` may be on list `l`: tasks on ready queues of their own priority or on wait lists, the rest where it
    belongs.
   */
  predicate Fits(s: KS, e: Entry, l: ListId) {
    match l
    case Ready(p) => e.Task? && e.t in s.created && p == PrioOf(s, e.t)
    case SemWait(_) => e.Task? && e.t in s.created
    case MutexWait(_) => e.Task? && e.t in s.created
    case MsgWait(_) => e.Task? && e.t in s.created
    case Ticks => e.Timer? || (e.Delay? && e.t in s.created)
    case Msgs(_) => e.Msg?
  }

  /**
    Each created task is on exactly one list, through its TCB.list or its TCB.delay; the tasks in `off` are on none.
   */
  ghost predicate Placed(s: KS, off: set<nat>) {
    && (forall e | e in s.v.at :: Fits(s, e, s.v.at[e]))
    && (forall t | t in s.created ::
          if t in off then Task(t) !in s.v.at && Delay(t) !in s.v.at else Task(t) in s.v.at <==> Delay(t) !in s.v.at)
  }

  /** Bit p of the index is set exactly when ready queue p is not empty. */
  ghost predicate Indexed(s: KS) {
    && B.Valid(s.idx)
    && forall p: nat | p < 64 :: B.Marked(s.idx, p) <==> p < 32 && Q(s.v, Ready(p)) != []
  }

  /** A semaphore with units left has no waiters; a queue's count is its length and never exceeds the bound. */
  ghost predicate Counted(s: KS) {
    && (forall i | i in s.count && s.count[i] > 0 :: Q(s.v, SemWait(i)) == [])
    && (forall i | i in s.queues :: s.queues[i].count as int == |Q(s.v, Msgs(i))|
                                    && s.queues[i].count <= s.queues[i].length)
  }

  /** Every priority in use has a ready queue. */
  ghost predicate Ranked(s: KS) {
    && (forall t | t in s.created :: PrioOf(s, t) < B.SYSTEM_WORD)
    && (forall i | i in s.mutexes :: s.mutexes[i].copyPrio < B.SYSTEM_WORD)
  }

  ghost predicate Core(s: KS, off: set<nat>) {
    Shaped(s) && Placed(s, off) && Indexed(s) && Counted(s) && Ranked(s)
  }

  /**
    What holds whenever interrupts are on. Between leaving its ready queue and schedule() the running task is not ready.
   */
  ghost predicate Inv(s: KS) {
    Core(s, {}) && OnReady(s, IDLE) && s.running in s.created && (s.locked ==> OnReady(s, s.running))
  }

  // ----- entries leave and enter lists

  lemma PlacedOff(s: KS, s': KS, e: Entry, t: nat, off: set<nat>)
    requires Placed(s, off) && t in s.created && (e == Task(t) || e == Delay(t)) && e in s.v.at
    requires s'.v.at == s.v.at - {e} && s'.created == s.created && s'.prio == s.prio
    ensures Placed(s', off + {t})
  {
  }

  lemma PlacedOn(s: KS, s': KS, e: Entry, l: ListId, t: nat, off: set<nat>)
    requires Placed(s, off) && t in off && t in s.created && (e == Task(t) || e == Delay(t))
    requires s'.v.at == s.v.at[e := l] && s'.created == s.created && s'.prio == s.prio && Fits(s', e, l)
    ensures Placed(s', off - {t})
  {
  }

  /** Lists other than `l` have the contents they had. */
  ghost predicate OnlyList(v: Lists, v': Lists, l: ListId) {
    v'.q.Keys == v.q.Keys && forall l' | l' in v.q && l' != l :: v'.q[l'] == v.q[l']
  }

  lemma ShapedAfter(s: KS, s': KS, l: ListId)
    requires Shaped(s) && Ok(s'.v) && OnlyList(s.v, s'.v, l)
    requires s'.count.Keys == s.count.Keys && s'.mutexes.Keys == s.mutexes.Keys && s'.queues.Keys == s.queues.Keys
    ensures Shaped(s')
  {
  }

  /** A change on a list that is neither a ready queue nor counted. */
  lemma UncountedAfter(s: KS, s': KS, l: ListId)
    requires Indexed(s) && Counted(s) && OnlyList(s.v, s'.v, l) && l in s.v.q && !l.Ready? && !l.Msgs?
    requires s'.idx == s.idx && s'.count == s.count && s'.queues == s.queues
    requires l.SemWait? ==> s'.v.q[l] == [] || SemCount(s, l.i) == 0
    ensures Indexed(s') && Counted(s')
  {
  }

  lemma CountedAfterReady(s: KS, s': KS, l: ListId)
    requires Counted(s) && OnlyList(s.v, s'.v, l) && l in s.v.q && l.Ready?
    requires s'.count == s.count && s'.queues == s.queues
    ensures Counted(s')
  {
  }

  /** Unlinking a waiting or sleeping task. */
  lemma UnlinkCore(s: KS, e: Entry, t: nat, off: set<nat>)
    requires Core(s, off) && t in s.created && (e == Task(t) || e == Delay(t)) && e in s.v.at && !s.v.at[e].Ready?
    ensures Core(Unlink(s, e), off + {t})
    ensures s.v.at[e] in s.v.q && Unlink(s, e).v.q == s.v.q[s.v.at[e] := Without(s.v.q[s.v.at[e]], e)]
    ensures Unlink(s, e).v.at == s.v.at - {e}
    ensures forall u | u != t :: OnReady(Unlink(s, e), u) == OnReady(s, u)
  {
    hide Placed, Indexed, Counted, Ok, Without;
    var s', l := Unlink(s, e), s.v.at[e];
    assert l in s.v.q && !l.Msgs? && e in s.v.q[l] && (l.SemWait? ==> Q(s.v, l) != []) by { Located(s, e, off); }
    DeleteOk(s.v, e);
    PlacedOff(s, s', e, t, off);
    ShapedAfter(s, s', l);
    if l.SemWait? {
      NoUnits(s, l.i);
    }
    UncountedAfter(s, s', l);
  }

  lemma Located(s: KS, e: Entry, off: set<nat>)
    requires Shaped(s) && Placed(s, off) && e in s.v.at
    ensures s.v.at[e] in s.v.q && e in s.v.q[s.v.at[e]] && Fits(s, e, s.v.at[e])
  {
  }

  lemma NoUnits(s: KS, i: nat)
    requires Counted(s) && Q(s.v, SemWait(i)) != []
    ensures SemCount(s, i) == 0
  {
  }

  /** A task on no list goes to the tail of a wait list, or its delay node to the tick queue. */
  lemma LinkCore(s: KS, e: Entry, l: ListId, t: nat, off: set<nat>)
    requires Core(s, off) && t in off && t in s.created && l in s.v.q
    requires (e == Task(t) && (l.SemWait? || l.MutexWait? || l.MsgWait?)) || (e == Delay(t) && l == Ticks)
    requires l.SemWait? ==> SemCount(s, l.i) == 0
    ensures Core(s.(v := InsertTail(s.v, l, e)), off - {t})
    ensures forall u | u != t :: OnReady(s.(v := InsertTail(s.v, l, e)), u) == OnReady(s, u)
  {
    hide Placed, Indexed, Counted, Ok;
    var s' := s.(v := InsertTail(s.v, l, e));
    assert e !in s.v.at by { OffLists(s, t, off); }
    InsertTailOk(s.v, l, e);
    PlacedOn(s, s', e, l, t, off);
    ShapedAfter(s, s', l);
    UncountedAfter(s, s', l);
  }

  lemma OffLists(s: KS, t: nat, off: set<nat>)
    requires Placed(s, off) && t in off && t in s.created
    ensures Task(t) !in s.v.at && Delay(t) !in s.v.at
  {
  }

  // ----- ready queues

  lemma IndexedInsert(s: KS, s': KS, p: Prio)
    requires Indexed(s) && OnlyList(s.v, s'.v, Ready(p)) && Ready(p) in s.v.q && s'.v.q[Ready(p)] != []
             && p < B.SYSTEM_WORD
    requires s'.idx == B.Set(s.idx, p)
    ensures Indexed(s')
  {
    hide B.Set, B.Valid, B.Marked;
    B.SetMeaning(s.idx, p);
  }

  lemma IndexedDelete(s: KS, s': KS, p: Prio)
    requires Indexed(s) && OnlyList(s.v, s'.v, Ready(p)) && Ready(p) in s.v.q && s.v.q[Ready(p)] != []
             && p < B.SYSTEM_WORD
    requires s'.idx == if s'.v.q[Ready(p)] == [] then B.Clear(s.idx, p) else s.idx
    ensures Indexed(s')
  {
    hide B.Clear, B.Valid, B.Marked;
    B.ClearMeaning(s.idx, p);
  }

  lemma OnlyListDelete(v: Lists, e: Entry)
    requires Ok(v) && e in v.at
    ensures OnlyList(v, Delete(v, e), v.at[e])
  {
    hide Without;
  }

  /** A ready task leaves its queue; the index bit goes with the last one. */
  lemma ReadyDeleteCore(s: KS, t: nat, off: set<nat>)
    requires Core(s, off) && OnReady(s, t)
    ensures Core(ReadyDelete(s, t), off + {t})
    ensures s.v.at[Task(t)] == Ready(PrioOf(s, t)) && Ready(PrioOf(s, t)) in s.v.q
            && Task(t) in s.v.q[Ready(PrioOf(s, t))]
    ensures ReadyDelete(s, t).v == Delete(s.v, Task(t))
    ensures forall u | u != t :: OnReady(ReadyDelete(s, t), u) == OnReady(s, u)
  {
    hide Placed, Indexed, Counted, Ok, Without, B.Clear, OnlyList;
    var s', p := ReadyDelete(s, t), PrioOf(s, t);
    Located(s, Task(t), off);
    DeleteOk(s.v, Task(t));
    OnlyListDelete(s.v, Task(t));
    PlacedOff(s, s', Task(t), t, off);
    ShapedAfter(s, s', Ready(p));
    CountedAfterReady(s, s', Ready(p));
    IndexedDelete(s, s', p);
  }

  /** A task on no list enters the ready queue of its priority, at either end. */
  lemma ReadyInsertCore(s: KS, t: nat, off: set<nat>)
    requires Core(s, off) && t in off && t in s.created
    ensures Core(ReadyTail(s, t), off - {t}) && OnReady(ReadyTail(s, t), t)
    ensures Core(ReadyHead(s, t), off - {t}) && OnReady(ReadyHead(s, t), t)
    ensures forall u | u != t :: OnReady(ReadyTail(s, t), u) == OnReady(s, u)
                                 && OnReady(ReadyHead(s, t), u) == OnReady(s, u)
  {
    hide Placed, Indexed, Counted, Ok;
    OffLists(s, t, off);
    ReadyTailShape(s, t);
    ReadyHeadShape(s, t);
    hide ReadyTail, ReadyHead;
    EnteredCore(s, ReadyTail(s, t), t, off);
    EnteredCore(s, ReadyHead(s, t), t, off);
  }

  lemma ReadyTailShape(s: KS, t: nat)
    requires Ok(s.v) && Task(t) !in s.v.at && Ready(PrioOf(s, t)) in s.v.q
    ensures var s' := ReadyTail(s, t);
            && s' == s.(v := s'.v, idx := B.Set(s.idx, PrioOf(s, t)))
            && s'.v.at == s.v.at[Task(t) := Ready(PrioOf(s, t))]
            && Ok(s'.v) && OnlyList(s.v, s'.v, Ready(PrioOf(s, t))) && s'.v.q[Ready(PrioOf(s, t))] != []
  {
    hide Ok, B.Set;
    InsertTailOk(s.v, Ready(PrioOf(s, t)), Task(t));
  }

  lemma ReadyHeadShape(s: KS, t: nat)
    requires Ok(s.v) && Task(t) !in s.v.at && Ready(PrioOf(s, t)) in s.v.q
    ensures var s' := ReadyHead(s, t);
            && s' == s.(v := s'.v, idx := B.Set(s.idx, PrioOf(s, t)))
            && s'.v.at == s.v.at[Task(t) := Ready(PrioOf(s, t))]
            && Ok(s'.v) && OnlyList(s.v, s'.v, Ready(PrioOf(s, t))) && s'.v.q[Ready(PrioOf(s, t))] != []
  {
    hide Ok, B.Set;
    InsertHeadOk(s.v, Ready(PrioOf(s, t)), Task(t));
  }

  lemma EnteredCore(s: KS, s': KS, t: nat, off: set<nat>)
    requires Core(s, off) && t in off && t in s.created
    requires s' == s.(v := s'.v, idx := B.Set(s.idx, PrioOf(s, t)))
    requires Ok(s'.v) && OnlyList(s.v, s'.v, Ready(PrioOf(s, t))) && s'.v.at == s.v.at[Task(t) := Ready(PrioOf(s, t))]
    requires s'.v.q[Ready(PrioOf(s, t))] != []
    ensures Core(s', off - {t})
  {
    hide Placed, Indexed, Counted, Ok;
    var p := PrioOf(s, t);
    PlacedOn(s, s', Task(t), Ready(p), t, off);
    ShapedAfter(s, s', Ready(p));
    CountedAfterReady(s, s', Ready(p));
    IndexedInsert(s, s', p);
  }

  // ----- scheduling

  /** The table finds a ready task of the smallest priority value any ready task has: never a sentinel. */
  lemma TableFindsTask(s: KS, off: set<nat>)
    requires Core(s, off) && OnReady(s, IDLE)
    ensures var p := B.Get(s.idx);
            && p < 32 && Q(s.v, Ready(p)) != [] && (forall p' | 0 <= p' < p :: Q(s.v, Ready(p')) == [])
            && TableSearch(s) == Q(s.v, Ready(p))[0] && TableSearch(s).Task?
            && OnReady(s, TableSearch(s).t) && PrioOf(s, TableSearch(s).t) == p
            && (forall t | OnReady(s, t) :: p <= PrioOf(s, t))
  {
    hide B.Marked, B.Valid, B.Get, Counted, Ok;
    ReadyIsListed(s, IDLE, off);
    B.GetIsMinimum(s.idx, PrioOf(s, IDLE));
    var p := B.Get(s.idx);
    FirstListed(s.v, Ready(p));
    forall t | OnReady(s, t)
      ensures p <= PrioOf(s, t)
    {
      ReadyIsListed(s, t, off);
    }
  }

  lemma ReadyIsListed(s: KS, t: nat, off: set<nat>)
    requires Core(s, off) && OnReady(s, t)
    ensures Q(s.v, Ready(PrioOf(s, t))) != [] && B.Marked(s.idx, PrioOf(s, t))
  {
  }

  lemma FirstListed(v: Lists, l: ListId)
    requires Ok(v) && Q(v, l) != []
    ensures v.q[l][0] in v.at && v.at[v.q[l][0]] == l
  {
  }

  lemma HeadIsReady(s: KS, off: set<nat>, p: Prio)
    requires Core(s, off) && Q(s.v, Ready(p)) != []
    ensures var e := Q(s.v, Ready(p))[0]; e.Task? && OnReady(s, e.t) && PrioOf(s, e.t) == p
  {
    hide Indexed, Counted, Ok;
    FirstListed(s.v, Ready(p));
  }

  /** The table lookup returns the task the linear scan over all priorities would return. */
  lemma TableIsLinearSearch(s: KS)
    requires Core(s, {}) && OnReady(s, IDLE)
    ensures LinearSearch(s, 0) == Some(TableSearch(s))
  {
    TableFindsTask(s, {});
    LinearReaches(s, 0, B.Get(s.idx));
  }

  lemma {:induction false} LinearReaches(s: KS, from: nat, p: nat)
    requires from <= p < 32 && Q(s.v, Ready(p)) != [] && forall p' | from <= p' < p :: Q(s.v, Ready(p')) == []
    ensures LinearSearch(s, from) == Some(Q(s.v, Ready(p))[0])
    decreases p - from
  {
    if from < p {
      LinearReaches(s, from + 1, p);
    }
  }

  lemma ReadyIsOn(s: KS, t: nat, off: set<nat>)
    requires Core(s, off) && OnReady(s, t)
    ensures t !in off
  {
  }

  /** Rotating a ready task to the tail of its queue keeps everything. */
  lemma RotateCore(s: KS, t: nat, off: set<nat>)
    requires Core(s, off) && OnReady(s, t)
    ensures var s' := ReadyTail(ReadyDelete(s, t), t);
            && Core(s', off) && OnReady(s', t)
            && s' == s.(v := s'.v, idx := s'.idx)
            && forall u | u != t :: OnReady(s', u) == OnReady(s, u)
  {
    hide Core, ReadyDelete;
    assert t !in off && off + {t} - {t} == off by { ReadyIsOn(s, t, off); }
    ReadyDeleteCore(s, t, off);
    var mid := ReadyDelete(s, t);
    DeleteFields(s, t);
    ReadyInsertCore(mid, t, off + {t});
  }

  lemma DeleteFields(s: KS, t: nat)
    ensures var s' := ReadyDelete(s, t); s' == s.(v := s'.v, idx := s'.idx)
  {
    hide B.Clear, Delete;
  }

  lemma FetchKeeps(s: KS)
    requires Core(s, {}) && OnReady(s, IDLE)
    ensures Inv(Fetch(s)) && OnReady(Fetch(s), Fetch(s).running) && TableSearch(s).Task?
            && Fetch(s).running == TableSearch(s).t
  {
    hide Core, ReadyDelete, ReadyTail, OnReady, TableSearch;
    TableFindsTask(s, {});
    var t := TableSearch(s).t;
    ReadyIsCreated(s, t);
    RotateCore(s, t, {});
    var s' := if |Q(s.v, Ready(B.Get(s.idx)))| > 1 then ReadyTail(ReadyDelete(s, t), t) else s;
    CoreIgnoresRunning(s', Some(s.running), t, {});
  }

  lemma CoreIgnoresRunning(s: KS, previous: Option<nat>, t: nat, off: set<nat>)
    requires Core(s, off)
    ensures Core(s.(previous := previous, running := t), off)
    ensures forall u :: OnReady(s.(previous := previous, running := t), u) == OnReady(s, u)
  {
  }

  lemma ReadyIsCreated(s: KS, t: nat)
    requires OnReady(s, t)
    ensures t in s.created
  {
  }

  /** After a scheduling point the running task is ready, whether or not it was before. */
  lemma ScheduleKeeps(s: KS)
    requires Inv(s)
    ensures Inv(Schedule(s)) && OnReady(Schedule(s), Schedule(s).running)
  {
    hide Core, Fetch, OnReady;
    if !s.locked {
      FetchKeeps(s);
    }
  }

  // ----- calls, one lemma each

  predicate IsWaitList(l: ListId) { l.SemWait? || l.MutexWait? || l.MsgWait? }

  lemma ParkKeeps(s: KS, l: ListId)
    requires Inv(s) && OnReady(s, s.running) && s.running != IDLE && !s.locked && IsWaitList(l) && l in s.v.q
    requires l.SemWait? ==> SemCount(s, l.i) == 0
    ensures Inv(Park(s, l))
    ensures forall u | u != s.running && OnReady(s, u) :: OnReady(Park(s, l), u)
  {
    hide Core, ReadyDelete, OnReady;
    assert {} + {s.running} == {s.running} && {s.running} - {s.running} == {};
    ReadyDeleteCore(s, s.running, {});
    DeleteFields(s, s.running);
    RunningExists(s);
    LinkCore(ReadyDelete(s, s.running), Task(s.running), l, s.running, {s.running});
  }

  lemma RunningExists(s: KS)
    requires Inv(s)
    ensures forall l | l in s.v.q :: l in ReadyDelete(s, s.running).v.q
  {
    hide B.Clear;
  }

  lemma WakeKeeps(s: KS, l: ListId)
    requires Inv(s) && IsWaitList(l)
    ensures Inv(Wake(s, l)) && Wake(s, l) == s.(v := Wake(s, l).v, idx := Wake(s, l).idx)
    ensures forall u | OnReady(s, u) :: OnReady(Wake(s, l), u)
  {
    hide Core, ReadyHead, Unlink, OnReady;
    if Q(s.v, l) != [] {
      WaiterIsTask(s, l);
      var t := Q(s.v, l)[0].t;
      assert {} + {t} == {t} && {t} - {t} == {};
      UnlinkCore(s, Task(t), t, {});
      UnlinkFields(s, Task(t));
      ReadyInsertCore(Unlink(s, Task(t)), t, {t});
      HeadFields(Unlink(s, Task(t)), t);
    }
  }

  lemma WaiterIsTask(s: KS, l: ListId)
    requires Core(s, {}) && IsWaitList(l) && Q(s.v, l) != []
    ensures var e := Q(s.v, l)[0]; e.Task? && e.t in s.created && e in s.v.at && s.v.at[e] == l && !OnReady(s, e.t)
  {
    FirstListed(s.v, l);
  }

  lemma UnlinkFields(s: KS, e: Entry)
    ensures Unlink(s, e) == s.(v := Unlink(s, e).v)
  {
  }

  lemma HeadFields(s: KS, t: nat)
    ensures ReadyHead(s, t) == s.(v := ReadyHead(s, t).v, idx := ReadyHead(s, t).idx)
    ensures ReadyTail(s, t) == s.(v := ReadyTail(s, t).v, idx := ReadyTail(s, t).idx)
  {
  }

  lemma SetPrioCore(s: KS, t: nat, p: Prio, off: set<nat>)
    requires Core(s, off) && t in off && t in s.created && p < B.SYSTEM_WORD
    ensures Core(SetPrio(s, t, p), off)
    ensures forall u :: OnReady(SetPrio(s, t, p), u) == OnReady(s, u)
  {
    hide B.Valid, B.Marked, Ok;
  }

  lemma ReprioritizeKeeps(s: KS, p: Prio)
    requires Inv(s) && OnReady(s, s.running) && p < B.SYSTEM_WORD
    ensures Inv(Reprioritize(s, p)) && OnReady(Reprioritize(s, p), s.running)
    ensures var s' := Reprioritize(s, p); s' == s.(v := s'.v, idx := s'.idx, prio := s.prio[s.running := p])
    ensures forall u | OnReady(s, u) :: OnReady(Reprioritize(s, p), u)
  {
    hide Core, ReadyDelete, ReadyHead, OnReady;
    var r := s.running;
    assert {} + {r} == {r} && {r} - {r} == {};
    RunningExists(s);
    ReadyDeleteCore(s, r, {});
    DeleteFields(s, r);
    SetPrioCore(ReadyDelete(s, r), r, p, {r});
    ReadyInsertCore(SetPrio(ReadyDelete(s, r), r, p), r, {r});
    HeadFields(SetPrio(ReadyDelete(s, r), r, p), r);
  }

  lemma CreatedCore(s: KS, t: nat, p: Prio)
    requires Inv(s) && t !in s.created && p < B.SYSTEM_WORD
    ensures Core(SetPrio(s, t, p).(created := s.created + {t}), {t})
    ensures forall u | u != t :: OnReady(SetPrio(s, t, p).(created := s.created + {t}), u) == OnReady(s, u)
  {
    hide B.Valid, B.Marked, Ok;
  }

  lemma TaskCreateKeeps(s: KS, t: nat, p: Prio)
    requires Inv(s) && t !in s.created && p < B.SYSTEM_WORD
    ensures Inv(TaskCreate(s, t, p))
    ensures forall u | OnReady(s, u) :: OnReady(TaskCreate(s, t, p), u)
  {
    hide Core, ReadyTail;
    CreatedCore(s, t, p);
    assert {t} - {t} == {};
    var s1 := SetPrio(s, t, p).(created := s.created + {t});
    ReadyInsertCore(s1, t, {t});
    HeadFields(s1, t);
  }

  /** Timeouts, callbacks run and the tick count are not part of the invariant. */
  lemma TimeFieldsIgnored(s: KS, ticks: map<Entry, TickV>, fired: seq<nat>, tick: u32)
    ensures forall off :: Core(s.(ticks := ticks, fired := fired, tick := tick), off) == Core(s, off)
    ensures forall u :: OnReady(s.(ticks := ticks, fired := fired, tick := tick), u) == OnReady(s, u)
  {
  }

  /** The caller sleeps and is on no other list. */
  lemma OsDelayKeeps(s: KS, n: u32)
    requires Inv(s) && OnReady(s, s.running) && s.running != IDLE && !s.locked
    ensures Inv(OsDelay(s, n))
    ensures forall u | u != s.running && OnReady(s, u) :: OnReady(OsDelay(s, n), u)
  {
    hide Core, ReadyDelete, OnReady;
    var r, e := s.running, Delay(s.running);
    var s1 := s.(ticks := s.ticks[e := TickOf(s, e).(timeout := n, copy := n)]);
    TimeFieldsIgnored(s, s1.ticks, s.fired, s.tick);
    assert s1 == s.(ticks := s1.ticks, fired := s.fired, tick := s.tick);
    assert {} + {r} == {r} && {r} - {r} == {};
    ReadyDeleteCore(s1, r, {});
    DeleteFields(s1, r);
    DeleteKeepsTicks(s1, r);
    HasTicks(s1);
    LinkCore(ReadyDelete(s1, r), e, Ticks, r, {r});
  }

  lemma DeleteKeepsTicks(s: KS, t: nat)
    ensures Ticks in s.v.q ==> Ticks in ReadyDelete(s, t).v.q
  {
    hide B.Clear, Without;
  }

  lemma HasTicks(s: KS)
    requires Core(s, {})
    ensures Ticks in s.v.q
  {
  }

  /** Entries that are not tasks come and go without touching the tasks' places. */
  lemma TimerPlaced(s: KS, s': KS, k: nat)
    requires Placed(s, {}) && s'.created == s.created && s'.prio == s.prio
    requires s'.v.at == s.v.at[Timer(k) := Ticks] || s'.v.at == s.v.at - {Timer(k)}
    ensures Placed(s', {}) && forall u :: OnReady(s', u) == OnReady(s, u)
  {
  }

  lemma TimerLinkKeeps(s: KS, k: nat)
    requires Inv(s) && Timer(k) !in s.v.at
    ensures Inv(s.(v := InsertTail(s.v, Ticks, Timer(k))))
    ensures forall u :: OnReady(s.(v := InsertTail(s.v, Ticks, Timer(k))), u) == OnReady(s, u)
  {
    hide Indexed, Counted, Ok, Placed, OnReady, InsertTail, OnlyList;
    HasTicks(s);
    InsertedOk(s.v, Ticks, Timer(k), true);
    var s' := s.(v := InsertTail(s.v, Ticks, Timer(k)));
    ShapedAfter(s, s', Ticks);
    UncountedAfter(s, s', Ticks);
    TimerPlaced(s, s', k);
  }

  lemma TimerUnlinkKeeps(s: KS, k: nat)
    requires Inv(s) && Timer(k) in s.v.at
    ensures Inv(Unlink(s, Timer(k))) && Unlink(s, Timer(k)).v.at == s.v.at - {Timer(k)}
    ensures forall u :: OnReady(Unlink(s, Timer(k)), u) == OnReady(s, u)
  {
    hide Indexed, Counted, Ok, Placed, OnReady, Delete, OnlyList;
    DeleteOk(s.v, Timer(k));
    OnlyListDelete(s.v, Timer(k));
    TimerOnTicks(s, k);
    var s' := Unlink(s, Timer(k));
    ShapedAfter(s, s', Ticks);
    UncountedAfter(s, s', Ticks);
    TimerPlaced(s, s', k);
  }

  lemma TimerOnTicks(s: KS, k: nat)
    requires Core(s, {}) && Timer(k) in s.v.at
    ensures Ticks in s.v.q && s.v.at[Timer(k)] == Ticks
  {
  }

  lemma VisitTickKeeps(s: KS, e: Entry)
    requires Inv(s) && e in s.v.at && s.v.at[e] == Ticks
    ensures Inv(VisitTick(s, e))
    ensures forall x | x in s.v.at && s.v.at[x] == Ticks && x != e ::
        x in VisitTick(s, e).v.at && VisitTick(s, e).v.at[x] == Ticks
    ensures VisitTick(s, e).running == s.running
    ensures forall u | OnReady(s, u) :: OnReady(VisitTick(s, e), u)
  {
    hide Core, Unlink, ReadyTail, OnReady;
    TickEntry(s, e);
    var tick := TickOf(s, e);
    if tick.timeout > 0 {
      TimeFieldsIgnored(s, s.ticks[e := tick.(timeout := tick.timeout - 1)], s.fired, s.tick);
    } else if e.Timer? {
      var s1 := s.(fired := s.fired + [e.k]);
      TimeFieldsIgnored(s, s.ticks, s1.fired, s.tick);
      assert s1 == s.(ticks := s.ticks, fired := s1.fired, tick := s.tick);
      if tick.cycle {
        TimeFieldsIgnored(s, s.ticks[e := tick.(timeout := tick.copy)], s1.fired, s.tick);
      } else {
        TimerUnlinkKeeps(s1, e.k);
        UnlinkFields(s1, e);
      }
    } else {
      var t := e.t;
      assert {} + {t} == {t} && {t} - {t} == {};
      UnlinkCore(s, e, t, {});
      UnlinkFields(s, e);
      ReadyInsertCore(Unlink(s, e), t, {t});
      HeadFields(Unlink(s, e), t);
      TailAt(Unlink(s, e), t);
      SleeperOff(s, t);
    }
  }

  lemma SleeperOff(s: KS, t: nat)
    requires Core(s, {}) && t in s.created && Delay(t) in s.v.at
    ensures Task(t) !in s.v.at
  {
  }

  lemma TailAt(s: KS, t: nat)
    ensures ReadyTail(s, t).v.at == s.v.at[Task(t) := Ready(PrioOf(s, t))]
  {
  }

  lemma TickEntry(s: KS, e: Entry)
    requires Inv(s) && e in s.v.at && s.v.at[e] == Ticks
    ensures e.Timer? || (e.Delay? && e.t in s.created && !OnReady(s, e.t))
  {
  }

  lemma {:induction false} VisitAllKeeps(s: KS, es: seq<Entry>)
    requires Inv(s) && NoDup(es) && forall e | e in es :: e in s.v.at && s.v.at[e] == Ticks
    ensures Inv(VisitAll(s, es)) && VisitAll(s, es).running == s.running
    ensures forall u | OnReady(s, u) :: OnReady(VisitAll(s, es), u)
    decreases |es|
  {
    hide Inv, VisitTick, OnReady;
    if es != [] {
      VisitTickKeeps(s, es[0]);
      VisitAllKeeps(VisitTick(s, es[0]), es[1..]);
    }
  }

  /** A tick may come at any time interrupts are on, also while the running task is not ready. */
  lemma HardwareTimerKeeps(s: KS)
    requires Inv(s)
    ensures Inv(HardwareTimer(s)) && HardwareTimer(s).running == s.running
    ensures forall u | OnReady(s, u) :: OnReady(HardwareTimer(s), u)
  {
    hide Core, OnReady, VisitAll;
    var s1 := s.(tick := Wrap32(s.tick as int + 1));
    TimeFieldsIgnored(s, s.ticks, s.fired, s1.tick);
    assert s1 == s.(ticks := s.ticks, fired := s.fired, tick := s1.tick);
    TicksListed(s);
    VisitAllKeeps(s1, Q(s.v, Ticks));
  }

  lemma TicksListed(s: KS)
    requires Core(s, {})
    ensures NoDup(Q(s.v, Ticks)) && forall e | e in Q(s.v, Ticks) :: e in s.v.at && s.v.at[e] == Ticks
  {
  }

  lemma CountChangeKeeps(s: KS, i: nat, n: u32)
    requires Inv(s) && i in s.count && (n > 0 ==> Q(s.v, SemWait(i)) == [])
    ensures Inv(s.(count := s.count[i := n]))
  {
    hide B.Valid, B.Marked, Ok;
  }

  lemma MutexChangeKeeps(s: KS, i: nat, m: MutexV)
    requires Inv(s) && i in s.mutexes && m.copyPrio < B.SYSTEM_WORD
    ensures Inv(s.(mutexes := s.mutexes[i := m]))
  {
    hide B.Valid, B.Marked, Ok;
  }

  lemma MsgCountChange(s: KS, s': KS, i: nat, n: u32)
    requires Indexed(s) && Counted(s) && i in s.queues && Msgs(i) in s.v.q && OnlyList(s.v, s'.v, Msgs(i))
    requires s'.idx == s.idx && s'.count == s.count && s'.queues == s.queues[i := s.queues[i].(count := n)]
    requires n as int == |s'.v.q[Msgs(i)]| && n <= s.queues[i].length
    ensures Indexed(s') && Counted(s')
  {
  }

  /** Messages come and go without touching the tasks' places. */
  lemma MsgPlaced(s: KS, s': KS, i: nat, m: nat)
    requires Placed(s, {}) && s'.created == s.created && s'.prio == s.prio
    requires s'.v.at == s.v.at[Msg(m) := Msgs(i)] || s'.v.at == s.v.at - {Msg(m)}
    ensures Placed(s', {}) && forall u :: OnReady(s', u) == OnReady(s, u)
  {
  }

  lemma InsertedOk(v: Lists, l: ListId, e: Entry, tail: bool)
    requires Ok(v) && l in v.q && e !in v.at
    ensures var v' := if tail then InsertTail(v, l, e) else InsertHead(v, l, e);
            && Ok(v') && OnlyList(v, v', l) && l in v'.q && |v'.q[l]| == |v.q[l]| + 1 && v'.at == v.at[e := l]
  {
    hide Ok;
    InsertTailOk(v, l, e);
    InsertHeadOk(v, l, e);
  }

  lemma MsgLinkKeeps(s: KS, i: nat, m: nat, fifo: bool)
    requires Inv(s) && i in s.queues && Msg(m) !in s.v.at && s.queues[i].count < s.queues[i].length
    ensures Inv(MsgLink(s, i, s.queues[i], m, fifo))
    ensures forall u :: OnReady(MsgLink(s, i, s.queues[i], m, fifo), u) == OnReady(s, u)
  {
    hide Ok, Placed, Indexed, OnReady, OnlyList, Counted, InsertTail, InsertHead;
    HasWaitLists(s);
    QueueBounded(s, i);
    InsertedOk(s.v, Msgs(i), Msg(m), fifo);
    var s' := MsgLink(s, i, s.queues[i], m, fifo);
    ShapedAfter(s, s', Msgs(i));
    MsgPlaced(s, s', i, m);
    MsgCountChange(s, s', i, s.queues[i].count + 1);
  }

  lemma MsgUnlinkKeeps(s: KS, i: nat)
    requires Inv(s) && i in s.queues && Q(s.v, Msgs(i)) != []
    ensures s.queues[i].count > 0
    ensures Q(s.v, Msgs(i))[0].Msg? && Q(s.v, Msgs(i))[0] in s.v.at
    ensures Inv(MsgUnlink(s, i, Q(s.v, Msgs(i))[0]))
    ensures forall u :: OnReady(MsgUnlink(s, i, Q(s.v, Msgs(i))[0]), u) == OnReady(s, u)
  {
    hide Ok, Placed, Indexed, Counted, OnReady, Without, Delete, OnlyList;
    var e := Q(s.v, Msgs(i))[0];
    MessageEntry(s, i);
    HasWaitLists(s);
    QueueBounded(s, i);
    var n := s.queues[i].count - 1;
    var s' := s.(v := Delete(s.v, e), queues := s.queues[i := s.queues[i].(count := n)]);
    DeleteOk(s.v, e);
    OnlyListDelete(s.v, e);
    QueueNoDup(s.v, Msgs(i));
    WithoutElements(s.v.q[Msgs(i)], e);
    ShapedAfter(s, s', Msgs(i));
    MsgPlaced(s, s', i, e.m);
    MsgCountChange(s, s', i, n);
  }

  lemma MessageEntry(s: KS, i: nat)
    requires Inv(s) && Q(s.v, Msgs(i)) != []
    ensures var e := Q(s.v, Msgs(i))[0]; e.Msg? && e in s.v.at && s.v.at[e] == Msgs(i)
  {
    FirstListed(s.v, Msgs(i));
  }

  lemma QueueNoDup(v: Lists, l: ListId)
    requires Ok(v) && l in v.q
    ensures NoDup(v.q[l])
  {
  }

  lemma SemGetKeeps(s: KS, i: nat)
    requires Inv(s) && Called(s, CallSemGet(i))
    ensures Inv(SemGet(s, i))
  {
    hide Core, Park, OnReady, Schedule;
    if SemCount(s, i) == 0 {
      HasWaitLists(s);
      ParkKeeps(s, SemWait(i));
      ScheduleKeeps(Park(s, SemWait(i)));
    } else {
      UnitsMeanNoWaiters(s, i);
      CountChangeKeeps(s, i, SemCount(s, i) - 1);
    }
  }

  lemma HasWaitLists(s: KS)
    requires Core(s, {})
    ensures forall i | i in s.count :: SemWait(i) in s.v.q
    ensures forall i | i in s.mutexes :: MutexWait(i) in s.v.q
    ensures forall i | i in s.queues :: MsgWait(i) in s.v.q && Msgs(i) in s.v.q
  {
  }

  lemma UnitsMeanNoWaiters(s: KS, i: nat)
    requires Core(s, {})
    ensures SemCount(s, i) > 0 ==> Q(s.v, SemWait(i)) == []
  {
  }

  lemma SemPutKeeps(s: KS, i: nat)
    requires Inv(s) && i in s.count
    ensures Inv(SemPut(s, i))
    ensures forall u | OnReady(s, u) :: OnReady(SemPut(s, i), u)
  {
    hide Core, Wake;
    WakeKeeps(s, SemWait(i));
    if Q(s.v, SemWait(i)) == [] && SemCount(s, i) != SEM_MAX {
      CountChangeKeeps(s, i, SemCount(s, i) + 1);
    }
  }

  lemma MutexGetKeeps(s: KS, i: nat)
    requires Inv(s) && Called(s, CallMutexGet(i))
    ensures Inv(MutexGet(s, i))
  {
    hide Core, Park, OnReady, Schedule, Reprioritize;
    if !MutexOf(s, i).enable {
      HasWaitLists(s);
      ParkKeeps(s, MutexWait(i));
      ScheduleKeeps(Park(s, MutexWait(i)));
    } else {
      PriosBounded(s);
      ReprioritizeKeeps(s, PRIO_MUTEX);
      MutexChangeKeeps(Reprioritize(s, PRIO_MUTEX), i, MutexV(false, PrioOf(s, s.running)));
    }
  }

  lemma PriosBounded(s: KS)
    requires Core(s, {})
    ensures forall t | t in s.created :: PrioOf(s, t) < B.SYSTEM_WORD
    ensures forall i | i in s.mutexes :: s.mutexes[i].copyPrio < B.SYSTEM_WORD
  {
  }

  lemma MutexPutKeeps(s: KS, i: nat)
    requires Inv(s) && OnReady(s, s.running) && i in s.mutexes
    ensures Inv(MutexPut(s, i))
    ensures forall u | OnReady(s, u) :: OnReady(MutexPut(s, i), u)
    ensures var m := MutexOf(s, i); Inv(Reprioritize(s, m.copyPrio).(mutexes := s.mutexes[i := m.(enable := true)]))
  {
    hide Core, Wake, OnReady, Reprioritize;
    var m := MutexOf(s, i);
    PriosBounded(s);
    ReprioritizeKeeps(s, m.copyPrio);
    MutexChangeKeeps(Reprioritize(s, m.copyPrio), i, m.(enable := true));
    var s' := Reprioritize(s, m.copyPrio).(mutexes := s.mutexes[i := m.(enable := true)]);
    MutexesIgnored(Reprioritize(s, m.copyPrio), s'.mutexes);
    WakeKeeps(s', MutexWait(i));
  }

  lemma MutexesIgnored(s: KS, mutexes: map<nat, MutexV>)
    ensures forall u :: OnReady(s.(mutexes := mutexes), u) == OnReady(s, u)
  {
  }

  lemma MsgPutKeeps(s: KS, i: nat, m: nat, fifo: bool)
    requires Inv(s) && Called(s, CallMsgPut(i, m, fifo))
    ensures Inv(MsgPut(s, i, m, fifo)) && MsgPutStatus(s, i) != FALSE
    ensures forall u | OnReady(s, u) :: OnReady(MsgPut(s, i, m, fifo), u)
  {
    hide Core, Wake, OnReady, InsertTail, InsertHead;
    QueueBounded(s, i);
    WakeKeeps(s, MsgWait(i));
    WakeAt(s, MsgWait(i), Msg(m));
    if QueueOf(s, i).count < QueueOf(s, i).length {
      MsgLinkKeeps(Wake(s, MsgWait(i)), i, m, fifo);
    }
  }

  lemma QueueBounded(s: KS, i: nat)
    requires Core(s, {}) && i in s.queues
    ensures s.queues[i].count <= s.queues[i].length && s.queues[i].count as int == |Q(s.v, Msgs(i))|
  {
  }

  lemma WakeAt(s: KS, l: ListId, e: Entry)
    requires !e.Task?
    ensures e in Wake(s, l).v.at <==> e in s.v.at
  {
    hide Unlink, ReadyHead;
    match FirstOf(s.v, l)
    case Task(t) => HeadAt(Unlink(s, Task(t)), t); UnlinkAt(s, Task(t), e);
    case _ =>
  }

  lemma UnlinkAt(s: KS, x: Entry, e: Entry)
    requires e != x
    ensures e in Unlink(s, x).v.at <==> e in s.v.at
  {
  }

  lemma HeadAt(s: KS, t: nat)
    ensures ReadyHead(s, t).v.at == s.v.at[Task(t) := Ready(PrioOf(s, t))]
  {
  }

  lemma MsgGetKeeps(s: KS, i: nat)
    requires Inv(s) && Called(s, CallMsgGet(i))
    ensures Inv(MsgGet(s, i))
  {
    hide Core, Park, OnReady, Unlink;
    if Q(s.v, Msgs(i)) == [] {
      HasWaitLists(s);
      ParkKeeps(s, MsgWait(i));
    } else {
      MsgUnlinkKeeps(s, i);
    }
  }

  lemma TimerReqKeeps(s: KS, k: nat, timeout: u32, cycle: bool)
    requires Inv(s) && Timer(k) !in s.v.at
    ensures Inv(TimerReq(s, k, timeout, cycle))
    ensures forall u :: OnReady(TimerReq(s, k, timeout, cycle), u) == OnReady(s, u)
  {
    hide Core, OnReady, InsertTail;
    if timeout != 0 {
      TimerLinkKeeps(s, k);
      var s1 := s.(v := InsertTail(s.v, Ticks, Timer(k)));
      TimeFieldsIgnored(s1, s.ticks[Timer(k) := TickV(timeout, timeout, cycle)], s.fired, s.tick);
      assert TimerReq(s, k, timeout, cycle) ==
          s1.(ticks := s.ticks[Timer(k) := TickV(timeout, timeout, cycle)], fired := s.fired, tick := s.tick);
    }
  }

  lemma LockKeeps(s: KS, lock: bool)
    requires Inv(s) && OnReady(s, s.running)
    ensures Inv(s.(locked := lock))
  {
  }

  lemma PrioChangeKeeps(s: KS, p: Prio)
    requires Inv(s) && OnReady(s, s.running) && (PrioAccepted(p) ==> p < B.SYSTEM_WORD)
    ensures Inv(PrioChange(s, p))
  {
    hide Inv, Reprioritize, OnReady;
    if PrioAccepted(p) {
      ReprioritizeKeeps(s, p);
    }
  }

  /** Every step of the kernel keeps the invariant. */
  lemma StepKeeps(s: KS, c: Call)
    requires Inv(s) && Enabled(s, c)
    ensures Inv(Step(s, c))
  {
    hide Inv, OnReady, Schedule, TaskCreate, PrioChange, OsDelay, TimerReq, HardwareTimer, SemGet, SemPut, MutexGet,
        MutexPut, MsgPut, MsgGet;
    match c
    case CallSchedule => ScheduleKeeps(s);
    case CallLock(lock) => LockKeeps(s, lock);
    case CallTaskCreate(t, p) => TaskCreateKeeps(s, t, p);
    case CallPrioChange(p) => PrioChangeKeeps(s, p);
    case CallDelay(n) => OsDelayKeeps(s, n);
    case CallTimerReq(k, timeout, cycle) => TimerReqKeeps(s, k, timeout, cycle);
    case CallHardwareTimer => HardwareTimerKeeps(s);
    case CallSemGet(i) => SemGetKeeps(s, i);
    case CallSemPut(i) => SemPutKeeps(s, i);
    case CallMutexGet(i) => MutexGetKeeps(s, i);
    case CallMutexPut(i) => MutexPutKeeps(s, i);
    case CallMsgPut(i, m, fifo) => MsgPutKeeps(s, i, m, fifo);
    case CallMsgGet(i) => MsgGetKeeps(s, i);
  }

  /** Every reachable state satisfies the invariant. */
  lemma {:induction false} RunKeeps(s: KS, calls: seq<Call>)
    requires Inv(s) && CanRun(s, calls)
    ensures Inv(Run(s, calls))
    decreases |calls|
  {
    hide Inv, Step, Enabled;
    if calls != [] {
      StepKeeps(s, calls[0]);
      RunKeeps(Step(s, calls[0]), calls[1..]);
    }
  }
}
