/**
 Ticks inside the two calls that leave interrupts on, task_prio_change and task_create. Between their list and index
 operations a task is on no list, or a priority is marked whose queue is empty; hardware_timer, which ends in
 schedule(), may come there.
 */
module KernelInterrupts {
  import opened Words
  import opened ListModel
  import opened KernelSpec
  import opened KernelInvariants
  import opened KernelTicks
  import opened KernelScheduling
  import B = Bitmap

  // ----- a task on no list is as good as never created

  /** The state without task `t`; if it was running, the idle task stands in for it. */
  function Forget(s: KS, t: nat): KS {
    s.(created := s.created - {t}, running := if s.running == t then IDLE else s.running)
  }

  lemma ForgetCore(s: KS, t: nat)
    requires Core(s, {t}) && t != IDLE
    ensures Core(Forget(s, t), {})
    ensures forall u :: OnReady(Forget(s, t), u) <==> u != t && OnReady(s, u)
  {
    hide B.Valid, B.Marked, Ok;
  }

  lemma RememberCore(s: KS, t: nat)
    requires Core(Forget(s, t), {}) && t in s.created && PrioOf(s, t) < B.SYSTEM_WORD
    ensures Core(s, {t})
    ensures forall u :: OnReady(Forget(s, t), u) <==> u != t && OnReady(s, u)
  {
    hide B.Valid, B.Marked, Ok;
    assert Task(t) in s.v.at ==> Fits(Forget(s, t), Task(t), s.v.at[Task(t)]);
    assert Delay(t) in s.v.at ==> Fits(Forget(s, t), Delay(t), s.v.at[Delay(t)]);
    assert forall e | e in s.v.at :: Fits(Forget(s, t), e, s.v.at[e]) ==> Fits(s, e, s.v.at[e]);
    assert Shaped(s) && Indexed(s) && Counted(s) && Placed(s, {t});
  }

  /** What happens on lists does not depend on who was created and who runs. */
  function Seen(s: KS, created: set<nat>, running: nat): KS { s.(created := created, running := running) }

  lemma SeenParts(s: KS, c: set<nat>, r: nat, e: Entry, u: nat)
    ensures Unlink(Seen(s, c, r), e) == Seen(Unlink(s, e), c, r)
    ensures ReadyTail(Seen(s, c, r), u) == Seen(ReadyTail(s, u), c, r)
  {
    hide Delete, InsertTail, B.Set;
  }

  lemma VisitSeen(s: KS, e: Entry, c: set<nat>, r: nat)
    ensures VisitTick(Seen(s, c, r), e) == Seen(VisitTick(s, e), c, r)
  {
    hide Unlink, ReadyTail;
    match e
    case Delay(u) =>
      SeenParts(s, c, r, e, u);
      SeenParts(Unlink(s, e), c, r, e, u);
    case Timer(k) => SeenParts(s.(fired := s.fired + [k]), c, r, e, 0);
    case _ =>
  }

  lemma {:induction false} VisitAllSeen(s: KS, es: seq<Entry>, c: set<nat>, r: nat)
    ensures VisitAll(Seen(s, c, r), es) == Seen(VisitAll(s, es), c, r)
    decreases |es|
  {
    hide Seen, VisitTick;
    if es != [] {
      VisitSeen(s, es[0], c, r);
      VisitAllSeen(VisitTick(s, es[0]), es[1..], c, r);
    }
  }

  // ----- one mark too many

  /** `x` is `s` with priority `q` marked as well. */
  ghost predicate Extra(s: KS, x: KS, q: Prio) {
    && x == s.(idx := x.idx) && B.Valid(s.idx) && B.Valid(x.idx)
    && forall p: nat | p < 64 :: B.Marked(x.idx, p) <==> p == q || B.Marked(s.idx, p)
  }

  lemma VisitExtra(s: KS, x: KS, e: Entry, q: Prio)
    requires Extra(s, x, q)
    ensures Extra(VisitTick(s, e), VisitTick(x, e), q)
  {
    hide B.Valid, B.Marked, B.Set, VisitTick;
    VisitIndex(s, s.idx, e);
    VisitIndex(s, x.idx, e);
    if e.Delay? {
      B.SetMeaning(s.idx, PrioOf(s, e.t));
      B.SetMeaning(x.idx, PrioOf(s, e.t));
    }
  }

  /** What a visit does to the index, which depends on nothing else of it. */
  lemma VisitIndex(s: KS, i: B.Index, e: Entry)
    ensures var due := TickOf(s, e).timeout == 0 && e.Delay?;
            VisitTick(s.(idx := i), e)
            == VisitTick(s, e).(idx := if due then B.Set(i, PrioOf(s, e.t)) else i)
  {
    hide Unlink, ReadyTail, B.Set;
    match e
    case Delay(u) =>
      IndexParts(s, i, e, u);
      IndexParts(Unlink(s, e), i, e, u);
      UnlinkFields(s, e);
    case Timer(k) => IndexParts(s.(fired := s.fired + [k]), i, e, 0);
    case _ =>
  }

  lemma IndexParts(s: KS, i: B.Index, e: Entry, u: nat)
    ensures Unlink(s.(idx := i), e) == Unlink(s, e).(idx := i)
    ensures ReadyTail(s.(idx := i), u) == ReadyTail(s, u).(idx := B.Set(i, PrioOf(s, u)))
  {
    hide Delete, InsertTail, B.Set;
  }

  lemma {:induction false} VisitAllExtra(s: KS, x: KS, es: seq<Entry>, q: Prio)
    requires Extra(s, x, q)
    ensures Extra(VisitAll(s, es), VisitAll(x, es), q)
    decreases |es|
  {
    hide Extra, VisitTick;
    if es != [] {
      VisitExtra(s, x, es[0], q);
      VisitAllExtra(VisitTick(s, es[0]), VisitTick(x, es[0]), es[1..], q);
    }
  }

  lemma TickExtra(s: KS, x: KS, q: Prio)
    requires Extra(s, x, q)
    ensures Extra(HardwareTimer(s), HardwareTimer(x), q)
  {
    hide B.Valid, B.Marked, VisitAll;
    var tick := Wrap32(s.tick as int + 1);
    VisitAllExtra(s.(tick := tick), x.(tick := tick), Q(s.v, Ticks), q);
  }

  /** Only the marks matter. */
  lemma SameMarksCore(s: KS, x: KS, off: set<nat>)
    requires Core(s, off) && x == s.(idx := x.idx) && B.Valid(x.idx)
    requires forall p: nat | p < 64 :: B.Marked(x.idx, p) <==> B.Marked(s.idx, p)
    ensures Core(x, off) && forall u :: OnReady(x, u) == OnReady(s, u)
  {
    hide B.Valid, B.Marked, Ok;
  }

  // ----- the tick

  /** A consistent state but for task `t`, which is on no list; whoever runs is ready if it cannot be switched away. */
  ghost predicate Lacks(s: KS, t: nat) {
    && Core(s, {t}) && t in s.created && t != IDLE && OnReady(s, IDLE) && s.running in s.created
    && (s.locked && s.running != t ==> OnReady(s, s.running))
  }

  /** A tick keeps such a state, and appends those who wake to their ready queues. */
  lemma TickLacks(s: KS, t: nat)
    requires Lacks(s, t)
    ensures var h := HardwareTimer(s);
            && Lacks(h, t) && h.running == s.running && h.locked == s.locked && h.prio == s.prio
            && h.created == s.created
            && forall p :: Q(h.v, Ready(p)) == Q(s.v, Ready(p)) + Woken(s, Q(s.v, Ticks), p)
  {
    hide Core, OnReady, VisitAll, Woken;
    var f := Forget(s, t);
    ForgetCore(s, t);
    ReadyIsCreated(s, IDLE);
    HardwareTimerKeeps(f);
    HardwareTimerMeaning(f);
    SeenAsBefore(s, f, Q(s.v, Ticks));
    var h := HardwareTimer(s);
    TickFields(s);
    VisitAllSeen(s.(tick := Wrap32(s.tick as int + 1)), Q(s.v, Ticks), f.created, f.running);
    assert HardwareTimer(f) == Forget(h, t);
    RankedOne(s, t);
    RememberCore(h, t);
  }

  lemma RankedOne(s: KS, t: nat)
    requires Core(s, {t}) && t in s.created
    ensures PrioOf(s, t) < B.SYSTEM_WORD
  {
  }

  lemma TickFields(s: KS)
    ensures var h := HardwareTimer(s);
            h.running == s.running && h.locked == s.locked && h.prio == s.prio && h.created == s.created
  {
    VisitAllFields(s.(tick := Wrap32(s.tick as int + 1)), Q(s.v, Ticks));
  }

  lemma VisitFields(s: KS, e: Entry)
    ensures var h := VisitTick(s, e);
            h.running == s.running && h.locked == s.locked && h.prio == s.prio && h.created == s.created
  {
    hide Unlink, ReadyTail;
    match e
    case Delay(t) =>
      UnlinkFields(s, e);
      HeadFields(Unlink(s, e), t);
    case Timer(k) => UnlinkFields(s.(fired := s.fired + [k]), e);
    case _ =>
  }

  lemma {:induction false} VisitAllFields(s: KS, es: seq<Entry>)
    ensures var h := VisitAll(s, es);
            h.running == s.running && h.locked == s.locked && h.prio == s.prio && h.created == s.created
    decreases |es|
  {
    hide VisitTick;
    if es != [] {
      VisitFields(s, es[0]);
      VisitAllFields(VisitTick(s, es[0]), es[1..]);
    }
  }

  // ----- the scheduling point behind the tick

  /** No task is ready at priority `q` or a more urgent one. */
  predicate NobodyUpTo(s: KS, q: Prio) { forall p | 0 <= p <= q :: Q(s.v, Ready(p)) == [] }

  /** With a mark too many the table leads to a list head exactly when nobody that urgent is ready. */
  lemma ExtraSearch(s: KS, x: KS, q: Prio, t: nat)
    requires Lacks(s, t) && Extra(s, x, q) && q < B.SYSTEM_WORD
    ensures NobodyUpTo(s, q) ==> TableSearch(x) == Head(Ready(q))
    ensures !NobodyUpTo(s, q) ==> B.Get(x.idx) == B.Get(s.idx) && TableSearch(x) == TableSearch(s)
    ensures TableSearch(s).Task? && TableSearch(s).t != t
  {
    hide B.Marked, B.Valid, B.Get, Counted, Ok, Placed;
    TableFindsTask(s, {t});
    ReadyIsOn(s, TableSearch(s).t, {t});
    B.GetIsMinimum(x.idx, q);
  }

  /** A fetch that finds a task keeps a state that lacks one, and switches to another. */
  lemma FetchLacks(s: KS, t: nat)
    requires Lacks(s, t)
    ensures Core(Fetch(s), {t}) && OnReady(Fetch(s), IDLE) && Fetch(s).running != t
            && Fetch(s).running in Fetch(s).created
    ensures OnReady(Fetch(s), Fetch(s).running)
    ensures Fetch(s).created == s.created && Fetch(s).prio == s.prio && Fetch(s).locked == s.locked
  {
    hide Core, ReadyDelete, ReadyTail, OnReady, TableSearch;
    TableFindsTask(s, {t});
    var u := TableSearch(s).t;
    ReadyIsOn(s, u, {t});
    ReadyIsCreated(s, u);
    RotateCore(s, u, {t});
    var s' := if |Q(s.v, Ready(B.Get(s.idx)))| > 1 then ReadyTail(ReadyDelete(s, u), u) else s;
    CoreIgnoresRunning(s', Some(s.running), u, {t});
  }

  lemma RotateExtra(s: KS, x: KS, u: nat, q: Prio)
    requires Extra(s, x, q)
    ensures Extra(ReadyTail(ReadyDelete(s, u), u), ReadyTail(ReadyDelete(x, u), u), q)
  {
    hide B.Valid, B.Marked, B.Set, B.Clear, InsertTail, Unlink;
    var p := PrioOf(s, u);
    UnlinkFields(s, Task(u));
    UnlinkFields(x, Task(u));
    SameUnlink(s, x, Task(u));
    B.ClearMeaning(s.idx, p);
    B.ClearMeaning(x.idx, p);
    B.SetMeaning(ReadyDelete(s, u).idx, p);
    B.SetMeaning(ReadyDelete(x, u).idx, p);
  }

  lemma SameUnlink(s: KS, x: KS, e: Entry)
    requires s.v == x.v
    ensures Unlink(s, e).v == Unlink(x, e).v
  {
  }

  /** The same fetch, whatever else is marked. */
  lemma FetchExtra(s: KS, x: KS, q: Prio, t: nat)
    requires Lacks(s, t) && Extra(s, x, q) && q < B.SYSTEM_WORD && !NobodyUpTo(s, q)
    ensures Extra(Fetch(s), Fetch(x), q)
  {
    hide Lacks, B.Valid, B.Marked, ReadyDelete, ReadyTail, TableSearch;
    ExtraSearch(s, x, q, t);
    RotateExtra(s, x, TableSearch(s).t, q);
  }

  // ----- task_prio_change

  /**
    Where a tick may come: the task unlinked but its mark not yet cleared; on no list; marked at its new priority but
    not linked.
   */
  datatype Point = Unlinked | Gone | Marked

  /** The state at that point of task_prio_change(p). */
  function Interrupted(s: KS, p: Prio, at: Point): KS {
    match at
    case Unlinked => Unlink(s, Task(s.running))
    case Gone => ReadyDelete(s, s.running)
    case Marked => var m := Moving(s, p); m.(idx := B.Set(m.idx, p))
  }

  /** The task off its queue, with its new priority. */
  function Moving(s: KS, p: Prio): KS { SetPrio(ReadyDelete(s, s.running), s.running, p) }

  /** The second half of prio_ready_queue_delete. */
  function Cleared(s: KS, p: Prio): KS {
    if Q(s.v, Ready(p)) == [] then s.(idx := B.Clear(s.idx, p)) else s
  }

  /** The rest of the call of task `t`. */
  function Resumed(s: KS, t: nat, p: Prio, at: Point): KS {
    match at
    case Unlinked => ReadyHead(SetPrio(Cleared(s, PrioOf(s, t)), t, p), t)
    case Gone => ReadyHead(SetPrio(s, t, p), t)
    case Marked => s.(v := InsertHead(s.v, Ready(p), Task(t)))
  }

  /** The points divide the call: resumed at once, each ends where the call does. */
  lemma PointsDivide(s: KS, p: Prio, at: Point)
    ensures Resumed(Interrupted(s, p, at), s.running, p, at) == Reprioritize(s, p)
  {
    hide Delete, InsertHead, B.Set, B.Clear;
  }

  /** Nobody but `t` is ready at priority `q` or a more urgent one, and nobody there wakes with the next tick. */
  predicate NobodyElse(s: KS, t: nat, q: Prio) {
    forall p | 0 <= p <= q :: (forall e | e in Q(s.v, Ready(p)) :: e == Task(t)) && Woken(s, Q(s.v, Ticks), p) == []
  }

  /** The tick is taken where a priority is marked whose queue it then finds empty, with nothing more urgent. */
  predicate Exposed(s: KS, p: Prio, at: Point) {
    match at
    case Unlinked => NobodyElse(s, s.running, PrioOf(s, s.running))
    case Gone => false
    case Marked => NobodyElse(s, s.running, p)
  }

  /** What the state would be without the mark too many, and which mark that is. */
  function Base(s: KS, p: Prio, at: Point): KS { if at.Marked? then Moving(s, p) else ReadyDelete(s, s.running) }

  function Mark(s: KS, p: Prio, at: Point): Prio { if at.Marked? then p else PrioOf(s, s.running) }

  lemma GoneLacks(s: KS)
    requires Inv(s) && OnReady(s, s.running) && s.running != IDLE
    ensures var b, t := ReadyDelete(s, s.running), s.running;
            && Lacks(b, t) && b == s.(v := b.v, idx := b.idx) && PrioOf(s, t) < B.SYSTEM_WORD
            && (forall q, e :: e in Q(b.v, Ready(q)) <==> e in Q(s.v, Ready(q)) && e != Task(t))
            && Q(b.v, Ticks) == Q(s.v, Ticks) && Delay(t) !in Q(s.v, Ticks)
  {
    hide Core, ReadyDelete;
    var t := s.running;
    assert {} + {t} == {t};
    ReadyDeleteCore(s, t, {});
    DeleteFields(s, t);
    DeletedElements(s, t);
    RankedOne(ReadyDelete(s, t), t);
    OffIsNowhere(ReadyDelete(s, t), t);
  }

  lemma DeletedElements(s: KS, t: nat)
    requires Core(s, {}) && OnReady(s, t)
    ensures forall q, e :: e in Q(Delete(s.v, Task(t)), Ready(q)) <==> e in Q(s.v, Ready(q)) && e != Task(t)
    ensures Q(Delete(s.v, Task(t)), Ticks) == Q(s.v, Ticks)
  {
    hide Indexed, Counted, Without, NoDup, Delete;
    Located(s, Task(t), {});
    DeleteOk(s.v, Task(t));
    OnOneList(s.v, Task(t));
    QueueNoDup(s.v, s.v.at[Task(t)]);
    WithoutElements(s.v.q[s.v.at[Task(t)]], Task(t));
  }

  lemma OnOneList(v: Lists, e: Entry)
    requires Ok(v) && e in v.at
    ensures forall l | l != v.at[e] :: e !in Q(v, l)
  {
  }

  lemma BaseLacks(s: KS, p: Prio, at: Point)
    requires Inv(s) && OnReady(s, s.running) && s.running != IDLE && p < B.SYSTEM_WORD
    ensures var b, t := Base(s, p, at), s.running;
            && Lacks(b, t) && b.running == t && b.locked == s.locked && Mark(s, p, at) < B.SYSTEM_WORD
            && PrioOf(b, t) == Mark(s, p, at)
            && (forall q, e :: e in Q(b.v, Ready(q)) <==> e in Q(s.v, Ready(q)) && e != Task(t))
            && Q(b.v, Ticks) == Q(s.v, Ticks)
            && (forall q :: Woken(b, Q(b.v, Ticks), q) == Woken(s, Q(s.v, Ticks), q))
  {
    hide Core, ReadyDelete, OnReady, Inv, Woken;
    var t := s.running;
    GoneLacks(s);
    var b := Base(s, p, at);
    if at.Marked? {
      SetPrioCore(ReadyDelete(s, t), t, p, {t});
    }
    forall q
      ensures Woken(b, Q(s.v, Ticks), q) == Woken(s, Q(s.v, Ticks), q)
    {
      SameWoken(s, b, Q(s.v, Ticks), q, t);
    }
  }

  /** Another task's priority does not matter to who wakes. */
  lemma {:induction false} SameWoken(s: KS, b: KS, es: seq<Entry>, q: nat, t: nat)
    requires b.ticks == s.ticks && Delay(t) !in es && forall u | u != t :: PrioOf(b, u) == PrioOf(s, u)
    ensures Woken(b, es, q) == Woken(s, es, q)
    decreases |es|
  {
    if es != [] {
      SameWoken(s, b, es[1..], q, t);
    }
  }

  /** Up to the mark too many the interrupted state is the consistent one. */
  lemma InterruptedExtra(s: KS, p: Prio, at: Point)
    requires Inv(s) && OnReady(s, s.running) && p < B.SYSTEM_WORD && !at.Gone?
    ensures Extra(Base(s, p, at), Interrupted(s, p, at), Mark(s, p, at))
  {
    hide Core, OnReady, B.Valid, B.Marked, B.Set, B.Clear, Unlink;
    var t := s.running;
    assert {} + {t} == {t};
    StillMarked(s, {}, t);
    ReadyDeleteCore(s, t, {});
    StillMarked(ReadyDelete(s, t), {t}, t);
    UnlinkFields(s, Task(t));
    B.ClearMeaning(s.idx, PrioOf(s, t));
    B.SetMeaning(ReadyDelete(s, t).idx, p);
  }

  /** Exposed is what the tick finds, told beforehand. */
  lemma ExposedMeaning(s: KS, p: Prio, at: Point)
    requires Inv(s) && OnReady(s, s.running) && s.running != IDLE && p < B.SYSTEM_WORD && !at.Gone?
    ensures NobodyUpTo(HardwareTimer(Base(s, p, at)), Mark(s, p, at)) <==> Exposed(s, p, at)
  {
    hide Inv, OnReady, Lacks, Woken, Base, HardwareTimer;
    var b, m, t := Base(s, p, at), Mark(s, p, at), s.running;
    BaseLacks(s, p, at);
    TickLacks(b, t);
    forall q | 0 <= q <= m
      ensures Q(HardwareTimer(b).v, Ready(q)) == [] <==>
              (forall e | e in Q(s.v, Ready(q)) :: e == Task(t)) && Woken(s, Q(s.v, Ticks), q) == []
    {
      NoElements(Q(b.v, Ready(q)));
    }
  }

  lemma NoElements(q: seq<Entry>)
    ensures q == [] <==> forall e :: e !in q
  {
    assert q != [] ==> q[0] in q;
  }

  /** Resumed at its interrupted point after a tick that could not switch, the call ends well. */
  lemma ResumedKeeps(s: KS, p: Prio, at: Point)
    requires Inv(s) && OnReady(s, s.running) && s.running != IDLE && p < B.SYSTEM_WORD
    ensures Inv(Resumed(HardwareTimer(Interrupted(s, p, at)), s.running, p, at))
  {
    hide Core, OnReady, HardwareTimer, ReadyDelete, ReadyHead, B.Valid, B.Marked, B.Set, B.Clear, InsertHead;
    var t, b, x := s.running, Base(s, p, at), HardwareTimer(Interrupted(s, p, at));
    var h := HardwareTimer(b);
    BaseLacks(s, p, at);
    TickLacks(b, t);
    if at.Gone? {
      InsertedKeeps(h, t, p);
    } else {
      InterruptedExtra(s, p, at);
      TickExtra(b, Interrupted(s, p, at), Mark(s, p, at));
      if at.Unlinked? {
        ClearedLacks(h, x, t);
        InsertedKeeps(Cleared(x, PrioOf(x, t)), t, p);
      } else {
        LinkedKeeps(h, x, t);
      }
    }
  }

  lemma InsertedKeeps(h: KS, t: nat, p: Prio)
    requires Lacks(h, t) && h.running == t && p < B.SYSTEM_WORD
    ensures Inv(ReadyHead(SetPrio(h, t, p), t))
  {
    hide Core, OnReady, ReadyHead;
    SetPrioCore(h, t, p, {t});
    ReadyInsertCore(SetPrio(h, t, p), t, {t});
    HeadFields(SetPrio(h, t, p), t);
    assert {t} - {t} == {};
  }

  lemma ClearedLacks(h: KS, x: KS, t: nat)
    requires Lacks(h, t) && Extra(h, x, PrioOf(h, t))
    ensures Lacks(Cleared(x, PrioOf(x, t)), t)
  {
    hide Placed, Counted, Ok, B.Valid, B.Marked, B.Clear;
    var p := PrioOf(x, t);
    B.ClearMeaning(x.idx, p);
    SameMarksCore(h, Cleared(x, p), {t});
  }

  lemma LinkedKeeps(h: KS, x: KS, t: nat)
    requires Lacks(h, t) && h.running == t && Extra(h, x, PrioOf(h, t))
    ensures Inv(x.(v := InsertHead(x.v, Ready(PrioOf(h, t)), Task(t))))
  {
    hide Core, OnReady, InsertHead, B.Valid, B.Marked, B.Set;
    var y := ReadyHead(h, t);
    ReadyInsertCore(h, t, {t});
    assert {t} - {t} == {};
    B.SetMeaning(h.idx, PrioOf(h, t));
    SameMarksCore(y, x.(v := y.v), {});
  }

  /**
    A tick inside task_prio_change lets the call end well: schedule() does not switch, and the rest restores the kernel.
   */
  predicate Survives(s: KS, p: Prio, at: Point) {
    var t, h := s.running, HardwareTimer(Interrupted(s, p, at));
    (h.locked || TableSearch(h).Task?) && Schedule(h).running == t
  }

  /**
    A tick inside task_prio_change, at any of the three points. The call goes on and ends well if and only if the
    scheduler is locked. Otherwise schedule() follows a list head that is no task, exactly when the point is Exposed; or
    it switches away from the task, which then is on no list to find it by.
   */
  lemma PrioChangeInterrupted(s: KS, p: Prio, at: Point)
    requires Inv(s) && OnReady(s, s.running) && s.running != IDLE && p < B.SYSTEM_WORD
    ensures var t, h := s.running, HardwareTimer(Interrupted(s, p, at));
            && (Survives(s, p, at) <==> s.locked)
            && (s.locked ==> Inv(Resumed(Schedule(h), t, p, at)))
            && (!s.locked ==> (TableSearch(h).Task? <==> !Exposed(s, p, at)))
            && (!s.locked && !Exposed(s, p, at) ==>
                  Schedule(h).running != t && forall l :: Task(t) !in Q(Schedule(h).v, l)
                                                          && Delay(t) !in Q(Schedule(h).v, l))
  {
    hide Inv, Core, OnReady, HardwareTimer, ReadyDelete, TableSearch, Fetch, Exposed, NobodyUpTo, Resumed;
    ResumedKeeps(s, p, at);
    TickFound(s, p, at);
  }

  /** What the tick's scheduling point finds, and where it goes. */
  lemma TickFound(s: KS, p: Prio, at: Point)
    requires Inv(s) && OnReady(s, s.running) && s.running != IDLE && p < B.SYSTEM_WORD
    ensures var t, x := s.running, HardwareTimer(Interrupted(s, p, at));
            && x.running == t && x.locked == s.locked && (TableSearch(x).Task? <==> !Exposed(s, p, at))
            && (!Exposed(s, p, at) ==>
                  Fetch(x).running != t && forall l :: Task(t) !in Q(Fetch(x).v, l) && Delay(t) !in Q(Fetch(x).v, l))
  {
    hide Inv, Core, OnReady, HardwareTimer, ReadyDelete, TableSearch, Fetch, NobodyUpTo, NobodyElse;
    hide B.Marked, B.Valid, Moving;
    var t, b, x, m := s.running, Base(s, p, at), HardwareTimer(Interrupted(s, p, at)), Mark(s, p, at);
    var h := HardwareTimer(b);
    BaseLacks(s, p, at);
    TickLacks(b, t);
    FetchLacks(h, t);
    OffIsNowhere(Fetch(h), t);
    if at.Gone? {
      SearchLacks(h, t);
    } else {
      InterruptedExtra(s, p, at);
      TickExtra(b, Interrupted(s, p, at), m);
      ExposedMeaning(s, p, at);
      ExtraSearch(h, x, m, t);
      if !NobodyUpTo(h, m) {
        FetchExtra(h, x, m, t);
      }
    }
  }

  lemma SearchLacks(s: KS, t: nat)
    requires Lacks(s, t)
    ensures TableSearch(s).Task?
  {
    hide Core, OnReady;
    TableFindsTask(s, {t});
  }

  // ----- what becomes of a task that was switched away from

  /** The state with fewer tasks known to exist. */
  function Fewer(s: KS, c: set<nat>): KS { s.(created := c) }

  lemma ReadyFewer(s: KS, c: set<nat>, e: Entry, t: nat, p: Prio)
    ensures Unlink(Fewer(s, c), e) == Fewer(Unlink(s, e), c) && SetPrio(Fewer(s, c), t, p) == Fewer(SetPrio(s, t, p), c)
    ensures ReadyTail(Fewer(s, c), t) == Fewer(ReadyTail(s, t), c)
    ensures ReadyHead(Fewer(s, c), t) == Fewer(ReadyHead(s, t), c)
    ensures ReadyDelete(Fewer(s, c), t) == Fewer(ReadyDelete(s, t), c)
  {
    LinkFewer(s, c, t);
    DeleteFewer(s, c, t);
    hide Delete, ReadyTail, ReadyHead, ReadyDelete;
  }

  lemma LinkFewer(s: KS, c: set<nat>, t: nat)
    ensures ReadyTail(Fewer(s, c), t) == Fewer(ReadyTail(s, t), c)
    ensures ReadyHead(Fewer(s, c), t) == Fewer(ReadyHead(s, t), c)
  {
    hide InsertTail, InsertHead, B.Set;
  }

  lemma DeleteFewer(s: KS, c: set<nat>, t: nat)
    ensures ReadyDelete(Fewer(s, c), t) == Fewer(ReadyDelete(s, t), c)
  {
    hide Delete, B.Clear;
  }

  lemma FewerFields(s: KS, c: set<nat>)
    ensures var f := Fewer(s, c);
            f.running == s.running && f.v == s.v && f.idx == s.idx && f.prio == s.prio && f.locked == s.locked
  {
  }

  function Switched(s: KS, t: nat): KS {
    if t == s.running then s else s.(previous := Some(s.running), running := t)
  }

  lemma SwitchedFewer(s: KS, c: set<nat>, t: nat)
    ensures Switched(Fewer(s, c), t) == Fewer(Switched(s, t), c)
  {
  }

  lemma FetchSwitches(s: KS)
    ensures var e, q := TableSearch(s), Q(s.v, Ready(B.Get(s.idx)));
            Fetch(s) == if !e.Task? then s
                        else Switched(if |q| > 1 then ReadyTail(ReadyDelete(s, e.t), e.t) else s, e.t)
  {
    hide ReadyDelete, FirstOf, B.Get, InsertTail, B.Set;
    if TableSearch(s).Task? {
      DeleteFields(s, TableSearch(s).t);
    }
  }

  lemma ScheduleFewer(s: KS, c: set<nat>)
    ensures Schedule(Fewer(s, c)) == Fewer(Schedule(s), c)
  {
    hide ReadyTail, ReadyDelete, FirstOf, B.Get, Fetch, Fewer, Switched;
    FewerFields(s, c);
    FetchSwitches(s);
    FetchSwitches(Fewer(s, c));
    var e := TableSearch(s);
    if e.Task? {
      ReadyFewer(s, c, e, e.t, 0);
      ReadyFewer(ReadyDelete(s, e.t), c, e, e.t, 0);
      SwitchedFewer(s, c, e.t);
      SwitchedFewer(ReadyTail(ReadyDelete(s, e.t), e.t), c, e.t);
    }
  }

  lemma ParkFewer(s: KS, c: set<nat>, l: ListId)
    ensures Park(Fewer(s, c), l) == Fewer(Park(s, l), c)
  {
    hide ReadyDelete, InsertTail;
    ReadyFewer(s, c, Task(s.running), s.running, 0);
    DeleteFields(s, s.running);
  }

  lemma WakeFewer(s: KS, c: set<nat>, l: ListId)
    ensures Wake(Fewer(s, c), l) == Fewer(Wake(s, l), c)
  {
    hide Unlink, ReadyHead, FirstOf, Fewer;
    FewerFields(s, c);
    var e := FirstOf(s.v, l);
    if e.Task? {
      ReadyFewer(s, c, e, e.t, 0);
      ReadyFewer(Unlink(s, e), c, e, e.t, 0);
    }
  }

  lemma ReprioritizeFewer(s: KS, c: set<nat>, p: Prio)
    ensures Reprioritize(Fewer(s, c), p) == Fewer(Reprioritize(s, p), c)
  {
    hide ReadyDelete, ReadyHead, SetPrio, Fewer;
    var t, e := s.running, Task(s.running);
    FewerFields(s, c);
    ReadyFewer(s, c, e, t, 0);
    ReadyFewer(ReadyDelete(s, t), c, e, t, p);
    ReadyFewer(SetPrio(ReadyDelete(s, t), t, p), c, e, t, 0);
  }

  lemma TimeFewer(s: KS, c: set<nat>, n: u32)
    ensures OsDelay(Fewer(s, c), n) == Fewer(OsDelay(s, n), c)
    ensures HardwareTimer(Fewer(s, c)) == Fewer(HardwareTimer(s), c)
  {
    hide ReadyDelete, InsertTail, VisitAll;
    var tick, e := Wrap32(s.tick as int + 1), Delay(s.running);
    TickFields(s);
    VisitAllSeen(s.(tick := tick), Q(s.v, Ticks), c, s.running);
    var s' := s.(ticks := s.ticks[e := TickOf(s, e).(timeout := n, copy := n)]);
    ReadyFewer(s', c, e, s.running, 0);
    DeleteFields(s', s.running);
  }

  lemma SemFewer(s: KS, c: set<nat>, i: nat)
    ensures SemGet(Fewer(s, c), i) == Fewer(SemGet(s, i), c) && SemPut(Fewer(s, c), i) == Fewer(SemPut(s, i), c)
  {
    hide Park, Schedule, Wake;
    ParkFewer(s, c, SemWait(i));
    ScheduleFewer(Park(s, SemWait(i)), c);
    WakeFewer(s, c, SemWait(i));
  }

  lemma MutexFewer(s: KS, c: set<nat>, i: nat)
    ensures MutexGet(Fewer(s, c), i) == Fewer(MutexGet(s, i), c) && MutexPut(Fewer(s, c), i) == Fewer(MutexPut(s, i), c)
  {
    hide Park, Schedule, Wake, Reprioritize;
    ParkFewer(s, c, MutexWait(i));
    ScheduleFewer(Park(s, MutexWait(i)), c);
    ReprioritizeFewer(s, c, PRIO_MUTEX);
    ReprioritizeFewer(s, c, MutexOf(s, i).copyPrio);
    WakeFewer(Reprioritize(s, MutexOf(s, i).copyPrio).(mutexes := s.mutexes[i := MutexOf(s, i).(enable := true)]), c,
              MutexWait(i));
  }

  lemma MsgFewer(s: KS, c: set<nat>, i: nat, m: nat, fifo: bool)
    ensures MsgPut(Fewer(s, c), i, m, fifo) == Fewer(MsgPut(s, i, m, fifo), c)
            && MsgGet(Fewer(s, c), i) == Fewer(MsgGet(s, i), c)
  {
    hide Park, Wake, Unlink, InsertTail, InsertHead;
    ParkFewer(s, c, MsgWait(i));
    WakeFewer(s, c, MsgWait(i));
    if Q(s.v, Msgs(i)) != [] {
      ReadyFewer(s, c, Q(s.v, Msgs(i))[0], 0, 0);
    }
  }

  lemma StepFewer(s: KS, c: set<nat>, call: Call)
    requires !call.CallTaskCreate?
    ensures Step(Fewer(s, c), call) == Fewer(Step(s, call), c)
  {
    hide Schedule, OsDelay, HardwareTimer, SemGet, SemPut, MutexGet, MutexPut, MsgPut, MsgGet, Reprioritize, InsertTail;
    match call
    case CallSchedule => ScheduleFewer(s, c);
    case CallPrioChange(p) => ReprioritizeFewer(s, c, p);
    case CallDelay(n) => TimeFewer(s, c, n);
    case CallHardwareTimer => TimeFewer(s, c, 0);
    case CallSemGet(i) => SemFewer(s, c, i);
    case CallSemPut(i) => SemFewer(s, c, i);
    case CallMutexGet(i) => MutexFewer(s, c, i);
    case CallMutexPut(i) => MutexFewer(s, c, i);
    case CallMsgPut(i, m, fifo) => MsgFewer(s, c, i, m, fifo);
    case CallMsgGet(i) => MsgFewer(s, c, i, 0, true);
    case _ =>
  }

  lemma StepCreates(s: KS, c: set<nat>, call: Call)
    ensures Step(Fewer(s, c), call) == Fewer(Step(s, call), if call.CallTaskCreate? then c + {call.t} else c)
  {
    hide Fewer;
    if call.CallTaskCreate? {
      CreateFewer(s, c, call.t, call.p);
    } else {
      hide Step;
      StepFewer(s, c, call);
    }
  }

  lemma CreateFewer(s: KS, c: set<nat>, t: nat, p: Prio)
    ensures TaskCreate(Fewer(s, c), t, p) == Fewer(TaskCreate(s, t, p), c + {t})
  {
    hide ReadyTail;
    ReadyFewer(SetPrio(s, t, p).(created := s.created + {t}), c + {t}, Task(t), t, 0);
  }

  /** Task `t` does not run and is on no list, and the kernel is consistent without it. */
  ghost predicate RunsWithout(s: KS, t: nat) { s.running != t && t in s.created && t != IDLE && Inv(Forget(s, t)) }

  lemma StepWithout(s: KS, t: nat, c: Call)
    requires RunsWithout(s, t) && Enabled(s, c)
    ensures RunsWithout(Step(s, c), t)
  {
    hide Core, Step;
    var others := s.created - {t};
    assert Forget(s, t) == Fewer(s, others) && Enabled(Forget(s, t), c);
    StepKeeps(Forget(s, t), c);
    StepCreates(s, others, c);
    StepCreates(s, s.created, c);
    assert Fewer(s, s.created) == s;
    assert Forget(Step(s, c), t) == Step(Forget(s, t), c);
  }

  lemma {:induction false} NeverAgain(s: KS, t: nat, calls: seq<Call>)
    requires RunsWithout(s, t) && CanRun(s, calls)
    ensures RunsWithout(Run(s, calls), t)
    decreases |calls|
  {
    hide RunsWithout, Step, Enabled;
    if calls != [] {
      StepWithout(s, t, calls[0]);
      NeverAgain(Step(s, calls[0]), t, calls[1..]);
    }
  }

  /**
    Besides the task, somebody is ready or wakes at the priority that is marked: the mark is right without the task.
   */
  predicate Shared(s: KS, p: Prio, at: Point) {
    var m := Mark(s, p, at);
    at.Gone? || (exists e :: e in Q(s.v, Ready(m)) && e != Task(s.running)) || Woken(s, Q(s.v, Ticks), m) != []
  }

  /**
    Switched away from inside task_prio_change, a task is lost for good: over every run of calls that follows it never
    runs and is on no list, while the rest of the kernel stays consistent.
   */
  lemma InterruptedIsLost(s: KS, p: Prio, at: Point, calls: seq<Call>)
    requires Inv(s) && OnReady(s, s.running) && s.running != IDLE && p < B.SYSTEM_WORD && !s.locked && Shared(s, p, at)
    requires CanRun(Schedule(HardwareTimer(Interrupted(s, p, at))), calls)
    ensures var t, s' := s.running, Run(Schedule(HardwareTimer(Interrupted(s, p, at))), calls);
            && s'.running != t && Inv(Forget(s', t))
            && forall l :: Task(t) !in Q(s'.v, l) && Delay(t) !in Q(s'.v, l)
  {
    hide Inv, Interrupted, Shared, HardwareTimer, Fetch, OnReady, Run, CanRun;
    var t, x := s.running, HardwareTimer(Interrupted(s, p, at));
    SharedLacks(s, p, at);
    FetchLacks(x, t);
    LacksWithout(Fetch(x), t);
    NeverAgain(Fetch(x), t, calls);
    Nowhere(Run(Fetch(x), calls), t);
  }

  lemma SharedLacks(s: KS, p: Prio, at: Point)
    requires Inv(s) && OnReady(s, s.running) && s.running != IDLE && p < B.SYSTEM_WORD && Shared(s, p, at)
    ensures var x := HardwareTimer(Interrupted(s, p, at)); Lacks(x, s.running) && x.locked == s.locked
  {
    hide Inv, Core, OnReady, HardwareTimer, ReadyDelete, Woken, B.Valid, B.Marked, Moving;
    var t, b, x, m := s.running, Base(s, p, at), HardwareTimer(Interrupted(s, p, at)), Mark(s, p, at);
    BaseLacks(s, p, at);
    TickLacks(b, t);
    if !at.Gone? {
      InterruptedExtra(s, p, at);
      TickExtra(b, Interrupted(s, p, at), m);
      NoElements(Q(b.v, Ready(m)));
      MarkedAnyway(HardwareTimer(b), t, m);
      SameMarksCore(HardwareTimer(b), x, {t});
    }
  }

  lemma MarkedAnyway(h: KS, t: nat, m: Prio)
    requires Core(h, {t}) && m < B.SYSTEM_WORD && Q(h.v, Ready(m)) != []
    ensures B.Marked(h.idx, m)
  {
  }

  lemma LacksWithout(s: KS, t: nat)
    requires Lacks(s, t) && s.running != t && OnReady(s, s.running)
    ensures RunsWithout(s, t)
  {
    hide Core;
    ForgetCore(s, t);
  }

  lemma Nowhere(s: KS, t: nat)
    requires Inv(Forget(s, t)) && t != IDLE
    ensures forall l :: Task(t) !in Q(s.v, l) && Delay(t) !in Q(s.v, l)
  {
    hide Indexed, Counted, Ok;
    assert Task(t) in s.v.at ==> Fits(Forget(s, t), Task(t), s.v.at[Task(t)]);
    assert Delay(t) in s.v.at ==> Fits(Forget(s, t), Delay(t), s.v.at[Delay(t)]);
    OkOffAll(s.v, Task(t));
    OkOffAll(s.v, Delay(t));
  }

  // ----- task_create

  /** task_create between marking the priority and linking the task. */
  function Creating(s: KS, t: nat, p: Prio): KS { Known(s, t, p).(idx := B.Set(s.idx, p)) }

  /** The task with its priority, before either. */
  function Known(s: KS, t: nat, p: Prio): KS { SetPrio(s, t, p).(created := s.created + {t}) }

  /** The rest of the call. */
  function Linked(s: KS, t: nat, p: Prio): KS { s.(v := InsertTail(s.v, Ready(p), Task(t))) }

  /** The point divides the call: resumed at once, it ends where the call does. */
  lemma CreationDivides(s: KS, t: nat, p: Prio)
    ensures Linked(Creating(s, t, p), t, p) == TaskCreate(s, t, p)
  {
    hide InsertTail, B.Set;
  }

  lemma KnownLacks(s: KS, t: nat, p: Prio)
    requires Inv(s) && t !in s.created && p < B.SYSTEM_WORD
    ensures var b := Known(s, t, p);
            && Lacks(b, t) && b.running != t && b.locked == s.locked && PrioOf(b, t) == p
            && Extra(b, Creating(s, t, p), p)
            && Q(b.v, Ticks) == Q(s.v, Ticks)
            && (forall q :: Woken(b, Q(s.v, Ticks), q) == Woken(s, Q(s.v, Ticks), q))
            && (forall q :: Task(t) !in Q(s.v, Ready(q)))
  {
    hide OnReady, B.Valid, B.Marked, B.Set, Counted, Shaped, Woken;
    ReadyIsCreated(s, IDLE);
    CreatedCore(s, t, p);
    B.SetMeaning(s.idx, p);
    var b := Known(s, t, p);
    OffIsNowhere(b, t);
    forall q
      ensures Woken(b, Q(s.v, Ticks), q) == Woken(s, Q(s.v, Ticks), q)
    {
      SameWoken(s, b, Q(s.v, Ticks), q, t);
    }
  }

  lemma LinkedCreates(h: KS, x: KS, t: nat)
    requires Lacks(h, t) && h.running != t && Extra(h, x, PrioOf(h, t))
    ensures Inv(Linked(x, t, PrioOf(h, t)))
  {
    hide Core, OnReady, InsertTail, B.Valid, B.Marked, B.Set;
    var y := ReadyTail(h, t);
    ReadyInsertCore(h, t, {t});
    assert {t} - {t} == {};
    B.SetMeaning(h.idx, PrioOf(h, t));
    SameMarksCore(y, x.(v := y.v), {});
  }

  /**
    A tick inside task_create. The table then leads to a list head that is no task if and only if nobody is ready, or
    wakes, at the new priority or a more urgent one.
   */
  lemma TaskCreateInterrupted(s: KS, t: nat, p: Prio)
    requires Inv(s) && t !in s.created && p < B.SYSTEM_WORD
    ensures var x := HardwareTimer(Creating(s, t, p));
            x.locked == s.locked && (TableSearch(x).Task? <==> !NobodyElse(s, t, p))
  {
    hide Inv, Core, OnReady, HardwareTimer, Woken, TableSearch, Known, Creating, B.Valid, B.Marked;
    var b, x := Known(s, t, p), HardwareTimer(Creating(s, t, p));
    KnownLacks(s, t, p);
    TickLacks(b, t);
    TickExtra(b, Creating(s, t, p), p);
    ExtraSearch(HardwareTimer(b), x, p, t);
    NobodyMeaning(s, t, p);
  }

  /** If the caller goes on at once, the call ends well. */
  lemma ResumedAtOnce(s: KS, t: nat, p: Prio)
    requires Inv(s) && t !in s.created && p < B.SYSTEM_WORD
    ensures var x := HardwareTimer(Creating(s, t, p));
            s.locked || TableSearch(x).Task? ==> Inv(Linked(Schedule(x), t, p))
  {
    hide Inv, Core, OnReady, HardwareTimer, Woken, TableSearch, Fetch, Known, Creating, Linked, B.Valid, B.Marked;
    var b, x := Known(s, t, p), HardwareTimer(Creating(s, t, p));
    var h := HardwareTimer(b);
    KnownLacks(s, t, p);
    TickLacks(b, t);
    TickExtra(b, Creating(s, t, p), p);
    ExtraSearch(h, x, p, t);
    LinkedCreates(h, x, t);
    if !NobodyUpTo(h, p) {
      FetchLacks(h, t);
      FetchExtra(h, x, p, t);
      LinkedCreates(Fetch(h), Fetch(x), t);
    }
  }

  lemma NobodyMeaning(s: KS, t: nat, p: Prio)
    requires Inv(s) && t !in s.created && p < B.SYSTEM_WORD
    ensures NobodyUpTo(HardwareTimer(Known(s, t, p)), p) <==> NobodyElse(s, t, p)
  {
    hide Inv, OnReady, Lacks, Woken, HardwareTimer;
    var b := Known(s, t, p);
    KnownLacks(s, t, p);
    TickLacks(b, t);
    forall q | 0 <= q <= p
      ensures Q(HardwareTimer(b).v, Ready(q)) == [] <==>
              (forall e | e in Q(s.v, Ready(q)) :: e == Task(t)) && Woken(s, Q(s.v, Ticks), q) == []
    {
      NoElements(Q(b.v, Ready(q)));
    }
  }
}
