/**
 The kernel as the C sources have it: objects with embedded links, the ready index, and calls that update them in place.
 Every call is proved to do to the heap what its function in KernelSpec does to the state it represents.
 */
module KernelHeap {
  import opened Words
  import opened ListModel
  import opened LinkedLists
  import opened KernelSpec
  import opened KernelInvariants
  import opened KernelScheduling
  import opened KernelTicks
  import B = Bitmap

  /** TCB, with its list and delay links in the list heap. */
  class Tcb {
    const id: nat
    var prio: Prio

    constructor (id: nat, prio: Prio)
      ensures this.id == id && this.prio == prio
    {
      this.id, this.prio := id, prio;
    }
  }

  /** TICK: a task's delay node or a software timer. */
  class Tick {
    const entry: Entry
    var timeout: u32
    var copy: u32
    var cycle: bool

    constructor (entry: Entry)
      ensures this.entry == entry && timeout == copy == 0 && !cycle
    {
      this.entry, timeout, copy, cycle := entry, 0, 0, false;
    }
  }

  class Sem {
    const id: nat
    var count: u32

    constructor (id: nat, count: u32)
      ensures this.id == id && this.count == count
    {
      this.id, this.count := id, count;
    }
  }

  class Mutex {
    const id: nat
    var enable: bool
    var copyPrio: Prio

    constructor (id: nat)
      ensures this.id == id && enable && copyPrio == 0
    {
      this.id, enable, copyPrio := id, true, 0;
    }
  }

  class Queue {
    const id: nat
    const length: u32
    var count: u32

    constructor (id: nat, length: u32)
      ensures this.id == id && this.length == length && count == 0
    {
      this.id, this.length, count := id, length, 0;
    }
  }

  datatype Records = Records(
    prio: map<nat, Prio>, count: map<nat, u32>, mutexes: map<nat, MutexV>, queues: map<nat, QueueV>,
        ticks: map<Entry, TickV>)

  class Kernel {
    const lists: ListHeap
    const index: B.ReadyIndex
    const tasks: map<nat, Tcb>
    const sems: map<nat, Sem>
    const mutexes: map<nat, Mutex>
    const queues: map<nat, Queue>
    const ticks: map<Entry, Tick>
    ghost const tcbObjects: set<Tcb>
    ghost const semObjects: set<Sem>
    ghost const mutexObjects: set<Mutex>
    ghost const queueObjects: set<Queue>
    ghost const tickObjects: set<Tick>

    var newTask: Tcb
    var oldTask: Tcb?
    var isLocked: bool
    var fosTick: u32
    ghost var created: set<nat>
    ghost var fired: seq<nat>

    /** Objects are told apart by their numbers, and every tick node has its counters. */
    ghost predicate Fixed() {
      && index.c.Length == 8
      && (forall t | t in tasks :: tasks[t] in tcbObjects && tasks[t].id == t && Task(t) in lists.nodes
                                   && Delay(t) in lists.nodes)
      && (forall i | i in sems :: sems[i] in semObjects && sems[i].id == i)
      && (forall i | i in mutexes :: mutexes[i] in mutexObjects && mutexes[i].id == i)
      && (forall i | i in queues :: queues[i] in queueObjects && queues[i].id == i)
      && (forall e | e in ticks :: ticks[e] in tickObjects && ticks[e].entry == e)
      && (forall e | e in lists.nodes && (e.Delay? || e.Timer?) :: e in ticks)
    }

    ghost function Prios(): map<nat, Prio>
      requires Fixed()
      reads tcbObjects
    {
      map t | t in tasks :: tasks[t].prio
    }

    ghost function Counts(): map<nat, u32>
      requires Fixed()
      reads semObjects
    {
      map i | i in sems :: sems[i].count
    }

    ghost function MutexVs(): map<nat, MutexV>
      requires Fixed()
      reads mutexObjects
    {
      map i | i in mutexes :: MutexV(mutexes[i].enable, mutexes[i].copyPrio)
    }

    ghost function QueueVs(): map<nat, QueueV>
      requires Fixed()
      reads queueObjects
    {
      map i | i in queues :: QueueV(queues[i].length, queues[i].count)
    }

    ghost function TickVs(): map<Entry, TickV>
      requires Fixed()
      reads tickObjects
    {
      map e | e in ticks :: TickV(ticks[e].timeout, ticks[e].copy, ticks[e].cycle)
    }

    /** What the heap stores about tasks, semaphores, mutexes, queues and ticks. */
    ghost function Data(): Records
      requires Fixed()
      reads tcbObjects, semObjects, mutexObjects, queueObjects, tickObjects
    {
      Records(Prios(), Counts(), MutexVs(), QueueVs(), TickVs())
    }

    /** The state the heap represents. */
    ghost function View(): KS
      requires Fixed()
      reads this, lists, index, index.c, tcbObjects, semObjects, mutexObjects, queueObjects, tickObjects
    {
      var d := Data();
      KS(lists.v, index.V(), d.prio, created, newTask.id, if oldTask == null then None else Some(oldTask.id), isLocked,
         fosTick,
         d.count, d.mutexes, d.queues, d.ticks, fired)
    }

    /** The lists are real linked lists and the tasks in them exist. */
    ghost predicate Linked()
      reads this, lists, lists.objects
    {
      && Fixed() && lists.Valid() && created <= tasks.Keys
      && newTask.id in tasks && tasks[newTask.id] == newTask
    }

    ghost predicate Valid()
      reads this, lists, lists.objects, index, index.c, tcbObjects, semObjects, mutexObjects, queueObjects, tickObjects
    {
      Linked() && Inv(View())
    }

    /** The static data before system_init creates the first task: no task exists and all lists are empty. */
    constructor (lists: ListHeap, index: B.ReadyIndex, tasks: map<nat, Tcb>, sems: map<nat, Sem>,
                 mutexes: map<nat, Mutex>,
                 queues: map<nat, Queue>, ticks: map<Entry, Tick>, idle: Tcb)
      requires lists.Valid() && lists.v.at == map[] && forall l | l in lists.v.q :: lists.v.q[l] == []
      requires Ticks in lists.v.q && forall p | 0 <= p < 32 :: Ready(p) in lists.v.q
      requires index.c.Length == 8 && index.V() == B.EMPTY
      requires forall t | t in tasks :: tasks[t].id == t && Task(t) in lists.nodes && Delay(t) in lists.nodes
      requires forall i | i in sems :: sems[i].id == i && SemWait(i) in lists.v.q
      requires forall i | i in mutexes :: mutexes[i].id == i && MutexWait(i) in lists.v.q
                                          && mutexes[i].copyPrio < B.SYSTEM_WORD
      requires forall i | i in queues :: queues[i].id == i && queues[i].count == 0 && MsgWait(i) in lists.v.q
                                         && Msgs(i) in lists.v.q
      requires forall e | e in ticks :: ticks[e].entry == e
      requires forall e | e in lists.nodes && (e.Delay? || e.Timer?) :: e in ticks
      requires idle.id in tasks && tasks[idle.id] == idle
      ensures Linked() && Blank(View()) && newTask == idle
      ensures this.lists == lists && this.index == index && this.tasks == tasks && this.sems == sems
              && this.mutexes == mutexes
      ensures this.queues == queues && this.ticks == ticks
    {
      hide ListHeap.Valid, B.ReadyIndex.V;
      this.lists, this.index, this.tasks, this.sems, this.mutexes := lists, index, tasks, sems, mutexes;
      this.queues, this.ticks := queues, ticks;
      tcbObjects, semObjects, mutexObjects, queueObjects := tasks.Values, sems.Values, mutexes.Values, queues.Values;
      tickObjects := ticks.Values;
      newTask, oldTask, isLocked, fosTick, created, fired := idle, null, false, 0, {}, [];
      new;
      StartsBlank();
      hide Blank, View;
    }

    /** Empty lists and an empty index are a blank kernel. */
    lemma StartsBlank()
      requires Fixed() && lists.v.at == map[] && forall l | l in lists.v.q :: lists.v.q[l] == []
      requires Ticks in lists.v.q && forall p | 0 <= p < 32 :: Ready(p) in lists.v.q
      requires index.V() == B.EMPTY && created == {} && !isLocked
      requires forall i | i in sems :: SemWait(i) in lists.v.q
      requires forall i | i in mutexes :: MutexWait(i) in lists.v.q && mutexes[i].copyPrio < B.SYSTEM_WORD
      requires forall i | i in queues :: queues[i].count == 0 && MsgWait(i) in lists.v.q && Msgs(i) in lists.v.q
      ensures Blank(View())
    {
      hide ListHeap.Valid, B.ReadyIndex.V;
    }

    // ----- one link or one index bit each

    /** list_delete */
    method Unlink(e: Entry)
      requires Linked() && e in lists.v.at
      modifies lists, lists.objects
      ensures Linked() && View() == KernelSpec.Unlink(old(View()), e)
      ensures unchanged(lists.nodes[e]) && e !in lists.v.at && lists.v.q.Keys == old(lists.v.q.Keys)
    {
      hide B.ReadyIndex.V, ListHeap.Valid, Data, Delete;
      lists.LinkedEntry(e);
      DeleteRemoves(lists.v, e);
      lists.Remove(e);
      assert Data() == old(Data());
    }

    lemma DeleteRemoves(v: Lists, e: Entry)
      requires e in v.at
      ensures e !in Delete(v, e).at
    {
    }

    /** list_insert_behind */
    method Append(l: ListId, e: Entry)
      requires Linked() && l in lists.v.q && e in lists.nodes && e !in lists.v.at
      modifies lists, lists.objects
      ensures Linked() && View() == old(View()).(v := InsertTail(old(lists.v), l, e))
      ensures forall x | x in lists.nodes && x != e && x !in old(lists.v.q)[l] :: unchanged(lists.nodes[x])
      ensures lists.v.q.Keys == old(lists.v.q.Keys)
    {
      hide B.ReadyIndex.V, ListHeap.Valid, Data, Fixed, InsertTail;
      lists.InsertBehind(l, e);
      assert Data() == old(Data());
    }

    /** list_insert_spec */
    method Prepend(l: ListId, e: Entry)
      requires Linked() && l in lists.v.q && e in lists.nodes && e !in lists.v.at
      modifies lists, lists.objects
      ensures Linked() && View() == old(View()).(v := InsertHead(old(lists.v), l, e))
      ensures lists.v.q.Keys == old(lists.v.q.Keys)
    {
      hide B.ReadyIndex.V, ListHeap.Valid, Data, Fixed, InsertHead;
      lists.InsertSpec(l, e);
      assert Data() == old(Data());
    }

    method Mark(p: Prio)
      requires Linked()
      modifies index, index.c
      ensures Linked() && View() == old(View()).(idx := B.Set(old(View()).idx, p))
    {
      hide B.Set, B.ReadyIndex.V, ListHeap.Valid, Data;
      index.BitmapSet(p);
      assert Data() == old(Data());
    }

    method Unmark(p: Prio)
      requires Linked()
      modifies index, index.c
      ensures Linked() && View() == old(View()).(idx := B.Clear(old(View()).idx, p))
    {
      hide B.Clear, B.ReadyIndex.V, ListHeap.Valid, Data;
      index.BitmapClear(p);
      assert Data() == old(Data());
    }

    // ----- ready queues

    lemma PrioHere(tcb: Tcb)
      requires Fixed() && tcb.id in tasks && tasks[tcb.id] == tcb
      ensures PrioOf(View(), tcb.id) == tcb.prio
    {
    }

    /** prio_ready_queue_delete */
    method ReadyDelete(tcb: Tcb)
      requires Linked() && Task(tcb.id) in lists.v.at && Ready(tcb.prio) in lists.v.q
      requires tcb.id in tasks && tasks[tcb.id] == tcb
      modifies lists, lists.objects, index, index.c
      ensures Linked() && View() == KernelSpec.ReadyDelete(old(View()), tcb.id)
      ensures lists.v.q.Keys == old(lists.v.q.Keys) && Task(tcb.id) !in lists.v.at
    {
      hide B.Clear, B.ReadyIndex.V, ListHeap.Valid, Data, Delete, Fixed, KernelSpec.Unlink;
      PrioHere(tcb);
      Unlink(Task(tcb.id));
      var empty := lists.IsEmpty(Ready(tcb.prio));
      if empty {
        Unmark(tcb.prio);
      }
    }

    /** prio_ready_queue_insert_tail */
    method ReadyTail(tcb: Tcb)
      requires Linked() && Task(tcb.id) !in lists.v.at && Task(tcb.id) in lists.nodes && Ready(tcb.prio) in lists.v.q
      requires tcb.id in tasks && tasks[tcb.id] == tcb
      modifies lists, lists.objects, index, index.c
      ensures Linked() && View() == KernelSpec.ReadyTail(old(View()), tcb.id)
      ensures forall x | x in lists.nodes && x != Task(tcb.id) && x !in old(lists.v.q)[old(Ready(tcb.prio))] ::
          unchanged(lists.nodes[x])
    {
      hide B.Set, B.ReadyIndex.V, ListHeap.Valid, Data, InsertTail, Fixed;
      PrioHere(tcb);
      Mark(tcb.prio);
      Append(Ready(tcb.prio), Task(tcb.id));
    }

    /** prio_ready_queue_insert_head */
    method ReadyHead(tcb: Tcb)
      requires Linked() && Task(tcb.id) !in lists.v.at && Task(tcb.id) in lists.nodes && Ready(tcb.prio) in lists.v.q
      requires tcb.id in tasks && tasks[tcb.id] == tcb
      modifies lists, lists.objects, index, index.c
      ensures Linked() && View() == KernelSpec.ReadyHead(old(View()), tcb.id)
    {
      hide B.Set, B.ReadyIndex.V, ListHeap.Valid, Data, InsertHead, Fixed;
      PrioHere(tcb);
      Mark(tcb.prio);
      Prepend(Ready(tcb.prio), Task(tcb.id));
    }

    // ----- one record each

    method WritePrio(tcb: Tcb, p: Prio)
      requires Fixed() && tcb.id in tasks && tasks[tcb.id] == tcb
      modifies tcb
      ensures Data() == old(Data()).(prio := old(Prios())[tcb.id := p]) && tcb.prio == p
    {
      hide Counts, MutexVs, QueueVs, TickVs;
      tcb.prio := p;
      assert Prios() == old(Prios())[tcb.id := p];
    }

    method SetPrio(tcb: Tcb, p: Prio)
      requires Linked() && tcb.id in tasks && tasks[tcb.id] == tcb
      modifies tcb
      ensures Linked() && View() == KernelSpec.SetPrio(old(View()), tcb.id, p) && tcb.prio == p
    {
      hide ListHeap.Valid, B.ReadyIndex.V, Data, Fixed;
      assert Data().prio == Prios() by { DataParts(); }
      WritePrio(tcb, p);
    }

    method SetCount(sem: Sem, n: u32)
      requires Linked() && sem.id in sems && sems[sem.id] == sem
      modifies sem
      ensures Linked() && View() == old(View()).(count := old(View()).count[sem.id := n])
    {
      hide ListHeap.Valid, B.ReadyIndex.V, Prios, MutexVs, QueueVs, TickVs;
      sem.count := n;
      assert Counts() == old(Counts())[sem.id := n];
      assert Prios() == old(Prios()) && MutexVs() == old(MutexVs()) && QueueVs() == old(QueueVs())
             && TickVs() == old(TickVs());
    }

    method WriteMutex(mutex: Mutex, enable: bool, copyPrio: Prio)
      requires Fixed() && mutex.id in mutexes && mutexes[mutex.id] == mutex
      modifies mutex
      ensures Data() == old(Data()).(mutexes := old(MutexVs())[mutex.id := MutexV(enable, copyPrio)])
    {
      hide Prios, Counts, QueueVs, TickVs;
      mutex.enable, mutex.copyPrio := enable, copyPrio;
      assert MutexVs() == old(MutexVs())[mutex.id := MutexV(enable, copyPrio)];
    }

    method SetMutex(mutex: Mutex, enable: bool, copyPrio: Prio)
      requires Linked() && mutex.id in mutexes && mutexes[mutex.id] == mutex
      modifies mutex
      ensures Linked() && View() == old(View()).(mutexes := old(View()).mutexes[mutex.id := MutexV(enable, copyPrio)])
    {
      hide ListHeap.Valid, B.ReadyIndex.V, Data, Fixed;
      assert Data().mutexes == MutexVs() by { DataParts(); }
      WriteMutex(mutex, enable, copyPrio);
    }

    lemma DataParts()
      requires Fixed()
      ensures Data() == Records(Prios(), Counts(), MutexVs(), QueueVs(), TickVs())
    {
    }

    method SetQueueCount(queue: Queue, n: u32)
      requires Linked() && queue.id in queues && queues[queue.id] == queue
      modifies queue
      ensures Linked() && View() == old(View()).(queues := old(View()).queues[queue.id := QueueV(queue.length, n)])
      ensures queue.count == n
    {
      hide ListHeap.Valid, B.ReadyIndex.V, Prios, Counts, MutexVs, TickVs;
      queue.count := n;
      assert QueueVs() == old(QueueVs())[queue.id := QueueV(queue.length, n)];
      assert Prios() == old(Prios()) && Counts() == old(Counts()) && MutexVs() == old(MutexVs())
             && TickVs() == old(TickVs());
    }

    method WriteTick(e: Entry, t: TickV)
      requires Fixed() && e in ticks
      modifies ticks[e]
      ensures Data() == old(Data()).(ticks := old(TickVs())[e := t])
    {
      hide Prios, Counts, MutexVs, QueueVs;
      ticks[e].timeout, ticks[e].copy, ticks[e].cycle := t.timeout, t.copy, t.cycle;
      assert TickVs() == old(TickVs())[e := t];
    }

    method SetTick(e: Entry, t: TickV)
      requires Linked() && e in ticks
      modifies ticks[e]
      ensures Linked() && View() == old(View()).(ticks := old(View()).ticks[e := t])
    {
      hide ListHeap.Valid, B.ReadyIndex.V, Data, Fixed;
      assert Data().ticks == TickVs() by { DataParts(); }
      WriteTick(e, t);
    }

    // ----- scheduling

    lemma TaskFacts(t: nat)
      requires Fixed() && t in tasks
      ensures tasks[t].id == t && Task(t) in lists.nodes && Delay(t) in lists.nodes
              && PrioOf(View(), t) == tasks[t].prio
    {
    }

    lemma ReadyFacts(s: KS, t: nat, off: set<nat>)
      requires Core(s, off) && OnReady(s, t)
      ensures t in s.created && Task(t) in s.v.at && s.v.at[Task(t)] == Ready(PrioOf(s, t))
              && Ready(PrioOf(s, t)) in s.v.q
      ensures forall p | 0 <= p < 32 :: Ready(p) in s.v.q && NoDup(s.v.q[Ready(p)])
    {
    }

    method Rotate(tcb: Tcb)
      requires Linked() && tcb.id in tasks && tasks[tcb.id] == tcb && Core(View(), {}) && OnReady(View(), tcb.id)
      modifies lists, lists.objects, index, index.c
      ensures Linked() && View() == KernelSpec.ReadyTail(KernelSpec.ReadyDelete(old(View()), tcb.id), tcb.id)
    {
      hide ListHeap.Valid, Data, Core, OnReady, KernelSpec.ReadyDelete, KernelSpec.ReadyTail, B.ReadyIndex.V, Fixed;
      ReadyFacts(View(), tcb.id, {});
      TaskFacts(tcb.id);
      ReadyDelete(tcb);
      ReadyTail(tcb);
    }

    /** bit_first_one_search */
    method Search() returns (tmp: Tcb)
      requires Linked() && Core(View(), {}) && OnReady(View(), IDLE)
      ensures tmp.id in tasks && tasks[tmp.id] == tmp && TableSearch(View()) == Task(tmp.id) && OnReady(View(), tmp.id)
    {
      hide ListHeap.Valid, Data, Core, OnReady, B.Get, Fixed;
      ghost var s := View();
      TableFindsTask(s, {});
      ReadyFacts(s, TableSearch(s).t, {});
      var i := index.BitmapGet();
      var e := lists.First(Ready(i));
      TaskFacts(e.t);
      tmp := tasks[e.t];
    }

    method SwitchTo(tmp: Tcb)
      requires Linked() && tmp.id in tasks && tasks[tmp.id] == tmp
      modifies this`newTask, this`oldTask
      ensures Linked() && View() == old(View()).(previous := Some(old(View()).running), running := tmp.id)
    {
      hide ListHeap.Valid, Data, Fixed, B.ReadyIndex.V;
      oldTask := newTask;
      newTask := tmp;
    }

    lemma AloneIffLast(s: KS, t: nat)
      requires Core(s, {}) && OnReady(s, IDLE) && TableSearch(s) == Task(t)
      ensures Task(t) in s.v.at && s.v.at[Task(t)] in s.v.q && s.v.q[s.v.at[Task(t)]] != []
      ensures var q := s.v.q[s.v.at[Task(t)]]; q[|q| - 1] == Task(t) <==> |Q(s.v, Ready(B.Get(s.idx)))| <= 1
    {
      hide Indexed, Counted, B.Get;
      TableFindsTask(s, {});
      ReadyFacts(s, t, {});
    }

    /** prio_ready_queue_fetch */
    method Fetch()
      requires Linked() && Core(View(), {}) && OnReady(View(), IDLE)
      modifies this`newTask, this`oldTask, lists, lists.objects, index, index.c
      ensures Linked() && View() == KernelSpec.Fetch(old(View()))
    {
      hide ListHeap.Valid, Data, Core, OnReady, KernelSpec.ReadyDelete, KernelSpec.ReadyTail, TableSearch, B.Get, Fixed,
          B.ReadyIndex.V;
      var tmp := Search();
      AloneIffLast(View(), tmp.id);
      var last := lists.IsLast(Task(tmp.id));
      if !last {
        Rotate(tmp);
      }
      if tmp != newTask {
        SwitchTo(tmp);
      }
    }

    method Schedule()
      requires Valid()
      modifies this`newTask, this`oldTask, lists, lists.objects, index, index.c
      ensures Valid() && View() == KernelSpec.Schedule(old(View())) && OnReady(View(), newTask.id)
    {
      hide ListHeap.Valid, Data, Core, OnReady, KernelSpec.Fetch, Fixed, B.ReadyIndex.V;
      ScheduleKeeps(View());
      if isLocked {
        return;
      }
      Fetch();
    }

    /** The lists Valid() says there are. */
    lemma ListFacts()
      requires Valid()
      ensures forall p | 0 <= p < B.SYSTEM_WORD :: Ready(p) in lists.v.q
      ensures Ticks in lists.v.q
      ensures forall i | i in View().count :: SemWait(i) in lists.v.q
      ensures forall i | i in View().mutexes :: MutexWait(i) in lists.v.q
      ensures forall i | i in View().queues :: MsgWait(i) in lists.v.q && Msgs(i) in lists.v.q
    {
      hide ListHeap.Valid;
    }

    /** What Valid() says about the running task, when it is ready. */
    lemma RunningFacts()
      requires Valid() && OnReady(View(), newTask.id)
      ensures newTask.id == View().running && PrioOf(View(), newTask.id) == newTask.prio && newTask.prio < B.SYSTEM_WORD
      ensures Task(newTask.id) in lists.v.at && Task(newTask.id) in lists.nodes && Delay(newTask.id) in lists.nodes
      ensures Ready(newTask.prio) in lists.v.q
    {
      hide ListHeap.Valid;
      ReadyFacts(View(), newTask.id, {});
      TaskFacts(newTask.id);
    }

    // ----- blocking, waking, changing priority

    /** The running task leaves its ready queue for the tail of a wait list. */
    method Block(l: ListId)
      requires Valid() && OnReady(View(), newTask.id) && IsWaitList(l) && l in lists.v.q
      modifies lists, lists.objects, index, index.c
      ensures Linked() && View() == KernelSpec.Park(old(View()), l)
    {
      hide ListHeap.Valid, Data, Fixed, B.ReadyIndex.V, KernelSpec.ReadyDelete, Inv, OnReady;
      RunningFacts();
      ReadyDelete(newTask);
      Append(l, Task(newTask.id));
    }

    /** list_delete, then prio_ready_queue_insert_head */
    method MoveToReady(tcb: Tcb)
      requires Linked() && tcb.id in tasks && tasks[tcb.id] == tcb && Task(tcb.id) in lists.v.at
               && Ready(tcb.prio) in lists.v.q
      modifies lists, lists.objects, index, index.c
      ensures Linked() && View() == KernelSpec.ReadyHead(KernelSpec.Unlink(old(View()), Task(tcb.id)), tcb.id)
    {
      hide ListHeap.Valid, Data, Fixed, B.ReadyIndex.V, KernelSpec.ReadyHead, KernelSpec.Unlink;
      TaskFacts(tcb.id);
      Unlink(Task(tcb.id));
      ReadyHead(tcb);
    }

    /** What Valid() says about the longest waiter. */
    lemma WaiterFacts(l: ListId)
      requires Valid() && IsWaitList(l) && l in lists.v.q && lists.v.q[l] != []
      ensures var e := lists.v.q[l][0];
              && e.Task? && e.t in tasks && tasks[e.t].id == e.t && e in lists.v.at
              && Ready(tasks[e.t].prio) in lists.v.q
    {
      hide ListHeap.Valid, Core;
      WaiterIsTask(View(), l);
      PriosBounded(View());
      ListFacts();
      TaskFacts(lists.v.q[l][0].t);
    }

    /** The longest waiter, if any, leaves the wait list for the head of its ready queue. */
    method Release(l: ListId)
      requires Valid() && IsWaitList(l) && l in lists.v.q
      modifies lists, lists.objects, index, index.c
      ensures Valid() && View() == KernelSpec.Wake(old(View()), l)
    {
      hide ListHeap.Valid, Data, Fixed, B.ReadyIndex.V, KernelSpec.ReadyHead, KernelSpec.Unlink, Inv;
      WakeKeeps(View(), l);
      var empty := lists.IsEmpty(l);
      if empty {
        return;
      }
      WaiterFacts(l);
      var e := lists.First(l);
      MoveToReady(tasks[e.t]);
    }

    /** The running task goes to the head of the ready queue of its new priority. */
    method ChangePrio(p: Prio)
      requires Valid() && OnReady(View(), newTask.id) && Ready(p) in lists.v.q
      modifies lists, lists.objects, index, index.c, newTask
      ensures Linked() && View() == KernelSpec.Reprioritize(old(View()), p)
    {
      hide ListHeap.Valid, Data, Fixed, B.ReadyIndex.V, KernelSpec.ReadyHead, KernelSpec.ReadyDelete, Inv, OnReady;
      RunningFacts();
      ReadyDelete(newTask);
      SetPrio(newTask, p);
      ReadyHead(newTask);
    }

    // ----- semaphores

    method SemGet(sem: Sem?) returns (status: Status)
      requires Valid() && (sem != null ==> sem.id in sems && sems[sem.id] == sem && Enabled(View(), CallSemGet(sem.id)))
      modifies this`newTask, this`oldTask, lists, lists.objects, index, index.c, sem
      ensures Valid() && status == if sem == null then NO_SEMAPHORE else TRUE
      ensures View() == if sem == null then old(View()) else KernelSpec.SemGet(old(View()), sem.id)
    {
      hide ListHeap.Valid, Data, Fixed, B.ReadyIndex.V, KernelSpec.Park, KernelSpec.Schedule, Inv, OnReady;
      if sem == null {
        return NO_SEMAPHORE;
      }
      ghost var s := View();
      SemFacts(sem);
      SemGetKeeps(s, sem.id);
      if sem.count == 0 {
        ListFacts();
        ParkKeeps(s, SemWait(sem.id));
        Block(SemWait(sem.id));
        Schedule();
      } else {
        SetCount(sem, sem.count - 1);
      }
      return TRUE;
    }

    lemma SemFacts(sem: Sem)
      requires Fixed() && sem.id in sems && sems[sem.id] == sem
      ensures SemCount(View(), sem.id) == sem.count && sem.id in View().count
    {
    }

    /**
      sem_put with interrupts off: a unit goes to the longest waiter, or is counted, or is lost when the count cannot
      grow.
     */
    method Give(sem: Sem)
      requires Valid() && sem.id in sems && sems[sem.id] == sem
      modifies lists, lists.objects, index, index.c, sem
      ensures Valid() && View() == KernelSpec.SemPut(old(View()), sem.id)
    {
      hide ListHeap.Valid, Data, Fixed, B.ReadyIndex.V, KernelSpec.Wake, Inv;
      ghost var s := View();
      SemFacts(sem);
      SemPutKeeps(s, sem.id);
      ListFacts();
      var empty := lists.IsEmpty(SemWait(sem.id));
      if !empty {
        Release(SemWait(sem.id));
      } else if sem.count != SEM_MAX {
        SetCount(sem, sem.count + 1);
      }
    }

    method SemPut(sem: Sem?) returns (status: Status)
      requires Valid() && (sem != null ==> sem.id in sems && sems[sem.id] == sem)
      modifies this`newTask, this`oldTask, lists, lists.objects, index, index.c, sem
      ensures Valid() && status == if sem == null then NO_SEMAPHORE else TRUE
      ensures View() == if sem == null then old(View()) else KernelSpec.Schedule(KernelSpec.SemPut(old(View()), sem.id))
    {
      hide ListHeap.Valid, Data, Fixed, B.ReadyIndex.V, KernelSpec.SemPut, KernelSpec.Schedule, Inv, OnReady;
      if sem == null {
        return NO_SEMAPHORE;
      }
      Give(sem);
      Schedule();
      return TRUE;
    }

    // ----- mutexes

    lemma MutexFacts(mutex: Mutex)
      requires Fixed() && mutex.id in mutexes && mutexes[mutex.id] == mutex
      ensures MutexOf(View(), mutex.id) == MutexV(mutex.enable, mutex.copyPrio) && mutex.id in View().mutexes
    {
    }

    method MutexGet(mutex: Mutex?) returns (status: Status)
      requires Valid() && (mutex != null ==> mutex.id in mutexes && mutexes[mutex.id] == mutex
                                             && Enabled(View(), CallMutexGet(mutex.id)))
      modifies this`newTask, this`oldTask, lists, lists.objects, index, index.c, mutex, newTask
      ensures Valid() && status == if mutex == null then NO_MUTEX else TRUE
      ensures View() == if mutex == null then old(View()) else KernelSpec.MutexGet(old(View()), mutex.id)
    {
      hide ListHeap.Valid, Data, Fixed, B.ReadyIndex.V, KernelSpec.Park, KernelSpec.Schedule, KernelSpec.Reprioritize,
          Inv, OnReady;
      if mutex == null {
        return NO_MUTEX;
      }
      ghost var s := View();
      MutexFacts(mutex);
      MutexGetKeeps(s, mutex.id);
      ListFacts();
      RunningFacts();
      if !mutex.enable {
        ParkKeeps(s, MutexWait(mutex.id));
        Block(MutexWait(mutex.id));
        Schedule();
      } else {
        var copyPrio := newTask.prio;
        ReprioritizeKeeps(s, PRIO_MUTEX);
        ChangePrio(PRIO_MUTEX);
        SetMutex(mutex, false, copyPrio);
      }
      return TRUE;
    }

    /** mutex_put with interrupts off. */
    method GiveBack(mutex: Mutex)
      requires Valid() && mutex.id in mutexes && mutexes[mutex.id] == mutex && OnReady(View(), newTask.id)
      modifies lists, lists.objects, index, index.c, mutex, newTask
      ensures Valid() && View() == KernelSpec.MutexPut(old(View()), mutex.id)
    {
      hide ListHeap.Valid, Data, Fixed, B.ReadyIndex.V, KernelSpec.Wake, KernelSpec.Reprioritize, Inv, OnReady;
      ghost var s := View();
      MutexFacts(mutex);
      MutexPutKeeps(s, mutex.id);
      InvPrios(s);
      ReprioritizeKeeps(s, mutex.copyPrio);
      ListFacts();
      var copyPrio := mutex.copyPrio;
      ChangePrio(copyPrio);
      SetMutex(mutex, true, copyPrio);
      ListFacts();
      Release(MutexWait(mutex.id));
    }

    lemma InvPrios(s: KS)
      requires Inv(s)
      ensures forall i | i in s.mutexes :: s.mutexes[i].copyPrio < B.SYSTEM_WORD
    {
      hide Core;
      PriosBounded(s);
    }

    method MutexPut(mutex: Mutex?) returns (status: Status)
      requires Valid() && (mutex != null ==> mutex.id in mutexes && mutexes[mutex.id] == mutex
                                             && OnReady(View(), newTask.id))
      modifies this`newTask, this`oldTask, lists, lists.objects, index, index.c, mutex, newTask
      ensures Valid() && status == if mutex == null then NO_MUTEX else TRUE
      ensures View() == if mutex == null then old(View())
                else KernelSpec.Schedule(KernelSpec.MutexPut(old(View()), mutex.id))
    {
      hide ListHeap.Valid, Data, Fixed, B.ReadyIndex.V, KernelSpec.MutexPut, KernelSpec.Schedule, Inv, OnReady;
      if mutex == null {
        return NO_MUTEX;
      }
      GiveBack(mutex);
      Schedule();
      return TRUE;
    }

    // ----- messages

    lemma QueueFacts(queue: Queue)
      requires Fixed() && queue.id in queues && queues[queue.id] == queue
      ensures QueueOf(View(), queue.id) == QueueV(queue.length, queue.count) && queue.id in View().queues
    {
    }

    lemma QueueListed(queue: Queue)
      requires Valid() && queue.id in queues && queues[queue.id] == queue
      ensures Msgs(queue.id) in lists.v.q && MsgWait(queue.id) in lists.v.q
    {
      hide ListHeap.Valid, Inv, B.ReadyIndex.V;
      ListFacts();
    }

    /** The message is counted and linked at one end. */
    method Store(queue: Queue, m: nat, fifo: bool)
      requires Linked() && queue.id in queues && queues[queue.id] == queue
      requires QueueOf(View(), queue.id).count < QueueOf(View(), queue.id).length
      requires Msgs(queue.id) in lists.v.q && Msg(m) in lists.nodes && Msg(m) !in lists.v.at
      modifies lists, lists.objects, queue
      ensures Linked() && View() == MsgLink(old(View()), queue.id, QueueOf(old(View()), queue.id), m, fifo)
    {
      hide ListHeap.Valid, Data, Fixed, B.ReadyIndex.V, InsertTail, InsertHead;
      QueueFacts(queue);
      SetQueueCount(queue, queue.count + 1);
      if fifo {
        Append(Msgs(queue.id), Msg(m));
      } else {
        Prepend(Msgs(queue.id), Msg(m));
      }
    }

    method PutChecked(queue: Queue, m: nat, fifo: bool) returns (status: Status)
      requires Valid() && queue.id in queues && queues[queue.id] == queue && queue.count <= queue.length
      requires Msg(m) in lists.nodes && Enabled(View(), CallMsgPut(queue.id, m, fifo))
      modifies lists, lists.objects, index, index.c, queue
      ensures Valid() && status == (if QueueOf(old(View()), queue.id).count == queue.length then FULL else TRUE)
      ensures View() == KernelSpec.MsgPut(old(View()), queue.id, m, fifo)
    {
      hide ListHeap.Valid, Data, Fixed, B.ReadyIndex.V, KernelSpec.Wake, Inv, InsertTail, InsertHead;
      ghost var s := View();
      MsgPutKeeps(s, queue.id, m, fifo);
      QueueFacts(queue);
      QueueListed(queue);
      Release(MsgWait(queue.id));
      if queue.count == queue.length {
        return FULL;
      }
      WakeAt(s, MsgWait(queue.id), Msg(m));
      WakeQueues(s, MsgWait(queue.id));
      QueueListed(queue);
      Store(queue, m, fifo);
      return TRUE;
    }

    method MsgPut(queue: Queue?, msg: Option<nat>, fifo: bool) returns (status: Status)
      requires Valid()
      requires queue != null ==> queue.id in queues && queues[queue.id] == queue
      requires queue != null && msg.Some? ==> Msg(msg.value) in lists.nodes
                                              && Enabled(View(), CallMsgPut(queue.id, msg.value, fifo))
      modifies lists, lists.objects, index, index.c, queue
      ensures Valid() && status == if queue == null || msg.None? then FALSE else MsgPutStatus(old(View()), queue.id)
      ensures View() == if queue == null || msg.None? then old(View())
                else KernelSpec.MsgPut(old(View()), queue.id, msg.value, fifo)
    {
      hide ListHeap.Valid, Data, Fixed, B.ReadyIndex.V, KernelSpec.Wake, Inv, InsertTail, InsertHead;
      if queue == null || msg.None? {
        return FALSE;
      }
      QueueFacts(queue);
      if queue.count > queue.length {
        return FALSE;
      }
      status := PutChecked(queue, msg.value, fifo);
    }

    lemma WakeQueues(s: KS, l: ListId)
      requires Inv(s) && IsWaitList(l)
      ensures KernelSpec.Wake(s, l).queues == s.queues
    {
      hide Inv, KernelSpec.Wake;
      WakeKeeps(s, l);
    }

    /** The first message is unlinked, and counted off if the count allows. */
    method Take(queue: Queue, e: Entry)
      requires Linked() && queue.id in queues && queues[queue.id] == queue && e in lists.v.at
      modifies lists, lists.objects, queue
      ensures Linked() && View() == MsgUnlink(old(View()), queue.id, e)
    {
      hide ListHeap.Valid, Data, Fixed, B.ReadyIndex.V, KernelSpec.Unlink;
      QueueFacts(queue);
      UnlinkFields(View(), e);
      Unlink(e);
      SetQueueCount(queue, if queue.count > 0 then queue.count - 1 else 0);
    }

    /**
      msg_get with interrupts off, when there is no message: the caller goes on the wait list and has yet to schedule.
     */
    method Await(queue: Queue)
      requires Valid() && queue.id in queues && queues[queue.id] == queue && Q(lists.v, Msgs(queue.id)) == []
      requires Enabled(View(), CallMsgGet(queue.id))
      modifies lists, lists.objects, index, index.c
      ensures Valid() && View() == KernelSpec.MsgGet(old(View()), queue.id)
    {
      hide ListHeap.Valid, Data, Fixed, B.ReadyIndex.V, KernelSpec.Park, Inv, OnReady;
      MsgGetKeeps(View(), queue.id);
      QueueListed(queue);
      Block(MsgWait(queue.id));
    }

    /** The first message is taken. */
    method Receive(queue: Queue) returns (e: Entry)
      requires Valid() && queue.id in queues && queues[queue.id] == queue && Q(lists.v, Msgs(queue.id)) != []
      requires Enabled(View(), CallMsgGet(queue.id))
      modifies lists, lists.objects, queue
      ensures Valid() && e == FirstOf(old(lists.v), Msgs(queue.id))
      ensures View() == KernelSpec.MsgGet(old(View()), queue.id)
    {
      hide ListHeap.Valid, Data, Fixed, B.ReadyIndex.V, KernelSpec.Unlink, Inv, OnReady;
      QueueFacts(queue);
      MsgGetKeeps(View(), queue.id);
      MessageEntry(View(), queue.id);
      e := lists.First(Msgs(queue.id));
      Take(queue, e);
    }

    /** `got` is the message whose buffer is copied out. */
    method MsgGet(queue: Queue?, hasBuffer: bool) returns (status: Status, got: Option<Entry>)
      requires Valid()
      requires queue != null && hasBuffer ==> queue.id in queues && queues[queue.id] == queue
                                              && Enabled(View(), CallMsgGet(queue.id))
      modifies this`newTask, this`oldTask, lists, lists.objects, index, index.c, queue
      ensures Valid() && status == if queue == null || !hasBuffer then FALSE else MsgGetStatus(old(View()), queue.id)
      ensures status == TRUE ==> got == Some(FirstOf(old(lists.v), Msgs(queue.id)))
      ensures View() == if status == FALSE then old(View())
                        else if status == EMPTY then KernelSpec.Schedule(KernelSpec.MsgGet(old(View()), queue.id))
                        else KernelSpec.MsgGet(old(View()), queue.id)
    {
      hide ListHeap.Valid, Data, Fixed, B.ReadyIndex.V, KernelSpec.MsgGet, KernelSpec.Schedule, Inv, Enabled, OnReady;
      if queue == null || !hasBuffer {
        return FALSE, None;
      }
      QueueListed(queue);
      var empty := lists.IsEmpty(Msgs(queue.id));
      if empty {
        Await(queue);
        Schedule();
        return EMPTY, None;
      }
      var e := Receive(queue);
      return TRUE, Some(e);
    }

    // ----- tasks

    /** The TCB gets its priority and enters its ready queue. */
    method Enter(tcb: Tcb, prio: Prio)
      requires Linked() && tcb.id in tasks && tasks[tcb.id] == tcb && Task(tcb.id) !in lists.v.at
               && Ready(prio) in lists.v.q
      modifies this`created, lists, lists.objects, index, index.c, tcb
      ensures Linked() && View() == KernelSpec.TaskCreate(old(View()), tcb.id, prio)
    {
      hide ListHeap.Valid, Data, Fixed, B.ReadyIndex.V, KernelSpec.ReadyTail;
      TaskFacts(tcb.id);
      SetPrio(tcb, prio);
      Enrol(tcb);
      ReadyTail(tcb);
    }

    /** The priority is not checked: the kernel stays valid exactly when it has a ready queue of its own. */
    method TaskCreate(tcb: Tcb?, hasCode: bool, prio: Prio) returns (status: Status)
      requires Valid()
      requires tcb != null && hasCode ==>
                 tcb.id in tasks && tasks[tcb.id] == tcb && Called(View(), CallTaskCreate(tcb.id, prio))
                     && Ready(prio) in lists.v.q
      modifies this`created, lists, lists.objects, index, index.c, tcb
      ensures Linked() && status == if tcb == null || !hasCode then NO_TCB else TRUE
      ensures View() == if tcb == null || !hasCode then old(View())
                else KernelSpec.TaskCreate(old(View()), tcb.id, prio)
      ensures Valid() <==> tcb == null || !hasCode || prio < B.SYSTEM_WORD
    {
      hide ListHeap.Valid, Data, Fixed, B.ReadyIndex.V, KernelSpec.TaskCreate, Inv, OnReady;
      if tcb == null || !hasCode {
        return NO_TCB;
      }
      KeptIffQueued(View(), CallTaskCreate(tcb.id, prio));
      UncreatedOff(View(), tcb.id);
      Enter(tcb, prio);
      return TRUE;
    }

    lemma UncreatedOff(s: KS, t: nat)
      requires Inv(s) && t !in s.created
      ensures Task(t) !in s.v.at
    {
    }

    ghost method Enrol(tcb: Tcb)
      requires Linked() && tcb.id in tasks
      modifies this`created
      ensures Linked() && View() == old(View()).(created := old(View()).created + {tcb.id})
    {
      hide ListHeap.Valid, Data, Fixed, B.ReadyIndex.V;
      created := created + {tcb.id};
    }

    /**
      Priority 32 passes the check. The queue array has no element for it; were there a list at that place, the call
      would go through, and the kernel would be valid after it exactly for the smaller priorities.
     */
    method TaskPrioChange(tcb: Tcb?, prio: u32) returns (status: Status)
      requires Valid()
      requires tcb != null && PrioAccepted(prio) ==> tcb == newTask && OnReady(View(), newTask.id)
                                                     && Ready(prio) in lists.v.q
      modifies lists, lists.objects, index, index.c, newTask
      ensures Linked() && status == if tcb == null || !PrioAccepted(prio) then NO_TCB else TRUE
      ensures tcb == null || !PrioAccepted(prio) ==> View() == old(View())
      ensures tcb != null && PrioAccepted(prio) ==> View() == KernelSpec.PrioChange(old(View()), prio)
      ensures Valid() <==> tcb == null || !PrioAccepted(prio) || prio < B.SYSTEM_WORD
    {
      hide ListHeap.Valid, Data, Fixed, B.ReadyIndex.V, KernelSpec.Reprioritize, Inv, OnReady;
      if tcb == null || prio < 1 || prio > B.SYSTEM_WORD {
        return NO_TCB;
      }
      PrioChangeKeptIff(View(), prio);
      ChangePrio(prio);
      return TRUE;
    }

    // ----- time

    /** os_delay with interrupts off: the caller is on the tick queue and has yet to schedule. */
    method Sleep(n: u32)
      requires Valid() && Enabled(View(), CallDelay(n))
      modifies lists, lists.objects, index, index.c, tickObjects
      ensures Valid() && View() == KernelSpec.OsDelay(old(View()), n)
    {
      hide ListHeap.Valid, Data, Fixed, B.ReadyIndex.V, KernelSpec.ReadyDelete, InsertTail, Inv, OnReady;
      var e := Delay(newTask.id);
      ghost var s := View();
      OsDelayKeeps(s, n);
      DelayFacts();
      RunningFacts();
      ListFacts();
      TickOwned(e);
      SetTick(e, TickV(n, n, ticks[e].cycle));
      DeleteFields(View(), newTask.id);
      DeleteAt(View(), newTask.id, e);
      ReadyDelete(newTask);
      Append(Ticks, e);
    }

    method OsDelay(n: u32)
      requires Valid() && Enabled(View(), CallDelay(n))
      modifies this`newTask, this`oldTask, lists, lists.objects, index, index.c, tickObjects
      ensures Valid() && View() == KernelSpec.Schedule(KernelSpec.OsDelay(old(View()), n))
    {
      hide ListHeap.Valid, Data, Fixed, B.ReadyIndex.V, KernelSpec.OsDelay, KernelSpec.Schedule, Inv, OnReady, Enabled;
      Sleep(n);
      Schedule();
    }

    lemma DelayFacts()
      requires Valid() && OnReady(View(), newTask.id)
      ensures Delay(newTask.id) in ticks && Delay(newTask.id) !in lists.v.at
      ensures TickOf(View(), Delay(newTask.id)).cycle == ticks[Delay(newTask.id)].cycle
    {
      RunningFacts();
    }

    lemma DeleteAt(s: KS, t: nat, e: Entry)
      requires e !in s.v.at
      ensures e !in KernelSpec.ReadyDelete(s, t).v.at
    {
      hide B.Clear, Without;
    }

    method TimerReq(timer: Option<nat>, hasFunc: bool, timeout: u32, cycle: bool)
      requires Valid() && (timer.Some? ==> Timer(timer.value) in lists.nodes && Timer(timer.value) in ticks)
      requires timer.Some? ==> Enabled(View(), CallTimerReq(timer.value, timeout, cycle))
      modifies lists, lists.objects, tickObjects
      ensures Valid()
      ensures View() == if !hasFunc || timer.None? then old(View())
                else KernelSpec.TimerReq(old(View()), timer.value, timeout, cycle)
    {
      hide ListHeap.Valid, Data, Fixed, B.ReadyIndex.V, InsertTail, Inv;
      if !hasFunc || timer.None? || timeout == 0 {
        return;
      }
      var e := Timer(timer.value);
      ListFacts();
      TimerReqKeeps(View(), timer.value, timeout, cycle);
      TickOwned(e);
      SetTick(e, TickV(timeout, timeout, cycle));
      Append(Ticks, e);
    }

    lemma TickOwned(e: Entry)
      requires Fixed() && e in ticks
      ensures ticks[e] in tickObjects
      ensures TickOf(View(), e) == TickV(ticks[e].timeout, ticks[e].copy, ticks[e].cycle)
    {
    }

    /** A software timer that has run down. */
    method Fire(e: Entry)
      requires Valid() && e.Timer? && e in lists.v.at && lists.v.at[e] == Ticks && e in ticks && ticks[e].timeout == 0
      modifies this`fired, lists, lists.objects, tickObjects
      ensures Valid() && View() == KernelSpec.VisitTick(old(View()), e) && unchanged(lists.nodes[e])
    {
      hide ListHeap.Valid, Data, Fixed, B.ReadyIndex.V, Inv, KernelSpec.Unlink;
      TickOwned(e);
      lists.LinkedEntry(e);
      VisitTickKeeps(View(), e);
      Log(e.k);
      if ticks[e].cycle {
        SetTick(e, TickV(ticks[e].copy, ticks[e].copy, true));
      } else {
        Unlink(e);
      }
    }

    ghost method Log(k: nat)
      requires Linked()
      modifies this`fired
      ensures Linked() && View() == old(View()).(fired := old(View()).fired + [k])
    {
      hide ListHeap.Valid, Data, Fixed, B.ReadyIndex.V;
      fired := fired + [k];
    }

    /** A sleeper that has run down. */
    method WakeUp(e: Entry)
      requires Valid() && e.Delay? && e in lists.v.at && lists.v.at[e] == Ticks && e in ticks && ticks[e].timeout == 0
      modifies lists, lists.objects, index, index.c
      ensures Valid() && View() == KernelSpec.VisitTick(old(View()), e) && unchanged(lists.nodes[e])
    {
      hide ListHeap.Valid, Data, Fixed, B.ReadyIndex.V, Inv, KernelSpec.Unlink, KernelSpec.ReadyTail;
      TickOwned(e);
      VisitTickKeeps(View(), e);
      SleeperFacts(e);
      var tcb := tasks[e.t];
      Unlink(e);
      lists.OffLists(e);
      ReadyTail(tcb);
    }

    lemma SleeperFacts(e: Entry)
      requires Valid() && e.Delay? && e in lists.v.at && lists.v.at[e] == Ticks
      ensures e.t in tasks && tasks[e.t].id == e.t && Task(e.t) in lists.nodes && e in lists.nodes
      ensures Task(e.t) !in KernelSpec.Unlink(View(), e).v.at && Ready(tasks[e.t].prio) in lists.v.q
    {
      hide ListHeap.Valid, Inv, Data, B.ReadyIndex.V, KernelSpec.Unlink;
      SleepingTask(View(), e);
      TaskFacts(e.t);
      lists.LinkedEntry(e);
    }

    lemma SleepingTask(s: KS, e: Entry)
      requires Inv(s) && e.Delay? && e in s.v.at && s.v.at[e] == Ticks
      ensures e.t in s.created && Task(e.t) !in KernelSpec.Unlink(s, e).v.at && Ready(PrioOf(s, e.t)) in s.v.q
    {
      hide Indexed, Counted, Without;
      TickEntry(s, e);
      SleeperOff(s, e.t);
    }

    /** One node of the tick queue. */
    method VisitTick(e: Entry)
      requires Valid() && e in lists.v.at && lists.v.at[e] == Ticks
      modifies this`fired, lists, lists.objects, index, index.c, tickObjects
      ensures Valid() && View() == KernelSpec.VisitTick(old(View()), e) && unchanged(lists.nodes[e])
    {
      hide ListHeap.Valid, Data, Fixed, B.ReadyIndex.V, Inv;
      TickHere(e);
      var tick := ticks[e];
      if tick.timeout == 0 {
        if e.Timer? {
          Fire(e);
        } else {
          WakeUp(e);
        }
      } else {
        CountDown(e);
      }
    }

    lemma TickHere(e: Entry)
      requires Valid() && e in lists.v.at && lists.v.at[e] == Ticks
      ensures e in ticks && (e.Timer? || e.Delay?) && e in lists.nodes
    {
      hide Indexed, Counted;
      TickEntry(View(), e);
      lists.LinkedEntry(e);
    }

    method CountDown(e: Entry)
      requires Valid() && e in lists.v.at && lists.v.at[e] == Ticks && e in ticks && ticks[e].timeout > 0
      modifies tickObjects
      ensures Valid() && View() == KernelSpec.VisitTick(old(View()), e) && unchanged(lists.nodes[e])
    {
      hide ListHeap.Valid, Data, Fixed, B.ReadyIndex.V, Inv;
      TickOwned(e);
      lists.LinkedEntry(e);
      VisitTickKeeps(View(), e);
      SetTick(e, TickV(ticks[e].timeout - 1, ticks[e].copy, ticks[e].cycle));
    }

    /**
      The queue is `kept + rest`, and the cursor's own next pointer leads to the first of `rest`, or back to the cursor.
     */
    ghost predicate CursorAt(tmp: Node, kept: seq<Entry>, rest: seq<Entry>)
      reads lists, lists.objects, tmp
    {
      && Q(lists.v, Ticks) == kept + rest
      && (rest != [] ==> rest[0] in lists.nodes && lists.nodes[rest[0]].entry == rest[0] && tmp.entry != rest[0])
      && tmp.next == if rest == [] then tmp else lists.nodes[rest[0]]
    }

    lemma TicksListed()
      requires Valid()
      ensures Ticks in lists.v.q
    {
      ListFacts();
    }

    lemma CursorStarts()
      requires Valid() && Ticks in lists.v.q
      ensures Ticks in lists.heads && CursorAt(lists.heads[Ticks], [], lists.v.q[Ticks])
    {
      hide ListHeap.Valid, Inv, Data, Fixed, B.ReadyIndex.V;
      lists.Successors(Ticks);
      lists.NamedEntries(Ticks);
    }

    /** Before its first entry is visited, the rest of the queue is what the entry's own links lead to. */
    lemma CursorMoves(tmp: Node, kept: seq<Entry>, rest: seq<Entry>)
      requires Valid() && CursorAt(tmp, kept, rest) && rest != []
      ensures rest == [rest[0]] + rest[1..] && rest[0] in lists.v.at && lists.v.at[rest[0]] == Ticks
      ensures rest[0] in lists.nodes && lists.nodes[rest[0]] == tmp.next && tmp.next.entry == rest[0]
      ensures |rest| > 1 ==> rest[1] in lists.nodes && lists.nodes[rest[1]].entry == rest[1] && rest[0] != rest[1]
      ensures tmp.next.next == if |rest| == 1 then tmp.next else lists.nodes[rest[1]]
    {
      hide ListHeap.Valid, Core;
      ListFacts();
      lists.Successors(Ticks);
      lists.NamedEntries(Ticks);
      var q := lists.v.q[Ticks];
      assert q[|kept|] == rest[0] && (|rest| > 1 ==> q[|kept| + 1] == rest[1]);
      TicksDistinct(View());
      QueuedTick(View(), rest[0]);
    }

    /** The body of the loop, after the cursor has moved to the first entry of `rest`. */
    method VisitHere(before: Node, tmp: Node, ghost kept: seq<Entry>, ghost rest: seq<Entry>)
        returns (ghost kept': seq<Entry>)
      requires Valid() && CursorAt(before, kept, rest) && rest != [] && tmp == before.next
      modifies this`fired, lists, lists.objects, index, index.c, tickObjects
      ensures Valid() && CursorAt(tmp, kept', rest[1..])
      ensures View() == KernelSpec.VisitTick(old(View()), rest[0])
    {
      hide ListHeap.Valid, Data, Fixed, B.ReadyIndex.V, Inv, KernelSpec.VisitTick, Leaves, Passed;
      CursorMoves(before, kept, rest);
      VisitTickMeaning(View(), kept, rest[0], rest[1..]);
      kept' := kept + if Leaves(View(), rest[0]) then [] else [rest[0]];
      VisitTick(tmp.entry);
    }

    /** The cursor moves on, and the node it reaches is visited. */
    method VisitNext(before: Node, ghost kept: seq<Entry>, ghost rest: seq<Entry>)
        returns (tmp: Node, ghost kept': seq<Entry>)
      requires Valid() && CursorAt(before, kept, rest) && rest != []
      modifies this`fired, lists, lists.objects, index, index.c, tickObjects
      ensures Valid() && CursorAt(tmp, kept', rest[1..]) && (IsListLast(tmp) <==> rest[1..] == [])
      ensures View() == KernelSpec.VisitTick(old(View()), rest[0])
    {
      hide ListHeap.Valid, Data, Fixed, B.ReadyIndex.V, Inv, KernelSpec.VisitTick, CursorAt;
      tmp := before.next;
      kept' := VisitHere(before, tmp, kept, rest);
      CursorEnds(tmp, kept', rest[1..]);
    }

    lemma VisitFirst(s: KS, es: seq<Entry>)
      ensures VisitAll(s, es) == if es == [] then s else VisitAll(KernelSpec.VisitTick(s, es[0]), es[1..])
    {
      hide KernelSpec.VisitTick;
    }

    /** System tick plus one. */
    method CountTick()
      requires Valid()
      modifies this`fosTick
      ensures Valid() && View() == old(View()).(tick := Wrap32(old(View()).tick as int + 1))
    {
      hide ListHeap.Valid, Data, Fixed, B.ReadyIndex.V, Inv;
      TickIgnored(View(), Wrap32(fosTick as int + 1));
      fosTick := Wrap32(fosTick as int + 1);
    }

    /** The loop over the tick queue. */
    method VisitQueue()
      requires Valid()
      modifies this`fired, lists, lists.objects, index, index.c, tickObjects
      ensures Valid() && View() == VisitAll(old(View()), Q(old(View()).v, Ticks))
    {
      hide ListHeap.Valid, Data, Fixed, B.ReadyIndex.V, Inv, KernelSpec.VisitTick, CursorAt, VisitAll;
      ghost var s := View();
      TicksListed();
      CursorStarts();
      var tmp := lists.heads[Ticks];
      ghost var kept: seq<Entry>, rest := [], lists.v.q[Ticks];
      CursorEnds(tmp, kept, rest);
      while !IsListLast(tmp)
        invariant Valid() && CursorAt(tmp, kept, rest) && (IsListLast(tmp) <==> rest == [])
        invariant VisitAll(View(), rest) == VisitAll(s, Q(s.v, Ticks))
        decreases |rest|
      {
        VisitFirst(View(), rest);
        tmp, kept := VisitNext(tmp, kept, rest);
        rest := rest[1..];
      }
      VisitFirst(View(), rest);
    }

    /**
      hardware_timer with interrupts off. The traversal keeps a cursor and unlinks the nodes it stands on: a removed
      node keeps its next pointer, and the last one its loop to itself, so the cursor still leads to the rest of the
      queue, or ends it.
     */
    method Traverse()
      requires Valid()
      modifies this`fosTick, this`fired, lists, lists.objects, index, index.c, tickObjects
      ensures Valid() && View() == KernelSpec.HardwareTimer(old(View()))
    {
      hide ListHeap.Valid, Data, Fixed, B.ReadyIndex.V, Inv, VisitAll;
      CountTick();
      VisitQueue();
    }

    /**
      A tick may come whenever interrupts are on: also when the running task has left its ready queue and not yet
      scheduled.
     */
    method HardwareTimer()
      requires Valid()
      modifies this`newTask, this`oldTask, this`fosTick, this`fired, lists, lists.objects, index, index.c, tickObjects
      ensures Valid() && View() == KernelSpec.Schedule(KernelSpec.HardwareTimer(old(View())))
              && OnReady(View(), newTask.id)
    {
      hide ListHeap.Valid, Data, Fixed, B.ReadyIndex.V, KernelSpec.HardwareTimer, KernelSpec.Schedule, Inv, OnReady;
      Traverse();
      Schedule();
    }

    lemma CursorEnds(tmp: Node, kept: seq<Entry>, rest: seq<Entry>)
      requires CursorAt(tmp, kept, rest)
      ensures IsListLast(tmp) <==> rest == []
    {
    }

    // ----- the scheduler lock, and start-up

    method ScheduleLock(lock: bool)
      requires Valid() && OnReady(View(), newTask.id)
      modifies this`isLocked
      ensures Valid() && View() == Step(old(View()), CallLock(lock))
    {
      hide ListHeap.Valid, Data, Fixed, B.ReadyIndex.V, Inv, OnReady;
      LockKeeps(View(), lock);
      isLocked := lock;
    }

    lemma BlankFacts(s: KS)
      requires Blank(s)
      ensures s.v.at == map[] && Ready(31) in s.v.q
    {
    }

    /** system_init creates the idle task, start_which_task runs it. */
    method Start(idle: Tcb)
      requires Linked() && Blank(View()) && idle.id == IDLE && idle.id in tasks && tasks[idle.id] == idle
      modifies this`newTask, this`created, lists, lists.objects, index, index.c, idle
      ensures Valid() && View() == Boot(old(View())) && OnReady(View(), newTask.id)
    {
      hide ListHeap.Valid, Data, Fixed, B.ReadyIndex.V, KernelSpec.TaskCreate, Inv, Blank;
      BootInv(View());
      BlankFacts(View());
      Enter(idle, 31);
      newTask := idle;
    }
  }
}
