/**
 The FOS kernel on values: the state every kernel call reads and writes, and one function per stretch with interrupts
 off. hardware_timer, os_delay, sem_put, mutex_put and msg_get turn interrupts back on before they call schedule(), so
 each of them is two steps, its own and CallSchedule, between which a tick may come. sem_get and mutex_get block with
 interrupts off: one step.
 */
module KernelSpec {
  import opened Words
  import opened ListModel
  import B = Bitmap

  /** A priority the index has a bit for; 0 is the most urgent, and those from SYSTEM_WORD on have no ready queue. */
  type Prio = p: nat | p < 64

  const PRIO_MUTEX: Prio := 1
  const IDLE := 0
  const SEM_MAX: u32 := 0xffff_ffff

  datatype TickV = TickV(timeout: u32, copy: u32, cycle: bool)
  datatype MutexV = MutexV(enable: bool, copyPrio: Prio)
  datatype QueueV = QueueV(length: u32, count: u32)

  /**
    Tasks, semaphores, mutexes, queues, timers and messages are numbered; task IDLE is the idle task.
    `fired` records the software timer callbacks that ran, in order.
   */
  datatype KS = KS(
    v: Lists, idx: B.Index, prio: map<nat, Prio>, created: set<nat>,
    running: nat, previous: Option<nat>, locked: bool, tick: u32,
    count: map<nat, u32>, mutexes: map<nat, MutexV>, queues: map<nat, QueueV>,
    ticks: map<Entry, TickV>, fired: seq<nat>)

  function PrioOf(s: KS, t: nat): Prio { if t in s.prio then s.prio[t] else 0 }

  function TickOf(s: KS, e: Entry): TickV { if e in s.ticks then s.ticks[e] else TickV(0, 0, false) }

  // ----- ready queues

  /** list_delete, on whatever list the entry is */
  function Unlink(s: KS, e: Entry): KS {
    if e in s.v.at then s.(v := Delete(s.v, e)) else s
  }

  /** prio_ready_queue_delete */
  function ReadyDelete(s: KS, t: nat): KS {
    var v := Unlink(s, Task(t)).v;
    s.(v := v, idx := if Q(v, Ready(PrioOf(s, t))) == [] then B.Clear(s.idx, PrioOf(s, t)) else s.idx)
  }

  /** prio_ready_queue_insert_tail */
  function ReadyTail(s: KS, t: nat): KS {
    s.(idx := B.Set(s.idx, PrioOf(s, t)), v := InsertTail(s.v, Ready(PrioOf(s, t)), Task(t)))
  }

  /** prio_ready_queue_insert_head */
  function ReadyHead(s: KS, t: nat): KS {
    s.(idx := B.Set(s.idx, PrioOf(s, t)), v := InsertHead(s.v, Ready(PrioOf(s, t)), Task(t)))
  }

  /** What head->next leads to: the first entry, or the head itself when the list is empty. */
  function FirstOf(v: Lists, l: ListId): Entry { if Q(v, l) == [] then Head(l) else Q(v, l)[0] }

  /** bit_first_one_search by table lookup */
  function TableSearch(s: KS): Entry { FirstOf(s.v, Ready(B.Get(s.idx))) }

  /**
    bit_first_one_search as the linear scan the table replaces: the first task of the first non-empty queue from `p` on.
   */
  function LinearSearch(s: KS, p: nat): Option<Entry>
    decreases 32 - p
  {
    if p >= 32 then None
    else if Q(s.v, Ready(p)) != [] then Some(Q(s.v, Ready(p))[0])
    else LinearSearch(s, p + 1)
  }

  /** prio_ready_queue_fetch: rotate the chosen task to the tail of its queue and switch to it. */
  function Fetch(s: KS): KS {
    match TableSearch(s)
    case Task(t) =>
      var s' := if |Q(s.v, Ready(B.Get(s.idx)))| > 1 then ReadyTail(ReadyDelete(s, t), t) else s;
      if t == s.running then s' else s'.(previous := Some(s.running), running := t)
    case _ => s
  }

  function Schedule(s: KS): KS { if s.locked then s else Fetch(s) }

  // ----- tasks

  function SetPrio(s: KS, t: nat, p: Prio): KS { s.(prio := s.prio[t := p]) }

  function TaskCreate(s: KS, t: nat, p: Prio): KS {
    ReadyTail(SetPrio(s, t, p).(created := s.created + {t}), t)
  }

  /** The running task leaves its ready queue, changes priority and re-enters at the head. */
  function Reprioritize(s: KS, p: Prio): KS {
    ReadyHead(SetPrio(ReadyDelete(s, s.running), s.running, p), s.running)
  }

  /** The argument check of task_prio_change, which lets SYSTEM_WORD itself pass. */
  predicate PrioAccepted(p: u32) { 1 <= p <= B.SYSTEM_WORD }

  function PrioChange(s: KS, p: Prio): KS { if PrioAccepted(p) then Reprioritize(s, p) else s }

  // ----- time

  /** os_delay up to its scheduling point: the running task's delay node goes on the tick queue. */
  function OsDelay(s: KS, n: u32): KS {
    var e := Delay(s.running);
    var s' := ReadyDelete(s.(ticks := s.ticks[e := TickOf(s, e).(timeout := n, copy := n)]), s.running);
    s'.(v := InsertTail(s'.v, Ticks, e))
  }

  function TimerReq(s: KS, k: nat, timeout: u32, cycle: bool): KS {
    if timeout == 0 then s
    else s.(ticks := s.ticks[Timer(k) := TickV(timeout, timeout, cycle)], v := InsertTail(s.v, Ticks, Timer(k)))
  }

  /** One node of the tick queue in one hardware_timer call. */
  function VisitTick(s: KS, e: Entry): KS {
    var tick := TickOf(s, e);
    if tick.timeout > 0 then s.(ticks := s.ticks[e := tick.(timeout := tick.timeout - 1)])
    else match e
      case Timer(k) =>
        var s' := s.(fired := s.fired + [k]);
        if tick.cycle then s'.(ticks := s.ticks[e := tick.(timeout := tick.copy)]) else Unlink(s', e)
      case Delay(t) => ReadyTail(Unlink(s, e), t)
      case _ => s
  }

  function VisitAll(s: KS, es: seq<Entry>): KS
    decreases |es|
  {
    if es == [] then s else VisitAll(VisitTick(s, es[0]), es[1..])
  }

  /** hardware_timer up to its scheduling point: every node on the tick queue at entry, once, in order. */
  function HardwareTimer(s: KS): KS {
    VisitAll(s.(tick := Wrap32(s.tick as int + 1)), Q(s.v, Ticks))
  }

  // ----- blocking and waking

  /** The running task moves from its ready queue to the tail of a wait list. */
  function Park(s: KS, l: ListId): KS {
    var s' := ReadyDelete(s, s.running);
    s'.(v := InsertTail(s'.v, l, Task(s.running)))
  }

  /** The longest waiter, if any, moves from the wait list to the head of its ready queue. */
  function Wake(s: KS, l: ListId): KS {
    match FirstOf(s.v, l)
    case Task(t) => ReadyHead(Unlink(s, Task(t)), t)
    case _ => s
  }

  function SemCount(s: KS, i: nat): u32 { if i in s.count then s.count[i] else 0 }

  function SemGet(s: KS, i: nat): KS {
    if SemCount(s, i) == 0 then Schedule(Park(s, SemWait(i)))
    else s.(count := s.count[i := SemCount(s, i) - 1])
  }

  /** sem_put up to its scheduling point. */
  function SemPut(s: KS, i: nat): KS {
    if Q(s.v, SemWait(i)) != [] then Wake(s, SemWait(i))
    else if SemCount(s, i) != SEM_MAX then s.(count := s.count[i := SemCount(s, i) + 1])
    else s
  }

  function MutexOf(s: KS, i: nat): MutexV { if i in s.mutexes then s.mutexes[i] else MutexV(true, 0) }

  function MutexGet(s: KS, i: nat): KS {
    if !MutexOf(s, i).enable then Schedule(Park(s, MutexWait(i)))
    else
      Reprioritize(s, PRIO_MUTEX).(mutexes := s.mutexes[i := MutexV(false, PrioOf(s, s.running))])
  }

  /** mutex_put up to its scheduling point. */
  function MutexPut(s: KS, i: nat): KS {
    var s' := Reprioritize(s, MutexOf(s, i).copyPrio).(mutexes := s.mutexes[i := MutexOf(s, i).(enable := true)]);
    Wake(s', MutexWait(i))
  }

  // ----- messages

  datatype Status = TRUE | FALSE | FULL | EMPTY | NO_SEMAPHORE | NO_MUTEX | NO_TCB

  function QueueOf(s: KS, i: nat): QueueV { if i in s.queues then s.queues[i] else QueueV(0, 0) }

  function MsgPutStatus(s: KS, i: nat): Status {
    var q := QueueOf(s, i);
    if q.count > q.length then FALSE else if q.count == q.length then FULL else TRUE
  }

  /** A message is counted and linked at one end of the queue, which was `q`. */
  function MsgLink(s: KS, i: nat, q: QueueV, m: nat, fifo: bool): KS
    requires q.count < q.length
  {
    s.(queues := s.queues[i := q.(count := q.count + 1)],
       v := if fifo then InsertTail(s.v, Msgs(i), Msg(m)) else InsertHead(s.v, Msgs(i), Msg(m)))
  }

  /** A message is unlinked and counted off. */
  function MsgUnlink(s: KS, i: nat, e: Entry): KS {
    var q := QueueOf(s, i);
    Unlink(s, e).(queues := s.queues[i := q.(count := if q.count > 0 then q.count - 1 else 0)])
  }

  /** msg_put: a waiter is released first, whether or not there is room; the call does not schedule. */
  function MsgPut(s: KS, i: nat, m: nat, fifo: bool): KS {
    var q := QueueOf(s, i);
    if q.count > q.length then s
    else
      var s' := Wake(s, MsgWait(i));
      if q.count == q.length then s' else MsgLink(s', i, q, m, fifo)
  }

  function MsgGetStatus(s: KS, i: nat): Status { if Q(s.v, Msgs(i)) == [] then EMPTY else TRUE }

  /** msg_get; when there is no message, up to its scheduling point. */
  function MsgGet(s: KS, i: nat): KS {
    if Q(s.v, Msgs(i)) == [] then Park(s, MsgWait(i))
    else MsgUnlink(s, i, Q(s.v, Msgs(i))[0])
  }

  // ----- calls and runs

  datatype Call =
    | CallSchedule
    | CallLock(lock: bool)
    | CallTaskCreate(t: nat, p: Prio)
    | CallPrioChange(p: Prio)
    | CallDelay(n: u32)
    | CallTimerReq(k: nat, timeout: u32, cycle: bool)
    | CallHardwareTimer
    | CallSemGet(i: nat)
    | CallSemPut(i: nat)
    | CallMutexGet(i: nat)
    | CallMutexPut(i: nat)
    | CallMsgPut(i: nat, m: nat, fifo: bool)
    | CallMsgGet(i: nat)

  function Step(s: KS, c: Call): KS {
    match c
    case CallSchedule => Schedule(s)
    case CallLock(lock) => s.(locked := lock)
    case CallTaskCreate(t, p) => TaskCreate(s, t, p)
    case CallPrioChange(p) => PrioChange(s, p)
    case CallDelay(n) => OsDelay(s, n)
    case CallTimerReq(k, timeout, cycle) => TimerReq(s, k, timeout, cycle)
    case CallHardwareTimer => HardwareTimer(s)
    case CallSemGet(i) => SemGet(s, i)
    case CallSemPut(i) => SemPut(s, i)
    case CallMutexGet(i) => MutexGet(s, i)
    case CallMutexPut(i) => MutexPut(s, i)
    case CallMsgPut(i, m, fifo) => MsgPut(s, i, m, fifo)
    case CallMsgGet(i) => MsgGet(s, i)
  }

  /** The call would take the running task off its ready queue. */
  predicate Blocks(s: KS, c: Call) {
    match c
    case CallDelay(_) => true
    case CallSemGet(i) => SemCount(s, i) == 0
    case CallMutexGet(i) => !MutexOf(s, i).enable
    case CallMsgGet(i) => Q(s.v, Msgs(i)) == []
    case _ => false
  }

  predicate OnReady(s: KS, t: nat) {
    t in s.created && Task(t) in s.v.at && s.v.at[Task(t)].Ready?
  }

  /** Made by the running task for itself; the other steps may also be an interrupt's, or schedule() itself. */
  predicate OwnCall(c: Call) {
    match c
    case CallSchedule => false
    case CallTaskCreate(_, _) => false
    case CallTimerReq(_, _, _) => false
    case CallHardwareTimer => false
    case CallSemPut(_) => false
    case CallMsgPut(_, _, _) => false
    case _ => true
  }

  /**
    What the sources rely on: handles name initialised objects, a task is created once, a timer or message is not queued
    already, and blocking calls are made with the scheduler unlocked and never by the idle task. A task that has left
    its ready queue makes no call before schedule() has run.
   */
  predicate Called(s: KS, c: Call) {
    && (OwnCall(c) ==> OnReady(s, s.running))
    && (Blocks(s, c) ==> !s.locked && s.running != IDLE)
    && match c
       case CallTaskCreate(t, _) => t !in s.created
       case CallTimerReq(k, _, _) => Timer(k) !in s.v.at
       case CallSemGet(i) => i in s.count
       case CallSemPut(i) => i in s.count
       case CallMutexGet(i) => i in s.mutexes
       case CallMutexPut(i) => i in s.mutexes
       case CallMsgPut(i, m, _) => i in s.queues && Msg(m) !in s.v.at
       case CallMsgGet(i) => i in s.queues
       case _ => true
  }

  /** The priority a task is given has a ready queue, which neither task_create nor task_prio_change makes sure of. */
  predicate HasQueue(c: Call) {
    match c
    case CallTaskCreate(_, p) => p < B.SYSTEM_WORD
    case CallPrioChange(p) => PrioAccepted(p) ==> p < B.SYSTEM_WORD
    case _ => true
  }

  predicate Enabled(s: KS, c: Call) { Called(s, c) && HasQueue(c) }

  function Run(s: KS, calls: seq<Call>): KS
    decreases |calls|
  {
    if calls == [] then s else Run(Step(s, calls[0]), calls[1..])
  }

  predicate CanRun(s: KS, calls: seq<Call>)
    decreases |calls|
  {
    calls == [] || (Enabled(s, calls[0]) && CanRun(Step(s, calls[0]), calls[1..]))
  }
}
