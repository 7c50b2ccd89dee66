/** Message queues over whole runs: a bounded deque whose count is the length of its list. */
module MsgQueues {
  import opened ListModel
  import opened KernelSpec
  import opened KernelInvariants
  import opened KernelFrames
  import opened KernelTicks
  import opened SemHistory

  function Contents(s: KS, i: nat): seq<Entry> { Q(s.v, Msgs(i)) }

  /** The bounded deque: a full one refuses, FIFO puts append, LIFO puts prepend, gets take the front. */
  function Deque(d: seq<Entry>, bound: nat, c: Call, i: nat): seq<Entry> {
    match c
    case CallMsgPut(j, m, fifo) => if j != i || |d| >= bound then d else if fifo then d + [Msg(m)] else [Msg(m)] + d
    case CallMsgGet(j) => if j != i || d == [] then d else d[1..]
    case _ => d
  }

  function DequeAfter(d: seq<Entry>, bound: nat, calls: seq<Call>, i: nat): seq<Entry>
    decreases |calls|
  {
    if calls == [] then d else DequeAfter(Deque(d, bound, calls[0], i), bound, calls[1..], i)
  }

  lemma OtherCallsPass(s: KS, c: Call, i: nat)
    requires Inv(s) && Enabled(s, c) && i in s.queues && !Touches(c, Msgs(i))
    ensures i in Step(s, c).queues && Step(s, c).queues[i] == s.queues[i] && Contents(Step(s, c), i) == Contents(s, i)
  {
    hide Inv, Step, HardwareTimer;
    if c.CallHardwareTimer? {
      HardwareTimerMeaning(s);
      StepIsHardwareTimer(s);
    } else {
      CallEffect(s, c);
      CallFrame(s, c, Msgs(i));
    }
  }

  /** The count is the number of stored messages and never exceeds the bound; the statuses say what happened. */
  lemma CountIsLength(s: KS, i: nat)
    requires Inv(s) && i in s.queues
    ensures s.queues[i].count as int == |Contents(s, i)| <= s.queues[i].length as int
    ensures MsgPutStatus(s, i) == if |Contents(s, i)| == s.queues[i].length then FULL else TRUE
    ensures MsgGetStatus(s, i) == if Contents(s, i) == [] then EMPTY else TRUE
  {
    hide Shaped, Placed, Indexed;
  }

  lemma DequeStep(s: KS, c: Call, i: nat)
    requires Inv(s) && Enabled(s, c) && i in s.queues
    ensures i in Step(s, c).queues && Step(s, c).queues[i].length == s.queues[i].length
    ensures Contents(Step(s, c), i) == Deque(Contents(s, i), s.queues[i].length, c, i)
  {
    hide Inv, MsgPut, MsgGet;
    if c == CallMsgGet(i) {
      MsgGetFrame(s, i);
    } else if c.CallMsgPut? && c.i == i {
      CountIsLength(s, i);
      MsgPutFrame(s, i, c.m, c.fifo);
    } else {
      hide Step, Enabled;
      OtherCallsPass(s, c, i);
    }
  }

  /** Refinement: after any run the stored messages are those of the bounded deque given the same calls. */
  lemma {:induction false} QueueRefinesDeque(s: KS, calls: seq<Call>, i: nat)
    requires Inv(s) && CanRun(s, calls) && i in s.queues
    ensures i in Run(s, calls).queues && Run(s, calls).queues[i].length == s.queues[i].length
    ensures Contents(Run(s, calls), i) == DequeAfter(Contents(s, i), s.queues[i].length, calls, i)
    ensures Run(s, calls).queues[i].count as int == |Contents(Run(s, calls), i)| <= s.queues[i].length as int
    decreases |calls|
  {
    hide Inv, Step, Enabled, Deque;
    if calls == [] {
      CountIsLength(s, i);
    } else {
      StepKeeps(s, calls[0]);
      DequeStep(s, calls[0], i);
      QueueRefinesDeque(Step(s, calls[0]), calls[1..], i);
    }
  }

  /** The message msg_put accepts, with TRUE, and the one msg_get hands out, in one call. */
  function Put(s: KS, c: Call, i: nat): seq<Entry> {
    if c.CallMsgPut? && c.i == i && MsgPutStatus(s, i) == TRUE then [Msg(c.m)] else []
  }

  function Got(s: KS, c: Call, i: nat): seq<Entry> {
    if c == CallMsgGet(i) && Contents(s, i) != [] then [Contents(s, i)[0]] else []
  }

  function Accepted(s: KS, calls: seq<Call>, i: nat): seq<Entry>
    decreases |calls|
  {
    if calls == [] then [] else Put(s, calls[0], i) + Accepted(Step(s, calls[0]), calls[1..], i)
  }

  function Delivered(s: KS, calls: seq<Call>, i: nat): seq<Entry>
    decreases |calls|
  {
    if calls == [] then [] else Got(s, calls[0], i) + Delivered(Step(s, calls[0]), calls[1..], i)
  }

  lemma InAndOut(s: KS, c: Call, i: nat)
    requires Inv(s) && Enabled(s, c) && i in s.queues
    ensures i in Step(s, c).queues
    ensures (c.CallMsgPut? ==> c.fifo || c.i != i) ==>
              Contents(s, i) + Put(s, c, i) == Got(s, c, i) + Contents(Step(s, c), i)
    ensures multiset(Contents(s, i)) + multiset(Put(s, c, i)) == multiset(Got(s, c, i))
            + multiset(Contents(Step(s, c), i))
  {
    hide Inv, Step, Enabled, Contents, MsgPutStatus;
    DequeStep(s, c, i);
    CountIsLength(s, i);
    var d := Contents(s, i);
    if c == CallMsgGet(i) && d != [] {
      assert d == [d[0]] + d[1..];
    }
  }

  /** With FIFO puts only, messages come out in exactly the order they were accepted, none lost and none invented. */
  lemma {:induction false} FifoOrder(s: KS, calls: seq<Call>, i: nat)
    requires Inv(s) && CanRun(s, calls) && i in s.queues
    requires forall c | c in calls && c.CallMsgPut? && c.i == i :: c.fifo
    ensures Contents(s, i) + Accepted(s, calls, i) == Delivered(s, calls, i) + Contents(Run(s, calls), i)
    decreases |calls|
  {
    hide Inv, Step, Enabled, Contents, Put, Got;
    if calls != [] {
      var c, s' := calls[0], Step(s, calls[0]);
      StepKeeps(s, c);
      assert c in calls;
      InAndOut(s, c, i);
      FifoOrder(s', calls[1..], i);
      Reassociate(Contents(s, i), Put(s, c, i), Got(s, c, i), Contents(s', i), Accepted(s', calls[1..], i),
                  Delivered(s', calls[1..], i), Contents(Run(s, calls), i));
    }
  }

  lemma Reassociate<T>(d: seq<T>, put: seq<T>, got: seq<T>, d': seq<T>, a: seq<T>, o: seq<T>, e: seq<T>)
    requires d + put == got + d' && d' + a == o + e
    ensures d + (put + a) == (got + o) + e
  {
    assert d + (put + a) == (d + put) + a == got + (d' + a) == (got + o) + e;
  }

  /** With any mixture of puts, every accepted message is delivered at most once and is otherwise still stored. */
  lemma {:induction false} NothingLost(s: KS, calls: seq<Call>, i: nat)
    requires Inv(s) && CanRun(s, calls) && i in s.queues
    ensures multiset(Contents(s, i)) + multiset(Accepted(s, calls, i))
         == multiset(Delivered(s, calls, i)) + multiset(Contents(Run(s, calls), i))
    decreases |calls|
  {
    hide Inv, Step, Enabled, Contents, Put, Got;
    if calls == [] {
      assert Accepted(s, calls, i) == Delivered(s, calls, i) == [];
    } else {
      var c, s' := calls[0], Step(s, calls[0]);
      StepKeeps(s, c);
      InAndOut(s, c, i);
      NothingLost(s', calls[1..], i);
      assert multiset(Put(s, c, i) + Accepted(s', calls[1..], i)) == multiset(Put(s, c, i))
             + multiset(Accepted(s', calls[1..], i));
      assert multiset(Got(s, c, i) + Delivered(s', calls[1..], i)) == multiset(Got(s, c, i))
             + multiset(Delivered(s', calls[1..], i));
      Regroup(multiset(Contents(s, i)), multiset(Put(s, c, i)), multiset(Got(s, c, i)), multiset(Contents(s', i)),
              multiset(Accepted(s', calls[1..], i)), multiset(Delivered(s', calls[1..], i)),
                  multiset(Contents(Run(s, calls), i)));
    }
  }

  lemma Regroup<T>(d: multiset<T>, put: multiset<T>, got: multiset<T>, d': multiset<T>, a: multiset<T>, o: multiset<T>,
          e: multiset<T>)
    requires d + put == got + d' && d' + a == o + e
    ensures d + (put + a) == (got + o) + e
  {
    assert d + (put + a) == (d + put) + a == got + (d' + a) == (got + o) + e;
  }

  /** A put releases the longest waiter, if there is one, and nobody else, full queue or not. */
  lemma PutReleasesFirst(s: KS, i: nat, m: nat, fifo: bool)
    requires Inv(s) && Enabled(s, CallMsgPut(i, m, fifo))
    ensures var w := Q(s.v, MsgWait(i));
            var s' := MsgPut(s, i, m, fifo);
            && Q(s'.v, MsgWait(i)) == (if w == [] then [] else w[1..])
            && (w != [] ==> w[0].Task? && !OnReady(s, w[0].t) && OnReady(s', w[0].t))
            && (forall t | OnReady(s', t) && !OnReady(s, t) :: w != [] && w[0] == Task(t))
  {
    hide MsgPut, OnReady, Core;
    var w, s' := Q(s.v, MsgWait(i)), MsgPut(s, i, m, fifo);
    MsgPutFrame(s, i, m, fifo);
    MsgPutKeeps(s, i, m, fifo);
    if w != [] {
      WaiterIsTask(s, MsgWait(i));
      WaiterOnlyThere(s, MsgWait(i));
      OffWaitsIsReady(s', w[0].t);
    }
    forall t | OnReady(s', t) && !OnReady(s, t)
      ensures w != [] && w[0] == Task(t)
    {
      NewlyReady(s, s', t, i);
    }
  }

  lemma NewlyReady(s: KS, s': KS, t: nat, i: nat)
    requires Inv(s) && Inv(s') && OnReady(s', t) && !OnReady(s, t) && s'.created == s.created
    requires Kept(s, s', {MsgWait(i), Msgs(i)})
    requires Q(s'.v, MsgWait(i)) == if Q(s.v, MsgWait(i)) == [] then [] else Q(s.v, MsgWait(i))[1..]
    ensures Q(s.v, MsgWait(i)) != [] && Q(s.v, MsgWait(i))[0] == Task(t)
  {
    hide Inv, OnReady;
    ReadyNowhereElse(s', t);
    var l := WhereFrom(s, t);
    assert Kept(s, s', {MsgWait(i), Msgs(i)}) && l == MsgWait(i);
    var q := Q(s.v, l);
    assert q == [q[0]] + q[1..];
  }

  /** A task that is not ready sleeps or waits. */
  lemma WhereFrom(s: KS, t: nat) returns (l: ListId)
    requires Inv(s) && t in s.created && !OnReady(s, t)
    ensures IsWaitList(l) || l == Ticks
    ensures if l == Ticks then Delay(t) in Q(s.v, l) else Task(t) in Q(s.v, l)
  {
    hide Indexed, Counted;
    l := if Task(t) in s.v.at then s.v.at[Task(t)] else Ticks;
    if Task(t) in s.v.at {
      assert Fits(s, Task(t), l);
    } else {
      assert s.v.at[Delay(t)] == Ticks;
    }
  }

  lemma ReadyNowhereElse(s: KS, t: nat)
    requires Inv(s) && OnReady(s, t)
    ensures t in s.created && forall l: ListId | !l.Ready? :: Task(t) !in Q(s.v, l) && Delay(t) !in Q(s.v, l)
  {
    hide Indexed, Counted;
    forall l: ListId | !l.Ready? && l in s.v.q
      ensures Task(t) !in Q(s.v, l) && Delay(t) !in Q(s.v, l)
    {
      OkAt(s.v, l, Task(t));
      OkAt(s.v, l, Delay(t));
    }
  }
}
