/** What one hardware_timer call does to the tick queue, and what that means for sleepers and timers over whole runs. */
module KernelTicks {
  import opened Words
  import opened ListModel
  import opened KernelSpec
  import opened KernelInvariants
  import opened KernelFrames
  import B = Bitmap

  /** The node has run down and is taken off the queue when visited. */
  predicate Leaves(s: KS, e: Entry) {
    TickOf(s, e).timeout == 0 && (e.Delay? || (e.Timer? && !TickOf(s, e).cycle))
  }

  function Survivors(s: KS, es: seq<Entry>): seq<Entry> {
    if es == [] then [] else (if Leaves(s, es[0]) then [] else [es[0]]) + Survivors(s, es[1..])
  }

  /** The sleepers of priority `p` that are due, in queue order. */
  function Woken(s: KS, es: seq<Entry>, p: nat): seq<Entry> {
    if es == [] then []
    else
      (if es[0].Delay? && Leaves(s, es[0]) && PrioOf(s, es[0].t) == p then [Task(es[0].t)] else [])
          + Woken(s, es[1..], p)
  }

  /** The software timers that are due, in queue order. */
  function Due(s: KS, es: seq<Entry>): seq<nat> {
    if es == [] then []
    else (if es[0].Timer? && TickOf(s, es[0]).timeout == 0 then [es[0].k] else []) + Due(s, es[1..])
  }

  /** The node's countdown after one tick. */
  function Ticked(s: KS, e: Entry): TickV {
    var tick := TickOf(s, e);
    if tick.timeout > 0 then tick.(timeout := tick.timeout - 1)
    else if e.Timer? && tick.cycle then tick.(timeout := tick.copy)
    else tick
  }

  /** The pass over `es` took `s` to `s'`, apart from what became of the tick queue itself. */
  ghost predicate Passed(s: KS, s': KS, es: seq<Entry>) {
    && s'.prio == s.prio && s'.created == s.created && s'.running == s.running && s'.locked == s.locked
    && s'.count == s.count && s'.queues == s.queues && s'.mutexes == s.mutexes
    && s'.previous == s.previous && s'.tick == s.tick
    && (forall p :: Q(s'.v, Ready(p)) == Q(s.v, Ready(p)) + Woken(s, es, p))
    && (forall l | l != Ticks && !l.Ready? :: Q(s'.v, l) == Q(s.v, l))
    && s'.fired == s.fired + Due(s, es)
    && (forall x | x in es :: TickOf(s', x) == Ticked(s, x))
    && (forall x | x !in es :: TickOf(s', x) == TickOf(s, x))
  }

  lemma OneThenRest(s: KS, e: Entry, rest: seq<Entry>)
    ensures Survivors(s, [e] + rest) == (if Leaves(s, e) then [] else [e]) + Survivors(s, rest)
    ensures forall p :: Woken(s, [e] + rest, p) == Woken(s, [e], p) + Woken(s, rest, p)
    ensures forall p :: Woken(s, [e], p) == if e.Delay? && Leaves(s, e) && PrioOf(s, e.t) == p then [Task(e.t)] else []
    ensures Due(s, [e] + rest) == Due(s, [e]) + Due(s, rest)
    ensures Due(s, [e]) == if e.Timer? && TickOf(s, e).timeout == 0 then [e.k] else []
  {
    hide Leaves, TickOf, PrioOf;
    assert ([e] + rest)[1..] == rest && [e][1..] == [];
  }

  lemma VisitRunning(s: KS, e: Entry)
    requires TickOf(s, e).timeout > 0
    ensures Passed(s, VisitTick(s, e), [e]) && VisitTick(s, e).v == s.v
  {
  }

  lemma VisitTimer(s: KS, kept: seq<Entry>, e: Entry, rest: seq<Entry>)
    requires TickOf(s, e).timeout == 0 && e.Timer? && e in s.v.at && s.v.at[e] == Ticks && Ticks in s.v.q
    requires NoDup(Q(s.v, Ticks)) && Q(s.v, Ticks) == kept + ([e] + rest)
    ensures Passed(s, VisitTick(s, e), [e])
    ensures Q(VisitTick(s, e).v, Ticks) == kept + (if Leaves(s, e) then [] else [e]) + rest
  {
    hide Without, Woken, Due, NoDup;
    OneThenRest(s, e, []);
    if TickOf(s, e).cycle {
      assert kept + [e] + rest == kept + ([e] + rest);
    } else {
      TickUnlinked(s.v, kept, e, rest);
    }
  }

  /** Off the tick queue, and no other list touched. */
  lemma TickUnlinked(v: Lists, kept: seq<Entry>, e: Entry, rest: seq<Entry>)
    requires e in v.at && v.at[e] == Ticks && Ticks in v.q && NoDup(Q(v, Ticks)) && Q(v, Ticks) == kept + ([e] + rest)
    ensures Q(Delete(v, e), Ticks) == kept + [] + rest == kept + rest
    ensures forall l | l != Ticks :: Q(Delete(v, e), l) == Q(v, l)
  {
    hide Without, NoDup;
    WithoutMeaning(Q(v, Ticks), e, |kept|);
    assert Q(v, Ticks)[..|kept|] == kept && Q(v, Ticks)[|kept| + 1..] == rest;
    assert kept + [] == kept;
  }

  lemma VisitSleeper(s: KS, kept: seq<Entry>, e: Entry, rest: seq<Entry>)
    requires TickOf(s, e).timeout == 0 && e.Delay? && e in s.v.at && s.v.at[e] == Ticks && Ticks in s.v.q
    requires NoDup(Q(s.v, Ticks)) && Q(s.v, Ticks) == kept + ([e] + rest)
    ensures Passed(s, VisitTick(s, e), [e])
    ensures Q(VisitTick(s, e).v, Ticks) == kept + rest
  {
    hide B.Set, Without, Woken, Due, Delete, NoDup, ReadyTail;
    OneThenRest(s, e, []);
    TickUnlinked(s.v, kept, e, rest);
    UnlinkFields(s, e);
    TailQueues(Unlink(s, e), e.t);
    HeadFields(Unlink(s, e), e.t);
  }

  lemma TailQueues(s: KS, t: nat)
    ensures Q(ReadyTail(s, t).v, Ready(PrioOf(s, t))) == Q(s.v, Ready(PrioOf(s, t))) + [Task(t)]
    ensures forall l | l != Ready(PrioOf(s, t)) :: Q(ReadyTail(s, t).v, l) == Q(s.v, l)
  {
  }

  lemma VisitTickMeaning(s: KS, kept: seq<Entry>, e: Entry, rest: seq<Entry>)
    requires Inv(s) && Q(s.v, Ticks) == kept + ([e] + rest)
    ensures Inv(VisitTick(s, e)) && Passed(s, VisitTick(s, e), [e])
    ensures Q(VisitTick(s, e).v, Ticks) == kept + (if Leaves(s, e) then [] else [e]) + rest
  {
    hide Inv, VisitTick, Passed;
    assert e in Q(s.v, Ticks) by { assert Q(s.v, Ticks)[|kept|] == e; }
    QueuedTick(s, e);
    VisitTickKeeps(s, e);
    TicksDistinct(s);
    if TickOf(s, e).timeout > 0 {
      VisitRunning(s, e);
      assert kept + [e] + rest == kept + ([e] + rest);
    } else if e.Timer? {
      VisitTimer(s, kept, e, rest);
    } else {
      VisitSleeper(s, kept, e, rest);
      assert kept + [] + rest == kept + rest;
    }
  }

  lemma QueuedTick(s: KS, e: Entry)
    requires Inv(s) && e in Q(s.v, Ticks)
    ensures e in s.v.at && s.v.at[e] == Ticks && Ticks in s.v.q && (e.Timer? || e.Delay?)
  {
  }

  lemma TicksDistinct(s: KS)
    requires Inv(s)
    ensures NoDup(Q(s.v, Ticks))
  {
  }

  /** A countdown is read once per call, so earlier visits do not disturb what later nodes see. */
  lemma {:induction false} SeenAsBefore(s: KS, s': KS, es: seq<Entry>)
    requires s'.prio == s.prio && forall x | x in es :: TickOf(s', x) == TickOf(s, x)
    ensures Survivors(s', es) == Survivors(s, es) && Due(s', es) == Due(s, es)
    ensures forall p :: Woken(s', es, p) == Woken(s, es, p)
  {
    if es != [] {
      assert es[0] in es;
      SeenAsBefore(s, s', es[1..]);
    }
  }

  lemma PassedOneMore(s: KS, s1: KS, s2: KS, e: Entry, rest: seq<Entry>)
    requires Passed(s, s1, [e]) && Passed(s1, s2, rest) && e !in rest
    ensures Passed(s, s2, [e] + rest)
  {
    hide Leaves, Ticked, TickOf, Q, Woken, Due, Survivors;
    SeenAsBefore(s, s1, rest);
    TickedSame(s, s1, rest);
    OneThenRest(s, e, rest);
  }

  /**
    The whole pass: survivors keep their order, due sleepers are appended to their ready queues in queue order, due
    timers fire in queue order, and every countdown moves by one.
   */
  lemma {:induction false} VisitAllMeaning(s: KS, kept: seq<Entry>, es: seq<Entry>)
    requires Inv(s) && Q(s.v, Ticks) == kept + es
    ensures Inv(VisitAll(s, es)) && Passed(s, VisitAll(s, es), es)
    ensures Q(VisitAll(s, es).v, Ticks) == kept + Survivors(s, es)
    decreases |es|
  {
    hide Inv, VisitTick, Leaves, Passed, Survivors, Q, Woken, Due, Ticked, TickOf;
    if es == [] {
      PassedNone(s, kept);
    } else {
      var e, rest := es[0], es[1..];
      assert es == [e] + rest;
      OneThenRest(s, e, rest);
      TicksDistinct(s);
      NotLater(kept, e, rest, Q(s.v, Ticks));
      VisitTickMeaning(s, kept, e, rest);
      var s1, stays := VisitTick(s, e), if Leaves(s, e) then [] else [e];
      VisitAllMeaning(s1, kept + stays, rest);
      PassedOneMore(s, s1, VisitAll(s1, rest), e, rest);
      PassedSeen(s, s1, e, rest);
      assert kept + stays + Survivors(s, rest) == kept + (stays + Survivors(s, rest));
    }
  }

  lemma PassedNone(s: KS, kept: seq<Entry>)
    ensures Passed(s, s, []) && kept + Survivors(s, []) == kept == kept + []
  {
  }

  lemma PassedSeen(s: KS, s1: KS, e: Entry, rest: seq<Entry>)
    requires Passed(s, s1, [e]) && e !in rest
    ensures Survivors(s1, rest) == Survivors(s, rest)
  {
  }

  lemma NotLater(kept: seq<Entry>, e: Entry, rest: seq<Entry>, q: seq<Entry>)
    requires NoDup(q) && q == kept + ([e] + rest)
    ensures e !in rest
  {
    assert forall i | 0 <= i < |rest| :: q[|kept| + 1 + i] == rest[i];
    assert q[|kept|] == e;
  }

  lemma TickedSame(s: KS, s': KS, es: seq<Entry>)
    requires forall x | x in es :: TickOf(s', x) == TickOf(s, x)
    ensures forall x | x in es :: Ticked(s', x) == Ticked(s, x)
  {
  }

  /** The whole of hardware_timer up to its scheduling point. */
  lemma HardwareTimerMeaning(s: KS)
    requires Inv(s)
    ensures var q := Q(s.v, Ticks);
            var s' := HardwareTimer(s);
            && Q(s'.v, Ticks) == Survivors(s, q) && s'.fired == s.fired + Due(s, q)
            && (forall p :: Q(s'.v, Ready(p)) == Q(s.v, Ready(p)) + Woken(s, q, p))
            && (forall x | x in q :: TickOf(s', x) == Ticked(s, x))
            && (forall x | x !in q :: TickOf(s', x) == TickOf(s, x))
            && Kept(s, s', {Ticks})
            && s'.created == s.created && s'.count == s.count && s'.queues == s.queues && s'.mutexes == s.mutexes
            && s'.prio == s.prio
            && s'.running == s.running && s'.locked == s.locked && s'.previous == s.previous
            && s'.tick as int == (s.tick as int + 1) % 0x1_0000_0000
  {
    hide Inv, Survivors, Due, Ticked, VisitAll, Woken;
    var q := Q(s.v, Ticks);
    var s1 := s.(tick := Wrap32(s.tick as int + 1));
    TickIgnored(s, s1.tick);
    assert Q(s1.v, Ticks) == [] + q;
    VisitAllMeaning(s1, [], q);
    SeenAsBefore(s, s1, q);
    TickedSame(s, s1, q);
  }

  lemma TickIgnored(s: KS, tick: u32)
    requires Inv(s)
    ensures Inv(s.(tick := tick))
  {
  }

  // ----- all other calls leave the tick queue alone, or append to it

  /** A call other than hardware_timer keeps every queued node in place, with its countdown, and fires nothing. */
  ghost predicate Grows(s: KS, s': KS) {
    && Q(s.v, Ticks) <= Q(s'.v, Ticks) && s'.fired == s.fired
    && forall e | e in Q(s.v, Ticks) :: TickOf(s', e) == TickOf(s, e)
  }

  lemma OtherCallsGrow(s: KS, c: Call)
    requires Inv(s) && Enabled(s, c) && !c.CallHardwareTimer?
    ensures Grows(s, Step(s, c))
  {
    hide Inv, Step, OnReady;
    CallEffect(s, c);
    if c.CallDelay? || c.CallTimerReq? {
      GrowsBy(s, c);
      TimerNotQueued(s, c);
    } else {
      CallFrame(s, c, Ticks);
    }
  }

  lemma GrowsBy(s: KS, c: Call)
    requires Inv(s) && Enabled(s, c) && (c.CallDelay? || c.CallTimerReq?)
    ensures Q(s.v, Ticks) <= Q(Step(s, c).v, Ticks)
  {
    hide Inv, OsDelay, TimerReq, OnReady;
    if c.CallDelay? {
      OsDelayFrame(s, c.n);
    } else {
      TimerReqFrame(s, c.k, c.timeout, c.cycle);
    }
  }

  lemma TimerNotQueued(s: KS, c: Call)
    requires Inv(s) && Enabled(s, c)
    ensures c.CallDelay? ==> Delay(s.running) !in Q(s.v, Ticks)
    ensures c.CallTimerReq? ==> Timer(c.k) !in Q(s.v, Ticks)
  {
  }
}
