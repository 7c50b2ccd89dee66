/**
 The connection table: no two live slots claim one segment, which slot an opening takes, and the local port search.
 */
module TcpTable {
  import opened Words
  import opened SeqNum
  import opened Tcp
  import opened TcpInvariants

  /** Live slots have pairwise different local port, remote port and remote address. */
  ghost predicate Distinct(conns: seq<Conn>) {
    forall i, j | 0 <= i < j < |conns| :: conns[i].Is(CLOSED) || conns[j].Is(CLOSED) || !SamePeer(conns[i], conns[j])
  }

  /** In a table of distinct connections a segment belongs to at most one slot, so the scan order does not matter. */
  lemma DemuxIsUnique(conns: seq<Conn>, seg: Segment, i: nat, j: nat)
    requires Distinct(conns) && i < |conns| && j < |conns|
    requires Matches(conns[i], seg) && Matches(conns[j], seg)
    ensures i == j && Demux(conns, seg, 0) == i
  {
    DemuxMatches(conns, seg, 0);
  }

  lemma {:induction false} FirstClosedMeaning(conns: seq<Conn>, i: nat)
    requires i <= |conns|
    ensures var k := FirstClosed(conns, i);
            (k < |conns| ==> conns[k].Is(CLOSED)) && forall j | i <= j < k :: !conns[j].Is(CLOSED)
    decreases |conns| - i
  {
    if i < |conns| && !conns[i].Is(CLOSED) {
      FirstClosedMeaning(conns, i + 1);
    }
  }

  lemma {:induction false} OldestTimeWaitMeaning(conns: seq<Conn>, n: nat)
    requires n <= |conns|
    ensures var r := OldestTimeWait(conns, n);
            match r
            case None => forall j | 0 <= j < n :: !conns[j].Is(TIME_WAIT)
            case Some(k) =>
              && conns[k].Is(TIME_WAIT)
              && (forall j | 0 <= j < n && conns[j].Is(TIME_WAIT) :: conns[j].timer <= conns[k].timer)
              && (forall j | 0 <= j < k && conns[j].Is(TIME_WAIT) :: conns[j].timer < conns[k].timer)
  {
    if n > 0 {
      OldestTimeWaitMeaning(conns, n - 1);
    }
  }

  /** A slot may be taken: it is CLOSED, or nothing is CLOSED and it waits in TIME_WAIT for the longest. */
  ghost predicate MayTake(conns: seq<Conn>, k: nat)
    requires k < |conns|
  {
    || conns[k].Is(CLOSED)
    || (&& conns[k].Is(TIME_WAIT)
        && forall j | 0 <= j < |conns| :: !conns[j].Is(CLOSED)
                                          && (conns[j].Is(TIME_WAIT) ==> conns[j].timer <= conns[k].timer))
  }

  /** The slot found may be taken, and none is found only when no slot is CLOSED or in TIME_WAIT. */
  lemma FreeSlotMeaning(conns: seq<Conn>)
    ensures match FreeSlot(conns)
            case Some(k) => MayTake(conns, k)
            case None => forall j | 0 <= j < |conns| :: !conns[j].Is(CLOSED) && !conns[j].Is(TIME_WAIT)
  {
    FirstClosedMeaning(conns, 0);
    OldestTimeWaitMeaning(conns, |conns|);
  }

  // ----- the port search

  /** The k-th port tried after `lastport`. */
  function Tried(lastport: u16, k: nat): u16 {
    if k == 0 then lastport else NextPort(Tried(lastport, k - 1))
  }

  /** The values lastport takes: 1024 initially, then never 32000 or above. */
  predicate PortRange(port: u16) { 1024 <= port < 32000 }

  lemma {:induction false} TriedClosedForm(lastport: u16, k: nat)
    requires PortRange(lastport) && k <= 27904
    ensures Tried(lastport, k) == if lastport + k < 32000 then lastport + k else lastport + k - 27904
  {
    if k > 0 {
      TriedClosedForm(lastport, k - 1);
    }
  }

  /** The ports of `k` consecutive tries. */
  ghost function TriedSet(bigEndian: bool, lastport: u16, k: nat): set<u16> {
    if k == 0 then {} else TriedSet(bigEndian, lastport, k - 1) + {Htons(bigEndian, Tried(lastport, k))}
  }

  lemma {:induction false} TriedSetMembers(bigEndian: bool, lastport: u16, k: nat, p: u16)
    requires p in TriedSet(bigEndian, lastport, k)
    ensures exists j :: 1 <= j <= k && p == Htons(bigEndian, Tried(lastport, j))
  {
    if p != Htons(bigEndian, Tried(lastport, k)) {
      TriedSetMembers(bigEndian, lastport, k - 1, p);
    }
  }

  /** Consecutive tries never repeat a port. */
  lemma {:induction false} TriedSetSize(bigEndian: bool, lastport: u16, k: nat)
    requires PortRange(lastport) && k <= 27904
    ensures |TriedSet(bigEndian, lastport, k)| == k
  {
    hide Htons;
    if k > 0 {
      TriedSetSize(bigEndian, lastport, k - 1);
      var p := Htons(bigEndian, Tried(lastport, k));
      if p in TriedSet(bigEndian, lastport, k - 1) {
        TriedSetMembers(bigEndian, lastport, k - 1, p);
        var j :| 1 <= j <= k - 1 && p == Htons(bigEndian, Tried(lastport, j));
        HtonsTwice(bigEndian, Tried(lastport, j));
        HtonsTwice(bigEndian, Tried(lastport, k));
        TriedClosedForm(lastport, j);
        TriedClosedForm(lastport, k);
        assert false;
      }
    }
  }

  ghost function LivePorts(conns: seq<Conn>): set<u16> {
    if conns == [] then {} else LivePorts(conns[1..]) + if conns[0].Is(CLOSED) then {} else {conns[0].lport}
  }

  lemma {:induction false} LivePortsMeaning(conns: seq<Conn>)
    ensures |LivePorts(conns)| <= |conns|
    ensures forall i | 0 <= i < |conns| && !conns[i].Is(CLOSED) :: conns[i].lport in LivePorts(conns)
  {
    if conns != [] {
      LivePortsMeaning(conns[1..]);
      assert forall i | 1 <= i < |conns| :: conns[i] == conns[1..][i - 1];
    }
  }

  lemma SubsetSize<T>(a: set<T>, b: set<T>)
    requires a <= b
    ensures |a| <= |b|
  {
    assert b == a + (b - a);
  }

  /** By pigeonhole one of |conns| + 1 consecutive ports is free. */
  lemma SomePortIsFree(bigEndian: bool, conns: seq<Conn>, lastport: u16)
    requires PortRange(lastport) && |conns| < 27904
    ensures exists k :: 1 <= k <= |conns| + 1 && !PortInUse(bigEndian, conns, Tried(lastport, k))
  {
    if forall k | 1 <= k <= |conns| + 1 :: PortInUse(bigEndian, conns, Tried(lastport, k)) {
      LivePortsMeaning(conns);
      var tried := TriedSet(bigEndian, lastport, |conns| + 1);
      forall p | p in tried
        ensures p in LivePorts(conns)
      {
        TriedSetMembers(bigEndian, lastport, |conns| + 1, p);
      }
      TriedSetSize(bigEndian, lastport, |conns| + 1);
      SubsetSize(tried, LivePorts(conns));
      assert false;
    }
  }

  lemma {:induction false} TriedShift(lastport: u16, k: nat)
    requires k > 0
    ensures Tried(lastport, k) == Tried(NextPort(lastport), k - 1)
  {
    if k > 1 {
      TriedShift(lastport, k - 1);
    }
  }

  /** The search stops at the first free port, provided one is among the allowed tries. */
  lemma {:induction false} SearchStops(bigEndian: bool, conns: seq<Conn>, lastport: u16, tries: nat, k: nat)
    requires 1 <= k <= tries + 1 && !PortInUse(bigEndian, conns, Tried(lastport, k))
    ensures !PortInUse(bigEndian, conns, SearchPort(bigEndian, conns, lastport, tries))
    decreases tries
  {
    hide PortInUse, NextPort;
    TriedShift(lastport, k);
    assert Tried(NextPort(lastport), 0) == NextPort(lastport);
    if PortInUse(bigEndian, conns, NextPort(lastport)) {
      SearchStops(bigEndian, conns, NextPort(lastport), tries - 1, k - 1);
    }
  }

  lemma {:induction false} SearchKeepsRange(bigEndian: bool, conns: seq<Conn>, lastport: u16, tries: nat)
    requires PortRange(lastport)
    ensures PortRange(SearchPort(bigEndian, conns, lastport, tries))
    decreases tries
  {
    hide PortInUse;
    if tries > 0 {
      SearchKeepsRange(bigEndian, conns, NextPort(lastport), tries - 1);
    }
  }

  /** The port uip_connect settles on, after at most |conns| + 1 tries, is held by no live slot. */
  lemma SearchFindsFreePort(bigEndian: bool, conns: seq<Conn>, lastport: u16)
    requires PortRange(lastport) && |conns| < 27904
    ensures !PortInUse(bigEndian, conns, SearchPort(bigEndian, conns, lastport, |conns|))
    ensures PortRange(SearchPort(bigEndian, conns, lastport, |conns|))
  {
    SomePortIsFree(bigEndian, conns, lastport);
    var k :| 1 <= k <= |conns| + 1 && !PortInUse(bigEndian, conns, Tried(lastport, k));
    SearchStops(bigEndian, conns, lastport, |conns|, k);
    SearchKeepsRange(bigEndian, conns, lastport, |conns|);
  }

  // ----- the table over runs

  ghost predicate UipInv(u: Uip) {
    |u.conns| == UIP_CONNS && TableInv(u) && Distinct(u.conns) && PortRange(u.lastport)
  }

  lemma ReplaceKeepsDistinct(conns: seq<Conn>, k: nat, c: Conn)
    requires k < |conns| && Distinct(conns)
    requires c.Is(CLOSED) || forall j | 0 <= j < |conns| && j != k && !conns[j].Is(CLOSED) :: !SamePeer(c, conns[j])
    ensures Distinct(conns[k := c])
  {
  }

  /** An event on a slot leaves its peer alone and never revives a CLOSED slot, so the table stays distinct. */
  lemma KeptKeepsDistinct(conns: seq<Conn>, k: nat, r: Result)
    requires k < |conns| && Distinct(conns) && Keeps(conns[k], r)
    ensures Distinct(conns[k := r.c])
  {
  }

  /** What one event may do to slot `i`: follow the diagram with the same peer, or be taken for a new connection. */
  ghost predicate SlotStep(u: Uip, u': Uip, i: nat)
    requires i < |u.conns| && i < |u'.conns|
  {
    || (SamePeer(u.conns[i], u'.conns[i]) && SegmentEdge(u.conns[i].state, u'.conns[i].state))
    || (MayTake(u.conns, i) && (u'.conns[i].state == SYN_SENT || u'.conns[i].state == SYN_RCVD))
  }

  /** At most slot `k` changed, and that by an event on it or by being taken. */
  lemma SlotSteps(u: Uip, u': Uip, k: nat)
    requires |u'.conns| == |u.conns| && forall i | 0 <= i < |u.conns| && i != k :: u'.conns[i] == u.conns[i]
    requires k < |u.conns| ==> SlotStep(u, u', k)
    ensures forall i | 0 <= i < |u.conns| :: SlotStep(u, u', i)
  {
  }

  lemma KeptStep(u: Uip, u': Uip, k: nat, r: Result)
    requires k < |u.conns| && Keeps(u.conns[k], r) && |u'.conns| == |u.conns| && u'.conns[k] == r.c
    ensures SlotStep(u, u', k)
  {
  }

  lemma TakenStep(u: Uip, u': Uip, k: nat)
    requires k < |u.conns| && MayTake(u.conns, k) && |u'.conns| == |u.conns|
    requires u'.conns[k].state == SYN_SENT || u'.conns[k].state == SYN_RCVD
    ensures SlotStep(u, u', k)
  {
  }

  /**
    The whole table after any event: invariant kept, every slot on a path of the diagram, openings only where allowed.
   */
  lemma StepKeeps(host: u32, bigEndian: bool, u: Uip, e: Event)
    requires UipInv(u)
    ensures UipInv(Step(host, bigEndian, u, e))
    ensures forall i | 0 <= i < |u.conns| :: SlotStep(u, Step(host, bigEndian, u, e), i)
  {
    hide ConnInv, Found, Timer, Poll, SearchPort, Keeps, Distinct, MayTake, SlotStep, PortInUse, FreeSlot, TableInv;
    StepKeepsTable(host, bigEndian, u, e);
    var u' := Step(host, bigEndian, u, e);
    match e
    case InputEvent(seg, reply) => InputKeeps(host, u, seg, reply);
    case TimerEvent(i, reply) =>
      if i < |u.conns| {
        SlotInv(u, i);
        TimerKeeps(host, u.conns[i], reply);
        KeptKeepsDistinct(u.conns, i, Timer(host, u.conns[i], reply));
        KeptStep(u, u', i, Timer(host, u.conns[i], reply));
      }
      SlotSteps(u, u', i);
    case PollEvent(i, reply) =>
      if i < |u.conns| {
        SlotInv(u, i);
        PollKeeps(host, u.conns[i], u.slen, reply);
        KeptKeepsDistinct(u.conns, i, Poll(host, u.conns[i], u.slen, reply));
        KeptStep(u, u', i, Poll(host, u.conns[i], u.slen, reply));
      }
      SlotSteps(u, u', i);
    case ConnectEvent(ripaddr, rport) => ConnectKeeps(bigEndian, u, ripaddr, rport);
    case _ => SlotSteps(u, u', |u.conns|);
  }

  lemma SlotInv(u: Uip, i: nat)
    requires TableInv(u) && i < |u.conns|
    ensures ConnInv(u.conns[i])
  {
  }

  lemma InputKeeps(host: u32, u: Uip, seg: Segment, reply: Reply)
    requires UipInv(u)
    ensures var u' := Input(host, u, seg, reply).u;
            |u'.conns| == |u.conns| && Distinct(u'.conns) && u'.lastport == u.lastport
            && forall i | 0 <= i < |u.conns| :: SlotStep(u, u', i)
  {
    hide ConnInv, Found, Keeps, MayTake, SlotStep, FreeSlot, TableInv;
    var u' := Input(host, u, seg, reply).u;
    var k := Demux(u.conns, seg, 0);
    DemuxMatches(u.conns, seg, 0);
    FreeSlotMeaning(u.conns);
    if k < |u.conns| {
      SlotInv(u, k);
      FoundKeeps(host, u.conns[k], u.slen, seg, reply);
      KeptKeepsDistinct(u.conns, k, Found(host, u.conns[k], u.slen, seg, reply));
      KeptStep(u, u', k, Found(host, u.conns[k], u.slen, seg, reply));
      SlotSteps(u, u', k);
    } else if seg.flags == SYN && seg.destport in u.listenports && FreeSlot(u.conns).Some? {
      var i := FreeSlot(u.conns).value;
      var c := Accept(u.conns[i], u.iss, seg);
      assert forall j | 0 <= j < |u.conns| && !u.conns[j].Is(CLOSED) :: !Matches(u.conns[j], seg);
      ReplaceKeepsDistinct(u.conns, i, c);
      TakenStep(u, u', i);
      SlotSteps(u, u', i);
    } else {
      SlotSteps(u, u', |u.conns|);
    }
  }

  lemma ConnectKeeps(bigEndian: bool, u: Uip, ripaddr: u32, rport: u16)
    requires UipInv(u)
    ensures var u' := Connect(bigEndian, u, ripaddr, rport);
            |u'.conns| == |u.conns| && Distinct(u'.conns) && PortRange(u'.lastport)
            && forall i | 0 <= i < |u.conns| :: SlotStep(u, u', i)
  {
    hide SearchPort, Distinct, MayTake, SlotStep, FreeSlot, TableInv, Htons;
    var u' := Connect(bigEndian, u, ripaddr, rport);
    SearchFindsFreePort(bigEndian, u.conns, u.lastport);
    FreeSlotMeaning(u.conns);
    if FreeSlot(u.conns).Some? {
      var i := FreeSlot(u.conns).value;
      var c := u'.conns[i];
      ReplaceKeepsDistinct(u.conns, i, c);
      TakenStep(u, u', i);
      SlotSteps(u, u', i);
    } else {
      SlotSteps(u, u', |u.conns|);
    }
  }

  /** Every reachable table has pairwise distinct connections, disciplined slots and a port counter in range. */
  lemma {:induction false} RunKeeps(host: u32, bigEndian: bool, u: Uip, events: seq<Event>)
    requires UipInv(u)
    ensures UipInv(Run(host, bigEndian, u, events))
    decreases |events|
  {
    hide UipInv, Step;
    if events != [] {
      StepKeeps(host, bigEndian, u, events[0]);
      RunKeeps(host, bigEndian, Step(host, bigEndian, u, events[0]), events[1..]);
    }
  }

  lemma Reachable(host: u32, bigEndian: bool, u: Uip, events: seq<Event>)
    requires Initial(u)
    ensures UipInv(Run(host, bigEndian, u, events))
  {
    hide Run;
    RunKeeps(host, bigEndian, u, events);
  }

  // ----- listening, and the initial sequence number

  lemma {:induction false} IndexOfMeaning(ports: seq<u16>, port: u16)
    ensures var k := IndexOf(ports, port);
            (k < |ports| <==> port in ports) && (k < |ports| ==> ports[k] == port)
  {
    if ports != [] && ports[0] != port {
      IndexOfMeaning(ports[1..], port);
    }
  }

  lemma ReplacedOne(ports: seq<u16>, k: nat, port: u16)
    requires k < |ports|
    ensures multiset(ports[k := port]) == multiset(ports) - multiset{ports[k]} + multiset{port}
  {
    assert ports == ports[..k] + [ports[k]] + ports[k + 1..];
    assert ports[k := port] == ports[..k] + [port] + ports[k + 1..];
  }

  /**
    uip_listen adds one listener and uip_unlisten takes one away, however often a port was named; 0 marks the free
    entries.
   */
  lemma ListenersCount(u: Uip, port: u16)
    ensures var ports := multiset(u.listenports);
            && multiset(Listen(u, port).listenports)
               == (if 0 in u.listenports then ports - multiset{0} + multiset{port} else ports)
            && multiset(Unlisten(u, port).listenports)
               == (if port in u.listenports then ports - multiset{port} + multiset{0} else ports)
  {
    IndexOfMeaning(u.listenports, 0);
    IndexOfMeaning(u.listenports, port);
    var i, j := IndexOf(u.listenports, 0), IndexOf(u.listenports, port);
    if i < |u.listenports| {
      ReplacedOne(u.listenports, i, port);
    }
    if j < |u.listenports| {
      ReplacedOne(u.listenports, j, 0);
    }
  }

  /** The timer calls of a run. */
  function TimerCalls(u: Uip, events: seq<Event>): nat {
    if events == [] then 0
    else (if events[0].TimerEvent? && events[0].i < |u.conns| then 1 else 0) + TimerCalls(u, events[1..])
  }

  /** The initial sequence number counts the timer calls, of whatever slot, over every run. */
  lemma {:induction false} IssCounts(host: u32, bigEndian: bool, u: Uip, events: seq<Event>)
    ensures |Run(host, bigEndian, u, events).conns| == |u.conns|
    ensures Val(Run(host, bigEndian, u, events).iss) == (Val(u.iss) + TimerCalls(u, events)) % MODULUS
    decreases |events|
  {
    hide Step, Val;
    if events == [] {
      ValBelow(u.iss);
    } else {
      var u' := Step(host, bigEndian, u, events[0]);
      IssStep(host, bigEndian, u, events[0]);
      SameTable(u, u', events[1..]);
      IssCounts(host, bigEndian, u', events[1..]);
      ModAdd(Val(u.iss) + (if events[0].TimerEvent? && events[0].i < |u.conns| then 1 else 0),
             TimerCalls(u, events[1..]));
    }
  }

  lemma ValBelow(b: Bytes4)
    ensures Val(b) % MODULUS == Val(b)
  {
  }

  lemma IssStep(host: u32, bigEndian: bool, u: Uip, e: Event)
    ensures var u' := Step(host, bigEndian, u, e);
            |u'.conns| == |u.conns|
            && Val(u'.iss) == (Val(u.iss) + if e.TimerEvent? && e.i < |u.conns| then 1 else 0) % MODULUS
  {
    hide Found, Timer, Poll, Accept, Opened, SearchPort, Val, ToBytes, Emit, Reset;
    ToBytesInverse((Val(u.iss) + 1) % MODULUS);
    ValBelow(u.iss);
  }

  lemma {:induction false} SameTable(u: Uip, u': Uip, events: seq<Event>)
    requires |u'.conns| == |u.conns|
    ensures TimerCalls(u', events) == TimerCalls(u, events)
    decreases |events|
  {
    if events != [] {
      SameTable(u, u', events[1..]);
    }
  }
}
