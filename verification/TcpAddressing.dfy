/**
 Who is spoken to. Every segment a connection sends goes from its own port to the port and the host it was opened for,
 and there it reaches exactly the slot at the other end.
 */
module TcpAddressing {
  import opened Words
  import opened SeqNum
  import opened Tcp
  import opened TcpInvariants
  import opened TcpTable
  import opened TcpEndToEnd
  import opened TcpHandshake
  import opened TcpNetwork

  /** The four names of a connection, as segments from `host` carry them. */
  predicate Between(seg: Segment, host: u32, port: u16, peer: u32, peerPort: u16) {
    seg.srcip == host && seg.srcport == port && seg.destip == peer && seg.destport == peerPort
  }

  /** From the connection's end to the other, with the window closed exactly while the application has stopped. */
  predicate FromConn(host: u32, c: Conn, seg: Segment) {
    && Between(seg, host, c.lport, c.ripaddr, c.rport)
    && (!seg.flags.rst ==> seg.wnd == if c.stopped then 0 else UIP_RECEIVE_WINDOW)
  }

  lemma AppSendAddresses(host: u32, c: Conn, told: Told, slen: u16, reply: Reply)
    ensures var r := AppSend(host, c, told, slen, reply);
            SamePeer(c, r.c) && (r.out.Some? ==> FromConn(host, r.c, r.out.value))
  {
  }

  lemma TimerAddresses(host: u32, c: Conn, reply: Reply)
    ensures var r := Timer(host, c, reply); SamePeer(c, r.c) && (r.out.Some? ==> FromConn(host, r.c, r.out.value))
  {
    hide AppSend, Backoff;
    AppSendAddresses(host, c, Told(NO_EVENT.(poll := true), []), 0, reply);
  }

  lemma PollAddresses(host: u32, c: Conn, slen: u16, reply: Reply)
    ensures var r := Poll(host, c, slen, reply); SamePeer(c, r.c) && (r.out.Some? ==> FromConn(host, r.c, r.out.value))
  {
    hide AppSend;
    AppSendAddresses(host, c, Told(NO_EVENT.(poll := true), []), slen, reply);
  }

  lemma FoundAddresses(host: u32, c: Conn, slen: u16, seg: Segment, reply: Reply)
    requires Matches(c, seg)
    ensures var r := Found(host, c, slen, seg, reply);
            SamePeer(c, r.c) && (r.out.Some? ==> FromConn(host, r.c, r.out.value))
  {
    hide AppSend, Plus, Acked, RttUpdate;
    AckedKeeps(c);
    forall c': Conn, told, slen'
      ensures var r := AppSend(host, c', told, slen', reply);
              SamePeer(c', r.c) && (r.out.Some? ==> FromConn(host, r.c, r.out.value))
    {
      AppSendAddresses(host, c', told, slen', reply);
    }
  }

  // ----- one host: a connection that was opened

  /** The event goes to slot `k`. */
  predicate Concerns(u: Uip, e: Event, k: nat) {
    match e
    case InputEvent(seg, _) => Demux(u.conns, seg, 0) == k
    case TimerEvent(i, _) => i == k
    case PollEvent(i, _) => i == k
    case _ => false
  }

  /** The event opens another connection in slot `k`. */
  predicate Retakes(u: Uip, e: Event, k: nat) {
    (e.InputEvent? && Answers(u, e.seg, k)) || (e.ConnectEvent? && FreeSlot(u.conns) == Some(k))
  }

  /** The connection in slot `k` lasts through the run: it neither closes nor gives its slot to another. */
  predicate Lasts(host: u32, bigEndian: bool, u: Uip, k: nat, events: seq<Event>)
    decreases |events|
  {
    events == []
    || (var u' := Step(host, bigEndian, u, events[0]);
        && !Retakes(u, events[0], k) && k < |u'.conns| && u'.conns[k].state != CLOSED
        && Lasts(host, bigEndian, u', k, events[1..]))
  }

  /** Slot `k` holds a connection from `port` to `peerPort` of `peer`. */
  predicate Holds(u: Uip, k: nat, port: u16, peer: u32, peerPort: u16) {
    && k < |u.conns| && u.conns[k].state != CLOSED
    && u.conns[k].lport == port && u.conns[k].ripaddr == peer && u.conns[k].rport == peerPort
  }

  /** An event that leaves the connection in place leaves its names alone, and what it sends for it carries them. */
  lemma StepHolds(host: u32, bigEndian: bool, u: Uip, k: nat, e: Event, port: u16, peer: u32, peerPort: u16)
    requires Holds(u, k, port, peer, peerPort) && !Retakes(u, e, k)
    ensures var u', done := Step(host, bigEndian, u, e), Effects(host, bigEndian, u, e);
            && k < |u'.conns| && (u'.conns[k].state != CLOSED ==> Holds(u', k, port, peer, peerPort))
            && (Concerns(u, e, k) && done.out.Some? ==>
                  Between(done.out.value, host, port, peer, peerPort) && FromConn(host, u'.conns[k], done.out.value))
  {
    hide Found, Timer, Poll, Accept, FreeSlot, SearchPort, Emit, Reset;
    match e
    case InputEvent(seg, reply) =>
      DemuxMatches(u.conns, seg, 0);
      if Demux(u.conns, seg, 0) == k {
        FoundAddresses(host, u.conns[k], u.slen, seg, reply);
      }
    case TimerEvent(i, reply) => TimerAddresses(host, u.conns[k], reply);
    case PollEvent(i, reply) => PollAddresses(host, u.conns[k], u.slen, reply);
    case _ =>
  }

  lemma {:induction false} RunHolds(host: u32, bigEndian: bool, u: Uip, k: nat, events: seq<Event>, port: u16,
          peer: u32,
          peerPort: u16)
    requires Holds(u, k, port, peer, peerPort) && Lasts(host, bigEndian, u, k, events)
    ensures Holds(Run(host, bigEndian, u, events), k, port, peer, peerPort)
    decreases |events|
  {
    hide Holds, Step, Retakes;
    if events != [] {
      StepHolds(host, bigEndian, u, k, events[0], port, peer, peerPort);
      LastsOneStep(host, bigEndian, u, k, events);
      RunHolds(host, bigEndian, Step(host, bigEndian, u, events[0]), k, events[1..], port, peer, peerPort);
    }
  }

  lemma LastsOneStep(host: u32, bigEndian: bool, u: Uip, k: nat, events: seq<Event>)
    requires events != [] && Lasts(host, bigEndian, u, k, events)
    ensures var u' := Step(host, bigEndian, u, events[0]);
            !Retakes(u, events[0], k) && k < |u'.conns| && u'.conns[k].state != CLOSED
  {
  }

  /** The slot a connection is opened in, to the host and port asked for, from the port the search settled on. */
  lemma ConnectHolds(bigEndian: bool, u: Uip, ripaddr: u32, rport: u16, k: nat)
    requires FreeSlot(u.conns) == Some(k)
    ensures var u' := Connect(bigEndian, u, ripaddr, rport);
            Holds(u', k, Htons(bigEndian, u'.lastport), ripaddr, rport)
  {
    hide SearchPort, FreeSlot, Htons;
  }

  /**
    uip_connect speaks to whom it was told to: over every run that the connection lasts through, whatever is sent for it
    goes to that port of that host, and comes from the local port found.
   */
  lemma ConnectionSpeaksToPeer(host: u32, bigEndian: bool, u: Uip, ripaddr: u32, rport: u16, k: nat, events: seq<Event>,
          e: Event)
    requires FreeSlot(u.conns) == Some(k) && Lasts(host, bigEndian, Connect(bigEndian, u, ripaddr, rport), k, events)
    requires Concerns(Run(host, bigEndian, Connect(bigEndian, u, ripaddr, rport), events), e, k)
    ensures var u' := Connect(bigEndian, u, ripaddr, rport);
            var out := Effects(host, bigEndian, Run(host, bigEndian, u', events), e).out;
            out.Some? ==> Between(out.value, host, Htons(bigEndian, u'.lastport), ripaddr, rport)
  {
    hide Connect, FreeSlot, Run, Lasts, Retakes, Concerns, Effects, Htons;
    var u' := Connect(bigEndian, u, ripaddr, rport);
    ConnectHolds(bigEndian, u, ripaddr, rport, k);
    RunHolds(host, bigEndian, u', k, events, Htons(bigEndian, u'.lastport), ripaddr, rport);
    OneOrTheOther(Run(host, bigEndian, u', events), e, k);
    StepHolds(host, bigEndian, Run(host, bigEndian, u', events), k, e, Htons(bigEndian, u'.lastport), ripaddr, rport);
  }

  lemma OneOrTheOther(u: Uip, e: Event, k: nat)
    requires k < |u.conns| && Concerns(u, e, k)
    ensures !Retakes(u, e, k)
  {
  }

  // ----- two hosts: what one end sends reaches the slot at the other

  /** Every segment on its way, resets apart, is between these two. */
  ghost predicate AllBetween(channel: set<Packet>, host: u32, port: u16, peer: u32, peerPort: u16) {
    forall p | p in channel && !p.seg.flags.rst :: Between(p.seg, host, port, peer, peerPort)
  }

  predicate Named(x: Side, port: u16, peer: u32, peerPort: u16) {
    !x.origin.Unborn? ==> x.c.lport == port && x.c.ripaddr == peer && x.c.rport == peerPort
  }

  /** One end and its segments: `port` is its own, at `host`. */
  ghost predicate Placed(x: Side, mine: set<Packet>, host: u32, port: u16, peer: u32, peerPort: u16) {
    Named(x, port, peer, peerPort) && AllBetween(mine, host, port, peer, peerPort)
  }

  lemma BetweenMatches(c: Conn, seg: Segment, host: u32, port: u16, peer: u32, peerPort: u16)
    requires Between(seg, peer, peerPort, host, port) && c.state != CLOSED
    requires c.lport == port && c.ripaddr == peer && c.rport == peerPort
    ensures Matches(c, seg)
  {
  }

  lemma ResetCloses(host: u32, c: Conn, slen: u16, seg: Segment, reply: Reply)
    requires seg.flags.rst
    ensures var r := Found(host, c, slen, seg, reply); SamePeer(c, r.c) && r.out.None?
  {
  }

  lemma ClosedIsSilent(host: u32, c: Conn, reply: Reply)
    requires c.Is(CLOSED)
    ensures Timer(host, c, reply).out.None?
  {
  }

  /** An event at one end keeps its names, and what it sends carries them. */
  lemma ActPlaced(host: u32, base: u32, x: Side, mine: set<Packet>, theirs: set<Packet>, e: NetEvent, port: u16,
          peer: u32,
          peerPort: u16)
    requires Placed(x, mine, host, port, peer, peerPort) && AllBetween(theirs, peer, peerPort, host, port)
    requires Allowed(host, base, x, theirs, e) && ConnInv(x.c) && (x.origin.Unborn? ==> !Live(x))
    ensures Placed(Act(host, x, e), mine + Emitted(host, x, e), host, port, peer, peerPort)
  {
    hide Found, Timer, Disciplined, Consulted, Advance, Total, Matches;
    match e
    case Deliver(p, slen, reply) =>
      if Live(x) {
        if p.seg.flags.rst {
          ResetCloses(host, x.c, slen, p.seg, reply);
        } else {
          BetweenMatches(x.c, p.seg, host, port, peer, peerPort);
          FoundAddresses(host, x.c, slen, p.seg, reply);
        }
      }
    case Tick(reply) =>
      TimerAddresses(host, x.c, reply);
      if !Live(x) {
        ClosedIsSilent(host, x.c, reply);
      }
    case PollRequest(slen, reply) => PollAddresses(host, x.c, slen, reply);
    case _ =>
  }

  /** The names of the connection: host A's port and host B's, and their addresses in `l.g`. */
  ghost predicate NetPlaced(l: Layout, n: Net, portA: u16, portB: u16) {
    && UipInv(n.ua) && UipInv(n.ub)
    && Placed(n.s.a, n.s.ab, l.g.hostA, portA, l.g.hostB, portB)
    && Placed(n.s.b, n.s.ba, l.g.hostB, portB, l.g.hostA, portA)
  }

  lemma NetStepPlaced(l: Layout, n: Net, h: HostEvent, portA: u16, portB: u16)
    requires NetInv(l, n) && MayHappen(l, n, h) && NetPlaced(l, n, portA, portB)
    ensures NetPlaced(l, NetStep(l, n, h), portA, portB)
  {
    hide Agreement, Carries, Projected, Allowed, Act, Emitted, Step, UipInv, Placed, Names;
    var ev := Seen(l, n, h);
    BothConns(l.g, n.s);
    PlacedChannels(l, n, portA, portB);
    if h.who == A {
      StepKeeps(l.g.hostA, l.bigEndianA, n.ua, h.e);
      if ev.Some? {
        ActPlaced(l.g.hostA, l.g.baseA, n.s.a, n.s.ab, n.s.ba, ev.value, portA, l.g.hostB, portB);
      }
    } else {
      StepKeeps(l.g.hostB, l.bigEndianB, n.ub, h.e);
      if ev.Some? {
        ActPlaced(l.g.hostB, l.g.baseB, n.s.b, n.s.ba, n.s.ab, ev.value, portB, l.g.hostA, portA);
      }
    }
  }

  lemma BothConns(g: Setting, s: System)
    requires Agreement(g, s)
    ensures ConnInv(s.a.c) && (s.a.origin.Unborn? ==> !Live(s.a))
    ensures ConnInv(s.b.c) && (s.b.origin.Unborn? ==> !Live(s.b))
  {
    hide At, ReceiverOk, PacketOk;
  }

  lemma PlacedChannels(l: Layout, n: Net, portA: u16, portB: u16)
    requires NetPlaced(l, n, portA, portB)
    ensures AllBetween(n.s.ab, l.g.hostA, portA, l.g.hostB, portB)
            && AllBetween(n.s.ba, l.g.hostB, portB, l.g.hostA, portA)
  {
    hide UipInv;
  }

  lemma {:induction false} NetRunPlaced(l: Layout, n: Net, run: seq<HostEvent>, portA: u16, portB: u16)
    requires NetInv(l, n) && NetPlaced(l, n, portA, portB) && NetRunMayHappen(l, n, run)
    ensures NetInv(l, NetAfter(l, n, run)) && NetPlaced(l, NetAfter(l, n, run), portA, portB)
    decreases |run|
  {
    hide NetInv, NetPlaced, MayHappen, NetStep;
    if run != [] {
      NetStepKeeps(l, n, run[0]);
      NetStepPlaced(l, n, run[0], portA, portB);
      NetRunPlaced(l, NetStep(l, n, run[0]), run[1..], portA, portB);
    }
  }

  /** A segment between the two reaches the slot that holds the connection, and no other. */
  lemma Reaches(u: Uip, k: nat, x: Side, seg: Segment, host: u32, port: u16, peer: u32, peerPort: u16)
    requires UipInv(u) && Carries(u, k, x) && Live(x) && !x.origin.Unborn? && Named(x, port, peer, peerPort)
    requires Between(seg, peer, peerPort, host, port)
    ensures Demux(u.conns, seg, 0) == k && forall j | 0 <= j < |u.conns| && Matches(u.conns[j], seg) :: j == k
  {
    hide TableInv, ConnInv, Matches, Distinct;
    BetweenMatches(u.conns[k], seg, host, port, peer, peerPort);
    forall j | 0 <= j < |u.conns| && Matches(u.conns[j], seg)
      ensures j == k && Demux(u.conns, seg, 0) == k
    {
      DemuxIsUnique(u.conns, seg, j, k);
    }
  }

  /**
    Delivery. Over every run of two hosts since uip_connect named host B and a port there: whatever either end sends is
    between the two ports found then and asked for, and while the other end lives it reaches exactly that end's slot.
   */
  lemma ReachesTheOtherEnd(l: Layout, ua: Uip, ub: Uip, rport: u16, run: seq<HostEvent>)
    requires UipInv(ua) && UipInv(ub) && FreeSlot(ua.conns) == Some(l.i) && l.j < |ub.conns| && l.g.baseA == Val(ua.iss)
    requires NetRunMayHappen(l, Opening(l, ua, ub, l.g.hostB, rport), run)
    ensures var port := Htons(l.bigEndianA, Connect(l.bigEndianA, ua, l.g.hostB, rport).lastport);
            var n := NetAfter(l, Opening(l, ua, ub, l.g.hostB, rport), run);
            && (forall p | p in n.s.ab && !p.seg.flags.rst ::
                  Between(p.seg, l.g.hostA, port, l.g.hostB, rport)
                  && (Live(n.s.b) ==> Demux(n.ub.conns, p.seg, 0) == l.j))
            && (forall p | p in n.s.ba && !p.seg.flags.rst ::
                  Between(p.seg, l.g.hostB, rport, l.g.hostA, port)
                  && (Live(n.s.a) ==> Demux(n.ua.conns, p.seg, 0) == l.i))
  {
    hide NetRunMayHappen, NetAfter, Opening, UipInv, Connect, FreeSlot, Htons;
    var port := Htons(l.bigEndianA, Connect(l.bigEndianA, ua, l.g.hostB, rport).lastport);
    var n := NetAfter(l, Opening(l, ua, ub, l.g.hostB, rport), run);
    OpeningPlaced(l, ua, ub, rport);
    NetRunPlaced(l, Opening(l, ua, ub, l.g.hostB, rport), run, port, rport);
    EndsReach(l, n, port, rport);
  }

  lemma EndsReach(l: Layout, n: Net, portA: u16, portB: u16)
    requires NetInv(l, n) && NetPlaced(l, n, portA, portB)
    ensures forall p | p in n.s.ab && !p.seg.flags.rst ::
              Between(p.seg, l.g.hostA, portA, l.g.hostB, portB) && (Live(n.s.b) ==> Demux(n.ub.conns, p.seg, 0) == l.j)
    ensures forall p | p in n.s.ba && !p.seg.flags.rst ::
              Between(p.seg, l.g.hostB, portB, l.g.hostA, portA) && (Live(n.s.a) ==> Demux(n.ua.conns, p.seg, 0) == l.i)
  {
    hide Agreement, Carries, UipInv, Between, Demux, Live;
    BothConns(l.g, n.s);
    forall p | p in n.s.ab && !p.seg.flags.rst && Live(n.s.b)
      ensures Demux(n.ub.conns, p.seg, 0) == l.j
    {
      Reaches(n.ub, l.j, n.s.b, p.seg, l.g.hostB, portB, l.g.hostA, portA);
    }
    forall p | p in n.s.ba && !p.seg.flags.rst && Live(n.s.a)
      ensures Demux(n.ua.conns, p.seg, 0) == l.i
    {
      Reaches(n.ua, l.i, n.s.a, p.seg, l.g.hostA, portA, l.g.hostB, portB);
    }
  }

  lemma OpeningPlaced(l: Layout, ua: Uip, ub: Uip, rport: u16)
    requires UipInv(ua) && UipInv(ub) && FreeSlot(ua.conns) == Some(l.i) && l.j < |ub.conns| && l.g.baseA == Val(ua.iss)
    ensures var n := Opening(l, ua, ub, l.g.hostB, rport);
            NetInv(l, n) && NetPlaced(l, n, Htons(l.bigEndianA, n.ua.lastport), rport)
            && n.ua == Connect(l.bigEndianA, ua, l.g.hostB, rport)
  {
    hide FreeSlot, SearchPort, NetInv, Distinct, TableInv;
    OpeningHolds(l, ua, ub, l.g.hostB, rport);
    StepKeeps(l.g.hostA, l.bigEndianA, ua, ConnectEvent(l.g.hostB, rport));
  }

  // ----- two tables, event by event: a connection is opened, or refused

  /** uip_connect on a host and the two ticks after it. */
  function Dialled(host: u32, bigEndian: bool, u: Uip, ripaddr: u32, rport: u16, k: nat, reply: Reply): Stepped
    requires k < |u.conns|
  {
    Periodic(host, Periodic(host, Connect(bigEndian, u, ripaddr, rport), k, reply).u, k, reply)
  }

  /** The second tick sends a SYN to the port asked for, from the slot that waits for its answer. */
  lemma SynGoesOut(host: u32, bigEndian: bool, u: Uip, ripaddr: u32, rport: u16, k: nat, reply: Reply)
    requires UipInv(u) && FreeSlot(u.conns) == Some(k)
    ensures var d := Dialled(host, bigEndian, u, ripaddr, rport, k, reply);
            var port := Htons(bigEndian, Connect(bigEndian, u, ripaddr, rport).lastport);
            && UipInv(d.u) && Holds(d.u, k, port, ripaddr, rport)
            && d.u.conns[k].Is(SYN_SENT) && d.u.conns[k].len == 1 && d.u.conns[k].sndNxt == u.iss
            && d.out.Some? && d.out.value.flags == SYN && d.out.value.seqno == u.iss && d.out.value.payload == []
            && Between(d.out.value, host, port, ripaddr, rport)
  {
    hide SearchPort, FreeSlot, Htons, Plus, TableInv, Distinct, Emit;
    var u1 := Connect(bigEndian, u, ripaddr, rport);
    var u2 := Periodic(host, u1, k, reply).u;
    StepKeeps(host, bigEndian, u, ConnectEvent(ripaddr, rport));
    StepKeeps(host, bigEndian, u1, TimerEvent(k, reply));
    StepKeeps(host, bigEndian, u2, TimerEvent(k, reply));
    TimerAddresses(host, u2.conns[k], reply);
    EmitSyn(host, u2.conns[k].(timer := 3, nrtx := 1));
  }

  lemma EmitSyn(host: u32, c: Conn)
    ensures var s := Emit(host, c, SYN, []); s.flags == SYN && s.seqno == c.sndNxt && s.payload == []
  {
  }

  /** The host listens on the port, has room, and knows no connection the segment could belong to. */
  predicate Welcomes(u: Uip, seg: Segment, k: nat) {
    && seg.destport in u.listenports && FreeSlot(u.conns) == Some(k)
    && forall j | 0 <= j < |u.conns| :: u.conns[j].Is(CLOSED) || u.conns[j].lport != seg.destport
                                        || u.conns[j].rport != seg.srcport || u.conns[j].ripaddr != seg.srcip
  }

  /** Such a host answers a SYN with a SYN|ACK to where it came from. */
  lemma SynIsWelcome(host: u32, u: Uip, syn: Segment, k: nat, reply: Reply)
    requires UipInv(u) && Welcomes(u, syn, k) && syn.flags == SYN
    ensures Answers(u, syn, k)
    ensures var done := Input(host, u, syn, reply);
            && UipInv(done.u) && Holds(done.u, k, syn.destport, syn.srcip, syn.srcport)
            && done.u.conns[k].Is(SYN_RCVD) && done.u.conns[k].len == 1 && done.u.conns[k].sndNxt == u.iss
            && done.u.conns[k].rcvNxt == Plus(syn.seqno, 1)
            && done.out.Some? && done.out.value.flags == ACK.(syn := true) && done.out.value.payload == []
            && done.out.value.ackno == Plus(syn.seqno, 1) && done.out.value.seqno == u.iss
            && Between(done.out.value, host, syn.destport, syn.srcip, syn.srcport)
  {
    hide FreeSlot, Plus, TableInv, Distinct, Found, Reset;
    DemuxMatches(u.conns, syn, 0);
    StepKeeps(host, false, u, InputEvent(syn, reply));
  }

  /** The SYN|ACK opens the slot that waits for it, and is acknowledged; the application is told. */
  lemma SynAckOpensSlot(host: u32, u: Uip, k: nat, seg: Segment, port: u16, peer: u32, peerPort: u16, reply: Reply)
    requires UipInv(u) && Holds(u, k, port, peer, peerPort) && u.conns[k].Is(SYN_SENT) && u.conns[k].len == 1
    requires seg.flags == ACK.(syn := true) && seg.ackno == Plus(u.conns[k].sndNxt, 1) && seg.payload == []
    requires Between(seg, peer, peerPort, host, port) && Silent(reply)
    ensures var done := Input(host, u, seg, reply);
            && Holds(done.u, k, port, peer, peerPort) && done.u.conns[k].Is(ESTABLISHED)
            && done.told.Some? && done.told.value.flags.connected
            && done.out.Some? && done.out.value.flags == ACK && done.out.value.payload == []
            && done.out.value.ackno == Plus(seg.seqno, 1) && Between(done.out.value, host, port, peer, peerPort)
  {
    hide Plus, TableInv, Distinct, Acked, RttUpdate, WithMss, Demux;
    BetweenMatches(u.conns[k], seg, host, port, peer, peerPort);
    DemuxIsUnique(u.conns, seg, k, k);
    AckedKeeps(u.conns[k]);
    MssFields(Acked(u.conns[k]), seg.mss);
  }

  lemma MssFields(c: Conn, mss: Option<u16>)
    ensures WithMss(c, mss) == c.(mss := WithMss(c, mss).mss, initialmss := WithMss(c, mss).initialmss)
  {
  }

  /** The acknowledgment opens the other slot. */
  lemma AckOpensSlot(host: u32, u: Uip, k: nat, seg: Segment, port: u16, peer: u32, peerPort: u16, reply: Reply)
    requires UipInv(u) && Holds(u, k, port, peer, peerPort) && u.conns[k].Is(SYN_RCVD) && u.conns[k].len == 1
    requires seg.flags == ACK && seg.ackno == Plus(u.conns[k].sndNxt, 1) && seg.payload == []
    requires Between(seg, peer, peerPort, host, port) && Silent(reply)
    ensures var done := Input(host, u, seg, reply);
            && Holds(done.u, k, port, peer, peerPort) && done.u.conns[k].Is(ESTABLISHED)
            && done.told.Some? && done.told.value.flags.connected
  {
    hide Plus, TableInv, Distinct, Acked, RttUpdate, Demux;
    BetweenMatches(u.conns[k], seg, host, port, peer, peerPort);
    DemuxIsUnique(u.conns, seg, k, k);
    AckedKeeps(u.conns[k]);
  }

  /**
    Two hosts connect. When host B listens on the port host A asked for, has room, and no connection of that name, then
    two ticks after uip_connect each segment answers the one before and finds its slot, until both ends are open, with
    mirrored names, and both applications told.
   */
  lemma HostsConnect(hostA: u32, hostB: u32, bigEndian: bool, ua: Uip, ub: Uip, rport: u16, i: nat, j: nat,
          reply: Reply)
    requires UipInv(ua) && UipInv(ub) && FreeSlot(ua.conns) == Some(i) && Silent(reply)
    requires var d := Dialled(hostA, bigEndian, ua, hostB, rport, i, reply);
             d.out.Some? ==> Welcomes(ub, d.out.value, j)
    ensures var d := Dialled(hostA, bigEndian, ua, hostB, rport, i, reply);
            var port := Htons(bigEndian, Connect(bigEndian, ua, hostB, rport).lastport);
            && d.out.Some?
            && var b := Input(hostB, ub, d.out.value, reply);
               && b.out.Some?
               && var a := Input(hostA, d.u, b.out.value, reply);
                  && a.out.Some? && Holds(a.u, i, port, hostB, rport) && a.u.conns[i].Is(ESTABLISHED)
                  && a.told.Some? && a.told.value.flags.connected
                  && var b' := Input(hostB, b.u, a.out.value, reply);
                     && Holds(b'.u, j, rport, hostA, port) && b'.u.conns[j].Is(ESTABLISHED)
                     && b'.told.Some? && b'.told.value.flags.connected
  {
    hide UipInv, Dialled, Input, Connect, FreeSlot, Welcomes, Plus, Htons;
    var d := Dialled(hostA, bigEndian, ua, hostB, rport, i, reply);
    var port := Htons(bigEndian, Connect(bigEndian, ua, hostB, rport).lastport);
    SynGoesOut(hostA, bigEndian, ua, hostB, rport, i, reply);
    SynIsWelcome(hostB, ub, d.out.value, j, reply);
    var b := Input(hostB, ub, d.out.value, reply);
    SynAckOpensSlot(hostA, d.u, i, b.out.value, port, hostB, rport, reply);
    var a := Input(hostA, d.u, b.out.value, reply);
    AckOpensSlot(hostB, b.u, j, a.out.value, rport, hostA, port, reply);
  }

  /** Nobody here wants the segment. */
  predicate Unwanted(u: Uip, seg: Segment) {
    Demux(u.conns, seg, 0) == |u.conns| && (seg.flags == SYN ==> seg.destport !in u.listenports)
  }

  /**
    Only what is unwanted is refused: a SYN to a listener either gets its SYN|ACK or, when there is no room, nothing.
   */
  lemma RefusedIff(host: u32, u: Uip, seg: Segment, reply: Reply)
    requires Demux(u.conns, seg, 0) == |u.conns| && !seg.flags.rst
    ensures var done := Input(host, u, seg, reply);
            && (done.out.Some? && done.out.value.flags.rst <==> Unwanted(u, seg))
            && (done.out.None? <==> !Unwanted(u, seg) && FreeSlot(u.conns).None?)
            && (done.out.None? || Unwanted(u, seg) ==> done.u == u)
  {
    hide FreeSlot, Plus;
  }

  /**
    A reset finds the connection it is meant for: what a live slot sent and nobody wanted comes back as a reset that
    matches the slot, closes it and makes the application told; it starts where the slot expects the peer to go on, and
    if the segment was the SYN, acknowledges it. The table that refused is as it was.
   */
  lemma RefusalReaches(hostA: u32, ua: Uip, k: nat, seg: Segment, hostB: u32, ub: Uip, replyB: Reply, reply: Reply)
    requires UipInv(ua) && k < |ua.conns| && ua.conns[k].state != CLOSED && ua.conns[k].ripaddr == hostB
    requires FromConn(hostA, ua.conns[k], seg) && Unwanted(ub, seg) && !seg.flags.rst
    requires seg.seqno == ua.conns[k].sndNxt && seg.ackno == ua.conns[k].rcvNxt
    ensures var refused := Input(hostB, ub, seg, replyB);
            && refused.u == ub && refused.told.None?
            && refused.out.Some? && refused.out.value.flags.rst && refused.out.value.flags.ack
            && refused.out.value.seqno == ua.conns[k].rcvNxt && refused.out.value.ackno == Plus(ua.conns[k].sndNxt, 1)
            && var done := Input(hostA, ua, refused.out.value, reply);
               && |done.u.conns| == |ua.conns| && done.u.conns[k].Is(CLOSED) && done.out.None?
               && done.told == Some(Told(NO_EVENT.(abort := true), []))
  {
    hide Plus, TableInv, Distinct, Demux, FreeSlot;
    var refused := Input(hostB, ub, seg, replyB);
    BetweenMatches(ua.conns[k], refused.out.value, hostA, ua.conns[k].lport, hostB, ua.conns[k].rport);
    DemuxIsUnique(ua.conns, refused.out.value, k, k);
  }
}
