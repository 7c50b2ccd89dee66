/**
 Two hosts with whole connection tables. One slot of each carries the connection TcpEndToEnd speaks of; every other
 slot, listening port, port search and the shared uip_slen go their own way. A table step is, for the slot, one endpoint
 event or nothing, so what holds of two endpoints holds of two hosts.
 */
module TcpNetwork {
  import opened Words
  import opened SeqNum
  import opened Tcp
  import opened TcpInvariants
  import opened TcpEndToEnd

  /** A listening table answers the segment in slot `k`. */
  predicate Answers(u: Uip, seg: Segment, k: nat) {
    && Demux(u.conns, seg, 0) == |u.conns| && seg.flags == SYN && seg.destport in u.listenports
    && FreeSlot(u.conns) == Some(k)
  }

  /**
    What a table event is for the connection `x` in slot `k`, if anything: until it closes, and while it has not begun.
    `p` is the packet an incoming segment was sent as, and `theirs` every packet of the peer.
   */
  ghost function Projected(u: Uip, k: nat, x: Side, theirs: set<Packet>, e: Event, p: Packet): (r: Option<NetEvent>) {
    match e
    case InputEvent(seg, reply) =>
      if Live(x) then
        if Demux(u.conns, seg, 0) == k then Some(Deliver(p, u.slen, reply))
        else if Answers(u, seg, k) then Some(Recycled) else None
      else if x.origin.Unborn? && Answers(u, seg, k) && p in theirs then Some(Listened(p, u.conns[k], u.iss))
      else None
    case TimerEvent(i, reply) => if Live(x) && i == k then Some(Tick(reply)) else None
    case PollEvent(i, reply) => if Live(x) && i == k then Some(PollRequest(u.slen, reply)) else None
    case ConnectEvent(_, _) => if Live(x) && FreeSlot(u.conns) == Some(k) then Some(Recycled) else None
    case _ => None
  }

  /** What a table event sends and tells its application. */
  function Effects(host: u32, bigEndian: bool, u: Uip, e: Event): Stepped {
    match e
    case InputEvent(seg, reply) => Input(host, u, seg, reply)
    case TimerEvent(i, reply) => if i < |u.conns| then Periodic(host, u, i, reply) else Stepped(u, None, None)
    case PollEvent(i, reply) => if i < |u.conns| then PollConn(host, u, i, reply) else Stepped(u, None, None)
    case _ => Stepped(Step(host, bigEndian, u, e), None, None)
  }

  /** Slot `k` carries the connection of `x` for as long as that lives. */
  ghost predicate Carries(u: Uip, k: nat, x: Side) {
    TableInv(u) && k < |u.conns| && (Live(x) ==> u.conns[k] == x.c)
  }

  function Moved(host: u32, x: Side, e: Option<NetEvent>): Side {
    if e.Some? then Act(host, x, e.value) else x
  }

  /** The packet handed over is the segment that came in. */
  predicate Names(e: Event, p: Packet) { e.InputEvent? ==> p.seg == e.seg }

  /** Every table event acts on the slot exactly as the endpoint event it projects to, and otherwise not at all. */
  lemma TableActsAsEndpoint(host: u32, bigEndian: bool, u: Uip, k: nat, x: Side, theirs: set<Packet>, e: Event,
          p: Packet)
    requires Carries(u, k, x) && Names(e, p)
    ensures var u', ev := Step(host, bigEndian, u, e), Projected(u, k, x, theirs, e, p);
            && Carries(u', k, Moved(host, x, ev))
            && (ev.Some? ==> UsableSlot(ev.value))
            && (ev.Some? && !ev.value.Recycled? ==>
                  var done, r := Effects(host, bigEndian, u, e), Outcome(host, x, ev.value);
                  done.u == u' && done.out == r.out && done.told == r.told)
  {
    hide ConnInv, Found, Timer, Poll, SearchPort, Emit, Accept, FreeSlot, Disciplined, Consulted, Advance;
    StepKeepsTable(host, bigEndian, u, e);
    if e.InputEvent? {
      DemuxMatches(u.conns, e.seg, 0);
    }
  }

  /** Both tables, and the history of the connection between them. */
  datatype Net = Net(ua: Uip, ub: Uip, s: System)

  /** Which slots carry the connection; `g.baseB` is the iss host B answers with. */
  datatype Layout = Layout(g: Setting, bigEndianA: bool, bigEndianB: bool, i: nat, j: nat)

  /** One event at one host, with the packet an incoming segment was sent as. */
  datatype HostEvent = HostEvent(who: Who, e: Event, p: Packet)

  ghost function Seen(l: Layout, n: Net, h: HostEvent): Option<NetEvent> {
    match h.who
    case A => Projected(n.ua, l.i, n.s.a, n.s.ba, h.e, h.p)
    case B => Projected(n.ub, l.j, n.s.b, n.s.ab, h.e, h.p)
  }

  ghost function NetStep(l: Layout, n: Net, h: HostEvent): Net {
    var s := if Seen(l, n, h).Some? then Next(l.g, n.s, h.who, Seen(l, n, h).value) else n.s;
    match h.who
    case A => Net(Step(l.g.hostA, l.bigEndianA, n.ua, h.e), n.ub, s)
    case B => Net(n.ua, Step(l.g.hostB, l.bigEndianB, n.ub, h.e), s)
  }

  /** Only what concerns the connection is restricted: the other slots' segments and applications are arbitrary. */
  ghost predicate MayHappen(l: Layout, n: Net, h: HostEvent) {
    && Names(h.e, h.p)
    && (Seen(l, n, h).Some? ==>
          match h.who
          case A => Allowed(l.g.hostA, l.g.baseA, n.s.a, n.s.ba, Seen(l, n, h).value)
          case B => Allowed(l.g.hostB, l.g.baseB, n.s.b, n.s.ab, Seen(l, n, h).value))
  }

  ghost predicate NetInv(l: Layout, n: Net) {
    Carries(n.ua, l.i, n.s.a) && Carries(n.ub, l.j, n.s.b) && Agreement(l.g, n.s)
  }

  lemma NetStepKeeps(l: Layout, n: Net, h: HostEvent)
    requires NetInv(l, n) && MayHappen(l, n, h)
    ensures NetInv(l, NetStep(l, n, h))
  {
    hide Agreement, Carries, Projected, Allowed, Act, Emitted, Step, UsableSlot, Effects, Outcome;
    var ev := Seen(l, n, h);
    if h.who == A {
      TableActsAsEndpoint(l.g.hostA, l.bigEndianA, n.ua, l.i, n.s.a, n.s.ba, h.e, h.p);
    } else {
      TableActsAsEndpoint(l.g.hostB, l.bigEndianB, n.ub, l.j, n.s.b, n.s.ab, h.e, h.p);
    }
    if ev.Some? {
      StepKeepsAgreement(l.g, n.s, h.who, ev.value);
    }
  }

  ghost predicate NetRunMayHappen(l: Layout, n: Net, run: seq<HostEvent>)
    decreases |run|
  {
    run == [] || (MayHappen(l, n, run[0]) && NetRunMayHappen(l, NetStep(l, n, run[0]), run[1..]))
  }

  ghost function NetAfter(l: Layout, n: Net, run: seq<HostEvent>): Net
    decreases |run|
  {
    if run == [] then n else NetAfter(l, NetStep(l, n, run[0]), run[1..])
  }

  lemma {:induction false} NetRunKeeps(l: Layout, n: Net, run: seq<HostEvent>)
    requires NetInv(l, n) && NetRunMayHappen(l, n, run)
    ensures NetInv(l, NetAfter(l, n, run))
    decreases |run|
  {
    hide NetInv, MayHappen, NetStep;
    if run != [] {
      NetStepKeeps(l, n, run[0]);
      NetRunKeeps(l, NetStep(l, n, run[0]), run[1..]);
    }
  }

  /** Host A's application calls uip_connect, which takes slot `i`; host B has not heard of it. */
  function Opening(l: Layout, ua: Uip, ub: Uip, ripaddr: u32, rport: u16): Net
    requires l.i < |ua.conns| && l.j < |ub.conns|
  {
    var u := Connect(l.bigEndianA, ua, ripaddr, rport);
    Net(u, ub, System(Side(Active, u.conns[l.i], [], false, [], 0, 0),
                      Side(Unborn, ub.conns[l.j].In(CLOSED), [], false, [], 0, 0), {}, {}))
  }

  /**
    Safety of a connection between two hosts, from uip_connect on: whatever else both tables do, the two slots keep the
    window relation and the delivered bytes are a prefix of those sent, in both directions.
   */
  lemma TwoHosts(l: Layout, ua: Uip, ub: Uip, ripaddr: u32, rport: u16, run: seq<HostEvent>)
    requires TableInv(ua) && TableInv(ub) && FreeSlot(ua.conns) == Some(l.i) && l.j < |ub.conns|
             && l.g.baseA == Val(ua.iss)
    requires NetRunMayHappen(l, Opening(l, ua, ub, ripaddr, rport), run)
    ensures var n := NetAfter(l, Opening(l, ua, ub, ripaddr, rport), run);
            && |n.ua.conns| > l.i && (Live(n.s.a) ==> n.ua.conns[l.i] == n.s.a.c)
            && |n.ub.conns| > l.j && (Live(n.s.b) ==> n.ub.conns[l.j] == n.s.b.c)
            && SafeDelivery(l.g.baseA, n.s.a, n.s.b) && SafeDelivery(l.g.baseB, n.s.b, n.s.a)
  {
    hide NetRunMayHappen, NetAfter;
    OpeningHolds(l, ua, ub, ripaddr, rport);
    NetRunKeeps(l, Opening(l, ua, ub, ripaddr, rport), run);
    hide At;
  }

  lemma OpeningHolds(l: Layout, ua: Uip, ub: Uip, ripaddr: u32, rport: u16)
    requires TableInv(ua) && TableInv(ub) && FreeSlot(ua.conns) == Some(l.i) && l.j < |ub.conns|
             && l.g.baseA == Val(ua.iss)
    ensures NetInv(l, Opening(l, ua, ub, ripaddr, rport))
  {
    hide SearchPort, FreeSlot, TableInv, Htons, At, Val, ToBytes, Plus;
    OpenedConnects(l.bigEndianA, ua, ripaddr, rport, l.i);
    StartsAtIss(ua.iss);
    StepKeepsTable(l.g.hostA, l.bigEndianA, ua, ConnectEvent(ripaddr, rport));
    SlotInTable(Connect(l.bigEndianA, ua, ripaddr, rport), l.i);
    SlotInTable(ub, l.j);
  }

  lemma StartsAtIss(iss: Bytes4)
    ensures At(Val(iss), 0) == iss
  {
    ValInverse(iss);
    hide Val, ToBytes;
  }

  lemma OpenedConnects(bigEndian: bool, u: Uip, ripaddr: u32, rport: u16, k: nat)
    requires FreeSlot(u.conns) == Some(k)
    ensures var u' := Connect(bigEndian, u, ripaddr, rport);
            k < |u'.conns| && u'.conns[k].Is(SYN_SENT) && u'.conns[k].sndNxt == u.iss && u'.conns[k].len == 1
  {
    hide SearchPort, FreeSlot, Htons;
  }

  lemma SlotInTable(u: Uip, k: nat)
    requires TableInv(u) && k < |u.conns|
    ensures ConnInv(u.conns[k]) && ConnInv(u.conns[k].In(CLOSED))
  {
  }
}
