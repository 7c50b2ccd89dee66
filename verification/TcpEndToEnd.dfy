/**
 Two endpoints joined by a channel that loses, duplicates and reorders: one calls uip_connect and the other listens, or
 both start ESTABLISHED in agreement. The channel is the set of every packet ever sent: any of them may be delivered at
 any time, or never. Each packet carries, for the proof only, the stream position it starts at and the position it
 acknowledges. A stream is a SYN, if the connection was opened here, then the bytes sent, then a FIN, if it was closed;
 each takes its positions.
 */
module TcpEndToEnd {
  import opened Words
  import opened SeqNum
  import opened Tcp
  import opened TcpInvariants

  datatype Packet = Packet(seg: Segment, pos: nat, ack: nat)

  /**
    How an endpoint came to its connection: not yet, by being given one that exists, by uip_connect, or by listening.
   */
  datatype Origin = Unborn | Given | Active | Passive

  /**
    One endpoint. `sent` is what its application committed to the wire and `fin` whether it closed; `got` is what its
    application was handed as new data. `acked` and `rcvd` count positions acknowledged by and received from the peer.
   */
  datatype Side = Side(origin: Origin, c: Conn, sent: seq<u8>, fin: bool, got: seq<u8>, acked: nat, rcvd: nat)

  /** The position of the first byte: a SYN before it takes one. */
  function Off(x: Side): nat { if x.origin.Active? || x.origin.Passive? then 1 else 0 }

  /** Stream positions used: one for the SYN, one per byte, one for the FIN. */
  function Total(x: Side): nat { Off(x) + |x.sent| + if x.fin then 1 else 0 }

  predicate Live(x: Side) { x.c.state != CLOSED }

  // ----- events at one endpoint

  /**
    `slen` is whatever an earlier packet, of any connection, left in uip_slen; Recycled is the slot going to another
    connection.
   */
  datatype NetEvent =
    | Deliver(packet: Packet, slen: u16, reply: Reply)
    | Tick(reply: Reply)
    | PollRequest(slen: u16, reply: Reply)
    | Listened(packet: Packet, slot: Conn, iss: Bytes4)
    | Recycled

  /** The connection once a segment's acknowledgment was processed. */
  function AfterAck(c: Conn, seg: Segment): Conn {
    if !seg.flags.rst && !OutOfSequence(c, seg) && Acknowledges(c, seg) then Acked(c) else c
  }

  /**
    Sequence space a segment advances the receiver by; `c0` is the connection before its acknowledgment was processed.
   */
  function Advance(c0: Conn, c: Conn, seg: Segment): nat {
    var fin := if seg.flags.fin then 1 else 0;
    if seg.flags.rst || OutOfSequence(c, seg) then 0
    else match c.state
      case ESTABLISHED =>
        if c.stopped || (seg.flags.fin && c.len > 0) then 0 else |seg.payload| + fin
      case SYN_RCVD => if Acknowledges(c0, seg) then |seg.payload| else 0
      case SYN_SENT => if Acknowledges(c0, seg) && seg.flags == ACK.(syn := true) then 1 else 0
      case FIN_WAIT_1 => |seg.payload| + fin
      case FIN_WAIT_2 => |seg.payload| + fin
      case _ => 0
  }

  /** The callback's data when it was flagged as new. */
  function NewData(told: Option<Told>): seq<u8> {
    if told.Some? && told.value.flags.newdata then told.value.data else []
  }

  predicate Opens(st: State) { st == SYN_SENT || st == SYN_RCVD || st == ESTABLISHED }

  /** Bookkeeping for one event: `c` is the connection between acknowledgment processing and the outcome `r`. */
  function Settle(x: Side, c: Conn, advance: nat, r: Result, reply: Reply): Side {
    var commits := Opens(c.state) && r.c.state == ESTABLISHED && c.len == 0 && r.c.len > 0;
    var closes := Opens(c.state) && (r.c.state == FIN_WAIT_1 || r.c.state == LAST_ACK);
    Side(x.origin, r.c,
         if commits then x.sent + Take(reply.buf, r.c.len) else x.sent,
         x.fin || closes,
         x.got + NewData(r.told),
         if c.len != x.c.len then x.acked + x.c.len else x.acked,
         x.rcvd + advance)
  }

  function Outcome(host: u32, x: Side, e: NetEvent): Result {
    match e
    case Deliver(p, slen, reply) =>
      if Live(x) then Found(host, x.c, slen, p.seg, reply) else Result(x.c, slen, Reset(host, p.seg), None)
    case Tick(reply) => Timer(host, x.c, reply)
    case PollRequest(slen, reply) => Poll(host, x.c, slen, reply)
    case Listened(p, slot, iss) =>
      var c := Accept(slot, iss, p.seg);
      Result(c, 0, Some(Emit(host, c, ACK.(syn := true), [])), None)
    case Recycled => Result(x.c.In(CLOSED), 0, None, None)
  }

  /** The connection the application is called with: after acknowledgment processing, before it answers. */
  function Consulted(x: Side, e: NetEvent): Conn {
    if e.Deliver? && Live(x) then AfterAck(x.c, e.packet.seg) else x.c
  }

  function Act(host: u32, x: Side, e: NetEvent): Side {
    if e.Listened? then Side(Passive, Accept(e.slot, e.iss, e.packet.seg), [], false, [], 0, 1)
    else if e.Recycled? then x.(c := x.c.In(CLOSED))
    else
      var c := Consulted(x, e);
      Settle(x, c, if e.Deliver? && Live(x) then Advance(x.c, c, e.packet.seg) else 0, Outcome(host, x, e), e.reply)
  }

  function Emitted(host: u32, x: Side, e: NetEvent): set<Packet> {
    var x' := Act(host, x, e);
    match Outcome(host, x, e).out
    case None => {}
    case Some(seg) => {Packet(seg, x'.acked, x'.rcvd)}
  }

  /**
    The application's side of the bargain: it closes only with nothing outstanding, and what it sends while data is
    outstanding starts with the same bytes again.
   */
  predicate Disciplined(x: Side, e: NetEvent) {
    var c := Consulted(x, e);
    !e.Listened? && !e.Recycled? && c.state == ESTABLISHED && c.len > 0 ==>
      && e.reply.action != Close
      && (SlenAfter(0, e.reply) > 0 && Off(x) <= x.acked <= Off(x) + |x.sent| ==>
            e.reply.buf[..Min(c.len, UIP_TCP_MSS)] == Unacked(x))
  }

  /** The bytes sent and not acknowledged. */
  function Unacked(x: Side): seq<u8>
    requires Off(x) <= x.acked <= Off(x) + |x.sent|
  {
    x.sent[x.acked - Off(x)..]
  }

  function Min(a: nat, b: nat): nat { if a < b then a else b }

  // ----- the system

  datatype Who = A | B

  datatype System = System(a: Side, b: Side, ab: set<Packet>, ba: set<Packet>)

  /** Sequence numbers of stream position 0 in each direction, and the two addresses. */
  datatype Setting = Setting(baseA: u32, baseB: u32, hostA: u32, hostB: u32)

  function Next(g: Setting, s: System, who: Who, e: NetEvent): System {
    match who
    case A => s.(a := Act(g.hostA, s.a, e), ab := s.ab + Emitted(g.hostA, s.a, e))
    case B => s.(b := Act(g.hostB, s.b, e), ba := s.ba + Emitted(g.hostB, s.b, e))
  }

  /** A listening endpoint takes a SYN once, with the sequence number its numbering starts from. */
  predicate MayListen(base: u32, x: Side, e: NetEvent) {
    e.Listened? ==> x.origin.Unborn? && e.packet.seg.flags == SYN && e.iss == At(base, 0)
  }

  /**
    An event may happen: what is delivered was sent or is a reset from anyone, the application keeps its bargain, the
    stream stays below 2^32.
   */
  ghost predicate Allowed(host: u32, base: u32, x: Side, theirs: set<Packet>, e: NetEvent) {
    && (e.Deliver? ==> e.packet in theirs || e.packet.seg.flags.rst)
    && (e.Listened? ==> e.packet in theirs) && MayListen(base, x, e)
    && Disciplined(x, e) && Total(Act(host, x, e)) < MODULUS
  }

  predicate UsableSlot(e: NetEvent) { e.Listened? ==> ConnInv(e.slot) }

  ghost predicate Possible(g: Setting, s: System, who: Who, e: NetEvent) {
    UsableSlot(e) && match who
                     case A => Allowed(g.hostA, g.baseA, s.a, s.ba, e)
                     case B => Allowed(g.hostB, g.baseB, s.b, s.ab, e)
  }

  predicate Fresh(x: Side) { x.sent == x.got == [] && !x.fin && x.acked == x.rcvd == 0 && ConnInv(x.c) }

  /** An endpoint of a connection that exists, with nothing outstanding. */
  ghost predicate Starts(base: u32, base': u32, x: Side) {
    && x.origin.Given? && Fresh(x) && x.c.state == ESTABLISHED && x.c.len == 0
    && x.c.sndNxt == At(base, 0) && x.c.rcvNxt == At(base', 0)
  }

  /** An endpoint whose application just called uip_connect. */
  ghost predicate Connects(base: u32, x: Side) {
    x.origin.Active? && Fresh(x) && x.c.state == SYN_SENT && x.c.sndNxt == At(base, 0)
  }

  predicate Waits(x: Side) { x.origin.Unborn? && Fresh(x) && !Live(x) }

  ghost predicate Begins(g: Setting, s: System) {
    && s.ab == s.ba == {}
    && ((Starts(g.baseA, g.baseB, s.a) && Starts(g.baseB, g.baseA, s.b)) || (Connects(g.baseA, s.a) && Waits(s.b)))
  }

  // ----- the invariant, one direction at a time

  predicate Closing(st: State) {
    st == FIN_WAIT_1 || st == FIN_WAIT_2 || st == CLOSING || st == TIME_WAIT || st == LAST_ACK
  }

  /** What an endpoint knows about its own stream. */
  ghost predicate SenderOk(base: u32, x: Side) {
    && Total(x) < MODULUS && ConnInv(x.c) && x.acked <= Total(x)
    && (Live(x) ==> x.c.sndNxt == At(base, x.acked) && x.acked + x.c.len as int == Total(x))
    && (x.sent != [] || x.fin ==> x.acked >= Off(x))
    && (x.origin.Unborn? ==> Waits(x))
    && match x.c.state
       case CLOSED => true
       case SYN_SENT => x.origin.Active? && Fresh(x)
       case SYN_RCVD => x.origin.Passive? && x.sent == x.got == [] && !x.fin && x.acked == 0 && x.rcvd == 1
       case ESTABLISHED => !x.fin && x.acked >= Off(x)
       case _ => x.fin && x.acked >= Off(x)
  }

  /** What endpoint `y` knows about the stream of `x`. */
  ghost predicate ReceiverOk(base: u32, x: Side, y: Side) {
    && y.rcvd <= Total(x)
    && y.got <= x.sent && |y.got| <= y.rcvd
    && (Live(y) && y.c.state != SYN_SENT ==> y.c.rcvNxt == At(base, y.rcvd) && y.rcvd >= Off(x))
    && (y.c.state == ESTABLISHED ==> Off(x) + |y.got| == y.rcvd)
  }

  /** The stream of `x` holds `data` from position `pos` on. */
  predicate InStream(x: Side, pos: nat, data: seq<u8>) {
    Off(x) <= pos && pos + |data| <= Off(x) + |x.sent| && x.sent[pos - Off(x)..][..|data|] == data
  }

  /** A SYN comes from the endpoint that opened, a SYN|ACK from the one that listened. */
  predicate OpeningFlags(x: Side, flags: Flags) {
    (flags == SYN && x.origin.Active?) || (flags == ACK.(syn := true) && x.origin.Passive?)
  }

  /** A packet of `x` repeats part of its stream and acknowledges no more than it received. */
  ghost predicate PacketOk(base: u32, base': u32, x: Side, p: Packet) {
    var seg := p.seg;
    seg.flags.rst ||
    (&& !seg.flags.urg && seg.seqno == At(base, p.pos) && p.pos <= Total(x)
     && (seg.flags.syn ==> seg.payload == [] && p.pos == 0 && OpeningFlags(x, seg.flags))
     && (seg.flags.fin ==> seg.payload == [] && x.fin && p.pos == Off(x) + |x.sent|)
     && (seg.payload != [] ==> seg.options == [] && InStream(x, p.pos, seg.payload))
     && (seg.flags.ack ==> seg.ackno == At(base', p.ack) && p.ack <= x.rcvd))
  }

  ghost predicate Direction(base: u32, base': u32, x: Side, y: Side, channel: set<Packet>) {
    && SenderOk(base, x) && ReceiverOk(base, x, y) && x.acked <= y.rcvd && Paired(x, y)
    && forall p | p in channel :: PacketOk(base, base', x, p)
  }

  /** One opened and the other answered or will; or both were given the connection. */
  predicate Paired(x: Side, y: Side) {
    match x.origin
    case Given => y.origin.Given?
    case Active => y.origin.Unborn? || y.origin.Passive?
    case _ => y.origin.Active?
  }

  ghost predicate Agreement(g: Setting, s: System) {
    Direction(g.baseA, g.baseB, s.a, s.b, s.ab) && Direction(g.baseB, g.baseA, s.b, s.a, s.ba)
  }

  /** `x` became `x'`: nothing committed or received is taken back. */
  predicate Grows(x: Side, x': Side) {
    && x.sent <= x'.sent && (x.fin ==> x'.fin && x'.sent == x.sent) && x.rcvd <= x'.rcvd
    && x'.origin == x.origin
  }

  /** What must be shown of an endpoint after an event, with its peer untouched. */
  ghost predicate Sound(base: u32, base': u32, x: Side, x': Side, peer: Side) {
    Grows(x, x') && SenderOk(base, x') && ReceiverOk(base', peer, x') && x'.acked <= peer.rcvd
  }

  lemma SoundKeepsBoth(base: u32, base': u32, x: Side, x': Side, peer: Side, mine: set<Packet>, theirs: set<Packet>,
          out: set<Packet>)
    requires Direction(base, base', x, peer, mine) && Direction(base', base, peer, x, theirs)
    requires Sound(base, base', x, x', peer)
    requires forall p | p in out :: PacketOk(base, base', x', p)
    ensures Direction(base, base', x', peer, mine + out) && Direction(base', base, peer, x', theirs)
  {
    hide PacketOk;
    forall p | p in mine ensures PacketOk(base, base', x', p) {
      PacketStays(base, base', x, x', p);
    }
    hide At, ConnInv;
  }

  lemma PacketStays(base: u32, base': u32, x: Side, x': Side, p: Packet)
    requires PacketOk(base, base', x, p) && Grows(x, x')
    ensures PacketOk(base, base', x', p)
  {
    hide At;
  }

  /** The conclusion wanted of one event: a sound endpoint and only truthful packets. */
  ghost predicate Fine(base: u32, base': u32, x: Side, x': Side, peer: Side, out: Option<Segment>) {
    && Sound(base, base', x, x', peer)
    && (out.Some? ==> PacketOk(base, base', x', Packet(out.value, x'.acked, x'.rcvd)))
  }

  // ----- the send path

  /** Headers filled in from a connection whose numbers are right are truthful. */
  lemma EmittedOk(host: u32, base: u32, base': u32, x: Side, flags: Flags, payload: Payload)
    requires x.c.sndNxt == At(base, x.acked) && x.acked <= Total(x) && (flags.ack ==> x.c.rcvNxt == At(base', x.rcvd))
    requires !flags.urg && (flags.syn ==> OpeningFlags(x, flags) && x.acked == 0 && payload == [])
    requires flags.fin ==> payload == [] && x.fin && x.acked == Off(x) + |x.sent|
    requires payload != [] ==> InStream(x, x.acked, payload)
    ensures PacketOk(base, base', x, Packet(Emit(host, x.c, flags, payload), x.acked, x.rcvd))
  {
  }

  /** An endpoint in ESTABLISHED about to call its application. */
  ghost predicate Ready(base: u32, base': u32, x: Side, peer: Side) {
    x.c.state == ESTABLISHED && SenderOk(base, x) && ReceiverOk(base', peer, x) && x.acked <= peer.rcvd
  }

  predicate Resends(x: Side, slen: u16, reply: Reply) {
    x.c.len > 0 ==>
      reply.action != Close
      && (slen > 0 ==> Off(x) <= x.acked <= Off(x) + |x.sent| && reply.buf[..Min(x.c.len, UIP_TCP_MSS)] == Unacked(x))
  }

  function Answered(x: Side, r: Result, reply: Reply): Side {
    Settle(x, x.c, 0, Result(r.c, r.slen, r.out, None), reply)
  }

  lemma RexmitOk(host: u32, base: u32, base': u32, x: Side, peer: Side, flags: UipFlags, slen: u16, buf: AppBuffer)
    requires Ready(base, base', x, peer)
    requires slen > 0 && x.c.len > 0 ==> x.acked <= Off(x) + |x.sent| && Take(buf, x.c.len) == Unacked(x)
    ensures var out := AppRexmit(host, x.c, flags, slen, buf);
            out.Some? ==> PacketOk(base, base', x, Packet(out.value, x.acked, x.rcvd))
  {
  }

  /** Whatever the application answers, its endpoint stays sound. */
  lemma AnsweredSound(host: u32, base: u32, base': u32, x: Side, peer: Side, told: Told, slen: u16, reply: Reply)
    requires Ready(base, base', x, peer) && Resends(x, SlenAfter(slen, reply), reply)
    requires told.flags.ackdata ==> x.c.len == 0
    requires !told.flags.close && !told.flags.abort
    ensures var x' := Answered(x, AppSend(host, x.c, told, slen, reply), reply);
            Total(x') < MODULUS ==> Sound(base, base', x, x', peer)
  {
    hide At, AppRexmit, Emit;
    AppSendKeeps(host, x.c, told, slen, reply);
  }

  lemma SendOk(host: u32, base: u32, base': u32, x: Side, peer: Side, told: Told, slen: u16, reply: Reply)
    requires Ready(base, base', x, peer) && Resends(x, SlenAfter(slen, reply), reply)
    requires told.flags.ackdata ==> x.c.len == 0
    requires !told.flags.close && !told.flags.abort
    ensures var r := AppSend(host, x.c, told, slen, reply);
            var x' := Answered(x, r, reply);
            Total(x') < MODULUS ==> Fine(base, base', x, x', peer, r.out)
  {
    hide At, PacketOk, ConnInv;
    var r := AppSend(host, x.c, told, slen, reply);
    var x' := Answered(x, r, reply);
    AnsweredSound(host, base, base', x, peer, told, slen, reply);
    var flags := FlagsAfter(told.flags, reply);
    if Total(x') < MODULUS {
      if flags.abort {
        ResetOk(base, base', x', r.out.value, x'.acked, x'.rcvd);
      } else if flags.close {
        EmittedOk(host, base, base', x', ACK.(fin := true), []);
      } else {
        if x.c.len == 0 && r.c.len > 0 {
          assert x'.sent == x.sent + Take(reply.buf, r.c.len);
          assert Unacked(x') == Take(reply.buf, r.c.len);
        }
        RexmitOk(host, base, base', x', peer, flags, r.slen, reply.buf);
      }
    }
  }

  lemma ResetOk(base: u32, base': u32, x: Side, seg: Segment, pos: nat, ack: nat)
    requires seg.flags.rst
    ensures PacketOk(base, base', x, Packet(seg, pos, ack))
  {
  }

  // ----- timer and poll events

  lemma AppSendTells(host: u32, c: Conn, told: Told, slen: u16, reply: Reply)
    ensures AppSend(host, c, told, slen, reply).told == Some(told)
  {
  }

  lemma UnchangedOk(base: u32, base': u32, x: Side, x': Side, peer: Side)
    requires SenderOk(base, x) && ReceiverOk(base', peer, x) && x.acked <= peer.rcvd
    requires x' == x.(c := x'.c) && ConnInv(x'.c)
    requires x'.c.state == CLOSED || (x'.c.state == x.c.state && x'.c.len == x.c.len && x'.c.sndNxt == x.c.sndNxt
                                      && x'.c.rcvNxt == x.c.rcvNxt)
    ensures Sound(base, base', x, x', peer)
  {
  }

  /** A retransmission repeats what is outstanding: the SYN, the SYN|ACK, the data or the FIN. */
  lemma RetransmitOk(host: u32, base: u32, base': u32, x: Side, peer: Side, reply: Reply)
    requires SenderOk(base, x) && ReceiverOk(base', peer, x) && x.acked <= peer.rcvd
    requires x.c.state != CLOSED && x.c.len > 0 && Disciplined(x, Tick(reply))
    ensures var out := Retransmit(host, x.c, reply).out;
            out.Some? ==> PacketOk(base, base', x, Packet(out.value, x.acked, x.rcvd))
  {
    hide At, PacketOk, AppRexmit;
    if x.c.state == ESTABLISHED {
      var x' := x.(c := FlowAfter(x.c, reply));
      RexmitOk(host, base, base', x', peer, FlagsAfter(NO_EVENT.(rexmit := true), reply), SlenAfter(0, reply),
               reply.buf);
      SamePackets(base, base', x', x);
    } else {
      EmittedOk(host, base, base', x, if x.c.state == SYN_SENT then SYN else if x.c.state == SYN_RCVD
                then ACK.(syn := true)
                                      else ACK.(fin := true), []);
    }
  }

  /** Which packets are truthful is a matter of the stream, not of the connection's fields. */
  lemma SamePackets(base: u32, base': u32, x: Side, x': Side)
    requires x' == x.(c := x'.c)
    ensures forall p :: PacketOk(base, base', x, p) <==> PacketOk(base, base', x', p)
  {
  }

  /** The connection whose retransmission timer just expired. */
  function Retimed(c: Conn): Conn { c.(timer := Backoff(c.nrtx), nrtx := Wrap8(c.nrtx as int + 1)) }

  /** A tick that does not call the application for data leaves the stream's numbers alone, or closes. */
  lemma QuietTick(host: u32, x: Side, reply: Reply)
    requires ConnInv(x.c) && !(x.c.state == ESTABLISHED && x.c.len == 0)
    ensures var r := Timer(host, x.c, reply);
            && Act(host, x, Tick(reply)) == x.(c := r.c)
            && (r.c.state == CLOSED || (r.c.state == x.c.state && r.c.len == x.c.len && r.c.sndNxt == x.c.sndNxt
                                        && r.c.rcvNxt == x.c.rcvNxt))
            && (r.out.Some? ==>
                  r.out.value.flags.rst
                  || (x.c.len > 0 && ConnInv(Retimed(x.c)) && r.out == Retransmit(host, Retimed(x.c), reply).out))
  {
    hide AppRexmit, AppSend, Backoff;
  }

  /** An idle ESTABLISHED endpoint is polled by a tick or a poll request. */
  lemma IdleShape(host: u32, x: Side, slen: u16, reply: Reply)
    requires x.c.state == ESTABLISHED && x.c.len == 0
    ensures var r := AppSend(host, x.c, Told(NO_EVENT.(poll := true), []), slen, reply);
            && Act(host, x, PollRequest(slen, reply)) == Answered(x, r, reply) && Poll(host, x.c, slen, reply) == r
            && (slen == 0 ==> Act(host, x, Tick(reply)) == Answered(x, r, reply) && Timer(host, x.c, reply) == r)
  {
    hide AppSend, Take;
    AppSendTells(host, x.c, Told(NO_EVENT.(poll := true), []), slen, reply);
  }

  lemma TickOk(host: u32, base: u32, base': u32, x: Side, peer: Side, reply: Reply)
    requires SenderOk(base, x) && ReceiverOk(base', peer, x) && x.acked <= peer.rcvd
    requires Disciplined(x, Tick(reply)) && Total(Act(host, x, Tick(reply))) < MODULUS
    ensures Fine(base, base', x, Act(host, x, Tick(reply)), peer, Timer(host, x.c, reply).out)
  {
    var r := Timer(host, x.c, reply);
    var x' := Act(host, x, Tick(reply));
    if x.c.state == ESTABLISHED && x.c.len == 0 {
      hide At, PacketOk, AppSend, Act, Timer, ConnInv;
      IdleShape(host, x, 0, reply);
      SendOk(host, base, base', x, peer, Told(NO_EVENT.(poll := true), []), 0, reply);
    } else {
      hide At, PacketOk, Timer, Act, Retransmit, Backoff, ConnInv;
      TimerKeeps(host, x.c, reply);
      QuietTick(host, x, reply);
      UnchangedOk(base, base', x, x', peer);
      if r.out.Some? && r.out.value.flags.rst {
        ResetOk(base, base', x', r.out.value, x'.acked, x'.rcvd);
      } else if r.out.Some? {
        RetransmitOk(host, base, base', x.(c := Retimed(x.c)), peer, reply);
        SamePackets(base, base', x.(c := Retimed(x.c)), x');
      }
    }
  }

  lemma PollOk(host: u32, base: u32, base': u32, x: Side, peer: Side, slen: u16, reply: Reply)
    requires SenderOk(base, x) && ReceiverOk(base', peer, x) && x.acked <= peer.rcvd
    requires Total(Act(host, x, PollRequest(slen, reply))) < MODULUS
    ensures Fine(base, base', x, Act(host, x, PollRequest(slen, reply)), peer, Poll(host, x.c, slen, reply).out)
  {
    hide At, PacketOk, AppSend, ConnInv;
    if x.c.state == ESTABLISHED && x.c.len == 0 {
      hide Act, Poll;
      IdleShape(host, x, slen, reply);
      SendOk(host, base, base', x, peer, Told(NO_EVENT.(poll := true), []), slen, reply);
    } else {
      UnchangedOk(base, base', x, Act(host, x, PollRequest(slen, reply)), peer);
    }
  }

  // ----- input events

  /** A segment accepted as in sequence starts at exactly the position the receiver has reached. */
  lemma InSequence(base: u32, base': u32, peer: Side, x: Side, p: Packet)
    requires PacketOk(base, base', peer, p) && !p.seg.flags.rst
    requires Total(peer) < MODULUS && x.rcvd <= Total(peer) && x.c.rcvNxt == At(base, x.rcvd)
    requires p.seg.seqno == x.c.rcvNxt
    ensures p.pos == x.rcvd
  {
    hide At;
    AtInjective(base, p.pos, x.rcvd);
  }

  /** A segment that acknowledges everything outstanding was sent by a peer that had received everything. */
  lemma AckMeansReceived(base: u32, base': u32, x: Side, peer: Side, p: Packet)
    requires PacketOk(base', base, peer, p) && !p.seg.flags.rst
    requires Live(x) && SenderOk(base, x) && ReceiverOk(base, x, peer) && Acknowledges(x.c, p.seg)
    ensures peer.rcvd == Total(x) && Plus(x.c.sndNxt, x.c.len) == At(base, Total(x))
  {
    hide At, Plus;
    AtPlus(base, x.acked, x.c.len);
    AtInjective(base, p.ack, Total(x));
  }

  /** The endpoint between acknowledgment processing and the switch on its state. */
  function AckedSide(x: Side, seg: Segment): Side {
    var c := AfterAck(x.c, seg);
    x.(c := c, acked := if c.len != x.c.len then x.acked + x.c.len else x.acked)
  }

  /** Right numbers, without the state-dependent parts of SenderOk. */
  ghost predicate Numbers(base: u32, base': u32, x: Side, peer: Side) {
    && Total(x) < MODULUS && Total(peer) < MODULUS
    && x.c.sndNxt == At(base, x.acked) && x.acked + x.c.len as int == Total(x) && x.acked <= peer.rcvd
    && (x.c.state != SYN_SENT ==> x.c.rcvNxt == At(base', x.rcvd))
  }

  /** Everything the lemmas about one delivered packet start from. */
  ghost predicate Delivered(base: u32, base': u32, x: Side, peer: Side, p: Packet) {
    && PacketOk(base', base, peer, p) && !p.seg.flags.rst && !OutOfSequence(x.c, p.seg)
    && Live(x) && SenderOk(base, x) && SenderOk(base', peer)
    && ReceiverOk(base, x, peer) && ReceiverOk(base', peer, x) && x.acked <= peer.rcvd && Paired(x, peer)
  }

  lemma AckedSideOk(base: u32, base': u32, x: Side, peer: Side, p: Packet)
    requires Delivered(base, base', x, peer, p)
    ensures var x1 := AckedSide(x, p.seg);
            && Numbers(base, base', x1, peer)
            && x1.c == x.c.(sndNxt := x1.c.sndNxt, len := x1.c.len, sa := x1.c.sa, sv := x1.c.sv, rto := x1.c.rto,
                            timer := x1.c.timer)
            && x1.c.len == (if Acknowledges(x.c, p.seg) then 0 else x.c.len)
  {
    hide At, Plus, PacketOk, Acked;
    AckedKeeps(x.c);
    if Acknowledges(x.c, p.seg) {
      AckMeansReceived(base, base', x, peer, p);
    }
  }

  /** The receiver's numbers after accepting `n` positions. */
  lemma ReceivedOk(base': u32, c: Conn, rcvd: nat, n: nat)
    requires c.rcvNxt == At(base', rcvd)
    ensures c.Received(n).rcvNxt == At(base', rcvd + n)
  {
    hide At, Plus;
    AtPlus(base', rcvd, n);
  }

  /** A FIN that is taken is the whole rest of the peer's stream; data that is taken continues it. */
  lemma TakenOk(base: u32, base': u32, x: Side, peer: Side, p: Packet)
    requires Delivered(base, base', x, peer, p) && x.c.state != SYN_SENT
    ensures p.seg.flags.fin ==> p.seg.payload == [] && x.rcvd + 1 == Total(peer)
    ensures p.seg.payload != [] ==> InStream(peer, x.rcvd, p.seg.payload)
    ensures !p.seg.flags.syn && !p.seg.flags.urg && AtAppdata(p.seg) == p.seg.payload
  {
    hide At, ConnInv, InStream, AtAppdata;
    AsSent(p.seg);
    if p.seg.flags.fin || p.seg.flags.syn || p.seg.payload != [] {
      InSequence(base', base, peer, x, p);
    }
  }

  /** Without options the application finds the data that was sent. */
  lemma AsSent(seg: Segment)
    ensures seg.payload == [] || seg.options == [] ==> AtAppdata(seg) == seg.payload
  {
    assert [] + seg.payload == seg.payload;
  }

  lemma EstablishedFinOk(host: u32, base: u32, base': u32, x: Side, peer: Side, p: Packet, slen: u16, reply: Reply)
    requires Delivered(base, base', x, peer, p) && x.c.state == ESTABLISHED && p.seg.flags.fin && !x.c.stopped
    requires var x' := Act(host, x, Deliver(p, slen, reply)); ConnInv(x'.c) && Total(x') < MODULUS
    ensures Fine(base, base', x, Act(host, x, Deliver(p, slen, reply)), peer,
                 Outcome(host, x, Deliver(p, slen, reply)).out)
  {
    hide At, PacketOk, Plus;
    var x1, x' := AckedSide(x, p.seg), Act(host, x, Deliver(p, slen, reply));
    AckedSideOk(base, base', x, peer, p);
    TakenOk(base, base', x, peer, p);
    ReceivedOk(base', x1.c, x.rcvd, 1);
    if x1.c.len == 0 {
      EmittedOk(host, base, base', x', ACK.(fin := true), []);
    }
  }

  /** Data that continues what was handed on keeps it a prefix of what was sent. */
  lemma PrefixGrows(peer: Side, got: seq<u8>, rcvd: nat, more: seq<u8>)
    requires got <= peer.sent && Off(peer) + |got| == rcvd && (more != [] ==> InStream(peer, rcvd, more))
    ensures got + more <= peer.sent && rcvd + |more| <= Off(peer) + |peer.sent|
  {
  }

  /** The endpoint once in-sequence data was taken and the window noted, before the application answers. */
  function TookData(x: Side, seg: Segment): Side {
    var x1 := AckedSide(x, seg);
    var n := if x.c.stopped then 0 else |seg.payload|;
    x1.(c := x1.c.Received(n).(mss := Window(x1.c, seg.wnd)), rcvd := x.rcvd + n, got := x.got + seg.payload[..n])
  }

  function DataEvent(x: Side, seg: Segment): Told {
    Told(NO_EVENT.(ackdata := Acknowledges(x.c, seg), newdata := |seg.payload| > 0 && !x.c.stopped), seg.payload)
  }

  lemma EstablishedDataShape(host: u32, base: u32, base': u32, x: Side, peer: Side, p: Packet, slen: u16, reply: Reply)
    requires Delivered(base, base', x, peer, p) && x.c.state == ESTABLISHED && !(p.seg.flags.fin && !x.c.stopped)
    ensures var x2, event := TookData(x, p.seg), DataEvent(x, p.seg);
            if event.flags.newdata || event.flags.ackdata then
              Act(host, x, Deliver(p, slen, reply)) == Answered(x2, AppSend(host, x2.c, event, 0, reply), reply)
              && Outcome(host, x, Deliver(p, slen, reply)) == AppSend(host, x2.c, event, 0, reply)
            else Act(host, x, Deliver(p, slen, reply)) == x2 && Outcome(host, x, Deliver(p, slen, reply)).out == None
  {
    hide At, PacketOk, Plus, AppSend, Acked, Take, Window, SenderOk, ReceiverOk, Numbers;
    AckedSideOk(base, base', x, peer, p);
    TakenOk(base, base', x, peer, p);
    var x2, event := TookData(x, p.seg), DataEvent(x, p.seg);
    AppSendTells(host, x2.c, event, 0, reply);
  }

  lemma TookDataOk(base: u32, base': u32, x: Side, peer: Side, p: Packet)
    requires Delivered(base, base', x, peer, p) && x.c.state == ESTABLISHED && !(p.seg.flags.fin && !x.c.stopped)
    ensures Ready(base, base', TookData(x, p.seg), peer)
    ensures Acknowledges(x.c, p.seg) ==> TookData(x, p.seg).c.len == 0
  {
    hide At, PacketOk, Plus, Acked, Acknowledges, OutOfSequence, InStream, AtAppdata, Window, ConnInv;
    TookDataSlot(x, p.seg);
    AckedSideOk(base, base', x, peer, p);
    TakenOk(base, base', x, peer, p);
    assert p.seg.payload[..|p.seg.payload|] == p.seg.payload;
    var n := if x.c.stopped then 0 else |p.seg.payload|;
    ReceivedOk(base', AckedSide(x, p.seg).c, x.rcvd, n);
    PrefixGrows(peer, x.got, x.rcvd, p.seg.payload[..n]);
  }

  lemma TookDataSlot(x: Side, seg: Segment)
    requires ConnInv(x.c) && x.c.state == ESTABLISHED
    ensures ConnInv(TookData(x, seg).c)
  {
    hide Plus, Acked, Acknowledges, OutOfSequence;
    AckedKeeps(x.c);
  }

  /** What must be resent is what the endpoint remembers as outstanding after taking the data. */
  lemma TookDataResends(x: Side, p: Packet, slen: u16, reply: Reply)
    requires x.c.state == ESTABLISHED && !p.seg.flags.rst && !OutOfSequence(x.c, p.seg)
             && Disciplined(x, Deliver(p, slen, reply))
    requires Off(x) <= x.acked <= Off(x) + |x.sent|
    ensures Resends(TookData(x, p.seg), SlenAfter(0, reply), reply)
  {
    hide Plus, Acked, OutOfSequence, Window;
    AckedKeeps(x.c);
  }

  lemma EstablishedDataOk(host: u32, base: u32, base': u32, x: Side, peer: Side, p: Packet, slen: u16, reply: Reply)
    requires Delivered(base, base', x, peer, p) && x.c.state == ESTABLISHED && !(p.seg.flags.fin && !x.c.stopped)
    requires Disciplined(x, Deliver(p, slen, reply))
    requires Total(Act(host, x, Deliver(p, slen, reply))) < MODULUS
    ensures Fine(base, base', x, Act(host, x, Deliver(p, slen, reply)), peer,
                 Outcome(host, x, Deliver(p, slen, reply)).out)
  {
    hide At, PacketOk, Plus, AppSend, Acked, Take, Act, Outcome, ConnInv, Acknowledges, OutOfSequence, Disciplined,
        Resends;
    var x2, event := TookData(x, p.seg), DataEvent(x, p.seg);
    TookDataOk(base, base', x, peer, p);
    EstablishedDataShape(host, base, base', x, peer, p, slen, reply);
    if event.flags.newdata || event.flags.ackdata {
      TookDataResends(x, p, slen, reply);
      SendOk(host, base, base', x2, peer, event, 0, reply);
    }
  }

  /** The endpoint once the acknowledgment of its SYN|ACK opened it and data that came along was taken. */
  function TookAck(x: Side, seg: Segment): Side {
    var x1 := AckedSide(x, seg);
    x1.(c := x1.c.In(ESTABLISHED).Received(|seg.payload|), rcvd := x.rcvd + |seg.payload|, got := x.got + seg.payload)
  }

  lemma SynRcvdShape(host: u32, x: Side, p: Packet, slen: u16, reply: Reply)
    requires x.c.state == SYN_RCVD && Acknowledges(x.c, p.seg) && !p.seg.flags.rst && !OutOfSequence(x.c, p.seg)
    requires AtAppdata(p.seg) == p.seg.payload
    ensures var x2, event := TookAck(x, p.seg),
        Told(NO_EVENT.(connected := true, newdata := |p.seg.payload| > 0), p.seg.payload);
            && Act(host, x, Deliver(p, slen, reply)) == Answered(x2, AppSend(host, x2.c, event, 0, reply), reply)
            && Outcome(host, x, Deliver(p, slen, reply)) == AppSend(host, x2.c, event, 0, reply)
  {
    hide Plus, AppSend, Acked, Take, AtAppdata;
    var x2, event := TookAck(x, p.seg),
        Told(NO_EVENT.(connected := true, newdata := |p.seg.payload| > 0), p.seg.payload);
    AckedKeeps(x.c);
    AppSendTells(host, x2.c, event, 0, reply);
  }

  lemma TookAckSlot(x: Side, seg: Segment)
    requires ConnInv(x.c) && x.c.state == SYN_RCVD && Acknowledges(x.c, seg)
    requires !seg.flags.rst && !OutOfSequence(x.c, seg)
    ensures ConnInv(TookAck(x, seg).c)
  {
    hide Plus, Acked;
    AckedKeeps(x.c);
  }

  lemma TookAckOk(base: u32, base': u32, x: Side, peer: Side, p: Packet)
    requires Delivered(base, base', x, peer, p) && x.c.state == SYN_RCVD && Acknowledges(x.c, p.seg)
    ensures Ready(base, base', TookAck(x, p.seg), peer) && TookAck(x, p.seg).c.len == 0
  {
    hide At, PacketOk, Plus, Acked, Acknowledges, OutOfSequence, InStream, AtAppdata, ConnInv;
    TookAckSlot(x, p.seg);
    AckedSideOk(base, base', x, peer, p);
    TakenOk(base, base', x, peer, p);
    ReceivedOk(base', AckedSide(x, p.seg).c.In(ESTABLISHED), x.rcvd, |p.seg.payload|);
    PrefixGrows(peer, x.got, x.rcvd, p.seg.payload);
  }

  lemma SynRcvdWaits(host: u32, x: Side, p: Packet, slen: u16, reply: Reply)
    requires x.c.state == SYN_RCVD && !Acknowledges(x.c, p.seg) && !p.seg.flags.rst && !OutOfSequence(x.c, p.seg)
    ensures var e := Deliver(p, slen, reply); Act(host, x, e) == x && Outcome(host, x, e).out == None
  {
    assert x.got + [] == x.got;
  }

  /** What is fine after an intermediate state that grew is fine after the state before. */
  lemma FineBefore(base: u32, base': u32, x: Side, x1: Side, x': Side, peer: Side, out: Option<Segment>)
    requires Fine(base, base', x1, x', peer, out) && Grows(x, x1)
    ensures Fine(base, base', x, x', peer, out)
  {
    hide SenderOk, ReceiverOk, PacketOk;
  }

  /** Answered with the acknowledgment of its SYN|ACK, a listening endpoint is ESTABLISHED and takes what came along. */
  lemma SynRcvdOk(host: u32, base: u32, base': u32, x: Side, peer: Side, p: Packet, slen: u16, reply: Reply)
    requires Delivered(base, base', x, peer, p) && x.c.state == SYN_RCVD
    requires Total(Act(host, x, Deliver(p, slen, reply))) < MODULUS
    ensures Fine(base, base', x, Act(host, x, Deliver(p, slen, reply)), peer,
                 Outcome(host, x, Deliver(p, slen, reply)).out)
  {
    hide PacketOk, SenderOk, ReceiverOk, Act, Outcome, AppSend;
    if Acknowledges(x.c, p.seg) {
      hide Acknowledges, OutOfSequence, Ready, Fine;
      TookAckOk(base, base', x, peer, p);
      TakenOk(base, base', x, peer, p);
      SynRcvdShape(host, x, p, slen, reply);
      SendOk(host, base, base', TookAck(x, p.seg), peer,
             Told(NO_EVENT.(connected := true, newdata := |p.seg.payload| > 0), p.seg.payload), 0, reply);
      FineBefore(base, base', x, TookAck(x, p.seg), Act(host, x, Deliver(p, slen, reply)), peer,
                 Outcome(host, x, Deliver(p, slen, reply)).out);
    } else {
      SynRcvdWaits(host, x, p, slen, reply);
    }
  }

  /** Answered with a SYN|ACK, the endpoint that opened takes the peer's numbering from it; anything else closes it. */
  lemma SynSentOk(host: u32, base: u32, base': u32, x: Side, peer: Side, p: Packet, slen: u16, reply: Reply)
    requires Delivered(base, base', x, peer, p) && x.c.state == SYN_SENT
    requires Total(Act(host, x, Deliver(p, slen, reply))) < MODULUS
    ensures Fine(base, base', x, Act(host, x, Deliver(p, slen, reply)), peer,
                 Outcome(host, x, Deliver(p, slen, reply)).out)
  {
    hide At, PacketOk, Plus, AppSend, Acked, Take, WithMss;
    var seg := p.seg;
    var x1 := AckedSide(x, seg);
    AckedSideOk(base, base', x, peer, p);
    if Acknowledges(x.c, seg) && seg.flags == ACK.(syn := true) {
      SynAckOk(base, base', peer, p);
      MssOk(x1.c, seg.mss);
      var x2 := x1.(c := WithMss(x1.c, seg.mss).In(ESTABLISHED).(rcvNxt := Plus(seg.seqno, 1), len := 0), rcvd := 1);
      var event := Told(NO_EVENT.(connected := true, newdata := true), []);
      SendOk(host, base, base', x2, peer, event, 0, reply);
      AppSendTells(host, x2.c, event, 0, reply);
      assert Act(host, x, Deliver(p, slen, reply)) == Answered(x2, AppSend(host, x2.c, event, 0, reply), reply);
    } else {
      var x' := Act(host, x, Deliver(p, slen, reply));
      ResetOk(base, base', x', Outcome(host, x, Deliver(p, slen, reply)).out.value, x'.acked, x'.rcvd);
    }
  }

  /** A SYN's sequence number is that of position 0, and only endpoints that opened or listened send one. */
  lemma SynAckOk(base: u32, base': u32, peer: Side, p: Packet)
    requires PacketOk(base', base, peer, p) && p.seg.flags.syn && !p.seg.flags.rst
    ensures Plus(p.seg.seqno, 1) == At(base', 1) && Off(peer) == 1 && OpeningFlags(peer, p.seg.flags)
  {
    hide At, Plus;
    AtPlus(base', 0, 1);
  }

  lemma MssOk(c: Conn, mss: Option<u16>)
    requires c.mss <= c.initialmss <= UIP_TCP_MSS
    ensures var c' := WithMss(c, mss);
            c' == c.(mss := c'.mss, initialmss := c'.initialmss) && c'.mss <= c'.initialmss <= UIP_TCP_MSS
  {
  }

  /** A closing endpoint's stream is complete: a segment moves it only by acknowledging or by what it carries. */
  lemma ClosingShape(host: u32, x: Side, p: Packet, slen: u16, reply: Reply)
    requires Closing(x.c.state) && !p.seg.flags.rst && !OutOfSequence(x.c, p.seg)
             && (p.seg.flags.fin ==> p.seg.payload == [])
    requires ConnInv(x.c)
    ensures var x1, e := AckedSide(x, p.seg), Deliver(p, slen, reply);
            var r, n := Outcome(host, x, e), Advance(x.c, x1.c, p.seg);
            && Act(host, x, e) == x1.(c := r.c, rcvd := x.rcvd + n)
            && (Closing(r.c.state) || r.c.state == CLOSED)
            && r.c.sndNxt == x1.c.sndNxt && r.c.len == x1.c.len && r.c.rcvNxt == x1.c.Received(n).rcvNxt
            && (n == 0 || (n == 1 && p.seg.flags.fin) || n == |p.seg.payload|)
            && (r.out.Some? ==> r.out == Some(Emit(host, r.c, ACK, [])))
  {
    hide Plus, Acked, Emit;
    AckedKeeps(x.c);
  }

  /** A closing endpoint that took `n` positions, all of them the peer's FIN or data. */
  lemma ClosedSound(base: u32, base': u32, x: Side, x1: Side, x': Side, peer: Side, n: nat)
    requires SenderOk(base, x) && Closing(x.c.state) && ReceiverOk(base', peer, x)
    requires Numbers(base, base', x1, peer) && x1 == x.(c := x1.c, acked := x1.acked) && x.acked <= x1.acked
    requires x1.c.state == x.c.state
    requires x' == x1.(c := x'.c, rcvd := x.rcvd + n) && (Closing(x'.c.state) || x'.c.state == CLOSED) && ConnInv(x'.c)
    requires x'.c.sndNxt == x1.c.sndNxt && x'.c.len == x1.c.len && x'.c.rcvNxt == At(base', x.rcvd + n)
    requires x.rcvd + n <= Total(peer)
    ensures Sound(base, base', x, x', peer)
  {
    hide At, ConnInv;
  }

  lemma ClosingOk(host: u32, base: u32, base': u32, x: Side, peer: Side, p: Packet, slen: u16, reply: Reply)
    requires Delivered(base, base', x, peer, p) && Closing(x.c.state)
    requires var x' := Act(host, x, Deliver(p, slen, reply)); ConnInv(x'.c) && Total(x') < MODULUS
    ensures Fine(base, base', x, Act(host, x, Deliver(p, slen, reply)), peer,
                 Outcome(host, x, Deliver(p, slen, reply)).out)
  {
    hide At, PacketOk, Plus, ConnInv, Acknowledges, OutOfSequence, Act, Outcome, Emit, InStream, ReceiverOk, SenderOk;
    hide AckedSide, Advance;
    var x1, x' := AckedSide(x, p.seg), Act(host, x, Deliver(p, slen, reply));
    var n := Advance(x.c, x1.c, p.seg);
    AckedSideOk(base, base', x, peer, p);
    AckedSideFields(x, p.seg);
    TakenOk(base, base', x, peer, p);
    TakenBound(base, base', x, peer, p);
    SenderSlot(base, x);
    ClosingShape(host, x, p, slen, reply);
    ReceivedOk(base', x1.c, x.rcvd, n);
    ClosedSound(base, base', x, x1, x', peer, n);
    if Outcome(host, x, Deliver(p, slen, reply)).out.Some? {
      EmittedOk(host, base, base', x', ACK, []);
    }
  }

  lemma AckedSideFields(x: Side, seg: Segment)
    ensures var x1 := AckedSide(x, seg); x1 == x.(c := x1.c, acked := x1.acked) && x.acked <= x1.acked
  {
    hide AfterAck;
  }

  lemma TakenBound(base: u32, base': u32, x: Side, peer: Side, p: Packet)
    requires Delivered(base, base', x, peer, p) && x.c.state != SYN_SENT
    ensures x.rcvd <= Total(peer) && x.rcvd + |p.seg.payload| <= Total(peer)
    ensures p.seg.flags.fin ==> x.rcvd + 1 <= Total(peer)
  {
    hide At, PacketOk, ConnInv;
    TakenOk(base, base', x, peer, p);
  }

  lemma SenderSlot(base: u32, x: Side)
    requires SenderOk(base, x)
    ensures ConnInv(x.c) && x.acked <= Total(x)
  {
    hide At, ConnInv;
  }

  /** While an endpoint's SYN is unanswered its peer has sent nothing that could be out of sequence. */
  lemma NothingBeforeSynAck(base: u32, base': u32, x: Side, peer: Side, p: Packet)
    requires PacketOk(base', base, peer, p) && !p.seg.flags.rst
    requires SenderOk(base, x) && SenderOk(base', peer) && Paired(x, peer) && peer.acked <= x.rcvd
             && x.c.state == SYN_SENT
    ensures !OutOfSequence(x.c, p.seg)
  {
    hide At;
  }

  lemma DeliverOk(host: u32, base: u32, base': u32, x: Side, peer: Side, p: Packet, slen: u16, reply: Reply)
    requires PacketOk(base', base, peer, p)
    requires SenderOk(base, x) && SenderOk(base', peer) && Paired(x, peer) && peer.acked <= x.rcvd
    requires ReceiverOk(base, x, peer) && ReceiverOk(base', peer, x) && x.acked <= peer.rcvd
    requires Disciplined(x, Deliver(p, slen, reply)) && Total(Act(host, x, Deliver(p, slen, reply))) < MODULUS
    ensures Fine(base, base', x, Act(host, x, Deliver(p, slen, reply)), peer,
                 Outcome(host, x, Deliver(p, slen, reply)).out)
  {
    hide At, PacketOk, Plus, ByState, Acked;
    var x' := Act(host, x, Deliver(p, slen, reply));
    var r := Outcome(host, x, Deliver(p, slen, reply));
    if Live(x) {
      FoundKeeps(host, x.c, slen, p.seg, reply);
      if p.seg.flags.rst {
        UnchangedOk(base, base', x, x', peer);
      } else if OutOfSequence(x.c, p.seg) {
        if x.c.state == SYN_SENT {
          NothingBeforeSynAck(base, base', x, peer, p);
        }
        UnchangedOk(base, base', x, x', peer);
        EmittedOk(host, base, base', x', ACK, []);
      } else if x.c.state == SYN_SENT {
        SynSentOk(host, base, base', x, peer, p, slen, reply);
      } else if x.c.state == SYN_RCVD {
        SynRcvdOk(host, base, base', x, peer, p, slen, reply);
      } else if x.c.state != ESTABLISHED {
        ClosingOk(host, base, base', x, peer, p, slen, reply);
      } else if p.seg.flags.fin && !x.c.stopped {
        EstablishedFinOk(host, base, base', x, peer, p, slen, reply);
      } else {
        EstablishedDataOk(host, base, base', x, peer, p, slen, reply);
      }
    } else {
      UnchangedOk(base, base', x, x', peer);
      if r.out.Some? {
        ResetOk(base, base', x', r.out.value, x'.acked, x'.rcvd);
      }
    }
  }

  // ----- the system

  /** A SYN meets a listening endpoint: both sides' numbering is fixed from here on. */
  lemma ListenedOk(host: u32, base: u32, base': u32, x: Side, peer: Side, mine: set<Packet>, theirs: set<Packet>,
          e: NetEvent)
    requires Direction(base, base', x, peer, mine) && Direction(base', base, peer, x, theirs)
    requires e.Listened? && e.packet in theirs && MayListen(base, x, e) && UsableSlot(e)
    ensures Direction(base, base', Act(host, x, e), peer, mine + Emitted(host, x, e))
    ensures Direction(base', base, peer, Act(host, x, e), theirs)
  {
    hide At, Plus;
    var x' := Act(host, x, e);
    SynAckOk(base, base', peer, e.packet);
    EmittedOk(host, base, base', x', ACK.(syn := true), []);
    hide PacketOk;
  }

  lemma RecycledOk(host: u32, base: u32, base': u32, x: Side, peer: Side)
    requires SenderOk(base, x) && ReceiverOk(base', peer, x) && x.acked <= peer.rcvd
    ensures Sound(base, base', x, Act(host, x, Recycled), peer)
  {
    UnchangedOk(base, base', x, Act(host, x, Recycled), peer);
  }

  lemma ActOk(host: u32, base: u32, base': u32, x: Side, peer: Side, mine: set<Packet>, theirs: set<Packet>,
          e: NetEvent)
    requires Direction(base, base', x, peer, mine) && Direction(base', base, peer, x, theirs)
    requires Allowed(host, base, x, theirs, e) && UsableSlot(e)
    ensures Direction(base, base', Act(host, x, e), peer, mine + Emitted(host, x, e))
    ensures Direction(base', base, peer, Act(host, x, e), theirs)
  {
    hide PacketOk, SenderOk, ReceiverOk, Sound, Act, Found, Timer, Poll;
    if e.Listened? {
      ListenedOk(host, base, base', x, peer, mine, theirs, e);
    } else {
      match e {
        case Deliver(p, slen, reply) =>
          if p.seg.flags.rst {
            ResetOk(base', base, peer, p.seg, p.pos, p.ack);
          }
          DeliverOk(host, base, base', x, peer, p, slen, reply);
        case Tick(reply) => TickOk(host, base, base', x, peer, reply);
        case PollRequest(slen, reply) => PollOk(host, base, base', x, peer, slen, reply);
        case _ => RecycledOk(host, base, base', x, peer);
      }
      SoundKeepsBoth(base, base', x, Act(host, x, e), peer, mine, theirs, Emitted(host, x, e));
    }
  }

  /** Every event at either endpoint keeps the two in agreement. */
  lemma StepKeepsAgreement(g: Setting, s: System, who: Who, e: NetEvent)
    requires Agreement(g, s) && Possible(g, s, who, e)
    ensures Agreement(g, Next(g, s, who, e))
  {
    hide Direction, Act, Emitted;
    match who
    case A => ActOk(g.hostA, g.baseA, g.baseB, s.a, s.b, s.ab, s.ba, e);
    case B => ActOk(g.hostB, g.baseB, g.baseA, s.b, s.a, s.ba, s.ab, e);
  }

  ghost predicate PossibleRun(g: Setting, s: System, run: seq<(Who, NetEvent)>)
    decreases |run|
  {
    run == [] || (Possible(g, s, run[0].0, run[0].1) && PossibleRun(g, Next(g, s, run[0].0, run[0].1), run[1..]))
  }

  function After(g: Setting, s: System, run: seq<(Who, NetEvent)>): System
    decreases |run|
  {
    if run == [] then s else After(g, Next(g, s, run[0].0, run[0].1), run[1..])
  }

  lemma {:induction false} RunKeepsAgreement(g: Setting, s: System, run: seq<(Who, NetEvent)>)
    requires Agreement(g, s) && PossibleRun(g, s, run)
    ensures Agreement(g, After(g, s, run))
    decreases |run|
  {
    hide Agreement, Possible, Next;
    if run != [] {
      StepKeepsAgreement(g, s, run[0].0, run[0].1);
      RunKeepsAgreement(g, Next(g, s, run[0].0, run[0].1), run[1..]);
    }
  }

  /** What the receiver `y` was handed is a prefix of what `x` sent, and y's position lies in x's send window. */
  ghost predicate SafeDelivery(base: u32, x: Side, y: Side) {
    && y.got <= x.sent
    && x.acked <= y.rcvd <= Total(x)
    && (Live(x) ==> x.c.sndNxt == At(base, x.acked) && Total(x) == x.acked + x.c.len as int)
    && (Live(y) && y.c.state != SYN_SENT ==> y.c.rcvNxt == At(base, y.rcvd))
    && (y.c.state == ESTABLISHED ==> Off(x) + |y.got| == y.rcvd)
  }

  /**
    End-to-end safety. Whatever the channel loses, repeats or reorders, in both directions: delivered bytes are a prefix
    of the bytes sent, in order and without repetition, and snd_nxt <= rcv_nxt <= snd_nxt + len.
   */
  lemma EndToEnd(g: Setting, s: System, run: seq<(Who, NetEvent)>)
    requires Begins(g, s) && PossibleRun(g, s, run)
    ensures var s' := After(g, s, run);
            SafeDelivery(g.baseA, s'.a, s'.b) && SafeDelivery(g.baseB, s'.b, s'.a)
  {
    hide PossibleRun, After, At;
    RunKeepsAgreement(g, s, run);
  }

  /**
    The handshake agrees on both numberings. Whoever is ESTABLISHED has a peer that took its SYN, so neither is half
    open to an endpoint that never answered, and with nothing outstanding each expects exactly the number the other
    sends next.
   */
  lemma HandshakeAgrees(g: Setting, s: System, run: seq<(Who, NetEvent)>)
    requires Begins(g, s) && s.a.origin.Active? && PossibleRun(g, s, run)
    ensures var s' := After(g, s, run);
            && (s'.a.c.state == ESTABLISHED ==> s'.b.origin.Passive? && s'.b.rcvd >= 1)
            && (s'.b.c.state == ESTABLISHED ==> s'.b.origin.Passive? && s'.a.rcvd >= 1 && s'.a.c.state != SYN_SENT)
            && (s'.a.c.state == s'.b.c.state == ESTABLISHED ==>
                  && (s'.a.c.len == 0 ==> s'.b.c.rcvNxt == s'.a.c.sndNxt)
                  && (s'.b.c.len == 0 ==> s'.a.c.rcvNxt == s'.b.c.sndNxt))
  {
    hide PossibleRun, After, At;
    RunKeepsAgreement(g, s, run);
    OriginStays(g, s, run);
  }

  lemma {:induction false} OriginStays(g: Setting, s: System, run: seq<(Who, NetEvent)>)
    requires s.a.origin.Active? && PossibleRun(g, s, run)
    ensures After(g, s, run).a.origin.Active?
    decreases |run|
  {
    hide At, ConnInv, Outcome, Disciplined;
    if run != [] {
      OriginStays(g, Next(g, s, run[0].0, run[0].1), run[1..]);
    }
  }

  /**
    Nothing outstanding at `x`: its peer `y` reached the end of its stream and, while it is open, handed all of it on.
   */
  predicate AllReceived(x: Side, y: Side) {
    Live(x) && x.c.len == 0 ==> y.rcvd == Total(x) && (y.c.state == ESTABLISHED ==> y.got == x.sent)
  }

  /** Nothing is acknowledged that was not received, in either direction. */
  lemma AcknowledgedMeansReceived(g: Setting, s: System, run: seq<(Who, NetEvent)>)
    requires Begins(g, s) && PossibleRun(g, s, run)
    ensures AllReceived(After(g, s, run).a, After(g, s, run).b) && AllReceived(After(g, s, run).b, After(g, s, run).a)
  {
    hide PossibleRun, After, At;
    RunKeepsAgreement(g, s, run);
  }
}
