/**
 The limits a listener takes from a SYN. Without an MSS option the slot keeps those of its last connection, which are 0
 in a slot not used since uip_init; whether the connection can ever send data depends on them.
 */
module TcpLimits {
  import opened Words
  import opened SeqNum
  import opened Tcp
  import opened TcpInvariants

  /** What happens to a slot while it holds one connection. */
  datatype SlotEvent =
    | Arrives(seg: Segment, slen: u16, reply: Reply)
    | Ticks(reply: Reply)
    | Polled(slen: u16, reply: Reply)

  /** A closed slot gets no segments: the next one that names it opens another connection. */
  function Slot(host: u32, c: Conn, e: SlotEvent): Conn {
    match e
    case Arrives(seg, slen, reply) => if c.state == CLOSED then c else Found(host, c, slen, seg, reply).c
    case Ticks(reply) => Timer(host, c, reply).c
    case Polled(slen, reply) => Poll(host, c, slen, reply).c
  }

  function Slots(host: u32, c: Conn, events: seq<SlotEvent>): Conn
    decreases |events|
  {
    if events == [] then c else Slots(host, Slot(host, c, events[0]), events[1..])
  }

  /** Data of the application is on its way to the peer. */
  predicate Sending(c: Conn) { c.state == ESTABLISHED && c.len > 0 }

  /** No limit lets a byte through, and no SYN|ACK will bring another. */
  predicate Mute(c: Conn) { ConnInv(c) && c.initialmss == 0 && c.state != SYN_SENT }

  lemma SlotStaysMute(host: u32, c: Conn, e: SlotEvent)
    requires Mute(c)
    ensures Mute(Slot(host, c, e)) && !Sending(Slot(host, c, e))
  {
    hide Found, Timer, Poll;
    match e
    case Arrives(seg, slen, reply) =>
      if c.state != CLOSED {
        FoundKeeps(host, c, slen, seg, reply);
        FoundLimit(host, c, slen, seg, reply);
      }
    case Ticks(reply) =>
      TimerKeeps(host, c, reply);
      ClockLimit(host, c, 0, reply);
    case Polled(slen, reply) =>
      PollKeeps(host, c, slen, reply);
      ClockLimit(host, c, slen, reply);
  }

  /** Only a SYN|ACK changes the initial limit. */
  lemma FoundLimit(host: u32, c: Conn, slen: u16, seg: Segment, reply: Reply)
    requires c.state != SYN_SENT
    ensures Found(host, c, slen, seg, reply).c.initialmss == c.initialmss
  {
    hide RttUpdate, Plus, Acked, Emit, AppRexmit;
    AckedKeeps(c);
  }

  lemma ClockLimit(host: u32, c: Conn, slen: u16, reply: Reply)
    ensures Timer(host, c, reply).c.initialmss == c.initialmss == Poll(host, c, slen, reply).c.initialmss
  {
    hide Emit, AppRexmit;
  }

  lemma {:induction false} StaysMute(host: u32, c: Conn, events: seq<SlotEvent>)
    requires Mute(c) && !Sending(c)
    ensures Mute(Slots(host, c, events)) && !Sending(Slots(host, c, events))
    decreases |events|
  {
    hide Mute, Slot;
    if events != [] {
      SlotStaysMute(host, c, events[0]);
      StaysMute(host, Slot(host, c, events[0]), events[1..]);
    }
  }

  // ----- a run that sends

  function Silence(): Reply { Reply(None, seq(UIP_TCP_MSS as int, _ => 0), Continue, Keep) }

  /** The acknowledgment of the SYN|ACK, then a byte that the application answers with one. */
  function Exchange(c: Conn): seq<SlotEvent> {
    var ack := Segment(c.ripaddr, 0, c.rport, c.lport, c.rcvNxt, Plus(c.sndNxt, 1), ACK, 0, 0, [], None, []);
    [Arrives(ack, 0, Silence()), Arrives(ack.(payload := [0]), 0, Silence().(send := Some(1)))]
  }

  lemma ExchangeSends(host: u32, c: Conn)
    requires ConnInv(c) && c.Is(SYN_RCVD) && c.initialmss > 0
    ensures Sending(Slots(host, c, Exchange(c)))
  {
    hide Slot, Plus;
    var es := Exchange(c);
    var c1 := Slot(host, c, es[0]);
    Established(host, c);
    Answers(host, c1, es[1]);
    assert es[1..][1..] == [] && Slots(host, c1, es[1..]) == Slots(host, Slot(host, c1, es[1]), []);
  }

  lemma Established(host: u32, c: Conn)
    requires ConnInv(c) && c.Is(SYN_RCVD)
    ensures var c1 := Slot(host, c, Exchange(c)[0]);
            c1.Is(ESTABLISHED) && c1.len == 0 && c1.initialmss == c.initialmss && c1.rcvNxt == c.rcvNxt
  {
    hide RttUpdate, Plus, Acked;
    AckedKeeps(c);
  }

  lemma Answers(host: u32, c: Conn, e: SlotEvent)
    requires c.Is(ESTABLISHED) && c.len == 0 && c.initialmss > 0
    requires e.Arrives? && e.reply == Silence().(send := Some(1)) && e.seg.flags == ACK && e.seg.seqno == c.rcvNxt
    requires |e.seg.payload| == 1
    ensures Sending(Slot(host, c, e))
  {
    hide Plus;
  }

  /** The limit an accepted connection starts with is above 0. */
  predicate Limited(c: Conn, mss: Option<u16>) { if mss.Some? then mss.value > 0 else c.initialmss > 0 }

  /**
    A connection accepted in slot `c` can ever get data of the application on its way if and only if its SYN carried an
    MSS other than 0, or none and the slot's old limit was not 0.
   */
  lemma AcceptedCanSendIff(host: u32, c: Conn, iss: Bytes4, seg: Segment)
    requires ConnInv(c)
    ensures (exists events :: Sending(Slots(host, Accept(c, iss, seg), events))) <==> Limited(c, seg.mss)
  {
    hide ConnInv, Slots, Plus, Exchange;
    var a := Accept(c, iss, seg);
    FreshSlotsKeep(c, iss, seg, 0, 0, 0);
    if Limited(c, seg.mss) {
      ExchangeSends(host, a);
    } else {
      forall events
        ensures !Sending(Slots(host, a, events))
      {
        StaysMute(host, a, events);
      }
    }
  }

  /**
    In a slot not used since uip_init a SYN without the option, or with an MSS of 0, opens a connection that never
    sends.
   */
  lemma FirstUseNeedsMss(host: u32, u: Uip, i: nat, iss: Bytes4, seg: Segment, events: seq<SlotEvent>)
    requires Initial(u) && i < |u.conns| && (seg.mss.None? || seg.mss.value == 0)
    ensures !Sending(Slots(host, Accept(u.conns[i], iss, seg), events))
  {
    hide Slots, Accept;
    AcceptedCanSendIff(host, u.conns[i], iss, seg);
  }
}
