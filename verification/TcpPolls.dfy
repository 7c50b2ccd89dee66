/**
 When the stack sends what the application did not give it. uip_slen is one variable for all connections, and a poll
 request, unlike every other event, hands appsend the value an earlier packet of any connection left in it.
 */
module TcpPolls {
  import opened Words
  import opened SeqNum
  import opened Tcp
  import opened TcpInvariants
  import opened TcpTable
  import opened TcpTimers

  function ReplyOf(e: Event): Option<Reply> {
    match e
    case InputEvent(_, reply) => Some(reply)
    case TimerEvent(_, reply) => Some(reply)
    case PollEvent(_, reply) => Some(reply)
    case _ => None
  }

  /** The application neither sends nor closes in this event. */
  predicate Silent(e: Event) { ReplyOf(e).Some? ==> Quiet(ReplyOf(e).value) }

  /** Slot `i` has data outstanding after an event that found it idle and left it in ESTABLISHED. */
  predicate Commits(host: u32, bigEndian: bool, u: Uip, e: Event, i: nat)
    requires i < |u.conns|
  {
    var c := Step(host, bigEndian, u, e).conns;
    i < |c| && c[i].state == ESTABLISHED && c[i].len > 0
  }

  lemma IdleFoundStaysIdle(host: u32, c: Conn, slen: u16, seg: Segment, reply: Reply)
    requires IdleEstablished(c) && Quiet(reply)
    ensures var c' := Found(host, c, slen, seg, reply).c; c'.state == ESTABLISHED ==> c'.len == 0
  {
    hide Plus;
  }

  lemma NotTaken(conns: seq<Conn>, i: nat)
    requires i < |conns| && IdleEstablished(conns[i])
    ensures FreeSlot(conns) != Some(i)
  {
    FreeSlotMeaning(conns);
  }

  lemma SilentInput(host: u32, u: Uip, seg: Segment, reply: Reply, i: nat)
    requires i < |u.conns| && IdleEstablished(u.conns[i]) && Quiet(reply)
    ensures var c := Input(host, u, seg, reply).u.conns; i < |c| && (c[i].state == ESTABLISHED ==> c[i].len == 0)
  {
    hide Found, Accept, FreeSlot, Emit, Reset;
    NotTaken(u.conns, i);
    IdleFoundStaysIdle(host, u.conns[i], u.slen, seg, reply);
  }

  /**
    With a silent application an idle connection gets data outstanding if and only if the event is a poll request for
    it, an earlier packet left a length in uip_slen, and the peer lets anything through.
   */
  lemma SilentCommitIff(host: u32, bigEndian: bool, u: Uip, e: Event, i: nat)
    requires i < |u.conns| && IdleEstablished(u.conns[i]) && Silent(e)
    ensures Commits(host, bigEndian, u, e, i) <==> e.PollEvent? && e.i == i && u.slen > 0 && u.conns[i].mss > 0
  {
    hide Found, Accept, Opened, FreeSlot, SearchPort, Input;
    NotTaken(u.conns, i);
    if e.InputEvent? {
      SilentInput(host, u, e.seg, e.reply, i);
    }
  }

  lemma AppSendLeaves(host: u32, c: Conn, told: Told, slen: u16, reply: Reply)
    requires Quiet(reply) && (slen == 0 || c.len == 0)
    ensures AppSend(host, c, told, slen, reply).slen <= slen
  {
  }

  lemma FoundLeaves(host: u32, c: Conn, slen: u16, seg: Segment, reply: Reply)
    requires Quiet(reply)
    ensures var r := Found(host, c, slen, seg, reply); r.slen == slen || r.slen == 0
  {
    hide Plus, Acked, AppSend, Emit, WithMss, Data;
    forall c', told
      ensures AppSend(host, c', told, 0, reply).slen == 0
    {
      AppSendLeaves(host, c', told, 0, reply);
    }
  }

  /** A silent application leaves no new length behind, and a timer call clears the old one. */
  lemma SilentEventsLeaveNothing(host: u32, bigEndian: bool, u: Uip, e: Event)
    requires Silent(e)
    ensures var slen := Step(host, bigEndian, u, e).slen;
            slen <= u.slen && (e.TimerEvent? && e.i < |u.conns| ==> slen == 0)
  {
    hide Found, AppSend, Accept, Opened, FreeSlot, SearchPort, Emit, Reset, AppRexmit, Backoff;
    match e
    case InputEvent(seg, reply) =>
      var k := Demux(u.conns, seg, 0);
      if k < |u.conns| {
        FoundLeaves(host, u.conns[k], u.slen, seg, reply);
      }
    case TimerEvent(i, reply) =>
      if i < |u.conns| {
        AppSendLeaves(host, u.conns[i], Told(NO_EVENT.(poll := true), []), 0, reply);
      }
    case PollEvent(i, reply) =>
      if i < |u.conns| && u.conns[i].len == 0 {
        AppSendLeaves(host, u.conns[i], Told(NO_EVENT.(poll := true), []), u.slen, reply);
      }
    case _ =>
  }

  // ----- a run in which it happens

  function Syn(port: u16): Segment {
    Segment(0, 0, port, 80, Bytes4(0, 0, 0, 0), Bytes4(0, 0, 0, 0), SYN, 0, 0, MssOption(), Some(UIP_TCP_MSS), [])
  }

  /** The peer's acknowledgment of a SYN that carried `iss`. */
  function Handshake(port: u16, iss: Bytes4): Segment {
    Segment(0, 0, port, 80, Bytes4(0, 0, 0, 1), Plus(iss, 1), ACK, 0, 0, [], None, [])
  }

  /** Two peers connect to port 80; the application gives the second five bytes and the first nothing. */
  function TwoConnections(iss: Bytes4, quiet: Reply): seq<Event> {
    [ListenEvent(80),
     InputEvent(Syn(1), quiet), InputEvent(Handshake(1, iss), quiet),
     InputEvent(Syn(2), quiet), InputEvent(Handshake(2, iss), quiet.(send := Some(5)))]
  }

  /** The slot of a peer's connection once its SYN came. */
  predicate Opening(c: Conn, port: u16, iss: Bytes4) {
    && c.Is(SYN_RCVD) && c.lport == 80 && c.rport == port && c.ripaddr == 0 && c.len == 1 && c.sndNxt == iss
    && c.mss == UIP_TCP_MSS
  }

  lemma SynTaken(host: u32, u: Uip, port: u16, quiet: Reply, k: nat)
    requires forall i | 0 <= i < |u.conns| :: !Matches(u.conns[i], Syn(port))
    requires 80 in u.listenports && FreeSlot(u.conns) == Some(k)
    ensures var u' := Input(host, u, Syn(port), quiet).u;
            |u'.conns| == |u.conns| && u' == u.(conns := u.conns[k := u'.conns[k]]) && Opening(u'.conns[k], port, u.iss)
  {
    hide Emit, Reset, FreeSlot, Plus;
    DemuxMatches(u.conns, Syn(port), 0);
  }

  lemma HandshakeDone(host: u32, c: Conn, slen: u16, port: u16, iss: Bytes4, reply: Reply)
    requires Opening(c, port, iss) && reply.action == Continue && reply.flow == Keep
    requires reply.send.None? || reply.send == Some(5)
    ensures var r := Found(host, c, slen, Handshake(port, iss), reply);
            && r.c.state == ESTABLISHED && !r.c.stopped && r.c.lport == 80 && r.c.rport == port && r.c.ripaddr == 0
            && r.c.mss == UIP_TCP_MSS
            && r.c.len == r.slen == if reply.send.None? then 0 else 5
  {
    hide Plus, RttUpdate;
    AckedKeeps(c);
    RttFields(c);
  }

  lemma RttFields(c: Conn)
    ensures RttUpdate(c) == c.(sa := RttUpdate(c).sa, sv := RttUpdate(c).sv, rto := RttUpdate(c).rto)
  {
    hide Wrap8, Signed8;
  }

  lemma HandshakeInput(host: u32, u: Uip, k: nat, port: u16, reply: Reply)
    requires k < |u.conns| && Opening(u.conns[k], port, u.iss) && reply.action == Continue && reply.flow == Keep
    requires reply.send.None? || reply.send == Some(5)
    requires forall i | 0 <= i < k :: !Matches(u.conns[i], Handshake(port, u.iss))
    ensures var u' := Input(host, u, Handshake(port, u.iss), reply).u;
            && |u'.conns| == |u.conns| && u' == u.(conns := u.conns[k := u'.conns[k]], slen := u'.slen)
            && u'.conns[k].state == ESTABLISHED && !u'.conns[k].stopped && u'.conns[k].lport == 80
            && u'.conns[k].rport == port
            && u'.conns[k].mss == UIP_TCP_MSS && u'.conns[k].len == u'.slen == if reply.send.None? then 0 else 5
  {
    hide Found, Emit, Reset, FreeSlot, Plus;
    HandshakeDone(host, u.conns[k], u.slen, port, u.iss, reply);
    FirstMatch(u.conns, Handshake(port, u.iss), 0, k);
  }

  lemma {:induction false} FirstMatch(conns: seq<Conn>, seg: Segment, i: nat, k: nat)
    requires i <= k < |conns| && Matches(conns[k], seg) && forall j | i <= j < k :: !Matches(conns[j], seg)
    ensures Demux(conns, seg, i) == k
    decreases k - i
  {
    if i < k {
      FirstMatch(conns, seg, i + 1, k);
    }
  }

  /** From uip_init the stack reaches a state in which a poll request commits five bytes nobody gave it. */
  lemma StaleLengthReached(host: u32, bigEndian: bool, u: Uip, quiet: Reply)
    requires Initial(u) && quiet.send.None? && quiet.action == Continue && quiet.flow == Keep
    ensures var u' := Run(host, bigEndian, u, TwoConnections(u.iss, quiet));
            && |u'.conns| == |u.conns| && IdleEstablished(u'.conns[0]) && u'.slen == 5
            && Commits(host, bigEndian, u', PollEvent(0, quiet), 0)
            && Step(host, bigEndian, u', PollEvent(0, quiet)).conns[0].len == 5
  {
    hide Input, Plus, FreeSlot, Matches, Demux, Run, IndexOf;
    var u1 := Listen(u, 80);
    var u2 := Input(host, u1, Syn(1), quiet).u;
    var u3 := Input(host, u2, Handshake(1, u.iss), quiet).u;
    var u4 := Input(host, u3, Syn(2), quiet).u;
    var u5 := Input(host, u4, Handshake(2, u.iss), quiet.(send := Some(5))).u;
    FirstListener(u);
    assert u1.listenports[0] == 80;
    NoMatch(u.conns, 0, 1);
    SynTaken(host, u1, 1, quiet, 0);
    HandshakeInput(host, u2, 0, 1, quiet);
    NoMatch(u3.conns, 1, 2);
    SynTaken(host, u3, 2, quiet, 1);
    OtherPort(u4.conns[0], u.iss);
    HandshakeInput(host, u4, 1, 2, quiet.(send := Some(5)));
    RunOfFive(host, bigEndian, u, quiet, u1, u2, u3, u4, u5);
    PollCommits(host, bigEndian, u5, quiet);
  }

  lemma FirstListener(u: Uip)
    requires Initial(u)
    ensures Listen(u, 80) == u.(listenports := u.listenports[0 := 80])
  {
  }

  /** All slots from `n` on are CLOSED, and those before are connections of other ports. */
  lemma NoMatch(conns: seq<Conn>, n: nat, port: u16)
    requires n < |conns| && n <= 1 && forall i | n <= i < |conns| :: conns[i].Is(CLOSED)
    requires forall i | 0 <= i < n :: !conns[i].Is(CLOSED) && conns[i].rport != port
    ensures forall i | 0 <= i < |conns| :: !Matches(conns[i], Syn(port))
    ensures FreeSlot(conns) == Some(n)
  {
    assert FirstClosed(conns, n) == n;
  }

  lemma OtherPort(c: Conn, iss: Bytes4)
    requires c.rport == 1
    ensures !Matches(c, Handshake(2, iss))
  {
  }

  lemma RunOfFive(host: u32, bigEndian: bool, u: Uip, quiet: Reply, u1: Uip, u2: Uip, u3: Uip, u4: Uip, u5: Uip)
    requires u1 == Listen(u, 80) && u2 == Input(host, u1, Syn(1), quiet).u
             && u3 == Input(host, u2, Handshake(1, u.iss), quiet).u
    requires u4 == Input(host, u3, Syn(2), quiet).u && u5 ==
        Input(host, u4, Handshake(2, u.iss), quiet.(send := Some(5))).u
    ensures Run(host, bigEndian, u, TwoConnections(u.iss, quiet)) == u5
  {
    hide Input, Listen;
    var es := TwoConnections(u.iss, quiet);
    assert Run(host, bigEndian, u5, es[5..]) == u5;
    assert es[4..][1..] == es[5..] && Run(host, bigEndian, u4, es[4..]) == u5;
    assert es[3..][1..] == es[4..] && Run(host, bigEndian, u3, es[3..]) == u5;
    assert es[2..][1..] == es[3..] && Run(host, bigEndian, u2, es[2..]) == u5;
    assert es[1..][1..] == es[2..] && Run(host, bigEndian, u1, es[1..]) == u5;
  }

  lemma PollCommits(host: u32, bigEndian: bool, u: Uip, quiet: Reply)
    requires 0 < |u.conns| && IdleEstablished(u.conns[0]) && u.slen == 5 && u.conns[0].mss == UIP_TCP_MSS
    requires quiet.send.None? && quiet.action == Continue && quiet.flow == Keep
    ensures Commits(host, bigEndian, u, PollEvent(0, quiet), 0)
            && Step(host, bigEndian, u, PollEvent(0, quiet)).conns[0].len == 5
  {
  }
}
