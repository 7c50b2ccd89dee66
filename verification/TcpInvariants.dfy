/** What every connection slot satisfies after every event, whatever arrives and whatever the application does. */
module TcpInvariants {
  import opened Words
  import opened SeqNum
  import opened Tcp

  /** A SYN or FIN of ours is outstanding. */
  predicate ControlOutstanding(st: State) {
    st == SYN_SENT || st == SYN_RCVD || st == FIN_WAIT_1 || st == CLOSING || st == LAST_ACK
  }

  /** Length, window, timer and flag discipline of one slot. */
  predicate ConnInv(c: Conn) {
    && (c.stopped ==> c.state == ESTABLISHED)
    && (ControlOutstanding(c.state) ==> c.len == 1)
    && (c.state == FIN_WAIT_2 || c.state == TIME_WAIT ==> c.len == 0)
    && (c.state == ESTABLISHED ==> c.len <= c.initialmss)
    && c.mss <= c.initialmss <= UIP_TCP_MSS
    && c.nrtx <= UIP_MAXRTX
    && (c.state == SYN_SENT || c.state == SYN_RCVD ==> c.nrtx <= UIP_MAXSYNRTX)
  }

  /**
    A data segment leaves an open connection with what that remembers as outstanding, and it fits the packet buffer; no
    other segment carries data.
   */
  predicate OutputInv(r: Result) {
    r.out.Some? ==>
      if r.out.value.flags.psh then
        && r.c.state == ESTABLISHED && 0 < r.c.len && r.c.len + UIP_TCPIP_HLEN <= UIP_BUFSIZE - UIP_LLH_LEN
        && r.out.value.seqno == r.c.sndNxt && |r.out.value.payload| == r.c.len as int
      else r.out.value.payload == []
  }

  /**
    What the clock can do to a slot: nothing, close it, or let the application close a connection it is asked about.
   */
  predicate ClockEdge(a: State, b: State) { b == a || b == CLOSED || (a == ESTABLISHED && b == FIN_WAIT_1) }

  /**
    What a segment can do to a slot: an edge of the diagram in section 3.2 of RFC 793, with CLOSE_WAIT folded into
    LAST_ACK, or two of them when the application closes in the callback that opens, or when a FIN also acknowledges
    ours. A reset, an abort or a last acknowledgment closes; nothing reopens.
   */
  predicate SegmentEdge(a: State, b: State) {
    || b == a || b == CLOSED
    || ((a == SYN_SENT || a == SYN_RCVD) && (b == ESTABLISHED || b == FIN_WAIT_1))
    || (a == ESTABLISHED && (b == FIN_WAIT_1 || b == LAST_ACK))
    || (a == FIN_WAIT_1 && (b == FIN_WAIT_2 || b == CLOSING || b == TIME_WAIT))
    || ((a == FIN_WAIT_2 || a == CLOSING) && b == TIME_WAIT)
  }

  predicate SamePeer(a: Conn, b: Conn) { a.lport == b.lport && a.rport == b.rport && a.ripaddr == b.ripaddr }

  /** What any event does to the slot it addresses. */
  predicate Keeps(c: Conn, r: Result) {
    ConnInv(r.c) && OutputInv(r) && SegmentEdge(c.state, r.c.state) && SamePeer(c, r.c)
      && (c.Is(CLOSED) ==> r.c.Is(CLOSED))
  }

  lemma AppSendKeeps(host: u32, c: Conn, told: Told, slen: u16, reply: Reply)
    requires ConnInv(c) && c.state == ESTABLISHED
    ensures var r := AppSend(host, c, told, slen, reply);
            ConnInv(r.c) && OutputInv(r) && ClockEdge(ESTABLISHED, r.c.state) && SamePeer(c, r.c)
  {
  }

  lemma RetransmitKeeps(host: u32, c: Conn, reply: Reply)
    requires ConnInv(c) && c.state != CLOSED && c.len > 0
    ensures var r := Retransmit(host, c, reply); Keeps(c, r) && r.c.state == c.state
  {
  }

  lemma TimerKeeps(host: u32, c: Conn, reply: Reply)
    requires ConnInv(c)
    ensures Keeps(c, Timer(host, c, reply)) && ClockEdge(c.state, Timer(host, c, reply).c.state)
  {
    hide Retransmit, AppSend, Backoff;
    if c.len > 0 && !(c.Is(FIN_WAIT_2) || c.Is(TIME_WAIT) || c.Is(CLOSED)) {
      if c.timer == 0 && !GivesUp(c) {
        RetransmitKeeps(host, c.(timer := Backoff(c.nrtx), nrtx := Wrap8(c.nrtx as int + 1)), reply);
      }
    } else if c.state == ESTABLISHED && c.len == 0 {
      AppSendKeeps(host, c, Told(NO_EVENT.(poll := true), []), 0, reply);
    }
  }

  lemma PollKeeps(host: u32, c: Conn, slen: u16, reply: Reply)
    requires ConnInv(c)
    ensures Keeps(c, Poll(host, c, slen, reply)) && ClockEdge(c.state, Poll(host, c, slen, reply).c.state)
  {
    if c.state == ESTABLISHED {
      AppSendKeeps(host, c, Told(NO_EVENT.(poll := true), []), slen, reply);
    }
  }

  /** Acknowledgment processing clears len and touches nothing else the invariant mentions. */
  lemma AckedKeeps(c: Conn)
    ensures Acked(c) == c.(sndNxt := Plus(c.sndNxt, c.len), len := 0,
                           sa := Acked(c).sa, sv := Acked(c).sv, rto := Acked(c).rto, timer := Acked(c).rto)
  {
  }

  lemma FoundKeeps(host: u32, c: Conn, slen: u16, seg: Segment, reply: Reply)
    requires ConnInv(c) && !c.Is(CLOSED)
    ensures Keeps(c, Found(host, c, slen, seg, reply))
  {
    hide RttUpdate, Plus, Acked;
    if !seg.flags.rst && !OutOfSequence(c, seg) {
      var ackd := Acknowledges(c, seg);
      AckedKeeps(c);
      ByStateKeeps(host, c, if ackd then Acked(c) else c, ackd, slen, seg, reply);
    }
  }

  /** After acknowledgment processing len is what it was, or 0 with the acknowledgment flagged. */
  lemma ByStateKeeps(host: u32, c0: Conn, c: Conn, ackd: bool, slen: u16, seg: Segment, reply: Reply)
    requires ConnInv(c0) && c0.state != CLOSED
    requires c.state == c0.state && c.stopped == c0.stopped && SamePeer(c0, c) && c.mss == c0.mss
             && c.initialmss == c0.initialmss
    requires c.nrtx == c0.nrtx && c.len == (if ackd then 0 else c0.len) && (ackd ==> c0.len > 0)
    ensures Keeps(c0, ByState(host, c, ackd, slen, seg, reply))
  {
    hide Plus, Wrap16, AppSend;
    if c.state == SYN_RCVD || c.state == SYN_SENT || c.state == ESTABLISHED {
      OpenStateKeeps(host, c0, c, ackd, slen, seg, reply);
    }
  }

  lemma OpenStateKeeps(host: u32, c0: Conn, c: Conn, ackd: bool, slen: u16, seg: Segment, reply: Reply)
    requires ConnInv(c0) && (c0.state == SYN_RCVD || c0.state == SYN_SENT || c0.state == ESTABLISHED)
    requires c.state == c0.state && c.stopped == c0.stopped && SamePeer(c0, c) && c.mss == c0.mss
             && c.initialmss == c0.initialmss
    requires c.nrtx == c0.nrtx && c.len == (if ackd then 0 else c0.len) && (ackd ==> c0.len > 0)
    ensures Keeps(c0, ByState(host, c, ackd, slen, seg, reply))
  {
    hide Plus, Wrap16, AppSend;
    match c.state
    case SYN_RCVD =>
      if ackd {
        var c' := c.In(ESTABLISHED).(len := 0).Received(|seg.payload|);
        AppSendKeeps(host, c', Told(NO_EVENT.(connected := true, newdata := |seg.payload| > 0), AtAppdata(seg)), 0,
                     reply);
      }
    case SYN_SENT =>
      if ackd && seg.flags == ACK.(syn := true) {
        var c' := WithMss(c, seg.mss).In(ESTABLISHED).(rcvNxt := Plus(seg.seqno, 1), len := 0);
        AppSendKeeps(host, c', Told(NO_EVENT.(connected := true, newdata := true), []), 0, reply);
      }
    case ESTABLISHED =>
      var isNew := DataLength(seg) > 0 && !c.stopped;
      var c' := (if isNew then c.Received(DataLength(seg)) else c).(mss := Window(c, seg.wnd));
      AppSendKeeps(host, c', Told(NO_EVENT.(ackdata := ackd, newdata := isNew), Data(seg)), 0, reply);
  }

  lemma FreshSlotsKeep(c: Conn, iss: Bytes4, seg: Segment, lport: u16, ripaddr: u32, rport: u16)
    requires ConnInv(c)
    ensures ConnInv(Accept(c, iss, seg)) && ConnInv(Opened(c, iss, lport, ripaddr, rport))
  {
  }

  ghost predicate TableInv(u: Uip) { forall i | 0 <= i < |u.conns| :: ConnInv(u.conns[i]) }

  lemma StepKeepsTable(host: u32, bigEndian: bool, u: Uip, e: Event)
    requires TableInv(u)
    ensures TableInv(Step(host, bigEndian, u, e))
  {
    hide ConnInv, Found, Timer, Poll, Accept, Opened, SearchPort;
    match e
    case InputEvent(seg, reply) =>
      var k := Demux(u.conns, seg, 0);
      if k < |u.conns| {
        DemuxMatches(u.conns, seg, 0);
        FoundKeeps(host, u.conns[k], u.slen, seg, reply);
      } else if FreeSlot(u.conns).Some? {
        FreshSlotsKeep(u.conns[FreeSlot(u.conns).value], u.iss, seg, 0, 0, 0);
      }
    case TimerEvent(i, reply) =>
      if i < |u.conns| {
        TimerKeeps(host, u.conns[i], reply);
      }
    case PollEvent(i, reply) =>
      if i < |u.conns| {
        PollKeeps(host, u.conns[i], u.slen, reply);
      }
    case ConnectEvent(ripaddr, rport) =>
      if FreeSlot(u.conns).Some? {
        var port := SearchPort(bigEndian, u.conns, u.lastport, |u.conns|);
        var seg := Segment(0, 0, 0, 0, u.iss, u.iss, NO_FLAGS, 0, 0, [], None, []);
        FreshSlotsKeep(u.conns[FreeSlot(u.conns).value], u.iss, seg, Htons(bigEndian, port), ripaddr, rport);
      }
    case _ =>
  }

  lemma {:induction false} DemuxMatches(conns: seq<Conn>, seg: Segment, i: nat)
    requires i <= |conns|
    ensures var k := Demux(conns, seg, i);
            && (k < |conns| ==> Matches(conns[k], seg))
            && forall j | i <= j < k :: !Matches(conns[j], seg)
    decreases |conns| - i
  {
    if i < |conns| && !Matches(conns[i], seg) {
      DemuxMatches(conns, seg, i + 1);
    }
  }

  /** In every reachable state every slot satisfies the discipline. */
  lemma {:induction false} RunKeepsTable(host: u32, bigEndian: bool, u: Uip, events: seq<Event>)
    requires TableInv(u)
    ensures TableInv(Run(host, bigEndian, u, events))
    decreases |events|
  {
    if events != [] {
      StepKeepsTable(host, bigEndian, u, events[0]);
      RunKeepsTable(host, bigEndian, Step(host, bigEndian, u, events[0]), events[1..]);
    }
  }

  lemma ReachableTable(host: u32, bigEndian: bool, u: Uip, events: seq<Event>)
    requires Initial(u)
    ensures TableInv(Run(host, bigEndian, u, events))
  {
    RunKeepsTable(host, bigEndian, u, events);
  }
}
