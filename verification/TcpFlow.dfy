/**
 Flow control. What a connection puts on its way is measured against the window of the last segment it took and against
 the limit its SYN set, over everything that can happen to its slot.
 */
module TcpFlow {
  import opened Words
  import opened SeqNum
  import opened Tcp
  import opened TcpInvariants
  import opened TcpLimits

  /** An open connection takes the segment: it is no reset, not out of sequence, and no FIN it minds. */
  predicate Takes(c: Conn, e: SlotEvent) {
    && e.Arrives? && c.state == ESTABLISHED && !e.seg.flags.rst && (e.seg.flags.fin ==> c.stopped)
    && (e.seg.payload != [] || e.seg.flags.syn || e.seg.flags.fin ==> e.seg.seqno == c.rcvNxt)
  }

  /** The window of the last segment taken in a run, `before` being that of the last one before it. */
  function LastWindow(host: u32, c: Conn, events: seq<SlotEvent>, before: Option<u16>): Option<u16>
    decreases |events|
  {
    if events == [] then before
    else LastWindow(host, Slot(host, c, events[0]), events[1..], WindowAfter(c, events[0], before))
  }

  function WindowAfter(c: Conn, e: SlotEvent, before: Option<u16>): Option<u16> {
    if Takes(c, e) then Some(e.seg.wnd) else before
  }

  /**
    What may be on its way at once: the peer's window, but no more than the limit, and the limit when that is closed.
   */
  function Allowance(window: Option<u16>, limit: u16): u16 {
    if window.Some? && 1 <= window.value <= limit then window.value else limit
  }

  /** What the application has to send in an event; a poll request finds the length an earlier packet left. */
  function Offered(e: SlotEvent): u16 {
    var left := if e.Polled? then e.slen else 0;
    match e.reply.send
    case Some(n) => if n > 0 then n else left
    case None => left
  }

  function Answer(host: u32, c: Conn, e: SlotEvent): Result {
    match e
    case Arrives(seg, slen, reply) =>
      if c.state == CLOSED then Result(c, slen, None, None) else Found(host, c, slen, seg, reply)
    case Ticks(reply) => Timer(host, c, reply)
    case Polled(slen, reply) => Poll(host, c, slen, reply)
  }

  /**
    The event leaves data on its way in an open connection, where there was none: it had nothing outstanding, got all of
    it acknowledged, or was not open yet.
   */
  predicate Commits(host: u32, c: Conn, e: SlotEvent) {
    && Sending(Slot(host, c, e))
    && (c.state == ESTABLISHED ==> c.len == 0 || (Takes(c, e) && Acknowledges(c, e.seg)))
  }

  predicate Opening(c: Conn) { c.state == SYN_SENT || c.state == SYN_RCVD }

  /** The connection goes by the last window it took. */
  predicate Obeys(c: Conn, window: Option<u16>) {
    && ConnInv(c)
    && (Opening(c) ==> window.None?)
    && (Opening(c) || c.state == ESTABLISHED ==> c.mss == Allowance(window, c.initialmss))
  }

  /** What an answer of the application to `c` amounts to when nothing is on its way. */
  lemma SendsNoMore(host: u32, c: Conn, told: Told, slen: u16, reply: Reply)
    requires ConnInv(c) && c.state == ESTABLISHED && c.len == 0
    ensures var r := AppSend(host, c, told, slen, reply);
            && r.c.mss == c.mss && r.c.initialmss == c.initialmss
            && (Sending(r.c) ==> r.c.len == Least(SlenAfter(slen, reply), c.mss) && Carries(r))
  {
  }

  lemma KeepsLimits(host: u32, c: Conn, told: Told, slen: u16, reply: Reply)
    ensures var r := AppSend(host, c, told, slen, reply); r.c.mss == c.mss && r.c.initialmss == c.initialmss
  {
  }

  function Least(a: u16, b: u16): u16 { if a < b then a else b }

  /** A data segment carries all that is on its way, and its length is what uip_slen is left at. */
  predicate Carries(r: Result) {
    && r.slen == r.c.len && r.out.Some?
    && r.out.value.flags == ACK.(psh := true) && |r.out.value.payload| == r.c.len as int
  }

  /** What an event makes of an open connection's bounds, and of what it sends. */
  predicate Bounded(host: u32, c: Conn, e: SlotEvent, before: Option<u16>) {
    var r, window := Answer(host, c, e), WindowAfter(c, e, before);
    && (r.c.state == ESTABLISHED || Opening(r.c) ==> Obeys(r.c, window))
    && (Commits(host, c, e) ==> r.c.len == Least(Offered(e), Allowance(window, r.c.initialmss)) && Carries(r))
  }

  lemma RetransmitLimits(host: u32, c: Conn, reply: Reply)
    ensures var r := Retransmit(host, c, reply); r.c.mss == c.mss && r.c.initialmss == c.initialmss
  {
  }

  lemma ClockBounded(host: u32, c: Conn, e: SlotEvent, before: Option<u16>)
    requires Obeys(c, before) && !e.Arrives?
    ensures Bounded(host, c, e, before)
  {
    hide AppSend, AppRexmit, Emit, Retransmit, Backoff;
    TimerKeeps(host, c, e.reply);
    PollKeeps(host, c, if e.Polled? then e.slen else 0, e.reply);
    RetransmitLimits(host, c.(timer := Backoff(c.nrtx), nrtx := Wrap8(c.nrtx as int + 1)), e.reply);
    if c.state == ESTABLISHED && c.len == 0 {
      var poll := Told(NO_EVENT.(poll := true), []);
      SendsNoMore(host, c, poll, if e.Polled? then e.slen else 0, e.reply);
    }
  }

  lemma ArrivalBounded(host: u32, c: Conn, e: SlotEvent, before: Option<u16>)
    requires Obeys(c, before) && e.Arrives? && c.state != CLOSED
    ensures Bounded(host, c, e, before)
  {
    hide AppSend, AppRexmit, Emit, Plus, Acked, RttUpdate, Found, ConnInv;
    FoundKeeps(host, c, e.slen, e.seg, e.reply);
    AckedKeeps(c);
    match c.state
    case SYN_RCVD => OpensBounded(host, c, e, before);
    case SYN_SENT => OpensBounded(host, c, e, before);
    case ESTABLISHED =>
      if Takes(c, e) {
        TakenBounded(host, c, e, before);
      } else {
        NotTakenBounded(host, c, e, before);
      }
    case _ =>
  }

  lemma OpensBounded(host: u32, c: Conn, e: SlotEvent, before: Option<u16>)
    requires Obeys(c, before) && e.Arrives? && Opening(c)
    ensures Bounded(host, c, e, before)
  {
    hide AppSend, AppRexmit, Emit, Plus, Acked, RttUpdate;
    FoundKeeps(host, c, e.slen, e.seg, e.reply);
    AckedKeeps(c);
    var seg, c1 := e.seg, Acked(c);
    if Acknowledges(c, seg) {
      if c.state == SYN_RCVD {
        var c' := c1.In(ESTABLISHED).(len := 0).Received(|seg.payload|);
        SendsNoMore(host, c', Told(NO_EVENT.(connected := true, newdata := |seg.payload| > 0), AtAppdata(seg)), 0,
                    e.reply);
      } else {
        var c' := WithMss(c1, seg.mss).In(ESTABLISHED).(rcvNxt := Plus(seg.seqno, 1), len := 0);
        SendsNoMore(host, c', Told(NO_EVENT.(connected := true, newdata := true), []), 0, e.reply);
      }
    }
  }

  /** An open connection that took a segment and its window. */
  function Noted(c: Conn, seg: Segment): Conn {
    var c1 := if Acknowledges(c, seg) then Acked(c) else c;
    (if DataLength(seg) > 0 && !c.stopped then c1.Received(DataLength(seg)) else c1)
    .(mss := Allowance(Some(seg.wnd), c.initialmss))
  }

  lemma NotedFields(c: Conn, seg: Segment)
    requires ConnInv(c) && c.state == ESTABLISHED
    ensures var n := Noted(c, seg);
            && ConnInv(n) && n.state == ESTABLISHED && n.initialmss == c.initialmss
            && n.mss == Allowance(Some(seg.wnd), c.initialmss)
            && n.len == if Acknowledges(c, seg) then 0 else c.len
  {
    hide Plus, Acked;
    AckedKeeps(c);
  }

  lemma TakenShape(host: u32, c: Conn, e: SlotEvent)
    requires Takes(c, e)
    ensures var seg := e.seg;
            var ackd, isNew := Acknowledges(c, seg), DataLength(seg) > 0 && !c.stopped;
            Found(host, c, e.slen, seg, e.reply) ==
            if isNew || ackd then
              AppSend(host, Noted(c, seg), Told(NO_EVENT.(ackdata := ackd, newdata := isNew), Data(seg)), 0, e.reply)
            else Result(Noted(c, seg), e.slen, None, None)
  {
    hide AppSend, Plus, Acked, DataLength, Data;
    AckedKeeps(c);
  }

  lemma TakenBounded(host: u32, c: Conn, e: SlotEvent, before: Option<u16>)
    requires Obeys(c, before) && Takes(c, e)
    ensures Bounded(host, c, e, before)
  {
    hide AppSend, ConnInv, Noted, Plus, Acknowledges, Found, DataLength, Data;
    var seg := e.seg;
    var ackd, isNew := Acknowledges(c, seg), DataLength(seg) > 0 && !c.stopped;
    FoundKeeps(host, c, e.slen, seg, e.reply);
    NotedFields(c, seg);
    TakenShape(host, c, e);
    var told := Told(NO_EVENT.(ackdata := ackd, newdata := isNew), Data(seg));
    KeepsLimits(host, Noted(c, seg), told, 0, e.reply);
    if Noted(c, seg).len == 0 {
      SendsNoMore(host, Noted(c, seg), told, 0, e.reply);
    }
  }

  /** A segment that is not taken leaves an open connection as it is, closes it or makes it close. */
  lemma NotTakenBounded(host: u32, c: Conn, e: SlotEvent, before: Option<u16>)
    requires Obeys(c, before) && e.Arrives? && c.state == ESTABLISHED && !Takes(c, e)
    ensures Bounded(host, c, e, before)
  {
    hide AppSend, Plus, ConnInv;
    NotTakenShape(host, c, e);
  }

  lemma NotTakenShape(host: u32, c: Conn, e: SlotEvent)
    requires e.Arrives? && c.state == ESTABLISHED && !Takes(c, e)
    ensures var r := Found(host, c, e.slen, e.seg, e.reply);
            r.c.state == ESTABLISHED ==> r.c == c
  {
    hide AppSend, Plus, Acked;
    AckedKeeps(c);
  }

  lemma EventBounded(host: u32, c: Conn, e: SlotEvent, before: Option<u16>)
    requires Obeys(c, before)
    ensures Bounded(host, c, e, before) && Obeys(Slot(host, c, e), WindowAfter(c, e, before))
  {
    hide Found, Timer, Poll, ConnInv, Bounded;
    if !e.Arrives? {
      TimerKeeps(host, c, e.reply);
      PollKeeps(host, c, if e.Polled? then e.slen else 0, e.reply);
      ClockBounded(host, c, e, before);
    } else if c.state != CLOSED {
      FoundKeeps(host, c, e.slen, e.seg, e.reply);
      ArrivalBounded(host, c, e, before);
    }
    BoundedObeys(host, c, e, before);
  }

  lemma BoundedObeys(host: u32, c: Conn, e: SlotEvent, before: Option<u16>)
    requires Bounded(host, c, e, before) || c.state == CLOSED
    requires Obeys(c, before) && ConnInv(Slot(host, c, e)) && SegmentEdge(c.state, Slot(host, c, e).state)
    ensures Bounded(host, c, e, before) && Obeys(Slot(host, c, e), WindowAfter(c, e, before))
  {
    hide Found, Timer, Poll, ConnInv;
  }

  lemma {:induction false} RunObeys(host: u32, c: Conn, events: seq<SlotEvent>, before: Option<u16>)
    requires Obeys(c, before)
    ensures Obeys(Slots(host, c, events), LastWindow(host, c, events, before))
    decreases |events|
  {
    hide Obeys, Slot, WindowAfter;
    if events != [] {
      EventBounded(host, c, events[0], before);
      RunObeys(host, Slot(host, c, events[0]), events[1..], WindowAfter(c, events[0], before));
    }
  }

  /**
    Flow control, over everything that happened to a connection since it began: what is put on its way is what the
    application has to send, cut to the window of the last segment taken if that lies within the connection's limit, and
    to the limit otherwise; the segment carries just that.
   */
  lemma FlowControl(host: u32, c: Conn, events: seq<SlotEvent>, e: SlotEvent)
    requires ConnInv(c) && c.mss == c.initialmss && (Opening(c) || c.state == ESTABLISHED)
    requires Commits(host, Slots(host, c, events), e)
    ensures var now := Slots(host, c, events);
            var window, r := WindowAfter(now, e, LastWindow(host, c, events, None)), Answer(host, now, e);
            && r.c == Slot(host, now, e) && r.c.len == Least(Offered(e), Allowance(window, r.c.initialmss))
            && Carries(r)
  {
    hide ConnInv, Slots, Slot, LastWindow, Carries, Commits;
    RunObeys(host, c, events, None);
    EventBounded(host, Slots(host, c, events), e, LastWindow(host, c, events, None));
    CommitsOpen(host, Slots(host, c, events), e);
  }

  lemma CommitsOpen(host: u32, c: Conn, e: SlotEvent)
    requires Commits(host, c, e)
    ensures Answer(host, c, e).c == Slot(host, c, e) && Slot(host, c, e).state == ESTABLISHED
  {
    hide Found, Timer, Poll;
  }

  /** The limit is what the SYN said, but no more than fits the buffer, as long as the connection lasts. */
  lemma {:induction false} LimitStays(host: u32, c: Conn, events: seq<SlotEvent>)
    requires ConnInv(c) && c.state != SYN_SENT
    ensures var c' := Slots(host, c, events); ConnInv(c') && c'.state != SYN_SENT && c'.initialmss == c.initialmss
    decreases |events|
  {
    hide Slot, ConnInv;
    if events != [] {
      SlotLimit(host, c, events[0]);
      LimitStays(host, Slot(host, c, events[0]), events[1..]);
    }
  }

  lemma SlotLimit(host: u32, c: Conn, e: SlotEvent)
    requires ConnInv(c) && c.state != SYN_SENT
    ensures var c' := Slot(host, c, e); ConnInv(c') && c'.state != SYN_SENT && c'.initialmss == c.initialmss
  {
    hide Found, Timer, Poll;
    match e
    case Arrives(seg, slen, reply) =>
      if c.state != CLOSED {
        FoundKeeps(host, c, slen, seg, reply);
        FoundLimit(host, c, slen, seg, reply);
      }
    case Ticks(reply) =>
      TimerKeeps(host, c, reply);
      ClockLimit(host, c, 0, reply);
    case Polled(slen, reply) =>
      PollKeeps(host, c, slen, reply);
      ClockLimit(host, c, slen, reply);
  }

  /** An accepted connection never has more on its way than its SYN allowed, nor than the buffer holds. */
  lemma AcceptedLimit(host: u32, c: Conn, iss: Bytes4, seg: Segment, events: seq<SlotEvent>, e: SlotEvent)
    requires ConnInv(c) && seg.mss.Some? && Commits(host, Slots(host, Accept(c, iss, seg), events), e)
    ensures var a := Accept(c, iss, seg);
            var now := Slots(host, a, events);
            var window := WindowAfter(now, e, LastWindow(host, a, events, None));
            var r := Answer(host, now, e);
            r.out.Some? && |r.out.value.payload|
                           == Least(Offered(e), Allowance(window, Least(seg.mss.value, UIP_TCP_MSS))) as int
  {
    hide Slots, Slot, LastWindow, Commits, Offered, Allowance, WindowAfter, Plus, Answer;
    var a := Accept(c, iss, seg);
    FreshSlotsKeep(c, iss, seg, 0, 0, 0);
    FlowControl(host, a, events, e);
    LimitStays(host, a, events);
    SlotLimit(host, Slots(host, a, events), e);
  }

  lemma {:induction false} SynSentStays(host: u32, c: Conn, events: seq<SlotEvent>)
    requires ConnInv(c) && c.state == SYN_SENT && Slots(host, c, events).state == SYN_SENT
    ensures Slots(host, c, events).initialmss == c.initialmss && ConnInv(Slots(host, c, events))
    decreases |events|
  {
    hide Slot, ConnInv;
    if events != [] {
      SynSentStep(host, c, events[0]);
      if Slot(host, c, events[0]).state == SYN_SENT {
        SynSentStays(host, Slot(host, c, events[0]), events[1..]);
      } else {
        NotSynSentAgain(host, Slot(host, c, events[0]), events[1..]);
      }
    }
  }

  lemma {:induction false} NotSynSentAgain(host: u32, c: Conn, events: seq<SlotEvent>)
    requires ConnInv(c) && c.state != SYN_SENT
    ensures Slots(host, c, events).state != SYN_SENT
    decreases |events|
  {
    hide Slot, ConnInv;
    if events != [] {
      SlotLimit(host, c, events[0]);
      NotSynSentAgain(host, Slot(host, c, events[0]), events[1..]);
    }
  }

  /** What an event makes of the limit of a slot whose SYN is not answered yet. */
  lemma SynSentStep(host: u32, c: Conn, e: SlotEvent)
    requires ConnInv(c) && c.state == SYN_SENT
    ensures var c' := Slot(host, c, e);
            && ConnInv(c')
            && (c'.state == SYN_SENT ==> c'.initialmss == c.initialmss)
            && (c'.state == ESTABLISHED ==> e.Arrives?)
            && (c'.state == ESTABLISHED ==>
                  c'.initialmss == if e.seg.mss.Some? then Least(e.seg.mss.value, UIP_TCP_MSS) else c.initialmss)
  {
    hide Plus, Acked, AppRexmit, Emit, Backoff;
    match e
    case Arrives(seg, slen, reply) =>
      FoundKeeps(host, c, slen, seg, reply);
      AckedKeeps(c);
      var c' := WithMss(Acked(c), seg.mss).In(ESTABLISHED).(rcvNxt := Plus(seg.seqno, 1), len := 0);
      KeepsLimits(host, c', Told(NO_EVENT.(connected := true, newdata := true), []), 0, reply);
    case Ticks(reply) =>
      TimerKeeps(host, c, reply);
      ClockLimit(host, c, 0, reply);
    case Polled(slen, reply) =>
      PollKeeps(host, c, slen, reply);
      ClockLimit(host, c, slen, reply);
  }

  /**
    The limit of an opened connection is what the SYN|ACK said, at most what fits the buffer, and that if it said
    nothing.
   */
  lemma OpenedLimit(host: u32, c: Conn, iss: Bytes4, lport: u16, ripaddr: u32, rport: u16, events: seq<SlotEvent>,
          e: SlotEvent)
    requires ConnInv(c)
    requires var now := Slots(host, Opened(c, iss, lport, ripaddr, rport), events);
             now.state == SYN_SENT && Slot(host, now, e).state == ESTABLISHED
    ensures var now := Slots(host, Opened(c, iss, lport, ripaddr, rport), events);
            e.Arrives? && Slot(host, now, e).initialmss
                          == if e.seg.mss.Some? then Least(e.seg.mss.value, UIP_TCP_MSS) else UIP_TCP_MSS
  {
    hide Slots, Slot;
    var o := Opened(c, iss, lport, ripaddr, rport);
    SynSentStays(host, o, events);
    SynSentStep(host, Slots(host, o, events), e);
  }
}
