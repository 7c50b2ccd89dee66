/**
 Data gets through: from any state two open endpoints can reach, some run delivers and acknowledges what is outstanding.
 */
module TcpProgress {
  import opened Words
  import opened SeqNum
  import opened Tcp
  import opened TcpInvariants
  import opened TcpEndToEnd
  import opened TcpHandshake

  // ----- whatever is outstanding is received whole or not at all

  /** The position behind all a packet carries. */
  function End(p: Packet): nat {
    p.pos + |p.seg.payload| + (if p.seg.flags.syn then 1 else 0) + (if p.seg.flags.fin then 1 else 0)
  }

  /** Nothing that is on its way, and nothing received, ends within what `x` has outstanding. */
  ghost predicate Whole(x: Side, y: Side, channel: set<Packet>) {
    && (y.rcvd == x.acked || y.rcvd == Total(x))
    && forall p | p in channel && !p.seg.flags.rst :: End(p) <= x.acked || End(p) == Total(x)
  }

  ghost predicate AllWhole(s: System) {
    Whole(s.a, s.b, s.ab) && Whole(s.b, s.a, s.ba) && Posted(s.a.c, s.ab) && Posted(s.b.c, s.ba)
  }

  /** A data segment with everything `c` has outstanding. */
  predicate CarriesAll(c: Conn, seg: Segment) {
    seg.flags == ACK.(psh := true) && seg.options == [] && |seg.payload| == c.len as int && seg.seqno == c.sndNxt
  }

  /** What an open connection has outstanding was put on the wire when it was committed. */
  ghost predicate Posted(c: Conn, channel: set<Packet>) {
    c.state == ESTABLISHED && c.len > 0 ==> exists p :: p in channel && CarriesAll(c, p.seg)
  }

  /** An endpoint adds to its stream only with nothing outstanding. */
  lemma GrowsWhenIdle(host: u32, x: Side, e: NetEvent)
    requires ConnInv(x.c) && Disciplined(x, e) && !e.Listened? && !e.Recycled?
    ensures var x' := Act(host, x, e); Total(x') != Total(x) ==> Consulted(x, e).len == 0
  {
    hide Plus, Acked, AppRexmit, Emit, Reset, Take, RttUpdate;
    if e.Deliver? && Live(x) {
      AckedKeeps(x.c);
    }
  }

  /** Acknowledgments are all or nothing, and a stream that grew was acknowledged to its end. */
  lemma AckedWhole(host: u32, base: u32, x: Side, e: NetEvent)
    requires SenderOk(base, x) && Disciplined(x, e) && !e.Listened? && !e.Recycled?
    ensures var x' := Act(host, x, e);
            && (x'.acked == x.acked || x'.acked == Total(x))
            && (Total(x') != Total(x) ==> x'.acked == Total(x) || !Live(x))
            && (!Live(x) ==> Total(x') == Total(x) && x'.acked == x.acked)
  {
    hide Outcome, At, AfterAck;
    GrowsWhenIdle(host, x, e);
    if !Live(x) {
      DeadStays(host, x, e);
    } else if Consulted(x, e).len != x.c.len {
      ConsultedLength(x, e);
    }
  }

  lemma ConsultedLength(x: Side, e: NetEvent)
    ensures Consulted(x, e).len == x.c.len || Consulted(x, e).len == 0
  {
    hide Plus, OutOfSequence, Acknowledges;
    if e.Deliver? {
      AckedKeeps(x.c);
    }
  }

  lemma DeadStays(host: u32, x: Side, e: NetEvent)
    requires !Live(x) && !e.Listened? && !e.Recycled? && ConnInv(x.c)
    ensures var x' := Act(host, x, e); Total(x') == Total(x) && x'.acked == x.acked
  {
    hide AppSend, Found;
  }

  /** What an endpoint emits ends where it is acknowledged to, or at the end of its stream. */
  lemma EmittedWhole(base: u32, base': u32, x': Side, out: Segment)
    requires SenderOk(base, x') && PacketOk(base, base', x', Packet(out, x'.acked, x'.rcvd)) && !out.flags.rst
    requires out.flags.psh ==> x'.c.state == ESTABLISHED && |out.payload| == x'.c.len as int
    requires !out.flags.psh ==> out.payload == []
    ensures End(Packet(out, x'.acked, x'.rcvd)) == x'.acked || End(Packet(out, x'.acked, x'.rcvd)) == Total(x')
  {
    hide At;
  }

  /** An endpoint takes all a packet carries or nothing. */
  lemma TakesWhole(base: u32, base': u32, x: Side, peer: Side, p: Packet)
    requires PacketOk(base', base, peer, p) && Live(x)
    requires SenderOk(base, x) && SenderOk(base', peer) && Paired(x, peer) && peer.acked <= x.rcvd
    requires ReceiverOk(base, x, peer) && ReceiverOk(base', peer, x) && x.acked <= peer.rcvd
    ensures var n := Advance(x.c, AfterAck(x.c, p.seg), p.seg);
            n == 0 || (!p.seg.flags.rst && p.pos == x.rcvd && x.rcvd + n == End(p))
  {
    hide At, PacketOk, Plus, Acked;
    AckedKeeps(x.c);
    if !p.seg.flags.rst && !OutOfSequence(x.c, p.seg) {
      if x.c.state == SYN_SENT {
        if p.seg.flags == ACK.(syn := true) {
          SynAckCarries(base', base, peer, p);
        }
      } else {
        TakenOk(base, base', x, peer, p);
        if p.seg.flags.fin || p.seg.payload != [] {
          InSequence(base', base, peer, x, p);
        }
      }
    }
  }

  lemma SynAckCarries(base: u32, base': u32, peer: Side, p: Packet)
    requires PacketOk(base, base', peer, p) && p.seg.flags == ACK.(syn := true)
    ensures p.pos == 0 && End(p) == 1
  {
    hide At;
  }

  /** What an event may do to the positions of one endpoint, and what it may send. */
  ghost predicate MovesWhole(x: Side, x': Side, peer: Side, theirs: set<Packet>, out: set<Packet>) {
    && (x'.acked == x.acked || x'.acked == Total(x)) && (Total(x') != Total(x) ==> x'.acked == Total(x))
        && x.acked <= x'.acked
    && (x'.rcvd == x.rcvd || exists p :: p in theirs && !p.seg.flags.rst && p.pos == x.rcvd < End(p) == x'.rcvd)
    && (forall p | p in out && !p.seg.flags.rst :: End(p) == x'.acked || End(p) == Total(x'))
  }

  lemma MovesKeepWhole(x: Side, x': Side, peer: Side, mine: set<Packet>, theirs: set<Packet>, out: set<Packet>)
    requires Whole(x, peer, mine) && Whole(peer, x, theirs) && MovesWhole(x, x', peer, theirs, out)
    requires x.acked <= Total(x) && peer.acked <= x.rcvd && x'.acked <= peer.rcvd <= Total(x)
    ensures Whole(x', peer, mine + out) && Whole(peer, x', theirs)
  {
  }

  lemma OutcomeKeeps(host: u32, x: Side, e: NetEvent)
    requires ConnInv(x.c) && !e.Listened? && !e.Recycled?
    ensures var r := Outcome(host, x, e); OutputInv(r) || (r.out.Some? && r.out.value.flags.rst)
    ensures Act(host, x, e).c == Outcome(host, x, e).c
  {
    hide Found, Timer, Poll, ConnInv, OutputInv, Advance, Consulted;
    match e
    case Deliver(p, slen, reply) =>
      if Live(x) {
        OpenFound(host, x.c, slen, p.seg, reply);
      } else {
        hide Reset;
        ResetKeeps(host, x.c, slen, p.seg);
      }
    case Tick(reply) => TimerKeeps(host, x.c, reply);
    case PollRequest(slen, reply) => PollKeeps(host, x.c, slen, reply);
    case _ =>
  }

  lemma OpenFound(host: u32, c: Conn, slen: u16, seg: Segment, reply: Reply)
    requires ConnInv(c) && c.state != CLOSED
    ensures OutputInv(Found(host, c, slen, seg, reply))
  {
    hide ConnInv, Found;
    FoundKeeps(host, c, slen, seg, reply);
  }

  lemma ResetKeeps(host: u32, c: Conn, slen: u16, seg: Segment)
    ensures OutputInv(Result(c, slen, Reset(host, seg), None))
  {
  }

  /** Packets an event puts on the wire. */
  lemma EmittedMoves(host: u32, base: u32, base': u32, x: Side, e: NetEvent)
    requires SenderOk(base, x) && SenderOk(base, Act(host, x, e)) && !e.Listened? && !e.Recycled?
    requires forall p | p in Emitted(host, x, e) :: PacketOk(base, base', Act(host, x, e), p)
    ensures var x' := Act(host, x, e);
            forall p | p in Emitted(host, x, e) && !p.seg.flags.rst :: End(p) == x'.acked || End(p) == Total(x')
  {
    hide SenderOk, PacketOk, Act, Outcome, End;
    var x', out := Act(host, x, e), Outcome(host, x, e).out;
    SenderSlot(base, x);
    OutcomeKeeps(host, x, e);
    if out.Some? && !out.value.flags.rst {
      assert Packet(out.value, x'.acked, x'.rcvd) in Emitted(host, x, e);
      EmittedWhole(base, base', x', out.value);
    }
  }

  /** Positions an event receives up to. */
  lemma ReceivedMoves(host: u32, base: u32, base': u32, x: Side, peer: Side, mine: set<Packet>, theirs: set<Packet>,
          e: NetEvent)
    requires Direction(base, base', x, peer, mine) && Direction(base', base, peer, x, theirs)
    requires (e.Deliver? ==> e.packet in theirs || e.packet.seg.flags.rst) && !e.Listened? && !e.Recycled?
    ensures var x' := Act(host, x, e);
            x'.rcvd == x.rcvd || exists p :: p in theirs && !p.seg.flags.rst && p.pos == x.rcvd < End(p) == x'.rcvd
  {
    hide SenderOk, ReceiverOk, PacketOk, Outcome, Advance, AfterAck;
    if e.Deliver? && Live(x) {
      var p := e.packet;
      if p.seg.flags.rst {
        NoAdvance(x.c, AfterAck(x.c, p.seg), p.seg);
      } else {
        TakesWhole(base, base', x, peer, p);
      }
    }
  }

  lemma NoAdvance(c0: Conn, c: Conn, seg: Segment)
    requires seg.flags.rst
    ensures Advance(c0, c, seg) == 0
  {
  }

  lemma ActMovesWhole(host: u32, base: u32, base': u32, x: Side, peer: Side, mine: set<Packet>, theirs: set<Packet>,
          e: NetEvent)
    requires Direction(base, base', x, peer, mine) && Direction(base', base, peer, x, theirs)
    requires Allowed(host, base, x, theirs, e)
    requires Direction(base, base', Act(host, x, e), peer, mine + Emitted(host, x, e))
    ensures MovesWhole(x, Act(host, x, e), peer, theirs, Emitted(host, x, e))
  {
    if e.Listened? {
      ListenedMoves(host, base, base', x, peer, theirs, e);
    } else if e.Recycled? {
    } else {
      hide SenderOk, ReceiverOk, PacketOk, Act, Outcome, Disciplined, End, Emitted;
      SenderSlot(base, x);
      AckedWhole(host, base, x, e);
      EmittedMoves(host, base, base', x, e);
      ReceivedMoves(host, base, base', x, peer, mine, theirs, e);
    }
  }

  lemma ListenedMoves(host: u32, base: u32, base': u32, x: Side, peer: Side, theirs: set<Packet>, e: NetEvent)
    requires e.Listened? && e.packet in theirs && MayListen(base, x, e) && SenderOk(base, x)
    requires PacketOk(base', base, peer, e.packet)
    ensures MovesWhole(x, Act(host, x, e), peer, theirs, Emitted(host, x, e))
  {
    hide At, Accept, ConnInv;
    assert e.packet.pos == 0 && End(e.packet) == 1;
  }

  lemma ActKeepsWhole(host: u32, base: u32, base': u32, x: Side, peer: Side, mine: set<Packet>, theirs: set<Packet>,
          e: NetEvent)
    requires Direction(base, base', x, peer, mine) && Direction(base', base, peer, x, theirs)
    requires Whole(x, peer, mine) && Whole(peer, x, theirs) && Allowed(host, base, x, theirs, e)
    requires Direction(base, base', Act(host, x, e), peer, mine + Emitted(host, x, e))
    ensures Whole(Act(host, x, e), peer, mine + Emitted(host, x, e)) && Whole(peer, Act(host, x, e), theirs)
  {
    ActMovesWhole(host, base, base', x, peer, mine, theirs, e);
    DirectionBounds(base, base', x, peer, mine);
    DirectionBounds(base', base, peer, x, theirs);
    DirectionBounds(base, base', Act(host, x, e), peer, mine + Emitted(host, x, e));
    hide Direction, Act, Emitted, Allowed, Whole, MovesWhole;
    MovesKeepWhole(x, Act(host, x, e), peer, mine, theirs, Emitted(host, x, e));
  }

  lemma DirectionBounds(base: u32, base': u32, x: Side, y: Side, channel: set<Packet>)
    requires Direction(base, base', x, y, channel)
    ensures x.acked <= Total(x) && x.acked <= y.rcvd <= Total(x)
  {
    hide At;
  }

  // ----- what is outstanding was sent

  /** What is outstanding in `c'` was so in `c`, or is sent just now. */
  predicate Posts(c: Conn, c': Conn, out: Option<Segment>) {
    c'.state == ESTABLISHED && c'.len > 0 ==>
      || (c.state == ESTABLISHED && c'.len == c.len && c'.sndNxt == c.sndNxt)
      || (out.Some? && CarriesAll(c', out.value))
  }

  lemma AppSendPosts(host: u32, c: Conn, told: Told, slen: u16, reply: Reply)
    requires ConnInv(c) && c.state == ESTABLISHED && (told.flags.ackdata ==> c.len == 0)
    ensures var r := AppSend(host, c, told, slen, reply); Posts(c, r.c, r.out)
  {
  }

  lemma TimerPosts(host: u32, c: Conn, reply: Reply)
    requires ConnInv(c)
    ensures var r := Timer(host, c, reply); Posts(c, r.c, r.out)
  {
    hide AppSend, AppRexmit, Emit;
    if c.state == ESTABLISHED && c.len == 0 {
      AppSendPosts(host, c, Told(NO_EVENT.(poll := true), []), 0, reply);
    }
  }

  lemma PollPosts(host: u32, c: Conn, slen: u16, reply: Reply)
    requires ConnInv(c)
    ensures var r := Poll(host, c, slen, reply); Posts(c, r.c, r.out)
  {
    hide AppSend;
    if c.state == ESTABLISHED && c.len == 0 {
      AppSendPosts(host, c, Told(NO_EVENT.(poll := true), []), slen, reply);
    }
  }

  lemma FoundPosts(host: u32, c: Conn, slen: u16, seg: Segment, reply: Reply)
    requires ConnInv(c) && c.state != CLOSED
    ensures var r := Found(host, c, slen, seg, reply); Posts(c, r.c, r.out)
  {
    hide RttUpdate, Plus, Acked, Posts, ByState;
    if !seg.flags.rst && !OutOfSequence(c, seg) {
      var ackd := Acknowledges(c, seg);
      AckedKeeps(c);
      ByStatePosts(host, c, if ackd then Acked(c) else c, ackd, slen, seg, reply);
    } else {
      hide OutOfSequence;
      SamePosts(c);
    }
  }

  lemma SamePosts(c: Conn)
    ensures forall out :: Posts(c, c, out) && Posts(c, c.In(CLOSED), out)
  {
  }

  lemma ByStatePosts(host: u32, c0: Conn, c: Conn, ackd: bool, slen: u16, seg: Segment, reply: Reply)
    requires ConnInv(c0) && c0.state != CLOSED && c.state == c0.state && c.stopped == c0.stopped && c.mss == c0.mss
    requires c.initialmss == c0.initialmss && c.nrtx == c0.nrtx && c.len == (if ackd then 0 else c0.len)
    requires !ackd ==> c.sndNxt == c0.sndNxt
    ensures var r := ByState(host, c, ackd, slen, seg, reply); Posts(c0, r.c, r.out)
  {
    hide Plus, Wrap16, AppSend, WithMss, Window;
    match c.state
    case SYN_RCVD =>
      if ackd {
        var c' := c.In(ESTABLISHED).(len := 0).Received(|seg.payload|);
        AppSendPosts(host, c', Told(NO_EVENT.(connected := true, newdata := |seg.payload| > 0), AtAppdata(seg)), 0,
                     reply);
      }
    case SYN_SENT =>
      if ackd && seg.flags == ACK.(syn := true) {
        MssInv(c, seg.mss);
        var c' := WithMss(c, seg.mss).In(ESTABLISHED).(rcvNxt := Plus(seg.seqno, 1), len := 0);
        AppSendPosts(host, c', Told(NO_EVENT.(connected := true, newdata := true), []), 0, reply);
      }
    case ESTABLISHED =>
      var isNew := DataLength(seg) > 0 && !c.stopped;
      WindowInv(c, seg.wnd);
      var c' := (if isNew then c.Received(DataLength(seg)) else c).(mss := Window(c, seg.wnd));
      AppSendPosts(host, c', Told(NO_EVENT.(ackdata := ackd, newdata := isNew), Data(seg)), 0, reply);
    case _ =>
  }

  lemma MssInv(c: Conn, mss: Option<u16>)
    requires c.mss <= c.initialmss <= UIP_TCP_MSS
    ensures WithMss(c, mss).mss <= WithMss(c, mss).initialmss <= UIP_TCP_MSS && WithMss(c, mss).nrtx == c.nrtx
  {
  }

  lemma WindowInv(c: Conn, wnd: u16)
    ensures Window(c, wnd) <= c.initialmss
  {
  }

  /** An event keeps it. */
  lemma ActPosts(host: u32, x: Side, e: NetEvent, mine: set<Packet>)
    requires ConnInv(x.c) && UsableSlot(e) && Posted(x.c, mine)
    ensures Posted(Act(host, x, e).c, mine + Emitted(host, x, e))
  {
    hide ConnInv, Found, Timer, Poll, Advance, Consulted, Accept, CarriesAll, Emit, Reset;
    var c', out := Act(host, x, e).c, Outcome(host, x, e).out;
    match e {
      case Deliver(p, slen, reply) =>
        if Live(x) {
          FoundPosts(host, x.c, slen, p.seg, reply);
        }
      case Tick(reply) => TimerPosts(host, x.c, reply);
      case PollRequest(slen, reply) => PollPosts(host, x.c, slen, reply);
      case Listened(p, slot, iss) => AcceptState(slot, iss, p.seg);
      case _ =>
    }
    assert out.Some? ==> Packet(out.value, Act(host, x, e).acked, Act(host, x, e).rcvd) in Emitted(host, x, e);
    PostedBy(x.c, c', out, mine, Emitted(host, x, e));
  }

  lemma AcceptState(c: Conn, iss: Bytes4, seg: Segment)
    ensures Accept(c, iss, seg).state == SYN_RCVD
  {
  }

  lemma PostedBy(c: Conn, c': Conn, out: Option<Segment>, mine: set<Packet>, emitted: set<Packet>)
    requires Posted(c, mine) && Posts(c, c', out)
    requires out.Some? ==> exists p :: p in emitted && p.seg == out.value
    ensures Posted(c', mine + emitted)
  {
  }


  lemma StepKeepsWhole(g: Setting, s: System, who: Who, e: NetEvent)
    requires Agreement(g, s) && AllWhole(s) && Possible(g, s, who, e)
    ensures AllWhole(Next(g, s, who, e))
  {
    hide Direction, Act, Emitted, Whole, Allowed, Posted, SenderOk;
    StepKeepsAgreement(g, s, who, e);
    BothSenders(g, s);
    SenderSlot(g.baseA, s.a);
    SenderSlot(g.baseB, s.b);
    match who
    case A =>
      ActKeepsWhole(g.hostA, g.baseA, g.baseB, s.a, s.b, s.ab, s.ba, e);
      ActPosts(g.hostA, s.a, e, s.ab);
    case B =>
      ActKeepsWhole(g.hostB, g.baseB, g.baseA, s.b, s.a, s.ba, s.ab, e);
      ActPosts(g.hostB, s.b, e, s.ba);
  }

  /** Over every run: of what an endpoint has outstanding its peer has received everything or nothing. */
  lemma {:induction false} RunKeepsWhole(g: Setting, s: System, run: seq<(Who, NetEvent)>)
    requires Agreement(g, s) && AllWhole(s) && PossibleRun(g, s, run)
    ensures Agreement(g, After(g, s, run)) && AllWhole(After(g, s, run))
    decreases |run|
  {
    hide Agreement, AllWhole, Possible, Next;
    if run != [] {
      StepKeepsAgreement(g, s, run[0].0, run[0].1);
      StepKeepsWhole(g, s, run[0].0, run[0].1);
      RunKeepsWhole(g, Next(g, s, run[0].0, run[0].1), run[1..]);
    }
  }

  // ----- progress

  /** `s'` follows from `s` by a possible run. */
  ghost predicate Leads(g: Setting, s: System, s': System) {
    exists run :: PossibleRun(g, s, run) && After(g, s, run) == s'
  }

  lemma LeadsBy(g: Setting, s: System, who: Who, e: NetEvent, s': System)
    requires Possible(g, s, who, e) && Leads(g, Next(g, s, who, e), s')
    ensures Leads(g, s, s')
  {
    hide Possible, Next;
    var run :| PossibleRun(g, Next(g, s, who, e), run) && After(g, Next(g, s, who, e), run) == s';
    RunStarts(g, s, who, e, run);
  }

  lemma LeadsToItself(g: Setting, s: System)
    ensures Leads(g, s, s)
  {
    assert PossibleRun(g, s, []) && After(g, s, []) == s;
  }

  /** The bytes, at the front of an application buffer. */
  function Buffer(data: seq<u8>): AppBuffer
    requires |data| <= UIP_TCP_MSS as int
  {
    data + seq(UIP_TCP_MSS as int - |data|, _ => 0)
  }

  function Nothing(): Reply { Reply(None, Buffer([]), Continue, Keep) }

  /** Both ends are open, A has data outstanding, and B takes data. */
  predicate Waiting(s: System) {
    s.a.c.state == s.b.c.state == ESTABLISHED && s.a.c.len > 0 && !s.b.c.stopped
  }

  /** An acknowledgment of everything A has outstanding. */
  predicate AcksAll(x: Side, q: Packet) {
    q.seg.flags == ACK && q.seg.payload == [] && q.seg.ackno == Plus(x.c.sndNxt, x.c.len)
  }

  /** B, which has all of what is outstanding or none of it, acknowledges all of it. */
  lemma DataAnswered(g: Setting, s: System, p: Packet)
    requires Agreement(g, s) && AllWhole(s) && s.b.c.state == ESTABLISHED && !s.b.c.stopped && p in s.ab
    requires Live(s.a) && s.a.c.len > 0
    requires p.seg.flags == ACK.(psh := true) && p.seg.options == [] && |p.seg.payload| == s.a.c.len as int
    requires p.seg.seqno == s.a.c.sndNxt
    ensures var e := Deliver(p, 0, Nothing());
            var s' := Next(g, s, B, e);
            && Possible(g, s, B, e) && s'.a == s.a && s'.b.c.state == ESTABLISHED
            && exists q :: q in s'.ba && AcksAll(s.a, q)
  {
    Numbered(g, s);
    hide At, Plus, ConnInv, Agreement, AllWhole, Act, Outcome, Disciplined;
    var e := Deliver(p, 0, Nothing());
    if p.seg.seqno == s.b.c.rcvNxt {
      DataTaken(g.hostB, s.b, p);
    } else {
      DataRepeated(g.hostB, s.b, p);
    }
    var s' := Next(g, s, B, e);
    var q := Packet(Outcome(g.hostB, s.b, e).out.value, s'.b.acked, s'.b.rcvd);
    assert q in s'.ba && AcksAll(s.a, q);
  }

  /** Data that is expected is taken and acknowledged. */
  lemma DataTaken(host: u32, x: Side, p: Packet)
    requires x.c.state == ESTABLISHED && !x.c.stopped && p.seg.seqno == x.c.rcvNxt
    requires p.seg.flags == ACK.(psh := true) && p.seg.options == [] && p.seg.payload != []
    ensures var e := Deliver(p, 0, Nothing());
            var x', r := Act(host, x, e), Outcome(host, x, e);
            && x'.c.state == ESTABLISHED && Total(x') == Total(x) && Disciplined(x, e)
            && r.out == Some(Emit(host, x'.c, ACK, [])) && x'.c.rcvNxt == Plus(x.c.rcvNxt, |p.seg.payload|)
  {
    hide Plus, Acked, Window;
    AckedKeeps(x.c);
  }

  /** Data that is not expected is answered with what is. */
  lemma DataRepeated(host: u32, x: Side, p: Packet)
    requires x.c.state == ESTABLISHED && p.seg.seqno != x.c.rcvNxt
    requires p.seg.flags == ACK.(psh := true) && p.seg.payload != []
    ensures var e := Deliver(p, 0, Nothing());
            var x', r := Act(host, x, e), Outcome(host, x, e);
            && x'.c == x.c && Total(x') == Total(x) && Disciplined(x, e) && r.out == Some(Emit(host, x.c, ACK, []))
  {
    hide Plus, Acked;
  }

  /** B expects the first byte A has outstanding, or the one behind the last. */
  lemma Numbered(g: Setting, s: System)
    requires Agreement(g, s) && AllWhole(s) && s.b.c.state == ESTABLISHED && Live(s.a) && s.a.c.len > 0
    ensures s.b.c.rcvNxt == s.a.c.sndNxt || s.b.c.rcvNxt == Plus(s.a.c.sndNxt, s.a.c.len)
    ensures s.a.c.sndNxt != Plus(s.a.c.sndNxt, s.a.c.len)
    ensures Total(s.b) < MODULUS && Total(s.a) < MODULUS
  {
    hide At, Plus, ConnInv, PacketOk;
    AtPlus(g.baseA, s.a.acked, s.a.c.len);
    AtInjective(g.baseA, s.a.acked, Total(s.a));
  }

  lemma AckArrives(g: Setting, s: System, q: Packet)
    requires Agreement(g, s) && s.a.c.state == ESTABLISHED && s.a.c.len > 0 && q in s.ba && AcksAll(s.a, q)
    ensures var e := Deliver(q, 0, Nothing());
            var x' := Next(g, s, A, e).a;
            Possible(g, s, A, e) && Next(g, s, A, e).b == s.b && x'.c.state == ESTABLISHED && x'.c.len == 0
                && x'.sent == s.a.sent
  {
    hide At, Plus, Acked, RttUpdate, ConnInv, PacketOk;
    AckedKeeps(s.a.c);
  }

  lemma BothSenders(g: Setting, s: System)
    requires Agreement(g, s)
    ensures SenderOk(g.baseA, s.a) && SenderOk(g.baseB, s.b)
  {
    hide SenderOk, ReceiverOk;
  }

  /** What is outstanding is delivered once more, then its acknowledgment. */
  lemma DataGetsThrough(g: Setting, s: System) returns (s': System)
    requires Agreement(g, s) && AllWhole(s) && Waiting(s)
    ensures Leads(g, s, s') && Agreement(g, s')
    ensures s'.a.c.state == ESTABLISHED && s'.a.c.len == 0 && s'.a.sent == s.a.sent && s'.b.c.state == ESTABLISHED
  {
    hide Agreement, Whole, Possible, Next, Direction, Leads, AcksAll, Act, Plus;
    var p :| p in s.ab && CarriesAll(s.a.c, p.seg);
    DataAnswered(g, s, p);
    var e1 := Deliver(p, 0, Nothing());
    var s1 := Next(g, s, B, e1);
    StepKeepsAgreement(g, s, B, e1);
    var q :| q in s1.ba && AcksAll(s.a, q);
    AckArrives(g, s1, q);
    var e2 := Deliver(q, 0, Nothing());
    s' := Next(g, s1, A, e2);
    StepKeepsAgreement(g, s1, A, e2);
    LeadsToItself(g, s');
    LeadsBy(g, s1, A, e2, s');
    LeadsBy(g, s, B, e1, s');
  }

  // ----- the same with the ends exchanged

  function MirrorSetting(g: Setting): Setting { Setting(g.baseB, g.baseA, g.hostB, g.hostA) }

  function Mirror(s: System): System { System(s.b, s.a, s.ba, s.ab) }

  function MirrorRun(run: seq<(Who, NetEvent)>): seq<(Who, NetEvent)> {
    if run == [] then [] else [(if run[0].0.A? then B else A, run[0].1)] + MirrorRun(run[1..])
  }

  lemma {:induction false} MirrorLeads(g: Setting, s: System, run: seq<(Who, NetEvent)>)
    requires PossibleRun(MirrorSetting(g), Mirror(s), run)
    ensures PossibleRun(g, s, MirrorRun(run)) && After(g, s, MirrorRun(run)) ==
        Mirror(After(MirrorSetting(g), Mirror(s), run))
    decreases |run|
  {
    hide Act, Emitted, Allowed;
    if run != [] {
      var who, e := if run[0].0.A? then B else A, run[0].1;
      assert Next(MirrorSetting(g), Mirror(s), run[0].0, e) == Mirror(Next(g, s, who, e));
      MirrorLeads(g, Next(g, s, who, e), run[1..]);
      RunStarts(g, s, who, e, MirrorRun(run[1..]));
    }
  }

  lemma MirrorAgrees(g: Setting, s: System)
    requires Agreement(g, s) && AllWhole(s)
    ensures Agreement(MirrorSetting(g), Mirror(s)) && AllWhole(Mirror(s))
  {
    hide Direction, Whole;
  }

  /**
    Whichever end waits for an acknowledgment, some run makes its stream acknowledged to the end, and its peer handed it
    on.
   */
  ghost predicate CanFinish(g: Setting, s: System) {
    && (Waiting(s) ==> exists s' :: Leads(g, s, s') && s'.a.c.len == 0 && s'.a.sent == s.a.sent == s'.b.got)
    && (Waiting(Mirror(s)) ==> exists s' :: Leads(g, s, s') && s'.b.c.len == 0 && s'.b.sent == s.b.sent == s'.a.got)
  }

  /**
    Progress. Whatever was lost, repeated and reordered before: if both ends are open and one has data outstanding that
    the other takes, then some run makes its stream acknowledged to the end, all of it handed on.
   */
  lemma DataCanGetThrough(g: Setting, s: System, run: seq<(Who, NetEvent)>)
    requires Begins(g, s) && PossibleRun(g, s, run)
    ensures CanFinish(g, After(g, s, run))
  {
    hide PossibleRun, After, Leads, Waiting, Agreement, AllWhole, Begins;
    BeginsWhole(g, s);
    RunKeepsWhole(g, s, run);
    var s1 := After(g, s, run);
    if Waiting(s1) {
      var s2 := DataGetsThrough(g, s1);
      EndReached(g, s2);
    }
    if Waiting(Mirror(s1)) {
      MirrorAgrees(g, s1);
      var s2 := DataGetsThrough(MirrorSetting(g), Mirror(s1));
      EndReached(MirrorSetting(g), s2);
      MirrorBack(g, s1, s2);
    }
  }

  lemma MirrorBack(g: Setting, s: System, s': System)
    requires Leads(MirrorSetting(g), Mirror(s), s')
    ensures Leads(g, s, Mirror(s'))
  {
    hide PossibleRun, After;
    var run :| PossibleRun(MirrorSetting(g), Mirror(s), run) && After(MirrorSetting(g), Mirror(s), run) == s';
    MirrorLeads(g, s, run);
  }

  lemma BeginsWhole(g: Setting, s: System)
    requires Begins(g, s)
    ensures Agreement(g, s) && AllWhole(s)
  {
    hide At;
  }

  lemma EndReached(g: Setting, s: System)
    requires Agreement(g, s) && s.a.c.state == s.b.c.state == ESTABLISHED && s.a.c.len == 0
    ensures s.b.got == s.a.sent
  {
    hide At, ConnInv;
  }
}
