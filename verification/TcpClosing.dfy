/**
 Closing. However much was lost, repeated and reordered before: once an end has closed and the other has nothing left to
 send, some run without resets brings both to their end, with everything received on both sides.
 */
module TcpClosing {
  import opened Words
  import opened SeqNum
  import opened Tcp
  import opened TcpInvariants
  import opened TcpEndToEnd
  import opened TcpHandshake
  import opened TcpProgress
  import N = TcpNotices

  /** A FIN of the connection waits to be acknowledged. */
  predicate FinOut(c: Conn) { c.state == FIN_WAIT_1 || c.state == CLOSING || c.state == LAST_ACK }

  /** The peer's FIN was taken. */
  predicate FinIn(c: Conn) { c.state == CLOSING || c.state == TIME_WAIT || c.state == LAST_ACK }

  predicate IsFin(c: Conn, seg: Segment) {
    seg.flags == ACK.(fin := true) && seg.payload == [] && seg.seqno == c.sndNxt
  }

  /** The FIN was put on the wire. */
  ghost predicate FinPosted(c: Conn, channel: set<Packet>) {
    FinOut(c) ==> exists p :: p in channel && IsFin(c, p.seg)
  }

  /** Who took the peer's FIN received all of its stream, and who did not has none of its end. */
  ghost predicate FinTaken(x: Side, y: Side) {
    && (FinIn(x.c) ==> y.fin && x.rcvd == Total(y))
    && (x.c.state == FIN_WAIT_1 || x.c.state == FIN_WAIT_2 ==> x.rcvd <= Off(y) + |y.sent|)
  }

  ghost predicate Ending(s: System) {
    && FinPosted(s.a.c, s.ab) && FinPosted(s.b.c, s.ba) && FinTaken(s.a, s.b) && FinTaken(s.b, s.a)
    && !(s.a.c.state == LAST_ACK && s.b.c.state == LAST_ACK)
  }

  // ----- every event keeps this

  /** What an event does to a FIN of ours that waits. */
  predicate PostsFin(c: Conn, r: Result) {
    FinOut(r.c) ==> (FinOut(c) && r.c.sndNxt == c.sndNxt) || (r.out.Some? && IsFin(r.c, r.out.value))
  }

  lemma FinPostedBy(c: Conn, r: Result, mine: set<Packet>, emitted: set<Packet>)
    requires FinPosted(c, mine) && PostsFin(c, r) && (r.out.Some? ==> exists p :: p in emitted && p.seg == r.out.value)
    ensures FinPosted(r.c, mine + emitted)
  {
  }

  lemma ClockPostsFin(host: u32, c: Conn, slen: u16, reply: Reply)
    requires ConnInv(c)
    ensures PostsFin(c, Timer(host, c, reply)) && PostsFin(c, Poll(host, c, slen, reply))
  {
    hide AppSend, Backoff, AppRexmit, Emit;
    N.ClockSendsAfresh(host, c, slen, reply);
    TimerKeeps(host, c, reply);
    PollKeeps(host, c, slen, reply);
  }

  lemma FoundPostsFin(host: u32, c: Conn, slen: u16, seg: Segment, reply: Reply)
    requires ConnInv(c) && c.state != CLOSED
    ensures PostsFin(c, Found(host, c, slen, seg, reply))
  {
    hide Found;
    N.Responses(host, c, slen, seg, reply);
    N.Notices(host, c, slen, seg, reply);
    FoundKeeps(host, c, slen, seg, reply);
    if FinOut(c) {
      FinStays(host, c, slen, seg, reply);
    }
  }

  lemma FinStays(host: u32, c: Conn, slen: u16, seg: Segment, reply: Reply)
    requires ConnInv(c) && FinOut(c)
    ensures var c' := Found(host, c, slen, seg, reply).c; FinOut(c') ==> c'.sndNxt == c.sndNxt
  {
    hide Plus, Acked, Emit;
    AckedKeeps(c);
  }

  lemma ActPostsFin(host: u32, x: Side, e: NetEvent, mine: set<Packet>)
    requires ConnInv(x.c) && FinPosted(x.c, mine)
    ensures FinPosted(Act(host, x, e).c, mine + Emitted(host, x, e))
  {
    hide ConnInv, Found, Timer, Poll, Advance, Consulted, Emit, Reset, IsFin, FinPosted;
    var x', out := Act(host, x, e), Outcome(host, x, e).out;
    match e {
      case Deliver(p, slen, reply) =>
        if Live(x) {
          FoundPostsFin(host, x.c, slen, p.seg, reply);
        }
      case Tick(reply) => ClockPostsFin(host, x.c, 0, reply);
      case PollRequest(slen, reply) => ClockPostsFin(host, x.c, slen, reply);
      case Listened(p, slot, iss) => AcceptState(slot, iss, p.seg);
      case _ =>
    }
    assert out.Some? ==> Packet(out.value, x'.acked, x'.rcvd) in Emitted(host, x, e);
    FinPostedBy(x.c, Outcome(host, x, e), mine, Emitted(host, x, e));
  }

  /** A segment that brings data or nothing brings no more than data. */
  lemma TakesData(base: u32, base': u32, x: Side, peer: Side, p: Packet)
    requires Delivered(base, base', x, peer, p) && x.c.state != SYN_SENT && p.seg.payload != []
    ensures x.rcvd + |p.seg.payload| <= Off(peer) + |peer.sent|
  {
    hide At, ConnInv, Delivered;
    TakenOk(base, base', x, peer, p);
  }

  lemma FinishesAdvance(x: Side, p: Packet)
    requires ConnInv(x.c) && N.Finishes(x.c, p.seg) && p.seg.payload == []
    ensures Advance(x.c, AfterAck(x.c, p.seg), p.seg) == 1
  {
    hide Plus, Acked;
    AckedKeeps(x.c);
  }

  lemma OtherAdvance(x: Side, p: Packet)
    requires ConnInv(x.c) && Live(x) && x.c.state != SYN_SENT && !N.Finishes(x.c, p.seg)
    ensures var n := Advance(x.c, AfterAck(x.c, p.seg), p.seg);
            && (n == 0 || (n == |p.seg.payload| && !OutOfSequence(x.c, p.seg) && !p.seg.flags.rst))
            && (FinIn(x.c) ==> n == 0)
  {
    hide Plus, Acked;
    AckedKeeps(x.c);
  }

  /** Where an end was before it received more than data: how it came to where it is. */
  lemma DeliverTakesFin(host: u32, base: u32, base': u32, x: Side, peer: Side, p: Packet, slen: u16, reply: Reply)
    requires Delivered(base, base', x, peer, p) && FinTaken(x, peer) && x.c.state != SYN_SENT
    ensures FinTaken(Act(host, x, Deliver(p, slen, reply)), peer)
  {
    hide At, Found, ConnInv, PacketOk, ReceiverOk, OutOfSequence, Advance, AfterAck;
    var r, x' := Found(host, x.c, slen, p.seg, reply), Act(host, x, Deliver(p, slen, reply));
    DeliveredSlot(base, base', x, peer, p);
    N.Notices(host, x.c, slen, p.seg, reply);
    ActCounts(host, x, p, slen, reply);
    if N.Finishes(x.c, p.seg) {
      TakenOk(base, base', x, peer, p);
      FinMeansClosed(base', base, peer, p);
      FinishesAdvance(x, p);
    } else {
      OtherAdvance(x, p);
      if !FinIn(x.c) {
        BeforeFin(base, base', x, peer, p);
      }
      if p.seg.payload != [] {
        TakesData(base, base', x, peer, p);
      }
    }
  }

  lemma DeliveredSlot(base: u32, base': u32, x: Side, peer: Side, p: Packet)
    requires Delivered(base, base', x, peer, p)
    ensures ConnInv(x.c) && Live(x) && !p.seg.flags.rst
  {
    hide At, ConnInv, ReceiverOk, PacketOk;
  }

  lemma ActCounts(host: u32, x: Side, p: Packet, slen: u16, reply: Reply)
    requires Live(x)
    ensures var x' := Act(host, x, Deliver(p, slen, reply));
            && x'.rcvd == x.rcvd + Advance(x.c, AfterAck(x.c, p.seg), p.seg)
            && x'.c == Found(host, x.c, slen, p.seg, reply).c
  {
    hide Found, AfterAck, Advance;
  }

  lemma FinMeansClosed(base: u32, base': u32, peer: Side, p: Packet)
    requires PacketOk(base, base', peer, p) && !p.seg.flags.rst && p.seg.flags.fin
    ensures peer.fin
  {
  }

  /** While it is open, or waits in FIN_WAIT, an end has received no FIN. */
  lemma BeforeFin(base: u32, base': u32, x: Side, peer: Side, p: Packet)
    requires Delivered(base, base', x, peer, p) && FinTaken(x, peer) && x.c.state != SYN_SENT && !FinIn(x.c)
    ensures x.rcvd <= Off(peer) + |peer.sent|
  {
    hide At, ConnInv, PacketOk;
  }

  /** An end in SYN_SENT takes at most the SYN|ACK. */
  lemma SynSentTakesNoFin(host: u32, base: u32, base': u32, x: Side, peer: Side, p: Packet, slen: u16, reply: Reply)
    requires PacketOk(base', base, peer, p) && !p.seg.flags.rst && SenderOk(base, x) && x.c.state == SYN_SENT
    ensures FinTaken(Act(host, x, Deliver(p, slen, reply)), peer)
  {
    hide At, Found, ConnInv;
    N.Notices(host, x.c, slen, p.seg, reply) by { SenderSlot(base, x); }
    ActCounts(host, x, p, slen, reply);
    SynSentAdvance(x, p);
  }

  lemma SynSentAdvance(x: Side, p: Packet)
    requires x.c.state == SYN_SENT
    ensures var n := Advance(x.c, AfterAck(x.c, p.seg), p.seg); n == 0 || (n == 1 && p.seg.flags == ACK.(syn := true))
  {
    hide Plus, Acked;
    AckedKeeps(x.c);
  }

  lemma UnwantedTakesNoFin(host: u32, x: Side, peer: Side, p: Packet, slen: u16, reply: Reply)
    requires Live(x) && FinTaken(x, peer) && (p.seg.flags.rst || OutOfSequence(x.c, p.seg))
    ensures FinTaken(Act(host, x, Deliver(p, slen, reply)), peer)
  {
    hide Plus, Acked;
  }

  /** The clock closes nothing that was not open before, and brings nothing. */
  lemma ClockTakesFin(host: u32, base: u32, base': u32, x: Side, peer: Side, e: NetEvent)
    requires SenderOk(base, x) && ReceiverOk(base', peer, x) && FinTaken(x, peer) && (e.Tick? || e.PollRequest?)
    ensures FinTaken(Act(host, x, e), peer)
  {
    hide At, Timer, Poll, ConnInv;
    SenderSlot(base, x);
    TimerKeeps(host, x.c, e.reply);
    PollKeeps(host, x.c, if e.PollRequest? then e.slen else 0, e.reply);
  }

  /** An event at one end keeps its own part. */
  lemma ActTakesFin(host: u32, base: u32, base': u32, x: Side, peer: Side, mine: set<Packet>, theirs: set<Packet>,
          e: NetEvent)
    requires Direction(base, base', x, peer, mine) && Direction(base', base, peer, x, theirs)
    requires Allowed(host, base, x, theirs, e) && FinTaken(x, peer)
    ensures FinTaken(Act(host, x, e), peer)
  {
    match e
    case Deliver(p, slen, reply) =>
      hide PacketOk, Act, SenderOk, ReceiverOk, Paired, OutOfSequence, Disciplined;
      if Live(x) {
        if p.seg.flags.rst || OutOfSequence(x.c, p.seg) {
          UnwantedTakesNoFin(host, x, peer, p, slen, reply);
        } else if x.c.state == SYN_SENT {
          SynSentTakesNoFin(host, base, base', x, peer, p, slen, reply);
        } else {
          DeliverTakesFin(host, base, base', x, peer, p, slen, reply);
        }
      } else {
        DeadTakesNothing(host, x, p, slen, reply);
      }
    case Listened(p, slot, iss) => AcceptState(slot, iss, p.seg);
    case Recycled =>
    case _ =>
      hide PacketOk, Act, SenderOk, ReceiverOk, Paired, Disciplined;
      ClockTakesFin(host, base, base', x, peer, e);
  }

  lemma DeadTakesNothing(host: u32, x: Side, p: Packet, slen: u16, reply: Reply)
    requires !Live(x)
    ensures Act(host, x, Deliver(p, slen, reply)).c.state == CLOSED
  {
  }

  /** What the other end took stays taken, as a stream only grows and never after its FIN. */
  lemma TakenStays(host: u32, base: u32, x: Side, peer: Side, e: NetEvent)
    requires SenderOk(base, x) && FinTaken(peer, x) && (e.Listened? ==> x.origin.Unborn?)
    ensures FinTaken(peer, Act(host, x, e))
  {
    hide At, Timer, Poll, Found, Accept;
    ConsultedState(x, e);
  }

  lemma ConsultedState(x: Side, e: NetEvent)
    ensures Consulted(x, e).state == x.c.state
  {
    hide Plus, OutOfSequence;
    AckedKeeps(x.c);
  }

  /** Not both ends wait for the acknowledgment of a FIN they answered with: one of them closed first. */
  lemma OneClosedFirst(host: u32, base: u32, x: Side, peer: Side, e: NetEvent)
    requires SenderOk(base, x) && FinTaken(peer, x) && (e.Listened? ==> x.origin.Unborn?)
    requires !(x.c.state == LAST_ACK && peer.c.state == LAST_ACK)
    ensures !(Act(host, x, e).c.state == LAST_ACK && peer.c.state == LAST_ACK)
  {
    hide At, Timer, Poll, Found, ConnInv;
    if peer.c.state == LAST_ACK {
      SenderSlot(base, x);
      match e
      case Deliver(p, slen, reply) =>
        if Live(x) {
          FoundKeeps(host, x.c, slen, p.seg, reply);
        }
      case Tick(reply) => TimerKeeps(host, x.c, reply);
      case PollRequest(slen, reply) => PollKeeps(host, x.c, slen, reply);
      case Listened(p, slot, iss) => AcceptState(slot, iss, p.seg);
      case _ =>
    }
  }

  lemma StepKeepsEnding(g: Setting, s: System, who: Who, e: NetEvent)
    requires Agreement(g, s) && Ending(s) && Possible(g, s, who, e)
    ensures Ending(Next(g, s, who, e))
  {
    hide Act, Emitted, FinPosted, FinTaken, SenderOk, ReceiverOk, PacketOk, Disciplined, UsableSlot, Paired;
    SenderSlot(g.baseA, s.a);
    SenderSlot(g.baseB, s.b);
    match who
    case A =>
      ActPostsFin(g.hostA, s.a, e, s.ab);
      ActTakesFin(g.hostA, g.baseA, g.baseB, s.a, s.b, s.ab, s.ba, e);
      TakenStays(g.hostA, g.baseA, s.a, s.b, e);
      OneClosedFirst(g.hostA, g.baseA, s.a, s.b, e);
    case B =>
      ActPostsFin(g.hostB, s.b, e, s.ba);
      ActTakesFin(g.hostB, g.baseB, g.baseA, s.b, s.a, s.ba, s.ab, e);
      TakenStays(g.hostB, g.baseB, s.b, s.a, e);
      OneClosedFirst(g.hostB, g.baseB, s.b, s.a, e);
  }

  ghost predicate Consistent(g: Setting, s: System) { Agreement(g, s) && AllWhole(s) && Ending(s) }

  lemma StepKeepsConsistent(g: Setting, s: System, who: Who, e: NetEvent)
    requires Consistent(g, s) && Possible(g, s, who, e)
    ensures Consistent(g, Next(g, s, who, e))
  {
    hide Agreement, AllWhole, Ending, Possible, Next;
    StepKeepsAgreement(g, s, who, e);
    StepKeepsWhole(g, s, who, e);
    StepKeepsEnding(g, s, who, e);
  }

  lemma {:induction false} RunKeepsConsistent(g: Setting, s: System, run: seq<(Who, NetEvent)>)
    requires Consistent(g, s) && PossibleRun(g, s, run)
    ensures Consistent(g, After(g, s, run))
    decreases |run|
  {
    hide Consistent, Possible, Next;
    if run != [] {
      StepKeepsConsistent(g, s, run[0].0, run[0].1);
      RunKeepsConsistent(g, Next(g, s, run[0].0, run[0].1), run[1..]);
    }
  }

  lemma BeginsConsistent(g: Setting, s: System)
    requires Begins(g, s)
    ensures Consistent(g, s)
  {
    hide At;
    BeginsWhole(g, s);
  }

  // ----- a run that closes

  /** Nobody forges a reset, and no slot is given away. */
  predicate Clean(run: seq<(Who, NetEvent)>) {
    forall i | 0 <= i < |run| :: !run[i].1.Recycled? && (run[i].1.Deliver? ==> !run[i].1.packet.seg.flags.rst)
  }

  /** `s'` follows from `s` by a possible run without resets. */
  ghost predicate LeadsCleanly(g: Setting, s: System, s': System) {
    exists run :: Clean(run) && PossibleRun(g, s, run) && After(g, s, run) == s'
  }

  lemma CleanStep(g: Setting, s: System, who: Who, e: NetEvent, s': System)
    requires Possible(g, s, who, e) && LeadsCleanly(g, Next(g, s, who, e), s')
    requires !e.Recycled? && (e.Deliver? ==> !e.packet.seg.flags.rst)
    ensures LeadsCleanly(g, s, s')
  {
    hide Possible, Next;
    var run :| Clean(run) && PossibleRun(g, Next(g, s, who, e), run) && After(g, Next(g, s, who, e), run) == s';
    RunStarts(g, s, who, e, run);
    assert Clean([(who, e)] + run);
  }

  lemma CleanHere(g: Setting, s: System)
    ensures LeadsCleanly(g, s, s)
  {
    assert Clean([]) && PossibleRun(g, s, []) && After(g, s, []) == s;
  }

  lemma {:induction false} CleanOn(g: Setting, s: System, run: seq<(Who, NetEvent)>, s'': System)
    requires Clean(run) && PossibleRun(g, s, run) && LeadsCleanly(g, After(g, s, run), s'')
    ensures LeadsCleanly(g, s, s'')
    decreases |run|
  {
    hide Possible, Next, LeadsCleanly;
    if run != [] {
      assert Clean(run[1..]);
      CleanOn(g, Next(g, s, run[0].0, run[0].1), run[1..], s'');
      CleanStep(g, s, run[0].0, run[0].1, s'');
    }
  }

  lemma CleanThen(g: Setting, s: System, s': System, s'': System)
    requires LeadsCleanly(g, s, s') && LeadsCleanly(g, s', s'')
    ensures LeadsCleanly(g, s, s'')
  {
    hide PossibleRun, After, Clean;
    var run :| Clean(run) && PossibleRun(g, s, run) && After(g, s, run) == s';
    CleanOn(g, s, run, s'');
  }

  /** The end has closed, or is open with nothing to wait for and takes what comes. */
  predicate MayEnd(x: Side) {
    Closing(x.c.state) || (x.c.state == ESTABLISHED && !x.c.stopped && x.c.len == 0)
  }

  /** B expects A's FIN, or has it. */
  lemma FinNumbered(g: Setting, s: System)
    requires Consistent(g, s) && FinOut(s.a.c) && MayEnd(s.b)
    ensures FinIn(s.b.c) ==> s.b.c.rcvNxt == Plus(s.a.c.sndNxt, 1)
    ensures !FinIn(s.b.c) ==> s.b.c.rcvNxt == s.a.c.sndNxt
    ensures s.a.c.sndNxt != Plus(s.a.c.sndNxt, 1) && s.a.c.len == 1 && s.a.fin
    ensures s.b.c.state == ESTABLISHED ==> s.a.c.rcvNxt == s.b.c.sndNxt
  {
    hide At, Plus, PacketOk;
    AtPlus(g.baseA, s.a.acked, 1);
    AtInjective(g.baseA, s.a.acked, Total(s.a));
  }

  /** What B does when it gets A's FIN. */
  predicate FinMet(x: Side, x': Side, out: Option<Segment>) {
    && FinIn(x'.c) && x'.origin == x.origin
    && x'.c.rcvNxt == (if FinIn(x.c) then x.c.rcvNxt else Plus(x.c.rcvNxt, 1))
    && out.Some? && out.value.payload == [] && out.value.ackno == x'.c.rcvNxt
    && match x.c.state
       case ESTABLISHED =>
         x'.c.state == LAST_ACK && out.value.flags == ACK.(fin := true) && out.value.seqno == x.c.sndNxt
         && Total(x') <= Total(x) + 1
       case FIN_WAIT_1 => x'.c.state != LAST_ACK && out.value.flags == ACK && Total(x') == Total(x)
       case FIN_WAIT_2 => x'.c.state == TIME_WAIT && out.value.flags == ACK && Total(x') == Total(x)
       case _ => x'.c == x.c && out.value.flags == ACK && Total(x') == Total(x)
  }

  lemma FinRepeated(host: u32, x: Side, p: Packet)
    requires FinIn(x.c) && p.seg.flags == ACK.(fin := true) && p.seg.seqno != x.c.rcvNxt
    ensures var e := Deliver(p, 0, Nothing()); Disciplined(x, e) && FinMet(x, Act(host, x, e), Outcome(host, x, e).out)
  {
    hide Plus, RttUpdate, Acked;
  }

  lemma FinMetOpen(host: u32, x: Side, p: Packet)
    requires x.c.state == ESTABLISHED && !x.c.stopped && x.c.len == 0
    requires p.seg.flags == ACK.(fin := true) && p.seg.payload == [] && p.seg.seqno == x.c.rcvNxt
    ensures var e := Deliver(p, 0, Nothing()); Disciplined(x, e) && FinMet(x, Act(host, x, e), Outcome(host, x, e).out)
  {
    hide Plus, RttUpdate, Acked;
  }

  lemma FinMetWaiting(host: u32, x: Side, p: Packet)
    requires x.c.state == FIN_WAIT_1 || x.c.state == FIN_WAIT_2
    requires p.seg.flags == ACK.(fin := true) && p.seg.payload == [] && p.seg.seqno == x.c.rcvNxt
    ensures var e := Deliver(p, 0, Nothing()); Disciplined(x, e) && FinMet(x, Act(host, x, e), Outcome(host, x, e).out)
  {
    hide Plus, RttUpdate, Acked;
    AckedKeeps(x.c);
  }

  /** B takes A's FIN, or had it, and acknowledges it; if it was open, with its own. */
  lemma FinAnswered(host: u32, x: Side, p: Packet)
    requires MayEnd(x) && p.seg.flags == ACK.(fin := true) && p.seg.payload == []
    requires if FinIn(x.c) then p.seg.seqno != x.c.rcvNxt else p.seg.seqno == x.c.rcvNxt
    ensures var e := Deliver(p, 0, Nothing()); Disciplined(x, e) && FinMet(x, Act(host, x, e), Outcome(host, x, e).out)
  {
    hide Act, Outcome, Disciplined, FinMet;
    if FinIn(x.c) {
      FinRepeated(host, x, p);
    } else if x.c.state == ESTABLISHED {
      FinMetOpen(host, x, p);
    } else {
      FinMetWaiting(host, x, p);
    }
  }

  /** The acknowledgment of its FIN moves A on. */
  lemma FinAckArrives(host: u32, x: Side, q: Packet)
    requires ConnInv(x.c) && FinOut(x.c) && q.seg.payload == [] && q.seg.ackno == Plus(x.c.sndNxt, 1)
    requires q.seg.flags == ACK || (q.seg.flags == ACK.(fin := true) && x.c.state == FIN_WAIT_1
                                    && q.seg.seqno == x.c.rcvNxt)
    ensures var e := Deliver(q, 0, Nothing());
            var x' := Act(host, x, e);
            && Disciplined(x, e) && Total(x') == Total(x) && x'.rcvd == x.rcvd + (if q.seg.flags.fin then 1 else 0)
            && x'.c.state == match x.c.state
                             case FIN_WAIT_1 => if q.seg.flags.fin then TIME_WAIT else FIN_WAIT_2
                             case CLOSING => TIME_WAIT
                             case _ => CLOSED
  {
    hide Plus, RttUpdate, Acked;
    AckedKeeps(x.c);
  }

  /** B's stream has a number left for its FIN. */
  predicate Room(x: Side) { Total(x) + 1 < MODULUS }

  /** A's FIN gets through, and so does its acknowledgment. */
  lemma FinGetsThrough(g: Setting, s: System) returns (s': System)
    requires Consistent(g, s) && FinOut(s.a.c) && MayEnd(s.b) && Room(s.b)
    requires s.b.c.state == ESTABLISHED ==> s.a.c.state == FIN_WAIT_1
    ensures LeadsCleanly(g, s, s') && Consistent(g, s') && FinIn(s'.b.c) && Total(s'.a) == Total(s.a)
    ensures s'.a.c.state == match s.a.c.state
                            case FIN_WAIT_1 => if s.b.c.state == ESTABLISHED then TIME_WAIT else FIN_WAIT_2
                            case CLOSING => TIME_WAIT
                            case _ => CLOSED
    ensures match s.b.c.state
            case ESTABLISHED => s'.b.c.state == LAST_ACK
            case FIN_WAIT_1 => s'.b.c.state != LAST_ACK
            case FIN_WAIT_2 => s'.b.c.state == TIME_WAIT
            case _ => s'.b.c == s.b.c
    ensures s.b.c.state != ESTABLISHED ==> s'.a.rcvd == s.a.rcvd && Total(s'.b) == Total(s.b)
  {
    hide Agreement, AllWhole, FinTaken, Act, Outcome, Plus, LeadsCleanly, Disciplined, Total;
    var p :| p in s.ab && IsFin(s.a.c, p.seg);
    FinNumbered(g, s);
    FinAnswered(g.hostB, s.b, p);
    RoomIsEnough(g, s);
    var e1 := Deliver(p, 0, Nothing());
    var s1 := Next(g, s, B, e1);
    StepKeepsConsistent(g, s, B, e1);
    var q := Packet(Outcome(g.hostB, s.b, e1).out.value, s1.b.acked, s1.b.rcvd);
    BothConnsInv(g, s1);
    FinAckArrives(g.hostA, s1.a, q);
    RoomIsEnough(g, s1);
    var e2 := Deliver(q, 0, Nothing());
    s' := Next(g, s1, A, e2);
    StepKeepsConsistent(g, s1, A, e2);
    CleanHere(g, s');
    CleanStep(g, s1, A, e2, s');
    CleanStep(g, s, B, e1, s');
  }

  lemma RoomIsEnough(g: Setting, s: System)
    requires Consistent(g, s)
    ensures Total(s.a) < MODULUS && Total(s.b) < MODULUS
  {
    hide At, ConnInv, PacketOk;
  }

  lemma BothConnsInv(g: Setting, s: System)
    requires Consistent(g, s)
    ensures ConnInv(s.a.c) && ConnInv(s.b.c)
  {
    hide At, ConnInv, PacketOk, ReceiverOk;
  }

  // ----- the same from the other end

  lemma MirrorConsistent(g: Setting, s: System)
    requires Consistent(g, s)
    ensures Consistent(MirrorSetting(g), Mirror(s))
  {
    hide Direction, Whole, FinTaken, FinPosted, Posted;
  }

  lemma {:induction false} MirrorClean(run: seq<(Who, NetEvent)>)
    requires Clean(run)
    ensures Clean(MirrorRun(run))
  {
    if run != [] {
      MirrorClean(run[1..]);
      assert MirrorRun(run) == [(if run[0].0.A? then B else A, run[0].1)] + MirrorRun(run[1..]);
    }
  }

  lemma MirrorLeadsCleanly(g: Setting, s: System, s': System)
    requires LeadsCleanly(MirrorSetting(g), Mirror(s), s')
    ensures LeadsCleanly(g, s, Mirror(s'))
  {
    hide PossibleRun, After, Clean;
    var run :| Clean(run) && PossibleRun(MirrorSetting(g), Mirror(s), run)
        && After(MirrorSetting(g), Mirror(s), run) == s';
    MirrorLeads(g, s, run);
    MirrorClean(run);
  }

  lemma FinGetsBack(g: Setting, s: System) returns (s': System)
    requires Consistent(g, s) && FinOut(s.b.c) && MayEnd(s.a) && Room(s.a) && s.a.c.state != ESTABLISHED
    ensures LeadsCleanly(g, s, s') && Consistent(g, s') && FinIn(s'.a.c)
    ensures s'.b.c.state == match s.b.c.state
                            case FIN_WAIT_1 => FIN_WAIT_2
                            case CLOSING => TIME_WAIT
                            case _ => CLOSED
    ensures match s.a.c.state
            case FIN_WAIT_1 => s'.a.c.state != LAST_ACK
            case FIN_WAIT_2 => s'.a.c.state == TIME_WAIT
            case _ => s'.a.c == s.a.c
    ensures s'.b.rcvd == s.b.rcvd && Total(s'.a) == Total(s.a) && Total(s'.b) == Total(s.b)
  {
    hide Consistent, LeadsCleanly;
    MirrorConsistent(g, s);
    var m := FinGetsThrough(MirrorSetting(g), Mirror(s));
    MirrorConsistent(MirrorSetting(g), m);
    MirrorLeadsCleanly(g, s, m);
    s' := Mirror(m);
  }

  /** Both ends are at their end, and each received all the other ever sent. */
  predicate Ended(s: System) {
    && (s.a.c.state == TIME_WAIT || s.a.c.state == CLOSED) && (s.b.c.state == TIME_WAIT || s.b.c.state == CLOSED)
    && s.a.rcvd == Total(s.b) && s.b.rcvd == Total(s.a)
  }

  lemma TookAll(g: Setting, s: System)
    requires Consistent(g, s)
    ensures FinIn(s.a.c) ==> s.a.rcvd == Total(s.b)
    ensures FinIn(s.b.c) ==> s.b.rcvd == Total(s.a)
    ensures !(s.a.c.state == LAST_ACK && s.b.c.state == LAST_ACK)
  {
    hide Agreement, AllWhole, FinPosted;
  }

  /** A FIN that was acknowledged was taken: nobody stays in FIN_WAIT_2 behind it. */
  lemma AckedFinWasTaken(g: Setting, s: System)
    requires Consistent(g, s)
    ensures s.b.c.state == TIME_WAIT || s.b.c.state == FIN_WAIT_2 ==>
        s.a.c.state != FIN_WAIT_2 && s.a.c.state != ESTABLISHED
    ensures s.a.c.state == TIME_WAIT || s.a.c.state == FIN_WAIT_2 ==>
        s.b.c.state != FIN_WAIT_2 && s.b.c.state != ESTABLISHED
    ensures s.b.c.state == ESTABLISHED ==> !FinIn(s.a.c)
    ensures s.a.c.state == ESTABLISHED ==> !FinIn(s.b.c)
  {
    hide At, PacketOk, AllWhole, FinPosted;
  }

  /** Both ends have closed. */
  lemma ClosedEnds(g: Setting, s: System) returns (s': System)
    requires Consistent(g, s) && Closing(s.a.c.state) && Closing(s.b.c.state) && Room(s.a) && Room(s.b)
    ensures LeadsCleanly(g, s, s') && Ended(s')
  {
    hide Consistent, LeadsCleanly, Total;
    var s1, s2 := s, s;
    CleanHere(g, s);
    if s.a.c.state == FIN_WAIT_1 || s.a.c.state == CLOSING {
      s1 := FinGetsThrough(g, s);
    }
    s2 := s1;
    CleanHere(g, s1);
    if s1.b.c.state == FIN_WAIT_1 || s1.b.c.state == CLOSING {
      s2 := FinGetsBack(g, s1);
    }
    TookAll(g, s2);
    AckedFinWasTaken(g, s2);
    s' := s2;
    CleanHere(g, s2);
    if s2.a.c.state == LAST_ACK {
      s' := FinGetsThrough(g, s2);
    } else if s2.b.c.state == LAST_ACK {
      s' := FinGetsBack(g, s2);
    }
    TookAll(g, s');
    CleanThen(g, s1, s2, s');
    CleanThen(g, s, s1, s');
  }

  /** A has closed and B is open. */
  lemma OpenPeerEnds(g: Setting, s: System) returns (s': System)
    requires Consistent(g, s) && Closing(s.a.c.state) && s.b.c.state == ESTABLISHED && MayEnd(s.b) && Room(s.a)
             && Room(s.b)
    ensures LeadsCleanly(g, s, s') && Ended(s')
  {
    hide Consistent, LeadsCleanly, Total;
    AckedFinWasTaken(g, s);
    var s1 := FinGetsThrough(g, s);
    TookAll(g, s1);
    s' := FinGetsBack(g, s1);
    TookAll(g, s');
    CleanThen(g, s, s1, s');
  }

  /**
    Every close completes. Whatever was lost, repeated and reordered before: once one end has closed, and the other has
    too or is open with nothing outstanding and takes what comes, some run without resets brings both to TIME_WAIT or
    CLOSED, each having received the whole of the other's stream and its FIN.
   */
  lemma CloseCompletes(g: Setting, s: System, run: seq<(Who, NetEvent)>)
    requires Begins(g, s) && PossibleRun(g, s, run)
    requires var now := After(g, s, run);
             && (Closing(now.a.c.state) || Closing(now.b.c.state)) && MayEnd(now.a) && MayEnd(now.b)
             && Room(now.a) && Room(now.b)
    ensures exists s' :: LeadsCleanly(g, After(g, s, run), s') && Ended(s')
  {
    hide PossibleRun, After, Consistent, LeadsCleanly, Begins, Total;
    BeginsConsistent(g, s);
    RunKeepsConsistent(g, s, run);
    var now := After(g, s, run);
    if Closing(now.a.c.state) && Closing(now.b.c.state) {
      var s' := ClosedEnds(g, now);
    } else if Closing(now.a.c.state) {
      var s' := OpenPeerEnds(g, now);
    } else {
      MirrorConsistent(g, now);
      var m := OpenPeerEnds(MirrorSetting(g), Mirror(now));
      MirrorLeadsCleanly(g, now, m);
      assert Ended(Mirror(m));
    }
  }
}
