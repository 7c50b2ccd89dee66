/** The three-way handshake of an endpoint that called uip_connect with one that listens, when nothing is lost. */
module TcpHandshake {
  import opened SeqNum
  import opened Tcp
  import opened TcpInvariants
  import opened TcpEndToEnd

  /** An application that does nothing in its callback. */
  predicate Silent(reply: Reply) { reply.send.None? && reply.action.Continue? && reply.flow.Keep? }

  /** The slot as uip_connect leaves it: the SYN goes out when the timer has run down. */
  predicate JustOpened(c: Conn) { c.state == SYN_SENT && c.len == 1 && c.nrtx == 0 && c.timer == 1 && ConnInv(c) }

  function SynOf(g: Setting, x: Side): Packet { Packet(Emit(g.hostA, x.c, SYN, []), 0, 0) }

  /** Two ticks send the SYN. */
  lemma SynGoesOut(g: Setting, s: System, reply: Reply)
    requires Connects(g.baseA, s.a) && JustOpened(s.a.c)
    ensures var s2 := Next(g, Next(g, s, A, Tick(reply)), A, Tick(reply));
            && Possible(g, s, A, Tick(reply)) && Possible(g, Next(g, s, A, Tick(reply)), A, Tick(reply))
            && s2.a == s.a.(c := s.a.c.(timer := 3, nrtx := 1)) && s2.b == s.b
            && SynOf(g, s.a) in s2.ab && Fresh(s2.a)
  {
    hide At;
  }

  lemma SynIsAnswered(g: Setting, s: System, slot: Conn, syn: Packet)
    requires Waits(s.b) && syn in s.ab && syn.seg.flags == SYN && ConnInv(slot)
    ensures var e := Listened(syn, slot, At(g.baseB, 0));
            var s' := Next(g, s, B, e);
            && Possible(g, s, B, e) && s'.a == s.a
            && s'.b == Side(Passive, Accept(slot, At(g.baseB, 0), syn.seg), [], false, [], 0, 1)
            && Packet(Emit(g.hostB, s'.b.c, ACK.(syn := true), []), 0, 1) in s'.ba
  {
    hide At, Plus;
  }

  lemma SynAckOpens(g: Setting, s: System, p: Packet, reply: Reply)
    requires s.a.origin.Active? && Fresh(s.a) && s.a.c.state == SYN_SENT && Silent(reply) && p in s.ba
    requires p.seg.flags == ACK.(syn := true) && p.seg.ackno == Plus(s.a.c.sndNxt, 1)
    ensures var e := Deliver(p, 0, reply);
            var s' := Next(g, s, A, e);
            && Possible(g, s, A, e) && s'.b == s.b && s'.a.c.state == ESTABLISHED && s'.a.c.len == 0
            && s'.a.acked == s'.a.rcvd == 1
            && s'.a.c.rcvNxt == Plus(p.seg.seqno, 1)
            && exists q :: q in s'.ab && q.seg.flags == ACK && q.seg.payload == []
                           && q.seg.ackno == Plus(p.seg.seqno, 1)
  {
    hide At, Plus, RttUpdate, Acked, WithMss;
    AckedKeeps(s.a.c);
    MssOk(Acked(s.a.c), p.seg.mss);
    var s' := Next(g, s, A, Deliver(p, 0, reply));
    var q := Packet(Emit(g.hostA, s'.a.c, ACK, []), 1, 1);
    assert q in s'.ab;
  }

  lemma AckOpens(g: Setting, s: System, q: Packet, reply: Reply)
    requires s.b.c.state == SYN_RCVD && s.b.c.len == 1 && Silent(reply) && q in s.ab && Total(s.b) < MODULUS
    requires q.seg.flags == ACK && q.seg.payload == [] && q.seg.ackno == Plus(s.b.c.sndNxt, 1)
    ensures var e := Deliver(q, 0, reply);
            Possible(g, s, B, e) && Next(g, s, B, e).a == s.a && Next(g, s, B, e).b.c.state == ESTABLISHED
  {
    hide At, Plus, RttUpdate, Acked;
    AckedKeeps(s.b.c);
  }

  lemma RunStarts(g: Setting, s: System, who: Who, e: NetEvent, rest: seq<(Who, NetEvent)>)
    requires Possible(g, s, who, e) && PossibleRun(g, Next(g, s, who, e), rest)
    ensures PossibleRun(g, s, [(who, e)] + rest) && After(g, s, [(who, e)] + rest) == After(g, Next(g, s, who, e), rest)
  {
    hide Possible, Next;
    assert ([(who, e)] + rest)[1..] == rest;
  }

  /** A connection can be opened: two ticks, the SYN, the SYN|ACK and its acknowledgment make both ends ESTABLISHED. */
  lemma HandshakeOpens(g: Setting, s: System, slot: Conn, reply: Reply)
    requires Begins(g, s) && s.a.origin.Active? && JustOpened(s.a.c) && ConnInv(slot) && Silent(reply)
    ensures exists run :: |run| == 5 && PossibleRun(g, s, run)
                          && After(g, s, run).a.c.state == After(g, s, run).b.c.state == ESTABLISHED
  {
    hide Possible, Next, At, Plus, ConnInv, PossibleRun, After;
    var s1 := Next(g, s, A, Tick(reply));
    var s2 := Next(g, s1, A, Tick(reply));
    SynGoesOut(g, s, reply);
    var syn := SynOf(g, s.a);
    var e3 := Listened(syn, slot, At(g.baseB, 0));
    var s3 := Next(g, s2, B, e3);
    SynIsAnswered(g, s2, slot, syn);
    var synack := Packet(Emit(g.hostB, s3.b.c, ACK.(syn := true), []), 0, 1);
    var e4 := Deliver(synack, 0, reply);
    var s4 := Next(g, s3, A, e4);
    SynAckOpens(g, s3, synack, reply);
    var ack :| ack in s4.ab && ack.seg.flags == ACK && ack.seg.payload == []
        && ack.seg.ackno == Plus(synack.seg.seqno, 1);
    var e5 := Deliver(ack, 0, reply);
    AckOpens(g, s4, ack, reply);
    NoRun(g, Next(g, s4, B, e5));
    RunStarts(g, s4, B, e5, []);
    RunStarts(g, s3, A, e4, [(B, e5)] + []);
    RunStarts(g, s2, B, e3, [(A, e4)] + ([(B, e5)] + []));
    RunStarts(g, s1, A, Tick(reply), [(B, e3)] + ([(A, e4)] + ([(B, e5)] + [])));
    RunStarts(g, s, A, Tick(reply), [(A, Tick(reply))] + ([(B, e3)] + ([(A, e4)] + ([(B, e5)] + []))));
  }

  lemma NoRun(g: Setting, s: System)
    ensures PossibleRun(g, s, []) && After(g, s, []) == s
  {
  }
}
