/**
 What the application is told, when, and what that says about the connection; and what is answered to a segment.
 */
module TcpNotices {
  import opened Words
  import opened SeqNum
  import opened Tcp
  import opened TcpInvariants
  import opened TcpLimits

  predicate Opening(c: Conn) { c.state == SYN_SENT || c.state == SYN_RCVD }

  /** The segment takes up sequence space. */
  predicate Occupies(seg: Segment) { seg.payload != [] || seg.flags.syn || seg.flags.fin }

  /**
    The segment is no reset and, if it takes up sequence space, starts where the connection expects it, or is a SYN|ACK.
   */
  predicate Wanted(c: Conn, seg: Segment) {
    && !seg.flags.rst
    && (Occupies(seg) ==> seg.seqno == c.rcvNxt || (c.state == SYN_SENT && seg.flags == ACK.(syn := true)))
  }

  /** What is outstanding is acknowledged, by a segment that is wanted. */
  predicate Clears(c: Conn, seg: Segment) {
    Wanted(c, seg) && seg.flags.ack && c.len > 0 && seg.ackno == Plus(c.sndNxt, c.len)
  }

  /** The segment completes the opening. */
  predicate Completes(c: Conn, seg: Segment) {
    Opening(c) && Clears(c, seg) && (c.state == SYN_SENT ==> seg.flags == ACK.(syn := true))
  }

  /** The peer's FIN is taken: an open connection leaves it lie while it has stopped or has data outstanding. */
  predicate Finishes(c: Conn, seg: Segment) {
    && Wanted(c, seg) && seg.flags.fin
    && match c.state
       case ESTABLISHED => !c.stopped && (c.len == 0 || Clears(c, seg))
       case FIN_WAIT_1 => true
       case FIN_WAIT_2 => true
       case _ => false
  }

  /** An open connection hands on data. */
  predicate Hands(c: Conn, seg: Segment) {
    c.state == ESTABLISHED && Wanted(c, seg) && !c.stopped && !seg.flags.fin && DataLength(seg) > 0
  }

  /** The application's answer to being asked, on a connection that is open. */
  function Chosen(reply: Reply): State {
    match reply.action
    case Abort => CLOSED
    case Close => FIN_WAIT_1
    case Continue => ESTABLISHED
  }

  function Flags(told: Option<Told>): UipFlags { if told.Some? then told.value.flags else NO_EVENT }

  /** Everything a segment makes the application told, each with its exact reason. */
  ghost predicate ToldExactly(c: Conn, seg: Segment, t: UipFlags) {
    && (t.connected <==> Completes(c, seg))
    && (t.abort <==> seg.flags.rst || (c.state == SYN_SENT && Wanted(c, seg) && !Completes(c, seg)))
    && (t.close <==> Finishes(c, seg) || (c.state == LAST_ACK && Clears(c, seg)))
    && (t.ackdata <==> c.state == ESTABLISHED && Clears(c, seg))
    && (c.state == ESTABLISHED ==> (t.newdata <==> Hands(c, seg) || (Finishes(c, seg) && seg.payload != [])))
    && (c.state == SYN_RCVD ==> (t.newdata <==> Completes(c, seg) && seg.payload != []))
    && (t.newdata ==> Opening(c) || c.state == ESTABLISHED)
    && !t.timedout && !t.poll && !t.rexmit
  }

  /** Where what the application was told, and what it answered, leads. */
  function Led(c: Conn, seg: Segment, t: UipFlags, reply: Reply): State {
    if t.abort then CLOSED
    else if t.close then
      match c.state
      case ESTABLISHED => LAST_ACK
      case FIN_WAIT_1 => if Clears(c, seg) then TIME_WAIT else CLOSING
      case FIN_WAIT_2 => TIME_WAIT
      case _ => CLOSED
    else if t.connected || t.ackdata || t.newdata then Chosen(reply)
    else if c.state == FIN_WAIT_1 && Clears(c, seg) then FIN_WAIT_2
    else if c.state == CLOSING && Clears(c, seg) then TIME_WAIT
    else c.state
  }

  ghost predicate Noticed(host: u32, c: Conn, slen: u16, seg: Segment, reply: Reply) {
    var r := Found(host, c, slen, seg, reply);
    ToldExactly(c, seg, Flags(r.told)) && r.c.state == Led(c, seg, Flags(r.told), reply)
  }

  lemma AppSendLeads(host: u32, c: Conn, told: Told, slen: u16, reply: Reply)
    requires c.state == ESTABLISHED && !told.flags.close && !told.flags.abort
    ensures var r := AppSend(host, c, told, slen, reply); r.told == Some(told) && r.c.state == Chosen(reply)
  {
  }

  lemma OpeningNoticed(host: u32, c: Conn, slen: u16, seg: Segment, reply: Reply)
    requires ConnInv(c) && Opening(c)
    ensures Noticed(host, c, slen, seg, reply)
  {
    hide Plus, RttUpdate, Acked, AppSend, WithMss;
    AckedKeeps(c);
    var c1 := Acked(c);
    if Acknowledges(c, seg) {
      if c.state == SYN_RCVD {
        AppSendLeads(host, c1.In(ESTABLISHED).(len := 0).Received(|seg.payload|),
                     Told(NO_EVENT.(connected := true, newdata := |seg.payload| > 0), AtAppdata(seg)), 0, reply);
      } else {
        AppSendLeads(host, WithMss(c1, seg.mss).In(ESTABLISHED).(rcvNxt := Plus(seg.seqno, 1), len := 0),
                     Told(NO_EVENT.(connected := true, newdata := true), []), 0, reply);
      }
    }
  }

  lemma EstablishedNoticed(host: u32, c: Conn, slen: u16, seg: Segment, reply: Reply)
    requires ConnInv(c) && c.state == ESTABLISHED
    ensures Noticed(host, c, slen, seg, reply)
  {
    hide Plus, RttUpdate, Acked, AppSend, Window, DataLength, Data;
    AckedKeeps(c);
    var ackd := Acknowledges(c, seg);
    var c1 := if ackd then Acked(c) else c;
    var isNew := DataLength(seg) > 0 && !c.stopped;
    AppSendLeads(host, (if isNew then c1.Received(DataLength(seg)) else c1).(mss := Window(c1, seg.wnd)),
                 Told(NO_EVENT.(ackdata := ackd, newdata := isNew), Data(seg)), 0, reply);
  }

  lemma ClosingNoticed(host: u32, c: Conn, slen: u16, seg: Segment, reply: Reply)
    requires ConnInv(c) && !Opening(c) && c.state != ESTABLISHED && c.state != CLOSED
    ensures Noticed(host, c, slen, seg, reply)
  {
    hide Plus, RttUpdate, Acked, Emit;
    AckedKeeps(c);
  }

  /**
    Everything a segment makes the application told, each with its exact reason; and what it was told and answered says
    where the connection went.
   */
  lemma Notices(host: u32, c: Conn, slen: u16, seg: Segment, reply: Reply)
    requires ConnInv(c) && c.state != CLOSED
    ensures var r := Found(host, c, slen, seg, reply);
            ToldExactly(c, seg, Flags(r.told)) && r.c.state == Led(c, seg, Flags(r.told), reply)
  {
    hide Found, ToldExactly, Led;
    if Opening(c) {
      OpeningNoticed(host, c, slen, seg, reply);
    } else if c.state == ESTABLISHED {
      EstablishedNoticed(host, c, slen, seg, reply);
    } else {
      ClosingNoticed(host, c, slen, seg, reply);
    }
  }

  // ----- what is sent

  /**
    What an event starts sending it sends at once, with all its retransmissions still to come: a FIN, data, a reset.
   */
  predicate SendsAfresh(c: Conn, r: Result, reply: Reply) {
    && ((r.c.state == FIN_WAIT_1 || r.c.state == LAST_ACK) && r.c.state != c.state ==>
          r.out.Some? && r.out.value.flags == ACK.(fin := true) && r.out.value.seqno == r.c.sndNxt
          && r.out.value.payload == [] && r.c.len == 1 && r.c.nrtx == 0)
    && (r.c.state == ESTABLISHED && r.c.len > 0 && (c.state != ESTABLISHED || c.len == 0 || r.c.sndNxt != c.sndNxt) ==>
          r.out.Some? && r.out.value.flags == ACK.(psh := true) && r.c.nrtx == 0)
    && (Flags(r.told).connected || Flags(r.told).ackdata || Flags(r.told).poll ==>
          (reply.action == Abort && !Flags(r.told).close ==> r.out.Some? && r.out.value.flags == ACK.(rst := true)))
  }

  lemma AppSendAfresh(host: u32, c: Conn, told: Told, slen: u16, reply: Reply)
    requires c.state == ESTABLISHED && c.mss <= UIP_TCP_MSS && (told.flags.ackdata ==> c.len == 0)
    ensures SendsAfresh(c, AppSend(host, c, told, slen, reply), reply)
    ensures AppSend(host, c, told, slen, reply).c.rcvNxt == c.rcvNxt
    ensures AppSend(host, c, told, slen, reply).c.sndNxt == c.sndNxt
  {
  }

  lemma ClockSendsAfresh(host: u32, c: Conn, slen: u16, reply: Reply)
    requires ConnInv(c)
    ensures SendsAfresh(c, Timer(host, c, reply), reply) && SendsAfresh(c, Poll(host, c, slen, reply), reply)
    ensures Flags(Timer(host, c, reply).told).poll || Flags(Poll(host, c, slen, reply).told).poll <==>
            c.state == ESTABLISHED && c.len == 0
  {
    hide AppSend, Backoff, AppRexmit, Emit;
    if c.state == ESTABLISHED && c.len == 0 {
      var poll := Told(NO_EVENT.(poll := true), []);
      AppSendAfresh(host, c, poll, 0, reply);
      AppSendAfresh(host, c, poll, slen, reply);
      AppSendLeads(host, c, poll, 0, reply);
      AppSendLeads(host, c, poll, slen, reply);
    }
  }

  /**
    What a connection takes it acknowledges at once, unless it is data that comes with the acknowledgment of its FIN;
    and what it does not expect it answers with what it does expect.
   */
  predicate Responds(c: Conn, seg: Segment, r: Result) {
    && (r.c.rcvNxt != c.rcvNxt ==>
          if c.state == FIN_WAIT_1 && Clears(c, seg) && !seg.flags.fin then r.out.None?
          else r.out.Some? && r.out.value.flags.ack && r.out.value.ackno == r.c.rcvNxt)
    && (Occupies(seg) && !seg.flags.rst && !Wanted(c, seg) ==>
          r.c == c && r.out.Some? && r.out.value.flags == ACK && r.out.value.payload == []
          && r.out.value.ackno == c.rcvNxt)
    && (seg.flags.rst ==> r.out.None?)
    && (Flags(r.told).abort && !seg.flags.rst ==>
          r.out.Some? && r.out.value.flags.rst && r.out.value.seqno == seg.ackno
              && r.out.value.ackno == Plus(seg.seqno, 1))
  }

  /** An acknowledgment alone, sent for one. */
  predicate Echoes(seg: Segment, r: Result) {
    seg.flags == ACK && seg.payload == [] && r.out.Some? && r.out.value.flags == ACK && r.out.value.payload == []
  }

  ghost predicate Responsive(host: u32, c: Conn, slen: u16, seg: Segment, reply: Reply) {
    var r := Found(host, c, slen, seg, reply);
    && SendsAfresh(c, r, reply) && Responds(c, seg, r)
    && (seg.flags == ACK && seg.payload == [] && reply.flow != Restart ==> (Echoes(seg, r) <==> c.state == TIME_WAIT))
  }

  lemma AppSendEchoes(host: u32, c: Conn, told: Told, slen: u16, reply: Reply)
    requires c.state == ESTABLISHED
    ensures var r := AppSend(host, c, told, slen, reply);
            && (r.out.Some? ==> r.out.value.flags.ack && r.out.value.ackno == c.rcvNxt)
            && (told.flags.newdata ==> r.out.Some?)
            && (!told.flags.newdata && reply.flow != Restart ==> r.out.None? || r.out.value.flags != ACK)
  {
  }

  lemma OpeningResponds(host: u32, c: Conn, slen: u16, seg: Segment, reply: Reply)
    requires ConnInv(c) && Opening(c)
    ensures Responsive(host, c, slen, seg, reply)
  {
    hide Plus, RttUpdate, Acked, AppSend, WithMss;
    AckedKeeps(c);
    var c1 := Acked(c);
    if Acknowledges(c, seg) {
      if c.state == SYN_RCVD {
        var c2 := c1.In(ESTABLISHED).(len := 0).Received(|seg.payload|);
        var told := Told(NO_EVENT.(connected := true, newdata := |seg.payload| > 0), AtAppdata(seg));
        AppSendAfresh(host, c2, told, 0, reply);
        AppSendEchoes(host, c2, told, 0, reply);
        AppSendLeads(host, c2, told, 0, reply);
      } else {
        MssBelow(c1, seg.mss);
        var c2 := WithMss(c1, seg.mss).In(ESTABLISHED).(rcvNxt := Plus(seg.seqno, 1), len := 0);
        var told := Told(NO_EVENT.(connected := true, newdata := true), []);
        AppSendAfresh(host, c2, told, 0, reply);
        AppSendEchoes(host, c2, told, 0, reply);
        AppSendLeads(host, c2, told, 0, reply);
      }
    }
  }

  lemma MssBelow(c: Conn, mss: Option<u16>)
    requires c.mss <= UIP_TCP_MSS
    ensures WithMss(c, mss).mss <= UIP_TCP_MSS
  {
  }

  /** An open connection once a segment was taken, before the application is asked. */
  function Asked(c: Conn, seg: Segment): Conn {
    var c1 := if Acknowledges(c, seg) then Acked(c) else c;
    (if DataLength(seg) > 0 && !c.stopped then c1.Received(DataLength(seg)) else c1).(mss := Window(c1, seg.wnd))
  }

  lemma AskedFields(c: Conn, seg: Segment)
    requires ConnInv(c) && c.state == ESTABLISHED
    ensures var a := Asked(c, seg);
            && a.state == ESTABLISHED && a.mss <= UIP_TCP_MSS
            && (Acknowledges(c, seg) ==> a.len == 0)
                && (!Acknowledges(c, seg) ==> a.len == c.len && a.sndNxt == c.sndNxt)
            && (DataLength(seg) == 0 || c.stopped ==> a.rcvNxt == c.rcvNxt)
  {
    hide Plus, Acked, DataLength, Acknowledges;
    AckedKeeps(c);
  }

  lemma AskedShape(host: u32, c: Conn, slen: u16, seg: Segment, reply: Reply)
    requires ConnInv(c) && c.state == ESTABLISHED && Wanted(c, seg) && (seg.flags.fin ==> c.stopped)
    ensures var ackd, isNew := Acknowledges(c, seg), DataLength(seg) > 0 && !c.stopped;
            Found(host, c, slen, seg, reply) ==
            if isNew || ackd then
              AppSend(host, Asked(c, seg), Told(NO_EVENT.(ackdata := ackd, newdata := isNew), Data(seg)), 0, reply)
            else Result(Asked(c, seg), slen, None, None)
  {
    hide AppSend, Plus, Acked, DataLength, Data, Window;
    AckedKeeps(c);
  }

  lemma EstablishedResponds(host: u32, c: Conn, slen: u16, seg: Segment, reply: Reply)
    requires ConnInv(c) && c.state == ESTABLISHED
    ensures Responsive(host, c, slen, seg, reply)
  {
    if Wanted(c, seg) && (seg.flags.fin ==> c.stopped) {
      hide Found, AppSend, Asked, Acknowledges, Data, ConnInv;
      AskedFields(c, seg);
      AskedShape(host, c, slen, seg, reply);
      var told := Told(NO_EVENT.(ackdata := Acknowledges(c, seg), newdata := DataLength(seg) > 0 && !c.stopped),
                       Data(seg));
      AppSendAfresh(host, Asked(c, seg), told, 0, reply);
      AppSendEchoes(host, Asked(c, seg), told, 0, reply);
      AppSendLeads(host, Asked(c, seg), told, 0, reply);
    } else {
      hide Plus, Acked, AppSend, ConnInv;
      AckedKeeps(c);
    }
  }

  lemma ClosingResponds(host: u32, c: Conn, slen: u16, seg: Segment, reply: Reply)
    requires ConnInv(c) && !Opening(c) && c.state != ESTABLISHED && c.state != CLOSED
    ensures Responsive(host, c, slen, seg, reply)
  {
    hide Plus, RttUpdate, Acked;
    AckedKeeps(c);
  }

  /**
    Every answer to a segment. What is taken is acknowledged, with one exception; what is unexpected is answered; resets
    are not; and nobody but a connection in TIME_WAIT answers an acknowledgment alone with another.
   */
  lemma Responses(host: u32, c: Conn, slen: u16, seg: Segment, reply: Reply)
    requires ConnInv(c) && c.state != CLOSED
    ensures var r := Found(host, c, slen, seg, reply);
            && SendsAfresh(c, r, reply) && Responds(c, seg, r)
            && (seg.flags == ACK && seg.payload == [] && reply.flow != Restart ==>
                (Echoes(seg, r) <==> c.state == TIME_WAIT))
  {
    hide Found, SendsAfresh, Responds, Echoes;
    if Opening(c) {
      OpeningResponds(host, c, slen, seg, reply);
    } else if c.state == ESTABLISHED {
      EstablishedResponds(host, c, slen, seg, reply);
    } else {
      ClosingResponds(host, c, slen, seg, reply);
    }
  }

  /** Of a segment with data, an open connection acknowledges all if and only if none of it is urgent. */
  lemma UrgentIsNotAcknowledged(host: u32, c: Conn, slen: u16, seg: Segment, reply: Reply)
    requires ConnInv(c) && c.state == ESTABLISHED && !c.stopped
    requires Wanted(c, seg) && seg.payload != [] && !seg.flags.fin
    ensures Found(host, c, slen, seg, reply).c.rcvNxt == Plus(c.rcvNxt, |seg.payload|)
            <==> !seg.flags.urg || seg.urgp == 0
  {
    hide Found, Plus;
    TakesCounted(host, c, slen, seg, reply);
    PlusZero(c.rcvNxt);
    if DataLength(seg) != |seg.payload| {
      PlusDiffers(c.rcvNxt, DataLength(seg), |seg.payload|);
    }
  }

  /** Of a segment with an urgent part the application is handed what is behind that. */
  lemma UrgentIsSkipped(host: u32, c: Conn, slen: u16, seg: Segment, reply: Reply)
    requires ConnInv(c) && c.state == ESTABLISHED && !c.stopped && Wanted(c, seg) && !seg.flags.fin
    requires seg.options == [] && seg.flags.urg && seg.urgp < |seg.payload|
    ensures Found(host, c, slen, seg, reply).told.Some?
    ensures Found(host, c, slen, seg, reply).told.value.data == seg.payload[seg.urgp..]
  {
    hide Plus, RttUpdate, Acked, AppSend;
    AckedKeeps(c);
    assert AtAppdata(seg) == seg.payload;
    var ackd := Acknowledges(c, seg);
    var c2 := (if ackd then Acked(c) else c).Received(DataLength(seg)).(mss := Window(c, seg.wnd));
    AppSendLeads(host, c2, Told(NO_EVENT.(ackdata := ackd, newdata := true), Data(seg)), 0, reply);
  }

  lemma TakesCounted(host: u32, c: Conn, slen: u16, seg: Segment, reply: Reply)
    requires ConnInv(c) && c.state == ESTABLISHED && !c.stopped && Wanted(c, seg) && !seg.flags.fin
    ensures Found(host, c, slen, seg, reply).c.rcvNxt
            == if DataLength(seg) > 0 then Plus(c.rcvNxt, DataLength(seg)) else c.rcvNxt
  {
    hide Plus, RttUpdate, Acked, AppSend, DataLength, Data;
    AckedKeeps(c);
    var ackd := Acknowledges(c, seg);
    var c1 := if ackd then Acked(c) else c;
    var isNew := DataLength(seg) > 0 && !c.stopped;
    var c2 := (if isNew then c1.Received(DataLength(seg)) else c1).(mss := Window(c1, seg.wnd));
    AppSendAfresh(host, c2, Told(NO_EVENT.(ackdata := ackd, newdata := isNew), Data(seg)), 0, reply);
  }

  lemma PlusZero(b: Bytes4)
    ensures Plus(b, 0) == b
  {
    ValInverse(b);
    hide Val, ToBytes;
  }

  lemma PlusDiffers(b: Bytes4, n: nat, m: nat)
    requires n < MODULUS && m < MODULUS && n != m
    ensures Plus(b, n) != Plus(b, m)
  {
    hide Val, ToBytes;
    if Plus(b, n) == Plus(b, m) {
      AtInjective(Val(b), n, m);
    }
  }

  /** The sequence space a connection takes from a segment: data, and a FIN behind it. */
  function Taken(c: Conn, seg: Segment): nat {
    if Finishes(c, seg) then |seg.payload| + 1
    else if Hands(c, seg) then DataLength(seg)
    else if Completes(c, seg) && c.state == SYN_RCVD then |seg.payload|
    else if (c.state == FIN_WAIT_1 || c.state == FIN_WAIT_2) && Wanted(c, seg) then |seg.payload|
    else 0
  }

  lemma PlusTwice(b: Bytes4, n: nat, m: nat)
    ensures Plus(Plus(b, n), m) == Plus(b, n + m)
  {
    hide Val, ToBytes;
    AtPlus(Val(b), n, m);
  }

  /** The number expected next moves on by exactly what was taken; a SYN|ACK sets it. */
  lemma ExpectsNext(host: u32, c: Conn, slen: u16, seg: Segment, reply: Reply)
    requires ConnInv(c) && c.state != CLOSED
    ensures Found(host, c, slen, seg, reply).c.rcvNxt
            == if c.state == SYN_SENT && Completes(c, seg) then Plus(seg.seqno, 1) else Plus(c.rcvNxt, Taken(c, seg))
  {
    PlusZero(c.rcvNxt);
    PlusTwice(c.rcvNxt, |seg.payload|, 1);
    hide Plus, Found;
    if c.state == ESTABLISHED {
      EstablishedExpects(host, c, slen, seg, reply);
    } else {
      OthersExpect(host, c, slen, seg, reply);
    }
  }

  lemma EstablishedExpects(host: u32, c: Conn, slen: u16, seg: Segment, reply: Reply)
    requires ConnInv(c) && c.state == ESTABLISHED
    ensures Found(host, c, slen, seg, reply).c.rcvNxt
            == if Taken(c, seg) > 0 then Plus(c.rcvNxt, Taken(c, seg)) else c.rcvNxt
  {
    if Wanted(c, seg) && (seg.flags.fin ==> c.stopped) {
      hide Plus, AppSend, Acked, Data, DataLength, Window;
      AckedKeeps(c);
      AskedShape(host, c, slen, seg, reply);
      AskedFields(c, seg);
      var told := Told(NO_EVENT.(ackdata := Acknowledges(c, seg), newdata := DataLength(seg) > 0 && !c.stopped),
                       Data(seg));
      AppSendAfresh(host, Asked(c, seg), told, 0, reply);
    } else {
      hide Plus, AppSend, Acked, DataLength;
      AckedKeeps(c);
    }
  }

  lemma OthersExpect(host: u32, c: Conn, slen: u16, seg: Segment, reply: Reply)
    requires ConnInv(c) && c.state != CLOSED && c.state != ESTABLISHED
    ensures Found(host, c, slen, seg, reply).c.rcvNxt
            == if c.state == SYN_SENT && Completes(c, seg) then Plus(seg.seqno, 1)
               else if Finishes(c, seg) then c.Received(|seg.payload|).Received(1).rcvNxt
               else if Taken(c, seg) > 0 then Plus(c.rcvNxt, Taken(c, seg)) else c.rcvNxt
  {
    hide Plus, AppSend, Acked, WithMss, Emit;
    AckedKeeps(c);
    MssExpects(Acked(c), seg.mss);
    forall c': Conn, told
      ensures AppSend(host, c', told, 0, reply).c.rcvNxt == c'.rcvNxt
    {
      AppSendExpects(host, c', told, reply);
    }
  }

  lemma MssExpects(c: Conn, mss: Option<u16>)
    ensures WithMss(c, mss).rcvNxt == c.rcvNxt
  {
  }

  lemma AppSendExpects(host: u32, c: Conn, told: Told, reply: Reply)
    ensures AppSend(host, c, told, 0, reply).c.rcvNxt == c.rcvNxt
  {
  }

  // ----- the length left behind for all connections

  /** The length of the application's last uip_send in a callback that found `left`. */
  function Sent(left: u16, reply: Reply): u16 {
    if reply.send.Some? && reply.send.value > 0 then reply.send.value else left
  }

  /** What an answered question leaves: nothing, or what is outstanding now. */
  function Used(c: Conn, left: u16, reply: Reply): u16 {
    if reply.action != Continue || Sent(left, reply) == 0 then 0 else c.len
  }

  lemma AppSendLength(host: u32, c: Conn, told: Told, slen: u16, reply: Reply)
    requires !told.flags.abort && !told.flags.close
    ensures var r := AppSend(host, c, told, slen, reply); r.slen == Used(r.c, slen, reply)
  {
  }

  lemma FoundLength(host: u32, c: Conn, slen: u16, seg: Segment, reply: Reply)
    requires ConnInv(c) && c.state != CLOSED
    ensures var r := Found(host, c, slen, seg, reply);
            var t := Flags(r.told);
            r.slen == if t.abort || t.close then Sent(slen, reply)
                      else if r.told.Some? then Used(r.c, 0, reply)
                      else slen
  {
    hide Plus, RttUpdate, Acked, AppSend, WithMss, Emit, Window, Data, DataLength;
    AckedKeeps(c);
    forall c': Conn, told: Told | !told.flags.abort && !told.flags.close
      ensures var r := AppSend(host, c', told, 0, reply); r.slen == Used(r.c, 0, reply) && r.told == Some(told)
    {
      AppSendLength(host, c', told, 0, reply);
      AppSendTold(host, c', told, 0, reply);
    }
  }

  lemma AppSendTold(host: u32, c: Conn, told: Told, slen: u16, reply: Reply)
    ensures AppSend(host, c, told, slen, reply).told == Some(told)
  {
  }

  /**
    What an event leaves in uip_slen, for a poll request of whatever connection to find: a length the application sent
    when it was told of an end stays, though nothing went out with it.
   */
  lemma LengthLeft(host: u32, c: Conn, slen: u16, seg: Segment, reply: Reply)
    requires ConnInv(c) && c.state != CLOSED
    ensures var r := Found(host, c, slen, seg, reply);
            var t := Flags(r.told);
            r.slen == if t.abort || t.close then Sent(slen, reply)
                      else if r.told.Some? then Used(r.c, 0, reply)
                      else slen
    ensures var r := Timer(host, c, reply);
            var t := Flags(r.told);
            r.slen == if t.timedout || t.rexmit then Sent(0, reply)
                      else if t.poll then Used(r.c, 0, reply)
                      else 0
  {
    FoundLength(host, c, slen, seg, reply);
    hide Found, AppSend, Emit, AppRexmit, Backoff;
    AppSendLength(host, c, Told(NO_EVENT.(poll := true), []), 0, reply);
    AppSendTold(host, c, Told(NO_EVENT.(poll := true), []), 0, reply);
  }

  // ----- an application that has stopped

  /** Stopped and not restarted, a connection takes nothing and its segments say so. */
  lemma StaysStopped(host: u32, c: Conn, e: SlotEvent)
    requires ConnInv(c) && c.state == ESTABLISHED && c.stopped && e.reply.flow != Restart
    ensures var c' := Slot(host, c, e); c'.rcvNxt == c.rcvNxt && (c'.state == ESTABLISHED ==> c'.stopped)
  {
    hide Plus, RttUpdate, Acked, Emit, AppRexmit;
    if e.Arrives? {
      AckedKeeps(c);
    }
  }

  lemma {:induction false} StoppedTakesNothing(host: u32, c: Conn, events: seq<SlotEvent>)
    requires ConnInv(c) && c.state == ESTABLISHED && c.stopped && forall e | e in events :: e.reply.flow != Restart
    requires Slots(host, c, events).state == ESTABLISHED
    ensures Slots(host, c, events).rcvNxt == c.rcvNxt && Slots(host, c, events).stopped
    decreases |events|
  {
    hide Slot, ConnInv;
    if events != [] {
      assert events[0] in events;
      StaysStopped(host, c, events[0]);
      SlotKeeps(host, c, events[0]);
      if Slot(host, c, events[0]).state != ESTABLISHED {
        NeverReopens(host, Slot(host, c, events[0]), events[1..]);
      } else {
        StoppedTakesNothing(host, Slot(host, c, events[0]), events[1..]);
      }
    }
  }

  lemma SlotKeeps(host: u32, c: Conn, e: SlotEvent)
    requires ConnInv(c)
    ensures ConnInv(Slot(host, c, e)) && SegmentEdge(c.state, Slot(host, c, e).state)
  {
    hide Found, Timer, Poll, ConnInv;
    match e
    case Arrives(seg, slen, reply) =>
      if c.state != CLOSED {
        FoundKeeps(host, c, slen, seg, reply);
      }
    case Ticks(reply) => TimerKeeps(host, c, reply);
    case Polled(slen, reply) => PollKeeps(host, c, slen, reply);
  }

  lemma {:induction false} NeverReopens(host: u32, c: Conn, events: seq<SlotEvent>)
    requires ConnInv(c) && !Opening(c) && c.state != ESTABLISHED
    ensures Slots(host, c, events).state != ESTABLISHED
    decreases |events|
  {
    hide Slot, ConnInv;
    if events != [] {
      SlotKeeps(host, c, events[0]);
      NeverReopens(host, Slot(host, c, events[0]), events[1..]);
    }
  }

  /** A restart, when the application is polled, goes out at once with the window open again. */
  lemma RestartIsAnnounced(host: u32, c: Conn, slen: u16, reply: Reply)
    requires ConnInv(c) && c.state == ESTABLISHED && c.len == 0 && reply.flow == Restart && reply.action == Continue
    ensures var r := Poll(host, c, slen, reply);
            && !r.c.stopped && r.out.Some? && r.out.value.wnd == UIP_RECEIVE_WINDOW && r.out.value.ackno == c.rcvNxt
    ensures var r := Timer(host, c, reply);
            && !r.c.stopped && r.out.Some? && r.out.value.wnd == UIP_RECEIVE_WINDOW && r.out.value.ackno == c.rcvNxt
  {
  }
}
