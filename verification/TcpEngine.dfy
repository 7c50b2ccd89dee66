/**
 uip.c as it runs: connection slots updated field by field, a listen table, and the globals iss, lastport and uip_slen.
 Every method is tied to the function of the same name in module Tcp, about which the other modules prove their claims.
 */
module TcpEngine {
  import opened Words
  import opened SeqNum
  import opened Tcp
  import opened TcpTable

  /** struct uip_conn */
  class UipConn {
    var state: State
    var stopped: bool
    var ripaddr: u32
    var lport: u16
    var rport: u16
    var rcvNxt: Bytes4
    var sndNxt: Bytes4
    var len: u16
    var mss: u16
    var initialmss: u16
    var sa: u8
    var sv: u8
    var rto: u8
    var timer: u8
    var nrtx: u8

    function V(): Conn
      reads this
    {
      Conn(state, stopped, ripaddr, lport, rport, rcvNxt, sndNxt, len, mss, initialmss, sa, sv, rto, timer, nrtx)
    }

    constructor ()
      ensures V().Is(CLOSED) && mss == initialmss == 0 && nrtx == 0
    {
      state, stopped, ripaddr, lport, rport := CLOSED, false, 0, 0, 0;
      rcvNxt, sndNxt := Bytes4(0, 0, 0, 0), Bytes4(0, 0, 0, 0);
      len, mss, initialmss, sa, sv, rto, timer, nrtx := 0, 0, 0, 0, 0, 0, 0, 0;
    }

    /** uip_add_rcv_nxt */
    method AddRcvNxt(n: u16)
      modifies this`rcvNxt
      ensures rcvNxt == Plus(old(rcvNxt), n)
    {
      rcvNxt := Add32(rcvNxt, n);
    }

    method SetState(st: State)
      modifies this`state, this`stopped
      ensures V() == old(V()).In(st)
    {
      state, stopped := st, false;
    }

    /** UIP_APPCALL: the application's effect on uip_flags, uip_slen and the stop flag. */
    method AppCall(told: UipFlags, slen0: u16, reply: Reply) returns (flags: UipFlags, slen: u16)
      modifies this`stopped
      ensures V() == FlowAfter(old(V()), reply)
      ensures flags == FlagsAfter(told, reply) && slen == SlenAfter(slen0, reply)
    {
      flags, slen := told, slen0;
      if reply.send.Some? && reply.send.value > 0 {
        slen := reply.send.value;
      }
      match reply.flow {
        case Keep =>
        case Stop => stopped := true;
        case Restart =>
          flags := flags.(newdata := true);
          stopped := false;
      }
      match reply.action {
        case Continue =>
        case Close => flags := NO_EVENT.(close := true);
        case Abort => flags := NO_EVENT.(abort := true);
      }
    }

    method AppRexmit(host: u32, flags: UipFlags, slen: u16, buf: AppBuffer) returns (out: Option<Segment>)
      ensures out == Tcp.AppRexmit(host, V(), flags, slen, buf)
    {
      if slen > 0 && len > 0 {
        return Some(Emit(host, V(), ACK.(psh := true), Take(buf, len)));
      }
      if flags.newdata {
        return Some(Emit(host, V(), ACK, []));
      }
      return None;
    }

    /** The callback and appsend. */
    method AppSend(host: u32, told: Told, slen0: u16, reply: Reply) returns (slen: u16, out: Option<Segment>)
      modifies this
      ensures Result(V(), slen, out, Some(told)) == Tcp.AppSend(host, old(V()), told, slen0, reply)
    {
      var flags;
      flags, slen := AppCall(told.flags, slen0, reply);
      if flags.abort {
        slen := 0;
        SetState(CLOSED);
        out := Some(Emit(host, V(), ACK.(rst := true), []));
        return;
      }
      if flags.close {
        slen := 0;
        len := 1;
        SetState(FIN_WAIT_1);
        nrtx := 0;
        out := Some(Emit(host, V(), ACK.(fin := true), []));
        return;
      }
      if slen > 0 {
        if flags.ackdata {
          len := 0;
        }
        if len == 0 {
          if slen > mss {
            slen := mss;
          }
          len := slen;
        } else {
          slen := len;
        }
      }
      nrtx := 0;
      out := AppRexmit(host, flags, slen, reply.buf);
    }

    /** uip_process(UIP_TIMER) */
    method Timer(host: u32, reply: Reply) returns (slen: u16, out: Option<Segment>, told: Option<Told>)
      modifies this
      ensures Result(V(), slen, out, told) == Tcp.Timer(host, old(V()), reply)
    {
      slen, out, told := 0, None, None;
      if V().Is(TIME_WAIT) || V().Is(FIN_WAIT_2) {
        timer := Wrap8(timer as int + 1);
        if timer == UIP_TIME_WAIT_TIMEOUT {
          SetState(CLOSED);
        }
      } else if !V().Is(CLOSED) {
        if len > 0 {
          var expired := timer == 0;
          timer := Wrap8(timer as int - 1);
          if expired {
            if GivesUp(V()) {
              SetState(CLOSED);
              told := Some(Told(NO_EVENT.(timedout := true), []));
              slen := SlenAfter(slen, reply);
              out := Some(Emit(host, V(), ACK.(rst := true), []));
              return;
            }
            timer := Backoff(nrtx);
            nrtx := Wrap8(nrtx as int + 1);
            match state {
              case SYN_RCVD => out := Some(Emit(host, V(), ACK.(syn := true), []));
              case SYN_SENT => out := Some(Emit(host, V(), SYN, []));
              case ESTABLISHED =>
                var flags := NO_EVENT.(rexmit := true);
                told := Some(Told(flags, []));
                flags, slen := AppCall(flags, slen, reply);
                out := AppRexmit(host, flags, slen, reply.buf);
              case FIN_WAIT_1 => out := Some(Emit(host, V(), ACK.(fin := true), []));
              case CLOSING => out := Some(Emit(host, V(), ACK.(fin := true), []));
              case LAST_ACK => out := Some(Emit(host, V(), ACK.(fin := true), []));
              case _ =>
            }
          }
        } else if state == ESTABLISHED {
          var poll := Told(NO_EVENT.(poll := true), []);
          slen, out := AppSend(host, poll, slen, reply);
          told := Some(poll);
        }
      }
    }

    /** uip_process(UIP_POLL_REQUEST) */
    method Poll(host: u32, slen0: u16, reply: Reply) returns (slen: u16, out: Option<Segment>, told: Option<Told>)
      modifies this
      ensures Result(V(), slen, out, told) == Tcp.Poll(host, old(V()), slen0, reply)
    {
      slen, out, told := slen0, None, None;
      if state == ESTABLISHED && len == 0 {
        var poll := Told(NO_EVENT.(poll := true), []);
        slen, out := AppSend(host, poll, slen, reply);
        told := Some(poll);
      }
    }

    /** The round-trip estimation, on a signed char and three bytes. */
    method UpdateRtt()
      modifies this`sa, this`sv, this`rto
      ensures V() == RttUpdate(old(V()))
    {
      hide Wrap8, Signed8;
      var m := Signed8(rto as int - timer as int);
      m := Signed8(m - (sa / 8) as int);
      sa := Wrap8(sa as int + m);
      if m < 0 {
        m := Signed8(-m);
      }
      m := Signed8(m - (sv / 4) as int);
      sv := Wrap8(sv as int + m);
      rto := Wrap8((sa / 8) as int + sv as int);
    }

    /** Acknowledgment processing. */
    method ProcessAck(seg: Segment) returns (ackd: bool)
      modifies this
      ensures ackd == Acknowledges(old(V()), seg)
      ensures V() == if ackd then Acked(old(V())) else old(V())
    {
      hide Plus, Wrap8, Signed8;
      ackd := false;
      if seg.flags.ack && len > 0 {
        var acc := Add32(sndNxt, len);
        if seg.ackno == acc {
          sndNxt := acc;
          if nrtx == 0 {
            UpdateRtt();
          }
          ackd := true;
          timer := rto;
          len := 0;
        }
      }
    }

    method ReceiveData(n: nat)
      requires n < 0x1_0000
      modifies this`rcvNxt
      ensures V() == old(V()).Received(n)
    {
      if n > 0 {
        AddRcvNxt(n);
      }
    }

    method ParseMss(option: Option<u16>)
      modifies this`mss, this`initialmss
      ensures V() == WithMss(old(V()), option)
    {
      if option.Some? {
        mss := if option.value > UIP_TCP_MSS then UIP_TCP_MSS else option.value;
        initialmss := mss;
      }
    }

    method InSynRcvd(host: u32, ackd: bool, slen0: u16, seg: Segment, reply: Reply)
      returns (slen: u16, out: Option<Segment>, told: Option<Told>)
      modifies this
      ensures Result(V(), slen, out, told) == Tcp.InSynRcvd(host, old(V()), ackd, slen0, seg, reply)
    {
      hide Plus, Tcp.AppSend;
      slen, out, told := slen0, None, None;
      if ackd {
        SetState(ESTABLISHED);
        len := 0;
        ReceiveData(|seg.payload|);
        var connected := Told(NO_EVENT.(connected := true, newdata := |seg.payload| > 0), AtAppdata(seg));
        AppSendTold(host, V(), connected, 0, reply);
        slen, out := AppSend(host, connected, 0, reply);
        told := Some(connected);
      }
    }

    method InSynSent(host: u32, ackd: bool, slen0: u16, seg: Segment, reply: Reply)
      returns (slen: u16, out: Option<Segment>, told: Option<Told>)
      modifies this
      ensures Result(V(), slen, out, told) == Tcp.InSynSent(host, old(V()), ackd, slen0, seg, reply)
    {
      hide Plus, Tcp.AppSend;
      slen, out, told := slen0, None, None;
      if ackd && seg.flags == ACK.(syn := true) {
        ParseMss(seg.mss);
        SetState(ESTABLISHED);
        rcvNxt := seg.seqno;
        AddRcvNxt(1);
        len := 0;
        var connected := Told(NO_EVENT.(connected := true, newdata := true), []);
        AppSendTold(host, V(), connected, 0, reply);
        slen, out := AppSend(host, connected, 0, reply);
        told := Some(connected);
      } else {
        told := Some(Told(NO_EVENT.(abort := true), []));
        slen := SlenAfter(slen, reply);
        SetState(CLOSED);
        out := Reset(host, seg);
      }
    }

    method InEstablished(host: u32, ackd: bool, slen0: u16, seg: Segment, reply: Reply)
      returns (slen: u16, out: Option<Segment>, told: Option<Told>)
      modifies this
      ensures Result(V(), slen, out, told) == Tcp.InEstablished(host, old(V()), ackd, slen0, seg, reply)
    {
      hide Plus, Tcp.AppSend;
      slen, out, told := slen0, None, None;
      if seg.flags.fin && !stopped {
        if len > 0 {
          return;
        }
        AddRcvNxt(1 + |seg.payload|);
        told := Some(Told(NO_EVENT.(ackdata := ackd, close := true, newdata := |seg.payload| > 0), AtAppdata(seg)));
        slen := SlenAfter(slen, reply);
        len := 1;
        SetState(LAST_ACK);
        nrtx := 0;
        out := Some(Emit(host, V(), ACK.(fin := true), []));
        return;
      }
      var n := DataLength(seg);
      var isNew := false;
      if n > 0 && !stopped {
        isNew := true;
        AddRcvNxt(n);
      }
      var wnd := seg.wnd;
      if wnd > initialmss || wnd == 0 {
        wnd := initialmss;
      }
      mss := wnd;
      if isNew || ackd {
        var event := Told(NO_EVENT.(ackdata := ackd, newdata := isNew), Data(seg));
        AppSendTold(host, V(), event, 0, reply);
        slen, out := AppSend(host, event, 0, reply);
        told := Some(event);
      }
    }

    method InFinWait1(host: u32, ackd: bool, slen0: u16, seg: Segment, reply: Reply)
      returns (slen: u16, out: Option<Segment>, told: Option<Told>)
      modifies this
      ensures Result(V(), slen, out, told) == Tcp.InFinWait1(host, old(V()), ackd, slen0, seg, reply)
    {
      hide Plus;
      slen, out, told := slen0, None, None;
      ReceiveData(|seg.payload|);
      if seg.flags.fin {
        if ackd {
          SetState(TIME_WAIT);
          timer := 0;
          len := 0;
        } else {
          SetState(CLOSING);
        }
        AddRcvNxt(1);
        told := Some(Told(NO_EVENT.(close := true), AtAppdata(seg)));
        slen := SlenAfter(slen, reply);
        out := Some(Emit(host, V(), ACK, []));
      } else if ackd {
        SetState(FIN_WAIT_2);
        len := 0;
      } else if |seg.payload| > 0 {
        out := Some(Emit(host, V(), ACK, []));
      }
    }

    method InFinWait2(host: u32, slen0: u16, seg: Segment, reply: Reply)
      returns (slen: u16, out: Option<Segment>, told: Option<Told>)
      modifies this
      ensures Result(V(), slen, out, told) == Tcp.InFinWait2(host, old(V()), slen0, seg, reply)
    {
      hide Plus;
      slen, out, told := slen0, None, None;
      ReceiveData(|seg.payload|);
      if seg.flags.fin {
        SetState(TIME_WAIT);
        timer := 0;
        AddRcvNxt(1);
        told := Some(Told(NO_EVENT.(close := true), AtAppdata(seg)));
        slen := SlenAfter(slen, reply);
        out := Some(Emit(host, V(), ACK, []));
      } else if |seg.payload| > 0 {
        out := Some(Emit(host, V(), ACK, []));
      }
    }

    /** found: reset, sequence check, acknowledgment, then the switch on the state. */
    method Found(host: u32, slen0: u16, seg: Segment, reply: Reply)
      returns (slen: u16, out: Option<Segment>, told: Option<Told>)
      modifies this
      ensures Result(V(), slen, out, told) == Tcp.Found(host, old(V()), slen0, seg, reply)
    {
      hide Plus, Tcp.AppSend, Tcp.InSynRcvd, Tcp.InSynSent, Tcp.InEstablished, Tcp.InFinWait1, Tcp.InFinWait2, Acked;
      slen, out, told := slen0, None, None;
      if seg.flags.rst {
        SetState(CLOSED);
        told := Some(Told(NO_EVENT.(abort := true), []));
        slen := SlenAfter(slen, reply);
        return;
      }
      if !(state == SYN_SENT && seg.flags == ACK.(syn := true)) {
        if (|seg.payload| > 0 || seg.flags.syn || seg.flags.fin) && seg.seqno != rcvNxt {
          out := Some(Emit(host, V(), ACK, []));
          return;
        }
      }
      var ackd := ProcessAck(seg);
      match state {
        case SYN_RCVD => slen, out, told := InSynRcvd(host, ackd, slen, seg, reply);
        case SYN_SENT => slen, out, told := InSynSent(host, ackd, slen, seg, reply);
        case ESTABLISHED => slen, out, told := InEstablished(host, ackd, slen, seg, reply);
        case LAST_ACK =>
          if ackd {
            SetState(CLOSED);
            told := Some(Told(NO_EVENT.(close := true), AtAppdata(seg)));
            slen := SlenAfter(slen, reply);
          }
        case FIN_WAIT_1 => slen, out, told := InFinWait1(host, ackd, slen, seg, reply);
        case FIN_WAIT_2 => slen, out, told := InFinWait2(host, slen, seg, reply);
        case TIME_WAIT => out := Some(Emit(host, V(), ACK, []));
        case CLOSING =>
          if ackd {
            SetState(TIME_WAIT);
            timer := 0;
          }
        case CLOSED =>
      }
    }

    /** found_listen: the slot becomes a connection in SYN_RCVD and answers with a SYNACK. */
    method Accept(host: u32, iss: Bytes4, seg: Segment) returns (out: Option<Segment>)
      modifies this
      ensures V() == Tcp.Accept(old(V()), iss, seg) && out == Some(Emit(host, V(), ACK.(syn := true), []))
    {
      hide Plus, Emit, WithMss, Tcp.Accept;
      AcceptFields(V(), iss, seg);
      Fill(iss, seg);
      ParseMss(seg.mss);
      out := Some(Emit(host, V(), ACK.(syn := true), []));
    }

    method ResetTimer()
      modifies this
      ensures V() == old(V()).(rto := UIP_RTO, timer := UIP_RTO, sa := 0, sv := 4, nrtx := 0)
    {
      rto, timer := UIP_RTO, UIP_RTO;
      sa, sv, nrtx := 0, 4, 0;
    }

    /** The fields found_listen sets before it looks at the options. */
    method Fill(iss: Bytes4, seg: Segment)
      modifies this
      ensures V() == Conn(SYN_RCVD, false, seg.srcip, seg.destport, seg.srcport, Plus(seg.seqno, 1), iss,
                          1, old(mss), old(initialmss), 0, 4, UIP_RTO, UIP_RTO, 0)
    {
      hide Plus;
      ResetTimer();
      lport, rport := seg.destport, seg.srcport;
      ripaddr := seg.srcip;
      state, stopped := SYN_RCVD, false;
      sndNxt := iss;
      len := 1;
      rcvNxt := Add32(seg.seqno, 1);
    }

    method Open(iss: Bytes4, lport: u16, ripaddr: u32, rport: u16)
      modifies this
      ensures V() == Opened(old(V()), iss, lport, ripaddr, rport)
    {
      SetState(SYN_SENT);
      sndNxt := iss;
      initialmss, mss := UIP_TCP_MSS, UIP_TCP_MSS;
      len, nrtx, timer, rto, sa, sv := 1, 0, 1, UIP_RTO, 0, 16;
      this.lport, this.rport, this.ripaddr := lport, rport, ripaddr;
    }
  }

  lemma AcceptFields(c: Conn, iss: Bytes4, seg: Segment)
    ensures Tcp.Accept(c, iss, seg) ==
            WithMss(Conn(SYN_RCVD, false, seg.srcip, seg.destport, seg.srcport, Plus(seg.seqno, 1), iss,
                         1, c.mss, c.initialmss, 0, 4, UIP_RTO, UIP_RTO, 0), seg.mss)
  {
  }

  lemma AppSendTold(host: u32, c: Conn, told: Told, slen: u16, reply: Reply)
    ensures Tcp.AppSend(host, c, told, slen, reply).told == Some(told)
  {
  }

  /** The whole stack: uip_conns, uip_listenports and the globals the events read and write. */
  class UipStack {
    const hostaddr: u32
    const bigEndian: bool
    const conns: seq<UipConn>
    const listenports: array<u16>
    var iss: Bytes4
    var lastport: u16
    var slen: u16

    ghost predicate Valid()
      reads this
    {
      && |conns| == UIP_CONNS && listenports.Length == UIP_LISTENPORTS
      && forall i, j | 0 <= i < j < |conns| :: conns[i] != conns[j]
    }

    function Table(): (t: seq<Conn>)
      reads conns
      ensures |t| == |conns| && forall i | 0 <= i < |conns| :: t[i] == conns[i].V()
    {
      seq(|conns|, i requires 0 <= i < |conns| reads conns => conns[i].V())
    }

    ghost function View(): Uip
      reads this, conns, listenports
    {
      Uip(Table(), listenports[..], iss, lastport, slen)
    }

    /** uip_init over a statically zeroed table */
    constructor (hostaddr: u32, bigEndian: bool, slots: seq<UipConn>)
      requires |slots| == UIP_CONNS && forall i, j | 0 <= i < j < |slots| :: slots[i] != slots[j]
      requires forall i | 0 <= i < |slots| :: slots[i].V().Is(CLOSED) && slots[i].mss == slots[i].initialmss == 0
                                              && slots[i].nrtx == 0
      ensures Valid() && Initial(View()) && conns == slots && fresh(listenports)
    {
      this.hostaddr, this.bigEndian, conns := hostaddr, bigEndian, slots;
      listenports := new u16[UIP_LISTENPORTS](_ => 0);
      iss, lastport, slen := Bytes4(0, 0, 0, 0), 1024, 0;
    }

    /** The demultiplexing loop. */
    method FindConn(seg: Segment) returns (k: nat)
      requires Valid()
      ensures k == Demux(Table(), seg, 0)
    {
      k := 0;
      while k < UIP_CONNS
        invariant k <= UIP_CONNS && Demux(Table(), seg, 0) == Demux(Table(), seg, k)
      {
        if Matches(conns[k].V(), seg) {
          return;
        }
        k := k + 1;
      }
    }

    /** The slot search of found_listen and uip_connect: the first CLOSED slot, or the oldest TIME_WAIT seen before. */
    method FindSlot() returns (best: Option<nat>)
      requires Valid()
      ensures best == FreeSlot(Table())
    {
      best := None;
      var c := 0;
      while c < UIP_CONNS
        invariant 0 <= c <= UIP_CONNS && best == OldestTimeWait(Table(), c)
        invariant FirstClosed(Table(), 0) == FirstClosed(Table(), c)
      {
        if conns[c].V().Is(CLOSED) {
          return Some(c);
        }
        if conns[c].V().Is(TIME_WAIT) {
          if best.None? || conns[c].timer > conns[best.value].timer {
            best := Some(c);
          }
        }
        c := c + 1;
      }
    }

    method IsListening(port: u16) returns (found: bool)
      requires Valid()
      ensures found == (port in listenports[..])
    {
      var c := 0;
      while c < UIP_LISTENPORTS
        invariant 0 <= c <= UIP_LISTENPORTS && port !in listenports[..c]
      {
        if listenports[c] == port {
          return true;
        }
        c := c + 1;
      }
      assert listenports[..c] == listenports[..];
      return false;
    }

    /** Only slot `k` changed, so the table changed only there. */
    twostate lemma OneSlotChanged(k: nat)
      requires Valid() && k < |conns|
      requires forall i | 0 <= i < |conns| && i != k :: unchanged(conns[i])
      ensures Table() == old(Table())[k := conns[k].V()]
    {
    }

    /** uip_input */
    method Input(seg: Segment, reply: Reply) returns (out: Option<Segment>, told: Option<Told>)
      requires Valid()
      modifies this, conns
      ensures Stepped(View(), out, told) == Tcp.Input(hostaddr, old(View()), seg, reply)
    {
      hide Tcp.Found, Tcp.Accept, Demux, FreeSlot, Emit, Reset;
      out, told := None, None;
      var k := FindConn(seg);
      if k < UIP_CONNS {
        slen, out, told := conns[k].Found(hostaddr, slen, seg, reply);
        OneSlotChanged(k);
        return;
      }
      var listening := IsListening(seg.destport);
      if seg.flags != SYN || !listening {
        out := Reset(hostaddr, seg);
        return;
      }
      var slot := FindSlot();
      if slot.Some? {
        out := conns[slot.value].Accept(hostaddr, iss, seg);
        OneSlotChanged(slot.value);
      }
    }

    /** uip_periodic */
    method Periodic(i: nat, reply: Reply) returns (out: Option<Segment>, told: Option<Told>)
      requires Valid() && i < |conns|
      modifies this, conns[i]
      ensures Stepped(View(), out, told) == Tcp.Periodic(hostaddr, old(View()), i, reply)
    {
      hide Tcp.Timer, Plus;
      iss := Increment(iss);
      slen, out, told := conns[i].Timer(hostaddr, reply);
      OneSlotChanged(i);
    }

    /** uip_poll_conn */
    method PollConn(i: nat, reply: Reply) returns (out: Option<Segment>, told: Option<Told>)
      requires Valid() && i < |conns|
      modifies this, conns[i]
      ensures Stepped(View(), out, told) == Tcp.PollConn(hostaddr, old(View()), i, reply)
    {
      hide Tcp.Poll;
      slen, out, told := conns[i].Poll(hostaddr, slen, reply);
      OneSlotChanged(i);
    }

    method IsPortInUse(port: u16) returns (used: bool)
      requires Valid()
      ensures used == PortInUse(bigEndian, Table(), port)
    {
      hide Htons;
      var c := 0;
      while c < UIP_CONNS
        invariant 0 <= c <= UIP_CONNS
        invariant forall i | 0 <= i < c :: conns[i].V().Is(CLOSED) || conns[i].lport != Htons(bigEndian, port)
      {
        if !conns[c].V().Is(CLOSED) && conns[c].lport == Htons(bigEndian, port) {
          assert Table()[c].lport == Htons(bigEndian, port);
          return true;
        }
        c := c + 1;
      }
      return false;
    }

    /** uip_connect: the port search loops until it finds a free port, which at most |conns| used ones can delay. */
    method Connect(ripaddr: u32, rport: u16) returns (conn: Option<nat>)
      requires Valid() && PortRange(lastport)
      modifies this, conns
      ensures View() == Tcp.Connect(bigEndian, old(View()), ripaddr, rport)
      ensures conn == FreeSlot(old(Table()))
      ensures !PortInUse(bigEndian, old(Table()), lastport) && PortRange(lastport)
    {
      hide PortInUse, NextPort, FreeSlot, Opened, Htons, PortRange;
      ghost var port := SearchPort(bigEndian, Table(), lastport, |conns|);
      ghost var fuel := |conns|;
      SearchFindsFreePort(bigEndian, Table(), lastport);
      var again := true;
      while again
        invariant Table() == old(Table()) && listenports[..] == old(listenports[..]) && iss == old(iss)
                  && slen == old(slen)
        invariant fuel >= 0
        invariant if again then SearchPort(bigEndian, Table(), lastport, fuel) == port else lastport == port
        decreases again, fuel
      {
        lastport := StepPort(lastport);
        again := IsPortInUse(lastport);
        if again {
          fuel := fuel - 1;
        }
      }
      conn := FindSlot();
      if conn.Some? {
        label found:
        conns[conn.value].Open(iss, Htons(bigEndian, lastport), ripaddr, rport);
        OneSlotChanged@found(conn.value);
      }
    }

    static method StepPort(port: u16) returns (next: u16)
      ensures next == NextPort(port)
    {
      next := Wrap16(port as int + 1);
      if next >= 32000 {
        next := 4096;
      }
    }

    /** The first listen entry equal to `port` is overwritten, if there is one. */
    method ReplacePort(port: u16, value: u16)
      requires Valid()
      modifies listenports
      ensures var k := IndexOf(old(listenports[..]), port);
              listenports[..] == if k < UIP_LISTENPORTS then old(listenports[..])[k := value] else old(listenports[..])
    {
      var c := 0;
      while c < UIP_LISTENPORTS
        invariant 0 <= c <= UIP_LISTENPORTS
        invariant IndexOf(listenports[..], port) == c + IndexOf(listenports[c..], port)
      {
        if listenports[c] == port {
          listenports[c] := value;
          return;
        }
        assert listenports[c..][1..] == listenports[c + 1..];
        c := c + 1;
      }
    }

    /** uip_listen */
    method Listen(port: u16)
      requires Valid()
      modifies listenports
      ensures View() == Tcp.Listen(old(View()), port)
    {
      ReplacePort(0, port);
    }

    /** uip_unlisten */
    method Unlisten(port: u16)
      requires Valid()
      modifies listenports
      ensures View() == Tcp.Unlisten(old(View()), port)
    {
      ReplacePort(port, 0);
    }
  }
}
