/**
 The meaning of uip_process (uip.c) on values: one function per label or state, over a connection and a segment.
 The application callback is a parameter: `Reply` is anything it may do before returning.
 Incoming segments are those that passed the IP and TCP checks; their options enter as an optional MSS.
 */
module Tcp {
  import opened Words
  import opened SeqNum

  const UIP_CONNS := 40
  const UIP_LISTENPORTS := 40
  const UIP_BUFSIZE := 420
  const UIP_LLH_LEN := 14
  const UIP_TCPIP_HLEN := 40
  const UIP_TCP_MSS: u16 := UIP_BUFSIZE - UIP_LLH_LEN - UIP_TCPIP_HLEN
  const UIP_RECEIVE_WINDOW: u16 := UIP_TCP_MSS
  const UIP_RTO: u8 := 3
  const UIP_MAXRTX: u8 := 8
  const UIP_MAXSYNRTX: u8 := 5
  const UIP_TIME_WAIT_TIMEOUT: u8 := 120

  datatype State = CLOSED | SYN_RCVD | SYN_SENT | ESTABLISHED | FIN_WAIT_1 | FIN_WAIT_2 | CLOSING | TIME_WAIT | LAST_ACK

  datatype Flags = Flags(fin: bool, syn: bool, rst: bool, psh: bool, ack: bool, urg: bool)

  const NO_FLAGS := Flags(false, false, false, false, false, false)
  const SYN := NO_FLAGS.(syn := true)
  const ACK := NO_FLAGS.(ack := true)

  datatype Segment = Segment(
    srcip: u32, destip: u32, srcport: u16, destport: u16,
    seqno: Bytes4, ackno: Bytes4, flags: Flags, wnd: u16, urgp: u16,
    options: seq<u8>, mss: Option<u16>, payload: Payload)

  /** Data that fits uip_buf behind the headers. */
  type Payload = p: seq<u8> | |p| <= UIP_TCP_MSS

  /** The application's part of uip_buf, from uip_sappdata on. */
  type AppBuffer = b: seq<u8> | |b| == UIP_TCP_MSS as int witness seq(UIP_TCP_MSS as int, _ => 0)

  /** uip_flags, as the application sees it. */
  datatype UipFlags = UipFlags(
    ackdata: bool, newdata: bool, rexmit: bool, poll: bool,
    close: bool, abort: bool, connected: bool, timedout: bool)

  const NO_EVENT := UipFlags(false, false, false, false, false, false, false, false)

  datatype Action = Continue | Close | Abort

  datatype Flow = Keep | Stop | Restart

  /**
    What the application did in its callback: the last uip_send length if it called uip_send, the contents of the data
    area when it returned, uip_close or uip_abort, and uip_stop or uip_restart.
   */
  datatype Reply = Reply(send: Option<u16>, buf: AppBuffer, action: Action, flow: Flow)

  /** What one callback told the application. */
  datatype Told = Told(flags: UipFlags, data: seq<u8>)

  datatype Conn = Conn(
    state: State, stopped: bool,
    ripaddr: u32, lport: u16, rport: u16, rcvNxt: Bytes4, sndNxt: Bytes4,
    len: u16, mss: u16, initialmss: u16,
    sa: u8, sv: u8, rto: u8, timer: u8, nrtx: u8)
  {
    /** tcpstateflags == st, a comparison of the whole byte including the UIP_STOPPED bit. */
    predicate Is(st: State) { state == st && !stopped }

    function In(st: State): Conn { this.(state := st, stopped := false) }

    /** uip_add_rcv_nxt, guarded by uip_len > 0 where the source guards it. */
    function Received(n: nat): Conn { if n > 0 then this.(rcvNxt := Plus(rcvNxt, n)) else this }
  }

  /** The outcome of one uip_process call for one connection; `slen` is the global uip_slen it leaves behind. */
  datatype Result = Result(c: Conn, slen: u16, out: Option<Segment>, told: Option<Told>)

  // ----- output

  /** The option a SYN is sent with. */
  function MssOption(): seq<u8> { [2, 4, UIP_TCP_MSS / 0x100, UIP_TCP_MSS % 0x100] }

  /** tcp_send: a header filled in from the connection. */
  function Emit(host: u32, c: Conn, flags: Flags, payload: Payload): Segment {
    Segment(host, c.ripaddr, c.lport, c.rport, c.sndNxt, c.rcvNxt, flags,
            if c.stopped then 0 else UIP_RECEIVE_WINDOW, 0,
            if flags.syn then MssOption() else [], if flags.syn then Some(UIP_TCP_MSS) else None, payload)
  }

  /** reset: the answer to a segment nobody wants; resets are not answered. */
  function Reset(host: u32, seg: Segment): Option<Segment> {
    if seg.flags.rst then None
    else Some(Segment(host, seg.srcip, seg.destport, seg.srcport, seg.ackno, Plus(seg.seqno, 1),
                      ACK.(rst := true), seg.wnd, 0, [], None, []))
  }

  function Take(buf: AppBuffer, n: nat): Payload {
    if n <= |buf| then buf[..n] else buf
  }

  // ----- the callback and the send path behind it

  /** uip_flags after the callback: uip_close and uip_abort overwrite it, uip_restart sets UIP_NEWDATA. */
  function FlagsAfter(flags: UipFlags, reply: Reply): UipFlags {
    match reply.action
    case Close => NO_EVENT.(close := true)
    case Abort => NO_EVENT.(abort := true)
    case Continue => if reply.flow == Restart then flags.(newdata := true) else flags
  }

  function FlowAfter(c: Conn, reply: Reply): Conn {
    match reply.flow
    case Keep => c
    case Stop => c.(stopped := true)
    case Restart => c.(stopped := false)
  }

  /** uip_slen after the callback: uip_send ignores a length of zero. */
  function SlenAfter(slen: u16, reply: Reply): u16 {
    if reply.send.Some? && reply.send.value > 0 then reply.send.value else slen
  }

  /** apprexmit */
  function AppRexmit(host: u32, c: Conn, flags: UipFlags, slen: u16, buf: AppBuffer): Option<Segment> {
    if slen > 0 && c.len > 0 then Some(Emit(host, c, ACK.(psh := true), Take(buf, c.len)))
    else if flags.newdata then Some(Emit(host, c, ACK, []))
    else None
  }

  /** The callback followed by appsend. */
  function AppSend(host: u32, c0: Conn, told: Told, slen0: u16, reply: Reply): Result {
    var flags, c, slen := FlagsAfter(told.flags, reply), FlowAfter(c0, reply), SlenAfter(slen0, reply);
    if flags.abort then
      var c' := c.In(CLOSED);
      Result(c', 0, Some(Emit(host, c', ACK.(rst := true), [])), Some(told))
    else if flags.close then
      var c' := c.In(FIN_WAIT_1).(len := 1, nrtx := 0);
      Result(c', 0, Some(Emit(host, c', ACK.(fin := true), [])), Some(told))
    else
      var len := if slen > 0 && flags.ackdata then 0 else c.len;
      var sent := if slen > 0 && len == 0 then (if slen > c.mss then c.mss else slen) else len;
      var slen' := if slen > 0 then sent else slen;
      var c' := c.(len := sent, nrtx := 0);
      Result(c', slen', AppRexmit(host, c', flags, slen', reply.buf), Some(told))
  }

  // ----- timer and poll

  /** UIP_RTO << (nrtx > 4 ? 4 : nrtx) */
  function Backoff(nrtx: u8): u8 {
    if nrtx == 0 then 3 else if nrtx == 1 then 6 else if nrtx == 2 then 12 else if nrtx == 3 then 24 else 48
  }

  predicate GivesUp(c: Conn) {
    c.nrtx == UIP_MAXRTX || ((c.Is(SYN_SENT) || c.Is(SYN_RCVD)) && c.nrtx == UIP_MAXSYNRTX)
  }

  /** What is retransmitted when the timer expires, by state. */
  function Retransmit(host: u32, c: Conn, reply: Reply): Result {
    match c.state
    case SYN_RCVD => Result(c, 0, Some(Emit(host, c, ACK.(syn := true), [])), None)
    case SYN_SENT => Result(c, 0, Some(Emit(host, c, SYN, [])), None)
    case ESTABLISHED =>
      var rexmit := NO_EVENT.(rexmit := true);
      var c' := FlowAfter(c, reply);
      var slen := SlenAfter(0, reply);
      Result(c', slen, AppRexmit(host, c', FlagsAfter(rexmit, reply), slen, reply.buf), Some(Told(rexmit, [])))
    case FIN_WAIT_1 => Result(c, 0, Some(Emit(host, c, ACK.(fin := true), [])), None)
    case CLOSING => Result(c, 0, Some(Emit(host, c, ACK.(fin := true), [])), None)
    case LAST_ACK => Result(c, 0, Some(Emit(host, c, ACK.(fin := true), [])), None)
    case _ => Result(c, 0, None, None)
  }

  /** uip_process(UIP_TIMER) */
  function Timer(host: u32, c: Conn, reply: Reply): Result {
    if c.Is(TIME_WAIT) || c.Is(FIN_WAIT_2) then
      var c' := c.(timer := Wrap8(c.timer as int + 1));
      Result(if c'.timer == UIP_TIME_WAIT_TIMEOUT then c'.In(CLOSED) else c', 0, None, None)
    else if c.Is(CLOSED) then Result(c, 0, None, None)
    else if c.len > 0 then
      var ticked := c.(timer := Wrap8(c.timer as int - 1));
      if c.timer != 0 then Result(ticked, 0, None, None)
      else if GivesUp(c) then
        var c' := ticked.In(CLOSED);
        Result(c', SlenAfter(0, reply), Some(Emit(host, c', ACK.(rst := true), [])),
               Some(Told(NO_EVENT.(timedout := true), [])))
      else Retransmit(host, c.(timer := Backoff(c.nrtx), nrtx := Wrap8(c.nrtx as int + 1)), reply)
    else if c.state == ESTABLISHED then AppSend(host, c, Told(NO_EVENT.(poll := true), []), 0, reply)
    else Result(c, 0, None, None)
  }

  /** uip_process(UIP_POLL_REQUEST), which unlike the timer does not clear uip_slen first. */
  function Poll(host: u32, c: Conn, slen: u16, reply: Reply): Result {
    if c.state == ESTABLISHED && c.len == 0 then AppSend(host, c, Told(NO_EVENT.(poll := true), []), slen, reply)
    else Result(c, slen, None, None)
  }

  // ----- input for an existing connection

  function Signed8(x: int): int { (x + 128) % 256 - 128 }

  /** The round-trip estimator, with m a signed char and sa, sv, rto bytes. */
  function RttUpdate(c: Conn): Conn {
    var m := Signed8(Signed8(c.rto as int - c.timer as int) - (c.sa / 8) as int);
    var sa := Wrap8(c.sa as int + m);
    var d := Signed8((if m < 0 then Signed8(-m) else m) - (c.sv / 4) as int);
    var sv := Wrap8(c.sv as int + d);
    c.(sa := sa, sv := sv, rto := Wrap8((sa / 8) as int + sv as int))
  }

  /** The segment acknowledges everything outstanding. */
  predicate Acknowledges(c: Conn, seg: Segment) {
    seg.flags.ack && c.len > 0 && seg.ackno == Plus(c.sndNxt, c.len)
  }

  function Acked(c: Conn): Conn {
    var c' := if c.nrtx == 0 then RttUpdate(c) else c;
    c'.(sndNxt := Plus(c.sndNxt, c.len), timer := c'.rto, len := 0)
  }

  /** The segment occupies sequence space that is not the space expected next. */
  predicate OutOfSequence(c: Conn, seg: Segment) {
    && !(c.state == SYN_SENT && seg.flags == ACK.(syn := true))
    && (|seg.payload| > 0 || seg.flags.syn || seg.flags.fin)
    && seg.seqno != c.rcvNxt
  }

  function WithMss(c: Conn, mss: Option<u16>): Conn {
    match mss
    case None => c
    case Some(m) => var limit := if m > UIP_TCP_MSS then UIP_TCP_MSS else m; c.(mss := limit, initialmss := limit)
  }

  /** What the application finds: as many bytes as there are data, from behind the fixed header on, options included. */
  function AtAppdata(seg: Segment): (r: seq<u8>)
    ensures |r| == |seg.payload|
  {
    (seg.options + seg.payload)[..|seg.payload|]
  }

  function InSynRcvd(host: u32, c: Conn, ackd: bool, slen: u16, seg: Segment, reply: Reply): Result {
    if ackd then
      var c' := c.In(ESTABLISHED).(len := 0);
      var flags := NO_EVENT.(connected := true, newdata := |seg.payload| > 0);
      AppSend(host, c'.Received(|seg.payload|), Told(flags, AtAppdata(seg)), 0, reply)
    else Result(c, slen, None, None)
  }

  function InSynSent(host: u32, c: Conn, ackd: bool, slen: u16, seg: Segment, reply: Reply): Result {
    if ackd && seg.flags == ACK.(syn := true) then
      var c' := WithMss(c, seg.mss).In(ESTABLISHED).(rcvNxt := Plus(seg.seqno, 1), len := 0);
      AppSend(host, c', Told(NO_EVENT.(connected := true, newdata := true), []), 0, reply)
    else
      Result(c.In(CLOSED), SlenAfter(slen, reply), Reset(host, seg), Some(Told(NO_EVENT.(abort := true), [])))
  }

  /** The peer's window, never above the initial MSS; a closed window still lets one MSS through. */
  function Window(c: Conn, wnd: u16): u16 {
    if wnd > c.initialmss || wnd == 0 then c.initialmss else wnd
  }

  /** uip_len once urgent data was skipped; the subtraction is on a u16_t. */
  function DataLength(seg: Segment): u16 {
    if seg.flags.urg then Wrap16(|seg.payload| - seg.urgp as int) else |seg.payload|
  }

  /** The bytes at uip_appdata once urgent data was skipped. */
  function Data(seg: Segment): seq<u8> {
    if !seg.flags.urg then AtAppdata(seg)
    else if seg.urgp <= |seg.payload| then AtAppdata(seg)[seg.urgp..]
    else []
  }

  function InEstablished(host: u32, c: Conn, ackd: bool, slen: u16, seg: Segment, reply: Reply): Result {
    if seg.flags.fin && !c.stopped then
      if c.len > 0 then Result(c, slen, None, None)
      else
        var c' := c.Received(1 + |seg.payload|).In(LAST_ACK).(len := 1, nrtx := 0);
        var flags := NO_EVENT.(ackdata := ackd, close := true, newdata := |seg.payload| > 0);
        Result(c', SlenAfter(slen, reply), Some(Emit(host, c', ACK.(fin := true), [])),
               Some(Told(flags, AtAppdata(seg))))
    else
      var isNew := DataLength(seg) > 0 && !c.stopped;
      var c' := (if isNew then c.Received(DataLength(seg)) else c).(mss := Window(c, seg.wnd));
      if isNew || ackd then
        AppSend(host, c', Told(NO_EVENT.(ackdata := ackd, newdata := isNew), Data(seg)), 0, reply)
      else Result(c', slen, None, None)
  }

  function InFinWait1(host: u32, c0: Conn, ackd: bool, slen: u16, seg: Segment, reply: Reply): Result {
    var c := c0.Received(|seg.payload|);
    if seg.flags.fin then
      var c' := (if ackd then c.In(TIME_WAIT).(timer := 0, len := 0) else c.In(CLOSING)).Received(1);
      Result(c', SlenAfter(slen, reply), Some(Emit(host, c', ACK, [])),
             Some(Told(NO_EVENT.(close := true), AtAppdata(seg))))
    else if ackd then Result(c.In(FIN_WAIT_2).(len := 0), slen, None, None)
    else Result(c, slen, if |seg.payload| > 0 then Some(Emit(host, c, ACK, [])) else None, None)
  }

  function InFinWait2(host: u32, c0: Conn, slen: u16, seg: Segment, reply: Reply): Result {
    var c := c0.Received(|seg.payload|);
    if seg.flags.fin then
      var c' := c.In(TIME_WAIT).(timer := 0).Received(1);
      Result(c', SlenAfter(slen, reply), Some(Emit(host, c', ACK, [])),
             Some(Told(NO_EVENT.(close := true), AtAppdata(seg))))
    else Result(c, slen, if |seg.payload| > 0 then Some(Emit(host, c, ACK, [])) else None, None)
  }

  /** The switch on the connection's state, after sequence check and acknowledgment processing. */
  function ByState(host: u32, c: Conn, ackd: bool, slen: u16, seg: Segment, reply: Reply): Result {
    match c.state
    case SYN_RCVD => InSynRcvd(host, c, ackd, slen, seg, reply)
    case SYN_SENT => InSynSent(host, c, ackd, slen, seg, reply)
    case ESTABLISHED => InEstablished(host, c, ackd, slen, seg, reply)
    case LAST_ACK =>
      if ackd then Result(c.In(CLOSED), SlenAfter(slen, reply), None,
                          Some(Told(NO_EVENT.(close := true), AtAppdata(seg))))
      else Result(c, slen, None, None)
    case FIN_WAIT_1 => InFinWait1(host, c, ackd, slen, seg, reply)
    case FIN_WAIT_2 => InFinWait2(host, c, slen, seg, reply)
    case TIME_WAIT => Result(c, slen, Some(Emit(host, c, ACK, [])), None)
    case CLOSING => Result(if ackd then c.In(TIME_WAIT).(timer := 0) else c, slen, None, None)
    case CLOSED => Result(c, slen, None, None)
  }

  /** found: a segment for an existing connection. */
  function Found(host: u32, c: Conn, slen: u16, seg: Segment, reply: Reply): Result {
    if seg.flags.rst then
      Result(c.In(CLOSED), SlenAfter(slen, reply), None, Some(Told(NO_EVENT.(abort := true), [])))
    else if OutOfSequence(c, seg) then Result(c, slen, Some(Emit(host, c, ACK, [])), None)
    else
      var ackd := Acknowledges(c, seg);
      ByState(host, if ackd then Acked(c) else c, ackd, slen, seg, reply)
  }

  // ----- the connection table

  datatype Uip = Uip(conns: seq<Conn>, listenports: seq<u16>, iss: Bytes4, lastport: u16, slen: u16)

  /** One event handled by the whole stack. */
  datatype Stepped = Stepped(u: Uip, out: Option<Segment>, told: Option<Told>)

  /** The demultiplexing test. */
  predicate Matches(c: Conn, seg: Segment) {
    !c.Is(CLOSED) && seg.destport == c.lport && seg.srcport == c.rport && seg.srcip == c.ripaddr
  }

  /** The first slot from `i` on that the segment belongs to, or |conns|. */
  function Demux(conns: seq<Conn>, seg: Segment, i: nat): (r: nat)
    requires i <= |conns|
    ensures i <= r <= |conns|
    decreases |conns| - i
  {
    if i == |conns| || Matches(conns[i], seg) then i else Demux(conns, seg, i + 1)
  }

  /** The TIME_WAIT slot with the largest timer among the first `n`, the earliest such one. */
  function OldestTimeWait(conns: seq<Conn>, n: nat): (r: Option<nat>)
    requires n <= |conns|
    ensures r.Some? ==> r.value < n
  {
    if n == 0 then None
    else
      var best := OldestTimeWait(conns, n - 1);
      if conns[n - 1].Is(TIME_WAIT) && (best.None? || conns[n - 1].timer > conns[best.value].timer) then Some(n - 1)
      else best
  }

  /** The first CLOSED slot from `i` on, or |conns|. */
  function FirstClosed(conns: seq<Conn>, i: nat): (r: nat)
    requires i <= |conns|
    ensures i <= r <= |conns|
    decreases |conns| - i
  {
    if i == |conns| || conns[i].Is(CLOSED) then i else FirstClosed(conns, i + 1)
  }

  /** The slot a new connection takes. */
  function FreeSlot(conns: seq<Conn>): (r: Option<nat>)
    ensures r.Some? ==> r.value < |conns|
  {
    var k := FirstClosed(conns, 0);
    if k < |conns| then Some(k) else OldestTimeWait(conns, |conns|)
  }

  /** found_listen: a slot filled in for a SYN; without an MSS option the slot's old limits stay. */
  function Accept(c: Conn, iss: Bytes4, seg: Segment): Conn {
    WithMss(
      c.In(SYN_RCVD).(rto := UIP_RTO, timer := UIP_RTO, sa := 0, sv := 4, nrtx := 0,
                      lport := seg.destport, rport := seg.srcport, ripaddr := seg.srcip,
                      sndNxt := iss, len := 1, rcvNxt := Plus(seg.seqno, 1)),
      seg.mss)
  }

  /** A slot filled in by uip_connect; rcv_nxt keeps whatever the slot held. */
  function Opened(c: Conn, iss: Bytes4, lport: u16, ripaddr: u32, rport: u16): Conn {
    c.In(SYN_SENT).(sndNxt := iss, initialmss := UIP_TCP_MSS, mss := UIP_TCP_MSS, len := 1, nrtx := 0, timer := 1,
                    rto := UIP_RTO, sa := 0, sv := 16, lport := lport, rport := rport, ripaddr := ripaddr)
  }

  /** uip_input */
  function Input(host: u32, u: Uip, seg: Segment, reply: Reply): Stepped {
    var k := Demux(u.conns, seg, 0);
    if k < |u.conns| then
      var r := Found(host, u.conns[k], u.slen, seg, reply);
      Stepped(u.(conns := u.conns[k := r.c], slen := r.slen), r.out, r.told)
    else if seg.flags != SYN || seg.destport !in u.listenports then Stepped(u, Reset(host, seg), None)
    else
      match FreeSlot(u.conns)
      case None => Stepped(u, None, None)
      case Some(i) =>
        var c := Accept(u.conns[i], u.iss, seg);
        Stepped(u.(conns := u.conns[i := c]), Some(Emit(host, c, ACK.(syn := true), [])), None)
  }

  /** uip_periodic */
  function Periodic(host: u32, u: Uip, i: nat, reply: Reply): Stepped
    requires i < |u.conns|
  {
    var r := Timer(host, u.conns[i], reply);
    Stepped(u.(conns := u.conns[i := r.c], iss := Plus(u.iss, 1), slen := r.slen), r.out, r.told)
  }

  /** uip_poll_conn */
  function PollConn(host: u32, u: Uip, i: nat, reply: Reply): Stepped
    requires i < |u.conns|
  {
    var r := Poll(host, u.conns[i], u.slen, reply);
    Stepped(u.(conns := u.conns[i := r.c], slen := r.slen), r.out, r.told)
  }

  predicate PortInUse(bigEndian: bool, conns: seq<Conn>, port: u16) {
    exists i :: 0 <= i < |conns| && !conns[i].Is(CLOSED) && conns[i].lport == Htons(bigEndian, port)
  }

  function NextPort(lastport: u16): u16 {
    var port := Wrap16(lastport as int + 1);
    if port >= 32000 then 4096 else port
  }

  /** The port uip_connect settles on after at most `tries` + 1 tries. */
  function SearchPort(bigEndian: bool, conns: seq<Conn>, lastport: u16, tries: nat): u16
    decreases tries
  {
    var port := NextPort(lastport);
    if tries > 0 && PortInUse(bigEndian, conns, port) then SearchPort(bigEndian, conns, port, tries - 1) else port
  }

  /** uip_connect; the port search comes first, so lastport moves on even when no slot is free. */
  function Connect(bigEndian: bool, u: Uip, ripaddr: u32, rport: u16): Uip {
    var port := SearchPort(bigEndian, u.conns, u.lastport, |u.conns|);
    match FreeSlot(u.conns)
    case None => u.(lastport := port)
    case Some(i) =>
      var c := Opened(u.conns[i], u.iss, Htons(bigEndian, port), ripaddr, rport);
      u.(conns := u.conns[i := c], lastport := port)
  }

  /** The index of the first entry equal to `port`, or |ports|. */
  function IndexOf(ports: seq<u16>, port: u16): (r: nat)
    ensures r <= |ports|
  {
    if ports == [] || ports[0] == port then 0 else 1 + IndexOf(ports[1..], port)
  }

  /** uip_listen */
  function Listen(u: Uip, port: u16): Uip {
    var k := IndexOf(u.listenports, 0);
    if k < |u.listenports| then u.(listenports := u.listenports[k := port]) else u
  }

  /** uip_unlisten */
  function Unlisten(u: Uip, port: u16): Uip {
    var k := IndexOf(u.listenports, port);
    if k < |u.listenports| then u.(listenports := u.listenports[k := 0]) else u
  }

  // ----- runs

  datatype Event =
    | InputEvent(seg: Segment, reply: Reply)
    | TimerEvent(i: nat, reply: Reply)
    | PollEvent(i: nat, reply: Reply)
    | ConnectEvent(ripaddr: u32, rport: u16)
    | ListenEvent(port: u16)
    | UnlistenEvent(port: u16)

  function Step(host: u32, bigEndian: bool, u: Uip, e: Event): Uip {
    match e
    case InputEvent(seg, reply) => Input(host, u, seg, reply).u
    case TimerEvent(i, reply) => if i < |u.conns| then Periodic(host, u, i, reply).u else u
    case PollEvent(i, reply) => if i < |u.conns| then PollConn(host, u, i, reply).u else u
    case ConnectEvent(ripaddr, rport) => Connect(bigEndian, u, ripaddr, rport)
    case ListenEvent(port) => Listen(u, port)
    case UnlistenEvent(port) => Unlisten(u, port)
  }

  function Run(host: u32, bigEndian: bool, u: Uip, events: seq<Event>): Uip
    decreases |events|
  {
    if events == [] then u else Run(host, bigEndian, Step(host, bigEndian, u, events[0]), events[1..])
  }

  /** The state uip_init leaves, with the statically zeroed table behind it. */
  ghost predicate Initial(u: Uip) {
    && |u.conns| == UIP_CONNS && |u.listenports| == UIP_LISTENPORTS && u.lastport == 1024
    && (forall i | 0 <= i < |u.listenports| :: u.listenports[i] == 0)
    && forall i | 0 <= i < |u.conns| :: u.conns[i].Is(CLOSED) && u.conns[i].mss == u.conns[i].initialmss == 0
                                        && u.conns[i].nrtx == 0
  }
}
