/**
 Segments as bytes: what the end of the send path leaves in uip_buf is accepted by the receive path and read back there
 as the segment that was meant. Ports and addresses are u16_t in memory, copied as they are; every claim is made for
 both byte orders.
 */
module Wire {
  import opened Words
  import opened SeqNum
  import opened Checksum
  import opened Packet
  import opened Tcp

  // Offsets into uip_buf behind those of Packet.
  const SRCPORT := UPPER
  const DESTPORT := UPPER + 2
  const SEQNO := UPPER + 4
  const ACKNO := UPPER + 8
  const OFFSET := UPPER + 12
  const FLAGS := UPPER + 13
  const WND := UPPER + 14
  const URGP := UPPER + 18
  const OPTDATA := UPPER + 20

  const TCPH_LEN := 20

  // ----- reading

  function FlagByte(f: Flags): u8 {
    (if f.fin then 1 else 0) + (if f.syn then 2 else 0) + (if f.rst then 4 else 0)
    + (if f.psh then 8 else 0) + (if f.ack then 16 else 0) + (if f.urg then 32 else 0)
  }

  function ReadFlags(b: u8): Flags {
    Flags(b % 2 == 1, b / 2 % 2 == 1, b / 4 % 2 == 1, b / 8 % 2 == 1, b / 16 % 2 == 1, b / 32 % 2 == 1)
  }

  function ReadWord(p: seq<u8>, i: nat): u16
    requires i + 2 <= |p|
  {
    Word(p[i], p[i + 1])
  }

  function ReadHost(bigEndian: bool, p: seq<u8>, i: nat): u16
    requires i + 2 <= |p|
  {
    LoadHost(bigEndian, p[i], p[i + 1])
  }

  /** An address is two u16_t. */
  function ReadAddress(bigEndian: bool, p: seq<u8>, i: nat): u32
    requires i + 4 <= |p|
  {
    ReadHost(bigEndian, p, i) as int * 0x1_0000 + ReadHost(bigEndian, p, i + 2) as int
  }

  function ReadBytes4(p: seq<u8>, i: nat): Bytes4
    requires i + 4 <= |p|
  {
    Bytes4(p[i], p[i + 1], p[i + 2], p[i + 3])
  }

  /** The MSS, when it is the first option. */
  function FirstMss(options: seq<u8>): Option<u16> {
    if |options| >= 4 && options[0] == 2 && options[1] == 4 then Some(Word(options[2], options[3])) else None
  }

  /** tcpoffset >> 4 << 2 */
  function HeaderLength(p: seq<u8>): nat
    requires |p| > OFFSET
  {
    p[OFFSET] / 16 * 4
  }

  /** The length field and the header length agree with what is in the buffer and with what a segment can hold. */
  predicate Readable(p: seq<u8>) {
    && |p| >= OPTDATA
    && LLH_LEN + ReadWord(p, LEN) <= |p| && ReadWord(p, LEN) <= UIP_BUFSIZE - UIP_LLH_LEN
    && TCPH_LEN <= HeaderLength(p) && IPH_LEN + HeaderLength(p) <= ReadWord(p, LEN)
  }

  function ReadSegment(bigEndian: bool, p: seq<u8>): Segment
    requires Readable(p)
  {
    var options := p[OPTDATA..UPPER + HeaderLength(p)];
    Segment(ReadAddress(bigEndian, p, SRCIP), ReadAddress(bigEndian, p, DESTIP),
            ReadHost(bigEndian, p, SRCPORT), ReadHost(bigEndian, p, DESTPORT),
            ReadBytes4(p, SEQNO), ReadBytes4(p, ACKNO), ReadFlags(p[FLAGS]), ReadWord(p, WND), ReadWord(p, URGP),
            options, FirstMss(options), p[UPPER + HeaderLength(p)..LLH_LEN + ReadWord(p, LEN)])
  }

  /**
    Where the fields are, counted from the start of the TCP header and of the IP header: section 3.1 of RFC 793 and of
    RFC 791.
   */
  lemma FieldsByRfc(p: seq<u8>)
    requires Readable(p)
    ensures var s, ip, tcp := ReadSegment(true, p), p[14..], p[34..];
            && s.srcport == Word(tcp[0], tcp[1]) && s.destport == Word(tcp[2], tcp[3])
            && s.seqno == Bytes4(tcp[4], tcp[5], tcp[6], tcp[7]) && s.ackno == Bytes4(tcp[8], tcp[9], tcp[10], tcp[11])
            && s.wnd == Word(tcp[14], tcp[15]) && s.urgp == Word(tcp[18], tcp[19])
            && (s.flags.fin <==> tcp[13] % 2 == 1) && (s.flags.syn <==> tcp[13] / 2 % 2 == 1)
            && (s.flags.rst <==> tcp[13] / 4 % 2 == 1) && (s.flags.psh <==> tcp[13] / 8 % 2 == 1)
            && (s.flags.ack <==> tcp[13] / 16 % 2 == 1) && (s.flags.urg <==> tcp[13] / 32 % 2 == 1)
            && s.srcip as int == Word(ip[12], ip[13]) as int * 0x1_0000 + Word(ip[14], ip[15]) as int
            && s.destip as int == Word(ip[16], ip[17]) as int * 0x1_0000 + Word(ip[18], ip[19]) as int
            && |s.options| == 4 * (tcp[12] / 16) as int - 20
            && |s.options| + |s.payload| + 40 == Word(ip[2], ip[3]) as int
  {
  }

  // ----- writing

  /** What the stack sends: no urgent pointer, and an option only in a SYN, which carries no data. */
  predicate Sendable(seg: Segment) {
    && seg.urgp == 0
    && if seg.flags.syn then seg.options == MssOption() && seg.mss == Some(UIP_TCP_MSS) && seg.payload == []
       else seg.options == [] && seg.mss == None
  }

  method StoreHost(bigEndian: bool, buf: array<u8>, i: nat, v: u16)
    requires i + 2 <= buf.Length
    modifies buf
    ensures ReadHost(bigEndian, buf[..], i) == v
    ensures forall k | 0 <= k < buf.Length && !(i <= k < i + 2) :: buf[k] == old(buf[k])
  {
    buf[i], buf[i + 1] := FirstByte(bigEndian, v), SecondByte(bigEndian, v);
    StoredHost(bigEndian, v);
  }

  lemma StoredHost(bigEndian: bool, v: u16)
    ensures LoadHost(bigEndian, FirstByte(bigEndian, v), SecondByte(bigEndian, v)) == v
  {
    HtonsTwice(bigEndian, v);
  }

  method StoreAddress(bigEndian: bool, buf: array<u8>, i: nat, v: u32)
    requires i + 4 <= buf.Length
    modifies buf
    ensures ReadAddress(bigEndian, buf[..], i) == v
    ensures forall k | 0 <= k < buf.Length && !(i <= k < i + 4) :: buf[k] == old(buf[k])
  {
    hide LoadHost;
    StoreHost(bigEndian, buf, i, v / 0x1_0000);
    StoreHost(bigEndian, buf, i + 2, v % 0x1_0000);
  }

  method StoreBytes4(buf: array<u8>, i: nat, b: Bytes4)
    requires i + 4 <= buf.Length
    modifies buf
    ensures ReadBytes4(buf[..], i) == b
    ensures forall k | 0 <= k < buf.Length && !(i <= k < i + 4) :: buf[k] == old(buf[k])
  {
    buf[i], buf[i + 1], buf[i + 2], buf[i + 3] := b.b0, b.b1, b.b2, b.b3;
  }

  method StoreWord(buf: array<u8>, i: nat, v: u16)
    requires i + 2 <= buf.Length
    modifies buf
    ensures ReadWord(buf[..], i) == v
    ensures forall k | 0 <= k < buf.Length && !(i <= k < i + 2) :: buf[k] == old(buf[k])
  {
    buf[i], buf[i + 1] := v / 0x100, v % 0x100;
  }

  /** The fields of the segment are in their places. */
  predicate Holds(bigEndian: bool, p: seq<u8>, seg: Segment)
    requires |p| >= OPTDATA
  {
    && ReadAddress(bigEndian, p, SRCIP) == seg.srcip && ReadAddress(bigEndian, p, DESTIP) == seg.destip
    && ReadHost(bigEndian, p, SRCPORT) == seg.srcport && ReadHost(bigEndian, p, DESTPORT) == seg.destport
    && ReadBytes4(p, SEQNO) == seg.seqno && ReadBytes4(p, ACKNO) == seg.ackno
    && p[FLAGS] == FlagByte(seg.flags) && ReadWord(p, WND) == seg.wnd && ReadWord(p, URGP) == seg.urgp
  }

  /** Lengths, options and data are in theirs. */
  predicate Spans(p: seq<u8>, seg: Segment)
    requires |p| >= OPTDATA
  {
    var hlen, len := TCPH_LEN + |seg.options|, IPTCPH_LEN + |seg.options| + |seg.payload|;
    && HeaderLength(p) == hlen && ReadWord(p, LEN) == len && LLH_LEN + len <= |p|
    && p[OPTDATA..UPPER + hlen] == seg.options && p[UPPER + hlen..LLH_LEN + len] == seg.payload
  }

  lemma FlagsRead(f: Flags)
    ensures ReadFlags(FlagByte(f)) == f
  {
    match f
    case Flags(fin, syn, rst, psh, ack, urg) =>
      var b5 := if urg then 1 else 0;
      var b4 := b5 * 2 + if ack then 1 else 0;
      var b3 := b4 * 2 + if psh then 1 else 0;
      var b2 := b3 * 2 + if rst then 1 else 0;
      var b1 := b2 * 2 + if syn then 1 else 0;
      assert FlagByte(f) == b1 * 2 + if fin then 1 else 0;
      assert FlagByte(f) / 2 == b1 && FlagByte(f) / 4 == b2 && FlagByte(f) / 8 == b3 && FlagByte(f) / 16 == b4;
  }

  /** What holds a segment is read back as that segment. */
  lemma HeldIsRead(bigEndian: bool, p: seq<u8>, seg: Segment)
    requires |p| >= OPTDATA && Sendable(seg) && Holds(bigEndian, p, seg) && Spans(p, seg)
    ensures Readable(p) && ReadSegment(bigEndian, p) == seg
  {
    hide ReadAddress, ReadHost, ReadBytes4, HeaderLength, FlagByte, ReadFlags;
    FlagsRead(seg.flags);
  }

  /** Flags, lengths and the option; the data is already where the application put it. */
  method WriteSpans(buf: array<u8>, seg: Segment)
    requires Sendable(seg) && OPTDATA + 4 <= buf.Length && OPTDATA + |seg.payload| <= buf.Length
    requires buf[OPTDATA..OPTDATA + |seg.payload|] == seg.payload
    modifies buf
    ensures Spans(buf[..], seg) && buf[FLAGS] == FlagByte(seg.flags)
  {
    hide FlagByte, Spans;
    var len := IPTCPH_LEN + |seg.payload|;
    buf[FLAGS] := FlagByte(seg.flags);
    if seg.flags.syn {
      var option := MssOption();
      buf[OPTDATA], buf[OPTDATA + 1], buf[OPTDATA + 2], buf[OPTDATA + 3] := option[0], option[1], option[2], option[3];
      len := IPTCPH_LEN + 4;
      buf[OFFSET] := (TCPH_LEN + 4) / 4 * 16;
    } else {
      buf[OFFSET] := TCPH_LEN / 4 * 16;
    }
    StoreWord(buf, LEN, len);
    if seg.flags.syn {
      OptionSpans(buf[..], seg);
    } else {
      assert buf[OPTDATA..OPTDATA + |seg.payload|] == seg.payload;
      DataSpans(buf[..], seg);
    }
  }

  lemma OptionSpans(p: seq<u8>, seg: Segment)
    requires |p| >= OPTDATA + 4 && Sendable(seg) && seg.flags.syn
    requires p[OFFSET] == 96 && ReadWord(p, LEN) == IPTCPH_LEN + 4
    requires [p[OPTDATA], p[OPTDATA + 1], p[OPTDATA + 2], p[OPTDATA + 3]] == MssOption()
    ensures Spans(p, seg)
  {
    assert p[OPTDATA..OPTDATA + 4] == [p[OPTDATA], p[OPTDATA + 1], p[OPTDATA + 2], p[OPTDATA + 3]];
  }

  lemma DataSpans(p: seq<u8>, seg: Segment)
    requires |p| >= OPTDATA + |seg.payload| && Sendable(seg) && !seg.flags.syn
    requires p[OFFSET] == 80 && ReadWord(p, LEN) == IPTCPH_LEN + |seg.payload|
    requires p[OPTDATA..OPTDATA + |seg.payload|] == seg.payload
    ensures Spans(p, seg)
  {
  }

  /** tcp_send: sequence numbers, window and the constants. */
  method WriteNumbers(buf: array<u8>, seg: Segment)
    requires OPTDATA <= buf.Length && seg.urgp == 0
    modifies buf
    ensures ReadBytes4(buf[..], SEQNO) == seg.seqno && ReadBytes4(buf[..], ACKNO) == seg.ackno
    ensures ReadWord(buf[..], WND) == seg.wnd && ReadWord(buf[..], URGP) == seg.urgp
    ensures buf[PROTO] == PROTO_TCP && buf[TTL] == UIP_TTL
    ensures forall k | 0 <= k < buf.Length ::
              k < TTL || SRCIP <= k < SEQNO || k == OFFSET || k == FLAGS || k >= OPTDATA ==> buf[k] == old(buf[k])
  {
    StoreBytes4(buf, ACKNO, seg.ackno);
    StoreBytes4(buf, SEQNO, seg.seqno);
    StoreWord(buf, WND, seg.wnd);
    StoreWord(buf, URGP, 0);
    buf[PROTO], buf[TTL] := PROTO_TCP, UIP_TTL;
  }

  /** tcp_send: ports and addresses of both ends. */
  method WriteEnds(bigEndian: bool, buf: array<u8>, seg: Segment)
    requires OPTDATA <= buf.Length
    modifies buf
    ensures ReadHost(bigEndian, buf[..], SRCPORT) == seg.srcport
            && ReadHost(bigEndian, buf[..], DESTPORT) == seg.destport
    ensures ReadAddress(bigEndian, buf[..], SRCIP) == seg.srcip && ReadAddress(bigEndian, buf[..], DESTIP) == seg.destip
    ensures forall k | 0 <= k < buf.Length && !(SRCIP <= k < SEQNO) :: buf[k] == old(buf[k])
  {
    hide LoadHost;
    StoreHost(bigEndian, buf, SRCPORT, seg.srcport);
    StoreHost(bigEndian, buf, DESTPORT, seg.destport);
    StoreAddress(bigEndian, buf, SRCIP, seg.srcip);
    StoreAddress(bigEndian, buf, DESTIP, seg.destip);
  }

  /** tcp_send: everything that comes from the connection. */
  method WriteFields(bigEndian: bool, buf: array<u8>, seg: Segment)
    requires OPTDATA <= buf.Length && seg.urgp == 0 && buf[FLAGS] == FlagByte(seg.flags)
    modifies buf
    ensures Holds(bigEndian, buf[..], seg) && buf[PROTO] == PROTO_TCP && buf[TTL] == UIP_TTL
    ensures forall k | 0 <= k < buf.Length ::
              k < TTL || k == OFFSET || k == FLAGS || k >= OPTDATA ==> buf[k] == old(buf[k])
  {
    hide LoadHost, FlagByte;
    WriteNumbers(buf, seg);
    ghost var numbered := buf[..];
    WriteEnds(bigEndian, buf, seg);
    SameNumbers(numbered, buf[..]);
  }

  lemma SameNumbers(p: seq<u8>, q: seq<u8>)
    requires |p| == |q| >= OPTDATA && forall k | SEQNO <= k < |p| :: q[k] == p[k]
    ensures ReadBytes4(q, SEQNO) == ReadBytes4(p, SEQNO) && ReadBytes4(q, ACKNO) == ReadBytes4(p, ACKNO)
    ensures ReadWord(q, WND) == ReadWord(p, WND) && ReadWord(q, URGP) == ReadWord(p, URGP)
  {
  }

  /** Filling in the checksums leaves the segment alone. */
  lemma StillHolds(bigEndian: bool, p: seq<u8>, p': seq<u8>, seg: Segment)
    requires |p'| == |p| >= OPTDATA && Holds(bigEndian, p, seg) && Spans(p, seg)
    requires forall k | 0 <= k < |p| && (LEN <= k < IPID || SRCIP <= k < TCPCHKSUM || TCPCHKSUM + 2 <= k) ::
        p'[k] == p[k]
    ensures Holds(bigEndian, p', seg) && Spans(p', seg)
  {
    hide LoadHost, FlagByte;
    assert p'[OPTDATA..] == p[OPTDATA..];
    assert forall a, b | OPTDATA <= a <= b <= |p| :: p'[a..b] == p[a..b];
  }

  /**
    The end of the send path, from tcp_send on. The bytes pass the IP and the TCP test of any receiver, whatever its
    byte order, and are read back as the segment.
   */
  method Send(bigEndian: bool, buf: array<u8>, ipid: u16, seg: Segment)
    requires Sendable(seg) && OPTDATA + 4 <= buf.Length && OPTDATA + |seg.payload| <= buf.Length
    requires buf[OPTDATA..OPTDATA + |seg.payload|] == seg.payload
    modifies buf
    ensures Readable(buf[..]) && ReadSegment(bigEndian, buf[..]) == seg
    ensures LengthFits(buf[..]) && forall b :: IpAccepted(b, buf[..]) && TcpAccepted(b, buf[..])
    ensures buf[PROTO] == PROTO_TCP && buf[TTL] == UIP_TTL
  {
    hide Holds, IpAccepted, TcpAccepted, FlagByte, ReadSegment, Readable;
    WriteSpans(buf, seg);
    ghost var spanned := buf[..];
    WriteFields(bigEndian, buf, seg);
    SpansStay(spanned, buf[..], seg);
    ghost var written := buf[..];
    FillChecksums(bigEndian, buf, ipid);
    StillHolds(bigEndian, written, buf[..], seg);
    HeldIsRead(bigEndian, buf[..], seg);
    AnyOrder(bigEndian, buf[..]);
  }

  lemma SpansStay(p: seq<u8>, p': seq<u8>, seg: Segment)
    requires |p'| == |p| >= OPTDATA && Spans(p, seg)
    requires forall k | 0 <= k < |p| && (k < TTL || k == OFFSET || k >= OPTDATA) :: p'[k] == p[k]
    ensures Spans(p', seg) && LengthFits(p') && IPTCPH_LEN <= Word(p'[LEN], p'[LEN + 1])
  {
    assert forall a, b | OPTDATA <= a <= b <= |p| :: p'[a..b] == p[a..b];
  }

  /** What passes on one byte order passes on the other. */
  lemma AnyOrder(bigEndian: bool, p: seq<u8>)
    requires LengthFits(p) && IpAccepted(bigEndian, p) && TcpAccepted(bigEndian, p)
    ensures forall b :: IpAccepted(b, p) && TcpAccepted(b, p)
  {
    hide WordSum, Fold, Reported;
    forall b
      ensures IpAccepted(b, p) && TcpAccepted(b, p)
    {
      SumAccepted(b, WordSum(IpHeader(p)));
      SumAccepted(bigEndian, WordSum(IpHeader(p)));
      SumAccepted(b, TransportSum(p, PROTO_TCP));
      SumAccepted(bigEndian, TransportSum(p, PROTO_TCP));
    }
  }

  /**
    Everything the stack answers with can be sent: what Tcp.Emit fills in, if a SYN carries no data, and every reset.
   */
  lemma EmittedIsSendable(host: u32, c: Conn, flags: Flags, payload: Payload, seg: Segment)
    requires flags.syn ==> payload == []
    ensures Sendable(Emit(host, c, flags, payload))
    ensures Reset(host, seg).Some? ==> Sendable(Reset(host, seg).value)
  {
  }

  // ----- what the application finds

  /** The i-th byte of `o` repeated for ever. */
  function Repeated(o: seq<u8>, i: nat): u8
    requires o != []
  {
    if i < |o| then o[i] else Repeated(o, i - |o|)
  }

  /**
    uip_appdata is not moved past the options of a segment with data. The application finds the data that was sent if
    and only if there are no options or the data repeats them.
   */
  lemma DataDisplaced(seg: Segment)
    ensures AtAppdata(seg) == seg.payload <==>
            seg.options == [] || forall i | 0 <= i < |seg.payload| :: seg.payload[i] == Repeated(seg.options, i)
  {
    var o, d := seg.options, seg.payload;
    if o == [] {
      assert o + d == d;
    } else if AtAppdata(seg) == d {
      forall i | 0 <= i < |d|
        ensures d[i] == Repeated(o, i)
      {
        Repeats(o, d, i);
      }
    } else {
      var i :| 0 <= i < |d| && AtAppdata(seg)[i] != d[i];
      assert AtAppdata(seg)[i] == if i < |o| then o[i] else d[i - |o|];
      assert i >= |o| ==> Repeated(o, i) == Repeated(o, i - |o|);
    }
  }

  lemma {:induction false} Repeats(o: seq<u8>, d: seq<u8>, i: nat)
    requires o != [] && (o + d)[..|d|] == d && i < |d|
    ensures d[i] == Repeated(o, i)
  {
    assert d[i] == (o + d)[i];
    if i >= |o| {
      Repeats(o, d, i - |o|);
    }
  }
}
