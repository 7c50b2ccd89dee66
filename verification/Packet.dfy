/**
 Checksum fields of packets held in uip_buf: how the send path fills them in, how the receive path tests them,
 and the incremental updates made for ICMP echo replies and forwarded packets (section 3 of RFC 1624).
 A u16_t header field is stored in host byte order, so every claim is made for both byte orders.
 */
module Packet {
  import opened Words
  import opened Checksum

  const LLH_LEN := 14
  const IPH_LEN := 20
  const IPTCPH_LEN := 40
  const PROTO_TCP: u8 := 6
  const UIP_TTL: u8 := 64
  const ICMP_ECHO: u8 := 8
  const ICMP_ECHO_REPLY: u8 := 0

  // Offsets into uip_buf.
  const VHL := LLH_LEN
  const TOS := LLH_LEN + 1
  const LEN := LLH_LEN + 2
  const IPID := LLH_LEN + 4
  const IPOFFSET := LLH_LEN + 6
  const TTL := LLH_LEN + 8
  const PROTO := LLH_LEN + 9
  const IPCHKSUM := LLH_LEN + 10
  const SRCIP := LLH_LEN + 12
  const DESTIP := LLH_LEN + 16
  const UPPER := LLH_LEN + IPH_LEN
  const TCPCHKSUM := UPPER + 16
  const ICMPTYPE := UPPER
  const ICMPCHKSUM := UPPER + 2

  /** The value of a u16_t variable whose two bytes in memory are `first` and `second`. */
  function LoadHost(bigEndian: bool, first: u8, second: u8): u16 {
    Htons(bigEndian, Word(first, second))
  }

  function FirstByte(bigEndian: bool, v: u16): u8 { Htons(bigEndian, v) / 0x100 }

  function SecondByte(bigEndian: bool, v: u16): u8 { Htons(bigEndian, v) % 0x100 }

  /** What uip_ipchksum and upper_layer_chksum return for an accumulated sum. */
  function Reported(bigEndian: bool, sum: u16): u16 {
    if sum == 0 then 0xffff else Htons(bigEndian, sum)
  }

  /** The receive-side test against 0xffff passes exactly when the words sum to a multiple of 0xffff. */
  lemma AcceptedIff(bigEndian: bool, sum: u16)
    ensures Reported(bigEndian, sum) == 0xffff <==> sum % 0xffff == 0
  {
  }

  function IpHeader(p: seq<u8>): seq<u8>
    requires |p| >= UPPER
  {
    p[LLH_LEN..UPPER]
  }

  /** The length field holds at least the IP header and no more than what the buffer holds. */
  ghost predicate LengthFits(p: seq<u8>) {
    && |p| >= UPPER
    && IPH_LEN <= Word(p[LEN], p[LEN + 1])
    && LLH_LEN + Word(p[LEN], p[LEN + 1]) <= |p|
  }

  /** The transport segment the length field delimits. */
  ghost function Upper(p: seq<u8>): seq<u8>
    requires LengthFits(p)
  {
    p[UPPER..LLH_LEN + Word(p[LEN], p[LEN + 1])]
  }

  /** The exact sum over pseudo-header and segment that the transport checksum covers. */
  ghost function TransportSum(p: seq<u8>, proto: u8): nat
    requires LengthFits(p)
  {
    |Upper(p)| + proto + WordSum(p[SRCIP..UPPER]) + WordSum(Upper(p))
  }

  ghost predicate IpAccepted(bigEndian: bool, p: seq<u8>)
    requires |p| >= UPPER
  {
    Reported(bigEndian, Fold(WordSum(IpHeader(p)))) == 0xffff
  }

  ghost predicate TcpAccepted(bigEndian: bool, p: seq<u8>)
    requires LengthFits(p)
  {
    Reported(bigEndian, Fold(TransportSum(p, PROTO_TCP))) == 0xffff
  }

  method IpChksum(bigEndian: bool, buf: array<u8>) returns (r: u16)
    requires buf.Length >= UPPER
    ensures r == Reported(bigEndian, Fold(WordSum(IpHeader(buf[..]))))
  {
    var sum := Chksum(0, buf[LLH_LEN..UPPER]);
    assert buf[LLH_LEN..UPPER] == IpHeader(buf[..]);
    r := if sum == 0 then 0xffff else Htons(bigEndian, sum);
  }

  method UpperLayerChksum(bigEndian: bool, buf: array<u8>, proto: u8) returns (r: u16)
    requires LengthFits(buf[..])
    requires proto as int <= IPH_LEN   // it is 6 for TCP and 17 for UDP, so that the first addition cannot carry
    ensures r == Reported(bigEndian, Fold(TransportSum(buf[..], proto)))
  {
    var upperLayerLen: u16 := Word(buf[LEN], buf[LEN + 1]) - IPH_LEN;
    var sum: u16 := upperLayerLen + proto;
    sum := Chksum(sum, buf[SRCIP..UPPER]);
    sum := Chksum(sum, buf[UPPER..UPPER + upperLayerLen]);
    assert buf[SRCIP..UPPER] == buf[..][SRCIP..UPPER];
    assert buf[UPPER..UPPER + upperLayerLen] == Upper(buf[..]);
    FoldAbsorbs(upperLayerLen + proto + WordSum(buf[SRCIP..UPPER]), WordSum(Upper(buf[..])));
    r := if sum == 0 then 0xffff else Htons(bigEndian, sum);
  }

  lemma ComplementBytes(bigEndian: bool, sum: u16)
    ensures Word(FirstByte(bigEndian, 0xffff - Htons(bigEndian, sum)),
                 SecondByte(bigEndian, 0xffff - Htons(bigEndian, sum)))
         == 0xffff - sum
  {
    var hi, lo := sum / 0x100, sum % 0x100;
    var flipped: u16 := 0xffff - Swap16(sum);
    assert flipped == (0xff - lo) * 0x100 + (0xff - hi);
    assert flipped / 0x100 == 0xff - lo && flipped % 0x100 == 0xff - hi;
  }

  /** The word that ends up in the field: the complement of the sum, or 0 when everything summed to 0. */
  lemma FieldWord(bigEndian: bool, sum: u16)
    ensures var v: u16 := 0xffff - Reported(bigEndian, sum);
            Word(FirstByte(bigEndian, v), SecondByte(bigEndian, v)) == if sum == 0 then 0 else 0xffff - sum
  {
    if sum == 0 {
      assert Htons(bigEndian, 0) == 0;
    } else {
      ComplementBytes(bigEndian, sum);
    }
  }

  lemma ComplementCancels(total: nat)
    ensures var sum := Fold(total);
            (total + if sum == 0 then 0 else 0xffff - sum) % 0xffff == 0
  {
  }

  /** Storing the complement of the sum taken over a zeroed field makes the covered words pass the test. */
  lemma FilledFieldAccepted(bigEndian: bool, seed: nat, data: seq<u8>, k: nat)
    requires k % 2 == 0 && k + 1 < |data| && data[k] == data[k + 1] == 0
    ensures var v: u16 := 0xffff - Reported(bigEndian, Fold(seed + WordSum(data)));
            var filled := data[k := FirstByte(bigEndian, v)][k + 1 := SecondByte(bigEndian, v)];
            Reported(bigEndian, Fold(seed + WordSum(filled))) == 0xffff
  {
    hide WordSum, Fold, Reported, FirstByte, SecondByte;
    var sum := Fold(seed + WordSum(data));
    var v: u16 := 0xffff - Reported(bigEndian, sum);
    var filled := data[k := FirstByte(bigEndian, v)][k + 1 := SecondByte(bigEndian, v)];
    FieldWord(bigEndian, sum);
    WordSumUpdate(data, k, FirstByte(bigEndian, v), SecondByte(bigEndian, v));
    ComplementCancels(seed + WordSum(data));
    SumAccepted(bigEndian, seed + WordSum(filled));
  }

  lemma SumAccepted(bigEndian: bool, total: nat)
    ensures Reported(bigEndian, Fold(total)) == 0xffff <==> total % 0xffff == 0
  {
    FoldMeaning(total, Fold(total));
    AcceptedIff(bigEndian, Fold(total));
  }

  lemma ChangedSum(sum: nat, sum': nat, was: u16, now: u16)
    requires sum' + was == sum + now && sum % 0xffff == 0
    ensures sum' % 0xffff == 0 <==> now % 0xffff == was % 0xffff
  {
  }

  /**
    An accepted header with any one word changed is accepted only if the change is one the sum cannot see, 0 for 0xffff.
   */
  lemma HeaderCorruptionDetected(bigEndian: bool, p: seq<u8>, k: nat, hi: u8, lo: u8)
    requires |p| >= UPPER && LLH_LEN <= k < UPPER && k % 2 == 0 && IpAccepted(bigEndian, p)
    ensures IpAccepted(bigEndian, p[k := hi][k + 1 := lo]) <==> Word(hi, lo) % 0xffff == Word(p[k], p[k + 1]) % 0xffff
  {
    hide WordSum, Fold, Reported, Word;
    var h: seq<u8>, h': seq<u8> := IpHeader(p), IpHeader(p[k := hi][k + 1 := lo]);
    assert h' == h[k - LLH_LEN := hi][k - LLH_LEN + 1 := lo];
    WordSumUpdate(h, k - LLH_LEN, hi, lo);
    SumAccepted(bigEndian, WordSum(h));
    SumAccepted(bigEndian, WordSum(h'));
    ChangedSum(WordSum(h), WordSum(h'), Word(p[k], p[k + 1]), Word(hi, lo));
  }

  /** So is an accepted segment with any one word of it, or of the addresses in the header, changed. */
  lemma SegmentCorruptionDetected(bigEndian: bool, p: seq<u8>, k: nat, hi: u8, lo: u8)
    requires LengthFits(p) && SRCIP <= k && k + 1 < LLH_LEN + Word(p[LEN], p[LEN + 1]) && k % 2 == 0
    requires TcpAccepted(bigEndian, p)
    ensures var p' := p[k := hi][k + 1 := lo];
            LengthFits(p')
            && (TcpAccepted(bigEndian, p') <==> Word(hi, lo) % 0xffff == Word(p[k], p[k + 1]) % 0xffff)
  {
    hide WordSum, Fold, Reported, Word;
    var p' := p[k := hi][k + 1 := lo];
    if k < UPPER {
      assert p'[SRCIP..UPPER] == p[SRCIP..UPPER][k - SRCIP := hi][k - SRCIP + 1 := lo] && Upper(p') == Upper(p);
      WordSumUpdate(p[SRCIP..UPPER], k - SRCIP, hi, lo);
    } else {
      assert Upper(p') == Upper(p)[k - UPPER := hi][k - UPPER + 1 := lo] && p'[SRCIP..UPPER] == p[SRCIP..UPPER];
      WordSumUpdate(Upper(p), k - UPPER, hi, lo);
    }
    SumAccepted(bigEndian, TransportSum(p, PROTO_TCP));
    SumAccepted(bigEndian, TransportSum(p', PROTO_TCP));
    ChangedSum(TransportSum(p, PROTO_TCP), TransportSum(p', PROTO_TCP), Word(p[k], p[k + 1]), Word(hi, lo));
  }

  /** Filling in the TCP checksum: the receive-side TCP test will pass. */
  method FillTcpChecksum(bigEndian: bool, buf: array<u8>)
    requires LengthFits(buf[..]) && IPTCPH_LEN <= Word(buf[LEN], buf[LEN + 1])
    modifies buf
    ensures LengthFits(buf[..]) && TcpAccepted(bigEndian, buf[..])
    ensures forall i | 0 <= i < buf.Length && i != TCPCHKSUM && i != TCPCHKSUM + 1 :: buf[i] == old(buf[i])
  {
    hide WordSum, Fold, Reported, FirstByte, SecondByte, Word;
    buf[TCPCHKSUM], buf[TCPCHKSUM + 1] := 0, 0;
    ghost var zeroed := buf[..];
    assert zeroed[LEN] == old(buf[LEN]) && zeroed[LEN + 1] == old(buf[LEN + 1]);
    var reported := UpperLayerChksum(bigEndian, buf, PROTO_TCP);
    var v: u16 := 0xffff - reported;
    var first, second := FirstByte(bigEndian, v), SecondByte(bigEndian, v);
    buf[TCPCHKSUM], buf[TCPCHKSUM + 1] := first, second;
    assert buf[..] == zeroed[TCPCHKSUM := first][TCPCHKSUM + 1 := second];
    assert buf[..][SRCIP..UPPER] == zeroed[SRCIP..UPPER];
    assert Upper(buf[..]) == Upper(zeroed)[16 := first][17 := second];
    FilledFieldAccepted(bigEndian, |Upper(zeroed)| + PROTO_TCP + WordSum(zeroed[SRCIP..UPPER]), Upper(zeroed), 16);
  }

  /** Filling in the IP checksum: the receive-side IP test will pass. */
  method FillIpChecksum(bigEndian: bool, buf: array<u8>)
    requires buf.Length >= UPPER
    modifies buf
    ensures IpAccepted(bigEndian, buf[..])
    ensures forall i | 0 <= i < buf.Length && i != IPCHKSUM && i != IPCHKSUM + 1 :: buf[i] == old(buf[i])
  {
    hide WordSum, Fold, Reported, FirstByte, SecondByte;
    buf[IPCHKSUM], buf[IPCHKSUM + 1] := 0, 0;
    ghost var zeroed := buf[..];
    var reported := IpChksum(bigEndian, buf);
    var v: u16 := 0xffff - reported;
    buf[IPCHKSUM], buf[IPCHKSUM + 1] := FirstByte(bigEndian, v), SecondByte(bigEndian, v);
    assert IpHeader(buf[..]) == IpHeader(zeroed)[10 := FirstByte(bigEndian, v)][11 := SecondByte(bigEndian, v)];
    FilledFieldAccepted(bigEndian, 0, IpHeader(zeroed), 10);
  }

  /** The end of the TCP send path: both checksums are filled in and both receive-side tests will pass. */
  method FillChecksums(bigEndian: bool, buf: array<u8>, ipid: u16)
    requires LengthFits(buf[..]) && IPTCPH_LEN <= Word(buf[LEN], buf[LEN + 1])
    modifies buf
    ensures LengthFits(buf[..]) && IpAccepted(bigEndian, buf[..]) && TcpAccepted(bigEndian, buf[..])
    ensures buf[VHL] == 0x45 && buf[TOS] == buf[IPOFFSET] == buf[IPOFFSET + 1] == 0
    ensures buf[IPID] == ipid / 0x100 && buf[IPID + 1] == ipid % 0x100
    ensures forall i | 0 <= i < IPID || TTL <= i < IPCHKSUM || SRCIP <= i < TCPCHKSUM || TCPCHKSUM + 2 <= i ::
              i < buf.Length && i != VHL && i != TOS ==> buf[i] == old(buf[i])
  {
    hide IpAccepted, TcpAccepted, Word;
    FillTcpChecksum(bigEndian, buf);
    ghost var filled := buf[..];
    buf[VHL], buf[TOS], buf[IPOFFSET], buf[IPOFFSET + 1] := 0x45, 0, 0, 0;
    buf[IPID], buf[IPID + 1] := ipid / 0x100, ipid % 0x100;
    FillIpChecksum(bigEndian, buf);
    SameSegment(bigEndian, filled, buf[..]);
  }

  /** The TCP test looks at nothing of the IP header but its length and addresses. */
  lemma SameSegment(bigEndian: bool, p: seq<u8>, q: seq<u8>)
    requires LengthFits(p) && TcpAccepted(bigEndian, p) && |q| == |p| && q[LEN] == p[LEN] && q[LEN + 1] == p[LEN + 1]
    requires forall i | SRCIP <= i < |p| :: q[i] == p[i]
    ensures LengthFits(q) && TcpAccepted(bigEndian, q)
  {
    hide WordSum, Fold, Reported;
    assert q[SRCIP..UPPER] == p[SRCIP..UPPER] && Upper(q) == Upper(p);
  }

  // ----- incremental updates

  /** The stored checksum after `HTONS(step << 8)` was added with the source's end-around carry. */
  function Bumped(bigEndian: bool, chksum: u16, step: u8): u16 {
    if chksum >= Htons(bigEndian, 0xffff - Word(step, 0)) then Wrap16(chksum + Htons(bigEndian, Word(step, 0)) + 1)
    else Wrap16(chksum + Htons(bigEndian, Word(step, 0)))
  }

  lemma SwapIsTimes256(v: u16)
    ensures Swap16(v) % 0xffff == (0x100 * v) % 0xffff
  {
    assert 0x100 * v == Swap16(v) + (v / 0x100) * 0xffff;
    ModShift(Swap16(v), v / 0x100);
  }

  lemma ComplementedStep(bigEndian: bool, step: u8)
    ensures Htons(bigEndian, 0xffff - Word(step, 0)) == 0xffff - Htons(bigEndian, Word(step, 0))
  {
    var top: u16 := 0xffff - Word(step, 0);
    assert Word(step, 0) / 0x100 == step && Word(step, 0) % 0x100 == 0;
    assert top == Word(0xff - step, 0xff);
    assert top / 0x100 == 0xff - step && top % 0x100 == 0xff;
  }

  lemma BumpedIsEndAround(bigEndian: bool, chksum: u16, step: u8)
    ensures var add := Htons(bigEndian, Word(step, 0));
            Bumped(bigEndian, chksum, step) == chksum + add || Bumped(bigEndian, chksum, step) == chksum + add - 0xffff
  {
    hide Htons, Word;
    ComplementedStep(bigEndian, step);
  }

  /** In network order, the stored word went up by `step << 8` modulo 0xffff whatever the host's byte order. */
  lemma BumpedInNetworkOrder(bigEndian: bool, chksum: u16, step: u8)
    ensures Htons(bigEndian, Bumped(bigEndian, chksum, step)) % 0xffff ==
        (Htons(bigEndian, chksum) + Word(step, 0)) % 0xffff
  {
    hide Bumped, Swap16;
    BumpedIsEndAround(bigEndian, chksum, step);
    if bigEndian {
      Around(Bumped(bigEndian, chksum, step), chksum + Word(step, 0));
    } else {
      StepBytes(step);
      SwapBump(chksum, Bumped(bigEndian, chksum, step), step);
    }
  }

  lemma StepBytes(step: u8)
    ensures Swap16(Word(step, 0)) == step
  {
  }

  lemma Around(a: int, b: int)
    requires a == b || a == b - 0xffff
    ensures a % 0xffff == b % 0xffff
  {
  }

  lemma SwapBump(chksum: u16, bumped: u16, step: u8)
    requires bumped == chksum + step || bumped == chksum + step - 0xffff
    ensures Swap16(bumped) % 0xffff == (Swap16(chksum) + Word(step, 0)) % 0xffff
  {
    hide Swap16;
    SwapIsTimes256(bumped);
    SwapIsTimes256(chksum);
    Scaled(bumped, chksum + step);
    AddCongruent(Swap16(chksum), 0x100 * chksum, 0x100 * step);
  }

  lemma Scaled(a: int, b: int)
    requires a == b || a == b - 0xffff
    ensures (0x100 * a) % 0xffff == (0x100 * b) % 0xffff
  {
  }

  /** The bytes after a high byte at `at` went down by `step` and the checksum word at `field` was bumped. */
  function Updated(bigEndian: bool, data: seq<u8>, at: nat, field: nat, step: u8): seq<u8>
    requires at % 2 == 0 && field % 2 == 0 && at != field && at + 1 < |data| && field + 1 < |data|
  {
    var v := Bumped(bigEndian, LoadHost(bigEndian, data[field], data[field + 1]), step);
    data[at := Wrap8(data[at] - step)][field := FirstByte(bigEndian, v)][field + 1 := SecondByte(bigEndian, v)]
  }

  lemma LoweredWord(high: u8, low: u8, step: u8)
    ensures Word(Wrap8(high - step), low) == Word(high, low) - Word(step, 0) + if step <= high then 0 else 0x1_0000
  {
  }

  lemma StoredWord(bigEndian: bool, v: u16)
    ensures Word(FirstByte(bigEndian, v), SecondByte(bigEndian, v)) == Htons(bigEndian, v)
  {
  }

  /** The incremental update keeps the word sum modulo 0xffff exactly when the byte did not wrap below zero. */
  lemma UpdatedKeepsSum(bigEndian: bool, data: seq<u8>, at: nat, field: nat, step: u8)
    requires at % 2 == 0 && field % 2 == 0 && at != field && at + 1 < |data| && field + 1 < |data|
    ensures WordSum(Updated(bigEndian, data, at, field, step)) % 0xffff == WordSum(data) % 0xffff <==> step <= data[at]
  {
    hide WordSum, Bumped, Htons, Word, Wrap8, FirstByte, SecondByte;
    var chksum := LoadHost(bigEndian, data[field], data[field + 1]);
    var v := Bumped(bigEndian, chksum, step);
    var lowered := data[at := Wrap8(data[at] - step)];
    assert lowered == lowered[at + 1 := data[at + 1]];
    WordSumUpdate(data, at, Wrap8(data[at] - step), data[at + 1]);
    WordSumUpdate(lowered, field, FirstByte(bigEndian, v), SecondByte(bigEndian, v));
    LoweredWord(data[at], data[at + 1], step);
    StoredWord(bigEndian, v);
    HtonsTwice(bigEndian, Word(data[field], data[field + 1]));
    BumpedInNetworkOrder(bigEndian, chksum, step);
    Compensated(WordSum(data), WordSum(Updated(bigEndian, data, at, field, step)),
                Htons(bigEndian, chksum), Htons(bigEndian, v), Word(step, 0), if step <= data[at] then 0 else 1);
  }

  /** A word that rose by `step` and one that fell by it cancel; a wrapped byte leaves one too many. */
  lemma Compensated(sum: nat, sum': int, before: int, after: int, step: int, wrapped: int)
    requires after % 0xffff == (before + step) % 0xffff
    requires wrapped == 0 || wrapped == 1
    requires sum' == sum + after - before - step + wrapped * 0x1_0000
    ensures sum' % 0xffff == sum % 0xffff <==> wrapped == 0
  {
  }

  /** Equal sums modulo 0xffff get the same verdict from the receive-side test. */
  lemma SameVerdict(bigEndian: bool, a: nat, b: nat)
    requires a % 0xffff == b % 0xffff
    ensures Reported(bigEndian, Fold(a)) == 0xffff <==> Reported(bigEndian, Fold(b)) == 0xffff
  {
    FoldMeaning(a, Fold(a));
    FoldMeaning(b, Fold(b));
    AcceptedIff(bigEndian, Fold(a));
    AcceptedIff(bigEndian, Fold(b));
  }

  /** The forwarding rewrite: TTL down by one, header checksum bumped, nothing else touched. */
  method DecrementTtl(bigEndian: bool, buf: array<u8>)
    requires buf.Length >= UPPER
    modifies buf
    ensures IpHeader(buf[..]) == Updated(bigEndian, IpHeader(old(buf[..])), 8, 10, 1)
    ensures buf[TTL] == Wrap8(old(buf[TTL]) as int - 1)
    ensures old(buf[TTL]) != 0 ==> (IpAccepted(bigEndian, buf[..]) <==> IpAccepted(bigEndian, old(buf[..])))
    ensures forall i | 0 <= i < buf.Length && i != TTL && i != IPCHKSUM && i != IPCHKSUM + 1 :: buf[i] == old(buf[i])
  {
    hide Bumped, Htons, Word, FirstByte, SecondByte, Wrap8, WordSum, Fold, Reported;
    ghost var was := IpHeader(buf[..]);
    var ttl: int := buf[TTL];
    buf[TTL] := Wrap8(ttl - 1);
    var chksum := Bumped(bigEndian, LoadHost(bigEndian, buf[IPCHKSUM], buf[IPCHKSUM + 1]), 1);
    var first, second := FirstByte(bigEndian, chksum), SecondByte(bigEndian, chksum);
    buf[IPCHKSUM], buf[IPCHKSUM + 1] := first, second;
    assert IpHeader(buf[..]) == was[8 := Wrap8(ttl - 1)][10 := first][11 := second];
    ForwardingKeepsVerdict(bigEndian, was);
  }

  /** A forwarded header keeps its word sum, and so its verdict, exactly when the TTL was not already 0. */
  lemma ForwardingKeepsVerdict(bigEndian: bool, header: seq<u8>)
    requires |header| == IPH_LEN
    ensures WordSum(Updated(bigEndian, header, 8, 10, 1)) % 0xffff == WordSum(header) % 0xffff <==> header[8] != 0
    ensures header[8] != 0 ==>
              (Reported(bigEndian, Fold(WordSum(Updated(bigEndian, header, 8, 10, 1)))) == 0xffff
               <==> Reported(bigEndian, Fold(WordSum(header))) == 0xffff)
  {
    hide WordSum, Fold, Reported, Updated;
    UpdatedKeepsSum(bigEndian, header, 8, 10, 1);
    if header[8] != 0 {
      SameVerdict(bigEndian, WordSum(Updated(bigEndian, header, 8, 10, 1)), WordSum(header));
    }
  }

  /**
    ICMP echo: the request in the buffer becomes its reply, with type, checksum and addresses rewritten. The IP checksum
    stays, so a header that passed passes again exactly when the address answered from sums to what the one asked for
    did.
   */
  method EchoReply(bigEndian: bool, buf: array<u8>, hostaddr: seq<u8>)
    requires LengthFits(buf[..]) && buf.Length >= ICMPCHKSUM + 2
    requires buf[ICMPTYPE] == ICMP_ECHO && |hostaddr| == 4
    modifies buf
    ensures LengthFits(buf[..]) && buf[ICMPTYPE] == ICMP_ECHO_REPLY
    ensures buf[SRCIP..DESTIP] == hostaddr && buf[DESTIP..UPPER] == old(buf[SRCIP..DESTIP])
    ensures buf[..SRCIP] == old(buf[..SRCIP]) && buf[ICMPCHKSUM + 2..] == old(buf[ICMPCHKSUM + 2..])
    ensures old(buf[DESTIP..UPPER]) == hostaddr ==>
              (IpAccepted(bigEndian, buf[..]) <==> IpAccepted(bigEndian, old(buf[..])))
    ensures old(IpAccepted(bigEndian, buf[..])) ==>
              (IpAccepted(bigEndian, buf[..]) <==>
               WordSum(hostaddr) % 0xffff == WordSum(old(buf[DESTIP..UPPER])) % 0xffff)
    ensures |Upper(old(buf[..]))| >= 4 ==>
              && Upper(buf[..]) == Updated(bigEndian, Upper(old(buf[..])), 0, 2, ICMP_ECHO)
              && (Reported(bigEndian, Fold(WordSum(Upper(buf[..])))) == 0xffff
                  <==> Reported(bigEndian, Fold(WordSum(Upper(old(buf[..]))))) == 0xffff)
  {
    hide Bumped, Htons, Word, FirstByte, SecondByte, WordSum, Fold, Reported;
    ghost var was := buf[..];
    buf[ICMPTYPE] := ICMP_ECHO_REPLY;
    var chksum := Bumped(bigEndian, LoadHost(bigEndian, buf[ICMPCHKSUM], buf[ICMPCHKSUM + 1]), ICMP_ECHO);
    var first, second := FirstByte(bigEndian, chksum), SecondByte(bigEndian, chksum);
    buf[ICMPCHKSUM], buf[ICMPCHKSUM + 1] := first, second;
    SwapAddresses(buf, hostaddr);
    if |Upper(was)| >= 4 {
      assert Upper(buf[..]) == Upper(was)[0 := ICMP_ECHO_REPLY][2 := first][3 := second];
      EchoKeepsVerdict(bigEndian, Upper(was));
    }
    assert buf[..][SRCIP..DESTIP] == buf[SRCIP..DESTIP] && buf[..][DESTIP..UPPER] == buf[DESTIP..UPPER];
    assert was[SRCIP..DESTIP] == old(buf[SRCIP..DESTIP]) && was[DESTIP..UPPER] == old(buf[DESTIP..UPPER]);
    AnsweredHeader(bigEndian, was, buf[..], hostaddr);
  }

  method SwapAddresses(buf: array<u8>, hostaddr: seq<u8>)
    requires buf.Length >= UPPER && |hostaddr| == 4
    modifies buf
    ensures buf[SRCIP..DESTIP] == hostaddr && buf[DESTIP..UPPER] == old(buf[SRCIP..DESTIP])
    ensures forall i | 0 <= i < buf.Length && !(SRCIP <= i < UPPER) :: buf[i] == old(buf[i])
  {
    buf[DESTIP], buf[DESTIP + 1], buf[DESTIP + 2], buf[DESTIP + 3] := buf[SRCIP], buf[SRCIP + 1], buf[SRCIP + 2],
        buf[SRCIP + 3];
    buf[SRCIP], buf[SRCIP + 1], buf[SRCIP + 2], buf[SRCIP + 3] := hostaddr[0], hostaddr[1], hostaddr[2], hostaddr[3];
  }

  /** The reply's ICMP words sum to the request's modulo 0xffff, so the peer's ICMP check gives the same verdict. */
  lemma EchoKeepsVerdict(bigEndian: bool, icmp: seq<u8>)
    requires |icmp| >= 4 && icmp[0] == ICMP_ECHO
    ensures WordSum(Updated(bigEndian, icmp, 0, 2, ICMP_ECHO)) % 0xffff == WordSum(icmp) % 0xffff
    ensures Reported(bigEndian, Fold(WordSum(Updated(bigEndian, icmp, 0, 2, ICMP_ECHO)))) == 0xffff
       <==> Reported(bigEndian, Fold(WordSum(icmp))) == 0xffff
  {
    hide WordSum, Fold, Reported, Updated;
    UpdatedKeepsSum(bigEndian, icmp, 0, 2, ICMP_ECHO);
    SameVerdict(bigEndian, WordSum(Updated(bigEndian, icmp, 0, 2, ICMP_ECHO)), WordSum(icmp));
  }

  /** A header answered from `host` under its old checksum. */
  lemma AnsweredHeader(bigEndian: bool, was: seq<u8>, now: seq<u8>, host: seq<u8>)
    requires |was| == |now| >= UPPER && |host| == 4 && forall i | 0 <= i < SRCIP :: now[i] == was[i]
    requires now[SRCIP..DESTIP] == host && now[DESTIP..UPPER] == was[SRCIP..DESTIP]
    ensures was[DESTIP..UPPER] == host ==> (IpAccepted(bigEndian, now) <==> IpAccepted(bigEndian, was))
    ensures IpAccepted(bigEndian, was) ==>
              (IpAccepted(bigEndian, now) <==> WordSum(host) % 0xffff == WordSum(was[DESTIP..UPPER]) % 0xffff)
  {
    hide WordSum, Fold, Reported;
    var front, src, dest := was[LLH_LEN..SRCIP], was[SRCIP..DESTIP], was[DESTIP..UPPER];
    HeaderParts(was);
    HeaderParts(now);
    assert now[LLH_LEN..SRCIP] == front;
    AnsweredSum(front, src, dest, host);
    SumAccepted(bigEndian, WordSum(IpHeader(was)));
    SumAccepted(bigEndian, WordSum(IpHeader(now)));
    if IpAccepted(bigEndian, was) {
      Congruent(WordSum(IpHeader(was)), WordSum(IpHeader(now)), WordSum(dest), WordSum(host));
    }
  }

  lemma HeaderParts(p: seq<u8>)
    requires |p| >= UPPER
    ensures IpHeader(p) == p[LLH_LEN..SRCIP] + p[SRCIP..DESTIP] + p[DESTIP..UPPER]
  {
  }

  lemma Congruent(was: nat, now: nat, dest: nat, host: nat)
    requires now + dest == was + host && was % 0xffff == 0
    ensures now % 0xffff == 0 <==> host % 0xffff == dest % 0xffff
  {
  }

  /** The IP header sum of an answer differs from the question's by the address it comes from. */
  lemma AnsweredSum(front: seq<u8>, src: seq<u8>, dest: seq<u8>, host: seq<u8>)
    requires |front| == 12 && |src| == |dest| == |host| == 4
    ensures WordSum(front + host + src) + WordSum(dest) == WordSum(front + src + dest) + WordSum(host)
  {
    WordSumConcat(front + src, dest);
    WordSumConcat(front, src);
    WordSumConcat(front + host, src);
    WordSumConcat(front, host);
  }

  /** Exchanging the two addresses leaves the IP header sum alone: the header checksum needs no update. */
  lemma AddressSwapKeepsSum(front: seq<u8>, src: seq<u8>, dest: seq<u8>)
    requires |front| == 12 && |src| == |dest| == 4
    ensures WordSum(front + src + dest) == WordSum(front + dest + src)
  {
    AnsweredSum(front, src, dest, dest);
  }
}
