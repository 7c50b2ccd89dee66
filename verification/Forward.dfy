/**
 Forwarding a packet (uip-fw.c): who is let through, the ICMP message for those that lived too long, and what leaves.
 */
module Forward {
  import opened Words
  import opened Checksum
  import opened Packet
  import opened ForwardCache

  const PROTO_ICMP: u8 := 1
  const ICMP_TE: u8 := 11
  const TE_LEN := 56
  const ICMPCODE := UPPER + 1
  const PAYLOAD := UPPER + 8
  const TE_END := LLH_LEN + TE_LEN

  /** `p` tells the sender of `was` that it lived too long, from `hostaddr` and quoting its first 28 bytes. */
  ghost predicate TellsSender(bigEndian: bool, p: seq<u8>, was: seq<u8>, hostaddr: seq<u8>, ttl: u8)
    requires |p| == |was| >= TE_END
  {
    && p[VHL] == 0x45 && p[TOS] == p[LEN] == p[IPOFFSET] == p[IPOFFSET + 1] == 0 && p[LEN + 1] == TE_LEN as u8
    && p[TTL] == ttl && p[PROTO] == PROTO_ICMP && p[ICMPTYPE] == ICMP_TE && p[ICMPCODE] == 0
    && p[SRCIP..DESTIP] == hostaddr && p[DESTIP..UPPER] == was[SRCIP..DESTIP]
    && p[PAYLOAD..TE_END] == was[LLH_LEN..LLH_LEN + 28]
    && Reported(bigEndian, Fold(WordSum(p[UPPER..TE_END]))) == 0xffff
  }

  /**
    The ICMP checksum over type, code, identifiers and quotation, stored over a zeroed field. Unlike uip_ipchksum,
    uip_chksum reports a sum of 0 as it is; with a type that is not 0 there is none.
   */
  method FillIcmpChecksum(bigEndian: bool, buf: array<u8>)
    requires buf.Length >= TE_END && buf[ICMPTYPE] != 0
    modifies buf
    ensures Reported(bigEndian, Fold(WordSum(buf[UPPER..TE_END]))) == 0xffff
    ensures forall i | 0 <= i < buf.Length && i != ICMPCHKSUM && i != ICMPCHKSUM + 1 :: buf[i] == old(buf[i])
  {
    hide WordSum, Fold, Reported, FirstByte, SecondByte, Htons;
    buf[ICMPCHKSUM], buf[ICMPCHKSUM + 1] := 0, 0;
    ghost var zeroed := buf[UPPER..TE_END];
    var sum := Chksum(0, buf[UPPER..TE_END]);
    var v: u16 := 0xffff - Htons(bigEndian, sum);
    assert v == 0xffff - Reported(bigEndian, sum) by {
      TypeCounts(zeroed);
      ReportedIs(bigEndian, sum);
    }
    var first, second := FirstByte(bigEndian, v), SecondByte(bigEndian, v);
    buf[ICMPCHKSUM], buf[ICMPCHKSUM + 1] := first, second;
    assert buf[UPPER..TE_END] == zeroed[2 := first][3 := second];
    FilledFieldAccepted(bigEndian, 0, zeroed, 2);
  }

  /** Bytes that start with one other than 0 do not sum to 0. */
  lemma TypeCounts(data: seq<u8>)
    requires |data| >= 2 && data[0] != 0
    ensures Fold(WordSum(data)) != 0
  {
  }

  lemma ReportedIs(bigEndian: bool, sum: u16)
    ensures Reported(bigEndian, sum) == if sum == 0 then 0xffff else Htons(bigEndian, sum)
  {
  }

  /** The ICMP part of the message in `p`, quoting `was`, whose IP header still stands. */
  ghost predicate IcmpFilled(bigEndian: bool, p: seq<u8>, was: seq<u8>)
    requires |p| == |was| >= TE_END
  {
    && p[ICMPTYPE] == ICMP_TE && p[ICMPCODE] == 0 && p[PAYLOAD..TE_END] == was[LLH_LEN..LLH_LEN + 28]
    && Reported(bigEndian, Fold(WordSum(p[UPPER..TE_END]))) == 0xffff
    && p[..UPPER] == was[..UPPER]
  }

  /** The IP header of the message over the ICMP part in `mid`. */
  ghost predicate HeaderFilled(bigEndian: bool, p: seq<u8>, mid: seq<u8>, hostaddr: seq<u8>)
    requires |p| == |mid| >= TE_END
  {
    && p[VHL] == 0x45 && p[TOS] == p[LEN] == p[IPOFFSET] == p[IPOFFSET + 1] == 0 && p[LEN + 1] == TE_LEN as u8
    && p[TTL] == UIP_TTL && p[PROTO] == PROTO_ICMP
    && p[SRCIP..DESTIP] == hostaddr && p[DESTIP..UPPER] == mid[SRCIP..DESTIP] && p[UPPER..] == mid[UPPER..]
    && IpAccepted(bigEndian, p)
  }

  lemma FilledTellsSender(bigEndian: bool, p: seq<u8>, mid: seq<u8>, was: seq<u8>, hostaddr: seq<u8>)
    requires |p| == |mid| == |was| >= TE_END
    requires IcmpFilled(bigEndian, mid, was) && HeaderFilled(bigEndian, p, mid, hostaddr)
    ensures TellsSender(bigEndian, p, was, hostaddr, UIP_TTL)
  {
    hide Reported, Fold, WordSum, IpAccepted;
    SameTail(p, mid);
    assert mid[SRCIP..DESTIP] == mid[..UPPER][SRCIP..DESTIP] && was[SRCIP..DESTIP] == was[..UPPER][SRCIP..DESTIP];
  }

  lemma SameTail(p: seq<u8>, q: seq<u8>)
    requires |p| == |q| >= TE_END && p[UPPER..] == q[UPPER..]
    ensures p[UPPER..TE_END] == q[UPPER..TE_END] && p[PAYLOAD..TE_END] == q[PAYLOAD..TE_END]
    ensures p[ICMPTYPE] == q[ICMPTYPE] && p[ICMPCODE] == q[ICMPCODE]
  {
    assert forall i | UPPER <= i < |p| :: p[i] == p[UPPER..][i - UPPER] && q[i] == q[UPPER..][i - UPPER];
  }

  method FillIcmp(bigEndian: bool, buf: array<u8>)
    requires buf.Length >= TE_END
    modifies buf
    ensures IcmpFilled(bigEndian, buf[..], old(buf[..]))
  {
    hide WordSum, Fold, Reported;
    ghost var was := buf[..];
    forall i | 0 <= i < 28 {
      buf[PAYLOAD + i] := buf[LLH_LEN + i];
    }
    buf[ICMPTYPE], buf[ICMPCODE] := ICMP_TE, 0;
    FillIcmpChecksum(bigEndian, buf);
    assert buf[..][UPPER..TE_END] == buf[UPPER..TE_END];
  }

  method FillHeader(bigEndian: bool, buf: array<u8>, hostaddr: seq<u8>)
    requires buf.Length >= TE_END && |hostaddr| == 4
    modifies buf
    ensures HeaderFilled(bigEndian, buf[..], old(buf[..]), hostaddr)
  {
    hide WordSum, Fold, Reported, IpAccepted;
    ghost var mid := buf[..];
    SwapAddresses(buf, hostaddr);
    ghost var swapped := buf[..];
    Swapped(mid, swapped, buf[SRCIP..DESTIP], buf[DESTIP..UPPER]);
    buf[LEN], buf[LEN + 1], buf[VHL], buf[TOS] := 0, TE_LEN as u8, 0x45, 0;
    buf[IPOFFSET], buf[IPOFFSET + 1], buf[TTL], buf[PROTO] := 0, 0, UIP_TTL, PROTO_ICMP;
    FillIpChecksum(bigEndian, buf);
    AddressesStay(swapped, buf[..]);
  }

  lemma Swapped(mid: seq<u8>, p: seq<u8>, src: seq<u8>, dest: seq<u8>)
    requires |p| == |mid| >= TE_END && p[SRCIP..DESTIP] == src && p[DESTIP..UPPER] == dest == mid[SRCIP..DESTIP]
    requires forall i | UPPER <= i < |p| :: p[i] == mid[i]
    ensures p[DESTIP..UPPER] == mid[SRCIP..DESTIP] && p[UPPER..] == mid[UPPER..]
  {
  }

  lemma AddressesStay(p: seq<u8>, q: seq<u8>)
    requires |p| == |q| >= TE_END && forall i | SRCIP <= i < |p| :: q[i] == p[i]
    ensures q[SRCIP..DESTIP] == p[SRCIP..DESTIP] && q[DESTIP..UPPER] == p[DESTIP..UPPER] && q[UPPER..] == p[UPPER..]
  {
  }

  /** time_exceeded: no message about ICMP; any other packet in the buffer becomes the message. */
  method TimeExceeded(bigEndian: bool, buf: array<u8>, hostaddr: seq<u8>) returns (len: u16)
    requires buf.Length >= TE_END && |hostaddr| == 4
    modifies buf
    ensures old(buf[PROTO]) == PROTO_ICMP ==> len == 0 && buf[..] == old(buf[..])
    ensures old(buf[PROTO]) != PROTO_ICMP ==>
              && len == TE_LEN && IpAccepted(bigEndian, buf[..])
              && TellsSender(bigEndian, buf[..], old(buf[..]), hostaddr, UIP_TTL)
  {
    hide IcmpFilled, TellsSender, IpAccepted;
    if buf[PROTO] == PROTO_ICMP {
      return 0;
    }
    FillIcmp(bigEndian, buf);
    ghost var mid := buf[..];
    FillHeader(bigEndian, buf, hostaddr);
    FilledTellsSender(bigEndian, buf[..], mid, old(buf[..]), hostaddr);
    len := TE_LEN;
  }

  datatype Verdict = LOCAL | FORWARDED

  /** To the limited broadcast address. */
  predicate Broadcast(p: seq<u8>)
    requires |p| >= UPPER
  {
    p[DESTIP..UPPER] == [0xff, 0xff, 0xff, 0xff]
  }

  /** The packet is for this host, or too old and for everybody. */
  predicate StaysHere(p: seq<u8>, hostaddr: seq<u8>, known: bool)
    requires |p| >= UPPER
  {
    p[DESTIP..UPPER] == hostaddr || (!known && p[TTL] <= 1 && Broadcast(p))
  }

  /** It is handed to an interface: not for this host, not seen before, and alive or worth a message. */
  predicate GoesOn(p: seq<u8>, hostaddr: seq<u8>, known: bool)
    requires |p| >= UPPER
  {
    p[DESTIP..UPPER] != hostaddr && !known && (p[TTL] <= 1 ==> !Broadcast(p) && p[PROTO] != PROTO_ICMP)
  }

  lemma Untouched(p: seq<u8>, q: seq<u8>)
    requires |p| == |q| >= TE_END
    requires forall i | 0 <= i < |p| && i != TTL && i != IPCHKSUM && i != IPCHKSUM + 1 :: q[i] == p[i]
    ensures q[UPPER..] == p[UPPER..] && q[UPPER..TE_END] == p[UPPER..TE_END] && q[PAYLOAD..TE_END] == p[PAYLOAD..TE_END]
    ensures q[SRCIP..DESTIP] == p[SRCIP..DESTIP] && q[DESTIP..UPPER] == p[DESTIP..UPPER] && IdOf(q) == IdOf(p)
  {
  }

  /**
    uip_fw_forward. `sent` is what uip_fw_output is given and remembers: it always has a TTL of at least 1; a packet
    that arrived with more than 1 has one less, the header verdict it came with and is recognised by the same fields;
    any other is a message to the sender of the packet, with a header that passes.
   */
  method FwForward(bigEndian: bool, buf: array<u8>, hostaddr: seq<u8>, cache: FwCache, len0: u16)
    returns (verdict: Verdict, sent: seq<seq<u8>>)
    requires buf.Length >= TE_END && |hostaddr| == 4 && len0 > 0 && cache.Valid()
    modifies buf, cache.entries
    ensures var known := Known(old(cache.entries[..]), IdOf(old(buf[..])));
            && verdict == (if StaysHere(old(buf[..]), hostaddr, known) then LOCAL else FORWARDED)
            && sent == (if GoesOn(old(buf[..]), hostaddr, known) then [buf[..]] else [])
    ensures cache.Valid()
    ensures if sent == [] then cache.entries[..] == old(cache.entries[..])
            else Remembers(old(cache.entries[..]), cache.entries[..], IdOf(buf[..]))
    ensures forall p | p in sent :: |p| == buf.Length && p[TTL] >= 1
    ensures forall p | p in sent && old(buf[TTL]) >= 2 ::
              && p[TTL] == old(buf[TTL]) - 1 && IdOf(p) == IdOf(old(buf[..]))
              && IpHeader(p) == Updated(bigEndian, IpHeader(old(buf[..])), 8, 10, 1) && p[UPPER..] == old(buf[UPPER..])
              && (IpAccepted(bigEndian, p) <==> IpAccepted(bigEndian, old(buf[..])))
    ensures forall p | p in sent && old(buf[TTL]) < 2 ::
              TellsSender(bigEndian, p, old(buf[..]), hostaddr, UIP_TTL - 1) && IpAccepted(bigEndian, p)
  {
    hide WordSum, Fold, Reported, IpAccepted, Updated, Known, Remembers, IdOf;
    var len := len0;
    sent := [];
    if buf[DESTIP..UPPER] == hostaddr {
      return LOCAL, sent;
    }
    var known := cache.Lookup(buf);
    if known {
      return FORWARDED, sent;
    }
    if buf[TTL] <= 1 {
      if buf[DESTIP..UPPER] == [0xff, 0xff, 0xff, 0xff] {
        return LOCAL, sent;
      }
      len := TimeExceeded(bigEndian, buf, hostaddr);
    }
    ghost var before := buf[..];
    DecrementTtl(bigEndian, buf);
    if len > 0 {
      sent := [buf[..]];
      cache.Register(buf);
      Untouched(before, buf[..]);
    }
    verdict := FORWARDED;
  }

  /**
    A loop in the route ends here: what comes back with the same fields, whatever its TTL and checksum are by then, is
    not handed on again for exactly the time the cache keeps it, while nothing else is handed on.
   */
  lemma LoopStops(cache: seq<Entry>, cache': seq<Entry>, p: seq<u8>, q: seq<u8>, hostaddr: seq<u8>, k: nat)
    requires |p| >= UPPER && |q| >= UPPER && IdOf(q) == IdOf(p) && Timed(cache) && Remembers(cache, cache', IdOf(p))
    requires q[DESTIP..UPPER] != hostaddr && q[TTL] >= 2
    ensures GoesOn(q, hostaddr, Known(After(cache', k), IdOf(q))) <==> k >= FW_TIME as int
  {
    hide Known, Remembers, After, IdOf;
    RememberedFor(cache, cache', IdOf(p), k);
  }
}
