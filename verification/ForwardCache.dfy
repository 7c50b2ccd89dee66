/** The cache of uip-fw.c that keeps a packet from being forwarded twice. */
module ForwardCache {
  import opened Words
  import opened Packet

  const FWCACHE_SIZE := 2
  const FW_TIME: u16 := 20

  /** The fields a packet is recognised by. */
  datatype Id = Id(ipid: seq<u8>, src: seq<u8>, dest: seq<u8>, proto: u8)

  /** struct fwcache_entry; an entry with timer 0 is free. */
  datatype Entry = Entry(timer: u16, id: Id)

  function IdOf(p: seq<u8>): Id
    requires |p| >= UPPER
  {
    Id(p[IPID..IPID + 2], p[SRCIP..DESTIP], p[DESTIP..UPPER], p[PROTO])
  }

  /** The packet was handed on and is remembered. */
  predicate Known(cache: seq<Entry>, id: Id) { exists i ::
          0 <= i < |cache| && cache[i].timer != 0 && cache[i].id == id }

  /** No timer is above the one an entry starts with. */
  predicate Timed(cache: seq<Entry>) { forall i | 0 <= i < |cache| :: cache[i].timer <= FW_TIME }

  /** The entry a packet replaces: the first free one, or else the last of those with the smallest timer. */
  predicate Replaceable(cache: seq<Entry>, j: nat) {
    && j < |cache|
    && if cache[j].timer == 0 then forall i | 0 <= i < j :: cache[i].timer != 0
       else forall i | 0 <= i < |cache| ::
              cache[i].timer != 0 && cache[j].timer <= cache[i].timer && (i > j ==> cache[j].timer < cache[i].timer)
  }

  /** `cache'` is `cache` with the packet remembered. */
  ghost predicate Remembers(cache: seq<Entry>, cache': seq<Entry>, id: Id) {
    exists j: nat :: Replaceable(cache, j) && cache' == cache[j := Entry(FW_TIME, id)]
  }

  /** One uip_fw_periodic. */
  function Aged(cache: seq<Entry>): seq<Entry> {
    seq(|cache|, i requires 0 <= i < |cache| =>
          cache[i].(timer := if cache[i].timer > 0 then cache[i].timer - 1 else 0))
  }

  /** `k` of them. */
  function After(cache: seq<Entry>, k: nat): seq<Entry> { if k == 0 then cache else Aged(After(cache, k - 1)) }

  lemma {:induction false} AfterMeaning(cache: seq<Entry>, k: nat)
    ensures |After(cache, k)| == |cache|
    ensures forall i | 0 <= i < |cache| ::
              After(cache, k)[i] == cache[i].(timer := if cache[i].timer > k then cache[i].timer - k else 0)
  {
    if k > 0 {
      AfterMeaning(cache, k - 1);
    }
  }

  class FwCache {
    const entries: array<Entry>

    predicate Valid()
      reads entries
    {
      entries.Length == FWCACHE_SIZE && Timed(entries[..])
    }

    /** The loop of uip_fw_forward. */
    method Lookup(buf: array<u8>) returns (known: bool)
      requires Valid() && buf.Length >= UPPER
      ensures known <==> Known(entries[..], IdOf(buf[..]))
    {
      known := false;
      var i := 0;
      while i < entries.Length
        invariant 0 <= i <= entries.Length && !Known(entries[..i], IdOf(buf[..]))
      {
        var fw := entries[i];
        if fw.timer != 0 && fw.id.ipid == buf[IPID..IPID + 2] && fw.id.src == buf[SRCIP..DESTIP]
           && fw.id.dest == buf[DESTIP..UPPER] && fw.id.proto == buf[PROTO] {
          assert buf[..][IPID..IPID + 2] == buf[IPID..IPID + 2] && buf[..][SRCIP..DESTIP] == buf[SRCIP..DESTIP];
          assert buf[..][DESTIP..UPPER] == buf[DESTIP..UPPER] && entries[..][i] == fw;
          return true;
        }
        i := i + 1;
      }
      assert entries[..i] == entries[..];
    }

    /** The search of fwcache_register, whose cursor stays on the first free entry or the last smallest timer. */
    method Oldest() returns (fw: nat)
      requires Valid()
      ensures Replaceable(entries[..], fw)
    {
      var oldest := FW_TIME;
      fw := 0;
      for i := 0 to entries.Length
        invariant oldest <= FW_TIME && forall k | 0 <= k < i :: entries[k].timer != 0 && oldest <= entries[k].timer
        invariant i == 0 ==> oldest == FW_TIME
        invariant i > 0 ==> fw < i && entries[fw].timer == oldest && forall k | fw < k < i :: entries[k].timer > oldest
      {
        if entries[i].timer == 0 {
          return i;
        } else if entries[i].timer <= oldest {
          fw, oldest := i, entries[i].timer;
        }
      }
    }

    /** fwcache_register */
    method Register(buf: array<u8>)
      requires Valid() && buf.Length >= UPPER
      modifies entries
      ensures Valid() && Remembers(old(entries[..]), entries[..], IdOf(buf[..]))
    {
      var fw := Oldest();
      entries[fw] := Entry(FW_TIME, IdOf(buf[..]));
    }

    /** uip_fw_periodic */
    method Periodic()
      requires Valid()
      modifies entries
      ensures Valid() && entries[..] == Aged(old(entries[..]))
    {
      for i := 0 to entries.Length
        invariant forall k | 0 <= k < i :: entries[k] == Aged(old(entries[..]))[k]
        invariant forall k | i <= k < entries.Length :: entries[k] == old(entries[k])
      {
        var fw := entries[i];
        if fw.timer > 0 {
          entries[i] := fw.(timer := fw.timer - 1);
        }
      }
    }
  }

  /** While nothing else is handed on, a packet is remembered through exactly FW_TIME - 1 periodic calls. */
  lemma RememberedFor(cache: seq<Entry>, cache': seq<Entry>, id: Id, k: nat)
    requires Timed(cache) && Remembers(cache, cache', id)
    ensures Known(After(cache', k), id) <==> k < FW_TIME as int
  {
    var j: nat :| Replaceable(cache, j) && cache' == cache[j := Entry(FW_TIME, id)];
    AfterMeaning(cache', k);
    assert k < FW_TIME as int ==> After(cache', k)[j].timer != 0 && After(cache', k)[j].id == id;
  }

  /** The entry to replace is determined. */
  lemma OnlyOneReplaceable(cache: seq<Entry>, i: nat, j: nat)
    requires Replaceable(cache, i) && Replaceable(cache, j)
    ensures i == j
  {
  }

  lemma NotReplaceable(cache: seq<Entry>, j: nat, i: nat)
    requires j < |cache| && i < |cache| && cache[j].timer != 0
    requires cache[i].timer < cache[j].timer || (i > j && cache[i].timer == cache[j].timer)
    ensures !Replaceable(cache, j)
  {
  }

  /**
    The entry replaced is not always the oldest. A packet remembered in entry `j` is forgotten, within its time, for the
    next one handed on if and only if that entry is the last and the others were written in the same period.
   */
  lemma NextForgetsIff(cache: seq<Entry>, j: nat, id: Id, k: nat, cache': seq<Entry>, next: Id)
    requires Timed(cache) && Replaceable(cache, j) && !Known(cache, id) && next != id && k < FW_TIME as int
    requires Remembers(After(cache[j := Entry(FW_TIME, id)], k), cache', next)
    ensures !Known(cache', id) <==> j == |cache| - 1 && forall i | 0 <= i < j :: cache[i].timer == FW_TIME
  {
    var c := After(cache[j := Entry(FW_TIME, id)], k);
    AfterMeaning(cache[j := Entry(FW_TIME, id)], k);
    var n: nat :| Replaceable(c, n) && cache' == c[n := Entry(FW_TIME, next)];
    assert c[j] == Entry(FW_TIME - k, id);
    if j == |cache| - 1 && forall i | 0 <= i < j :: cache[i].timer == FW_TIME {
      assert Replaceable(c, j);
      OnlyOneReplaceable(c, n, j);
    } else {
      var i: nat :| i < |cache| && i != j && (i > j || cache[i].timer < FW_TIME);
      NotReplaceable(c, j, i);
      assert cache'[j] == c[j];
    }
  }
}
