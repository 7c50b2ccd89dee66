/** The read side of protosockets (psock.c): a fixed buffer filled from a byte stream that arrives in segments. */
module Psock {
  import opened Words

  const BUF_NOT_FULL := 0
  const BUF_NOT_FOUND := 0
  const BUF_FULL := 1
  const BUF_FOUND := 2

  /** How one read ended: it completed, the thread waits for more data, or it restarts. */
  datatype Outcome = Done | Blocked | Restarted

  /** The stream a list of segments carries. */
  function Stream(segments: seq<seq<u8>>): seq<u8> {
    if segments == [] then [] else segments[0] + Stream(segments[1..])
  }

  lemma StreamUnfolds(segments: seq<seq<u8>>)
    ensures Stream(segments) == if segments == [] then [] else segments[0] + Stream(segments[1..])
  {
  }

  /** What a buffer with room for `size` bytes keeps of `s`. */
  function Kept(s: seq<u8>, size: nat): seq<u8> {
    if |s| <= size then s else s[..size]
  }

  lemma KeptIs(s: seq<u8>, size: nat, k: seq<u8>)
    requires k <= s && |k| <= size && (k == s || |k| == size)
    ensures Kept(s, size) == k
  {
  }

  lemma KeptConcat(a: seq<u8>, b: seq<u8>, size: nat)
    ensures |Kept(a, size)| <= size
    ensures Kept(a, size) + Kept(b, size - |Kept(a, size)|) == Kept(a + b, size)
  {
  }

  /** The part a marker-terminated read takes: up to and including the first marker, or everything. */
  function Taken(s: seq<u8>, marker: u8): seq<u8> {
    if s == [] then [] else if s[0] == marker then [marker] else [s[0]] + Taken(s[1..], marker)
  }

  function Rest(s: seq<u8>, marker: u8): seq<u8> {
    if s == [] then [] else if s[0] == marker then s[1..] else Rest(s[1..], marker)
  }

  /** A stream is its taken part and the rest; the taken part holds the marker only as its last byte. */
  lemma {:induction false} TakenThenRest(s: seq<u8>, marker: u8)
    ensures s == Taken(s, marker) + Rest(s, marker)
    ensures marker !in s ==> Taken(s, marker) == s && Rest(s, marker) == []
    ensures marker in s ==> var t := Taken(s, marker); t != [] && t[|t| - 1] == marker && marker !in t[..|t| - 1]
  {
    if s != [] && s[0] != marker {
      TakenThenRest(s[1..], marker);
      assert s == [s[0]] + s[1..];
      var t, t' := Taken(s, marker), Taken(s[1..], marker);
      if marker in s {
        assert t[..|t| - 1] == [s[0]] + t'[..|t'| - 1];
      }
    }
  }

  /** Reading across a segment boundary: what the first part holds, then whatever the rest says. */
  lemma {:induction false} TakenConcat(a: seq<u8>, b: seq<u8>, marker: u8)
    ensures marker in a ==> Taken(a + b, marker) == Taken(a, marker) && Rest(a + b, marker) == Rest(a, marker) + b
    ensures marker !in a ==> Taken(a + b, marker) == a + Taken(b, marker) && Rest(a + b, marker) == Rest(b, marker)
  {
    if a == [] {
      assert a + b == b;
    } else {
      assert (a + b)[1..] == a[1..] + b;
      if a[0] != marker {
        TakenConcat(a[1..], b, marker);
        assert a == [a[0]] + a[1..];
      }
    }
  }

  /** A part free of markers but for its last byte is what a read takes. */
  lemma TakenStops(s: seq<u8>, before: seq<u8>, marker: u8, after: seq<u8>)
    requires marker !in before && s == before + [marker] + after
    ensures marker in s && Taken(s, marker) == before + [marker] && Rest(s, marker) == after
  {
    assert s == before + ([marker] + after);
    TakenConcat(before, [marker] + after, marker);
  }

  lemma Regroup(a: seq<u8>, b: seq<u8>, c: seq<u8>, d: seq<u8>)
    ensures a + ((b + c) + d) == (a + b) + (c + d)
  {
  }

  class Psock {
    const buffer: array<u8>
    var ptr: nat
    var left: nat
    var unread: seq<u8>   // readptr and readlen: what is left of the current segment

    ghost predicate Valid()
      reads this
    {
      ptr + left == buffer.Length
    }

    /** psock_datalen */
    function DataLen(): int
      reads this
    {
      buffer.Length - left
    }

    ghost function Stored(): (s: seq<u8>)
      requires Valid()
      reads this, buffer
      ensures |s| == ptr
    {
      buffer[..ptr]
    }

    constructor (bufsize: nat)
      ensures Valid() && fresh(buffer) && buffer.Length == bufsize && Stored() == [] && unread == []
    {
      buffer := new u8[bufsize];
      ptr, left, unread := 0, bufsize, [];
    }

    /** buf_setup */
    method Setup()
      modifies this`ptr, this`left
      ensures Valid() && Stored() == []
    {
      ptr, left := 0, buffer.Length;
    }

    method Put(c: u8)
      requires Valid() && left > 0
      modifies this`ptr, this`left, buffer
      ensures Valid() && Stored() == old(Stored()) + [c] && left == old(left) - 1
    {
      buffer[ptr] := c;
      ptr := ptr + 1;
      left := left - 1;
      assert buffer[..ptr] == old(buffer[..ptr]) + [c];
    }

    /** The second loop of buf_bufto: the buffer is full, so bytes are dropped up to and including the marker. */
    method SkipTo(marker: u8) returns (found: bool)
      modifies this`unread
      ensures found == (marker in old(unread)) && unread == Rest(old(unread), marker)
    {
      hide Taken, Rest;
      ghost var data, skipped := unread, [];
      TakenThenRest(data, marker);
      while |unread| > 0
        invariant data == skipped + unread && marker !in skipped
        decreases |unread|
      {
        var c := unread[0];
        assert unread == [c] + unread[1..];
        unread := unread[1..];
        if c == marker {
          TakenStops(data, skipped, marker, unread);
          return true;
        }
        skipped := skipped + [c];
      }
      assert data == skipped;
      return false;
    }

    /** The first loop of buf_bufto: bytes are stored while there is room, up to and including the marker. */
    method StoreTo(marker: u8) returns (found: bool, ghost taken: seq<u8>)
      requires Valid()
      modifies this, buffer
      ensures Valid() && Stored() == old(Stored()) + taken && left == old(left) - |taken|
      ensures old(unread) == taken + unread
      ensures found ==> marker in old(unread) && taken == Taken(old(unread), marker)
                        && unread == Rest(old(unread), marker)
      ensures !found ==> marker !in taken && (left == 0 || unread == [])
    {
      hide Taken, Rest;
      ghost var data := unread;
      taken, found := [], false;
      while left > 0 && |unread| > 0
        invariant Valid() && data == taken + unread && left == old(left) - |taken|
        invariant Stored() == old(Stored()) + taken && marker !in taken
        decreases left
      {
        var c := unread[0];
        ghost var before := taken;
        Regroup(before, [c], unread[1..], []);
        unread := unread[1..];
        Put(c);
        taken := taken + [c];
        if c == marker {
          TakenStops(data, before, marker, unread);
          found := true;
          return;
        }
      }
    }

    /** buf_bufto: store up to the marker while there is room, then discard up to the marker. */
    method BufTo(marker: u8) returns (r: nat)
      requires Valid()
      modifies this, buffer
      ensures Valid()
      ensures Stored() == old(Stored()) + Kept(Taken(old(unread), marker), old(left))
      ensures unread == Rest(old(unread), marker)
      ensures r == (if marker in old(unread) then BUF_FOUND else BUF_NOT_FOUND)
                 + (if |Taken(old(unread), marker)| > old(left) then BUF_FULL else BUF_NOT_FULL)
    {
      hide Taken, Rest, Kept;
      ghost var data := unread;
      TakenThenRest(data, marker);
      ghost var taken;
      var found;
      found, taken := StoreTo(marker);
      if found {
        KeptIs(taken, old(left), taken);
        return BUF_FOUND;
      }
      TakenConcat(taken, unread, marker);
      TakenThenRest(unread, marker);
      KeptIs(Taken(data, marker), old(left), taken);
      if |unread| == 0 {
        return BUF_NOT_FOUND;
      }
      found := SkipTo(marker);
      return if found then BUF_FOUND + BUF_FULL else BUF_FULL;
    }

    /** buf_bufdata: copy as much of the segment as fits. */
    method BufData() returns (r: nat)
      requires Valid()
      modifies this, buffer
      ensures Valid()
      ensures Stored() == old(Stored()) + Kept(old(unread), old(left))
      ensures old(unread) == Kept(old(unread), old(left)) + unread
      ensures if left == 0 then r == BUF_FULL else r == BUF_NOT_FULL && unread == []
    {
      var n := if |unread| < left then |unread| else left;
      ghost var was := Stored();
      var from := ptr;
      forall i | 0 <= i < n {
        buffer[from + i] := unread[i];
      }
      assert buffer[..from + n] == was + unread[..n];
      ptr := ptr + n;
      if |unread| < left {
        left := left - n;
        unread := [];
        return BUF_NOT_FULL;
      } else {
        left := 0;
        unread := unread[n..];
        return BUF_FULL;
      }
    }

    /**
      psock_readto, run over the segments that arrive: whatever way the stream is cut into segments, the buffer keeps
      the bytes up to the first marker (as many as fit) and what stays unread is exactly what follows the marker.
     */
    method ReadTo(marker: u8, segments: seq<seq<u8>>) returns (outcome: Outcome, rest: seq<seq<u8>>)
      requires Valid()
      modifies this, buffer
      ensures Valid()
      ensures var stream := old(unread) + Stream(segments);
              && Stored() == Kept(Taken(stream, marker), buffer.Length)
              && unread + Stream(rest) == Rest(stream, marker)
              && (outcome == Blocked <==> marker !in stream)
              && (outcome == Restarted <==> marker in stream && buffer.Length == 0)
    {
      hide Taken, Rest, Stream, Kept;
      Setup();
      rest := segments;
      ghost var stream, taken := unread + Stream(segments), [];
      KeptIs([], buffer.Length, []);
      while true
        invariant Valid() && stream == taken + (unread + Stream(rest))
        invariant Stored() == Kept(taken, buffer.Length) && marker !in taken
        decreases |rest|, |unread|
      {
        if |unread| == 0 {
          StreamUnfolds(rest);
          if rest == [] {
            assert stream == taken;
            TakenThenRest(stream, marker);
            return Blocked, rest;
          }
          unread := rest[0];
          rest := rest[1..];
        }
        ghost var segment := unread;
        assert stream == taken + (segment + Stream(rest));
        ReadPart(taken, segment, Stream(rest), marker, buffer.Length);
        var r := BufTo(marker);
        if r >= BUF_FOUND {
          outcome := if DataLen() == 0 then Restarted else Done;
          return;
        }
        taken := taken + segment;
      }
    }

    /** psock_readbuf, run over the segments that arrive: fills exactly the buffer, whatever way the stream is cut. */
    method ReadBuf(segments: seq<seq<u8>>) returns (outcome: Outcome, rest: seq<seq<u8>>)
      requires Valid()
      modifies this, buffer
      ensures Valid()
      ensures var stream := old(unread) + Stream(segments);
              && Stored() == Kept(stream, buffer.Length) && stream == Stored() + (unread + Stream(rest))
              && (outcome == Done <==> |stream| >= buffer.Length > 0)
              && (outcome == Restarted ==> buffer.Length == 0)
    {
      hide Stream, Kept;
      Setup();
      rest := segments;
      ghost var stream := unread + Stream(segments);
      while true
        invariant Valid() && stream == Stored() + (unread + Stream(rest))
        invariant buffer.Length > 0 ==> left > 0
        decreases |rest|, |unread|
      {
        if |unread| == 0 {
          StreamUnfolds(rest);
          if rest == [] {
            KeptIs(stream, buffer.Length, Stored());
            return Blocked, rest;
          }
          unread := rest[0];
          rest := rest[1..];
        }
        ghost var stored, segment, tail := Stored(), unread, Stream(rest);
        ghost var kept := Kept(segment, left);
        var r := BufData();
        Regroup(stored, kept, unread, tail);
        if r == BUF_FULL {
          KeptIs(stream, buffer.Length, Stored());
          outcome := if DataLen() == 0 then Restarted else Done;
          return;
        }
      }
    }
  }

  lemma KeptEmpty(s: seq<u8>, size: nat)
    requires s != []
    ensures |Kept(s, size)| == 0 <==> size == 0
  {
  }

  /** One segment of a stream of which `taken` was read without meeting the marker. */
  lemma ReadPart(taken: seq<u8>, segment: seq<u8>, tail: seq<u8>, marker: u8, size: nat)
    requires marker !in taken
    ensures var stream := taken + (segment + tail);
            && |Kept(taken, size)| <= size
            && (marker in stream <==> marker in segment || marker in tail)
            && (marker in segment ==>
                  && Kept(taken, size) + Kept(Taken(segment, marker), size - |Kept(taken, size)|)
                     == Kept(Taken(stream, marker), size)
                  && Rest(segment, marker) + tail == Rest(stream, marker)
                  && (|Kept(Taken(stream, marker), size)| == 0 <==> size == 0))
            && (marker !in segment ==>
                  && Kept(taken, size) + Kept(Taken(segment, marker), size - |Kept(taken, size)|)
                     == Kept(taken + segment, size)
                  && Rest(segment, marker) == [])
  {
    hide Taken, Rest, Kept;
    var stream := taken + (segment + tail);
    TakenConcat(taken, segment + tail, marker);
    TakenConcat(segment, tail, marker);
    TakenThenRest(segment, marker);
    TakenThenRest(stream, marker);
    KeptConcat(taken, Taken(segment, marker), size);
    if marker in segment {
      KeptEmpty(Taken(stream, marker), size);
    }
  }
}
