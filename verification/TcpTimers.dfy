/** Exactly how long a connection survives when nothing but the periodic timer happens to it. */
module TcpTimers {
  import opened Words
  import opened SeqNum
  import opened Tcp
  import opened TcpInvariants

  /** The slot after one timer call per reply, the replies being what the application does when it is called. */
  function Ticks(host: u32, c: Conn, replies: seq<Reply>): Conn
    decreases |replies|
  {
    if replies == [] then c else Ticks(host, Timer(host, c, replies[0]).c, replies[1..])
  }

  /** How many of those calls retransmitted. */
  function Retransmissions(host: u32, c: Conn, replies: seq<Reply>): nat
    decreases |replies|
  {
    if replies == [] then 0
    else
      var c' := Timer(host, c, replies[0]).c;
      (if c'.nrtx != c.nrtx then 1 else 0) + Retransmissions(host, c', replies[1..])
  }

  lemma {:induction false} TicksConcat(host: u32, c: Conn, a: seq<Reply>, b: seq<Reply>)
    ensures Ticks(host, c, a + b) == Ticks(host, Ticks(host, c, a), b)
    decreases |a|
  {
    hide Timer;
    if a == [] {
      assert a + b == b;
    } else {
      assert (a + b)[1..] == a[1..] + b;
      TicksConcat(host, Timer(host, c, a[0]).c, a[1..], b);
    }
  }

  // ----- outstanding data

  predicate Active(c: Conn) {
    ConnInv(c) && c.len > 0 && c.state != CLOSED
  }

  function MaxRetransmissions(st: State): u8 {
    if st == SYN_SENT || st == SYN_RCVD then UIP_MAXSYNRTX else UIP_MAXRTX
  }

  /** Ticks until the connection is given up: the running countdown, then one backoff period per retransmission left. */
  function Lifetime(timer: u8, nrtx: u8, max: u8): nat
    decreases max as int - nrtx as int
  {
    timer as int + 1 + if nrtx >= max then 0 else Lifetime(Backoff(nrtx), nrtx + 1, max)
  }

  lemma LifetimeValues(timer: u8)
    ensures Lifetime(timer, 0, UIP_MAXRTX) == timer as int + 246
    ensures Lifetime(timer, 0, UIP_MAXSYNRTX) == timer as int + 99
    ensures forall n: u8, max: u8 | n <= max && (max == UIP_MAXRTX || max == UIP_MAXSYNRTX) ::
              Lifetime(timer, n, max) <= timer as int + 246
  {
    assert Lifetime(48, 8, 8) == 49;
    assert Lifetime(48, 7, 8) == 98;
    assert Lifetime(48, 6, 8) == 147;
    assert Lifetime(48, 5, 8) == 196;
    assert Lifetime(24, 4, 8) == 221;
    assert Lifetime(12, 3, 8) == 234;
    assert Lifetime(6, 2, 8) == 241;
    assert Lifetime(3, 1, 8) == 245;
    assert Lifetime(48, 5, 5) == 49;
    assert Lifetime(24, 4, 5) == 74;
    assert Lifetime(12, 3, 5) == 87;
    assert Lifetime(6, 2, 5) == 94;
    assert Lifetime(3, 1, 5) == 98;
  }

  /** One tick of an active slot: either its last, or one tick less to live with the same state and data outstanding. */
  lemma ActiveTick(host: u32, c: Conn, reply: Reply)
    requires Active(c)
    ensures var max := MaxRetransmissions(c.state);
            var c' := Timer(host, c, reply).c;
            if c.timer == 0 && c.nrtx == max then c'.Is(CLOSED) && c'.nrtx == c.nrtx
            else
              && Active(c') && c'.state == c.state && c'.len == c.len
              && c'.nrtx == (if c.timer == 0 then c.nrtx + 1 else c.nrtx)
              && c'.timer == (if c.timer == 0 then Backoff(c.nrtx) else c.timer - 1)
              && Lifetime(c'.timer, c'.nrtx, max) == Lifetime(c.timer, c.nrtx, max) - 1
  {
    TimerKeeps(host, c, reply);
    RetransmitCounters(host, c.(timer := Backoff(c.nrtx), nrtx := Wrap8(c.nrtx as int + 1)), reply);
    hide Retransmit, AppSend, Emit, Keeps;
  }

  /** Retransmitting leaves state, length and counters alone. */
  lemma RetransmitCounters(host: u32, c: Conn, reply: Reply)
    ensures var c' := Retransmit(host, c, reply).c;
            c'.state == c.state && c'.len == c.len && c'.timer == c.timer && c'.nrtx == c.nrtx
  {
    hide AppRexmit, Emit;
  }

  lemma ClosedStays(host: u32, c: Conn, replies: seq<Reply>)
    requires c.Is(CLOSED)
    ensures Ticks(host, c, replies) == c && Retransmissions(host, c, replies) == 0
    decreases |replies|
  {
  }

  /**
    A slot with outstanding data closes at exactly its lifetime, after using up all its retransmissions, not earlier.
   */
  lemma {:induction false} ExactLifetime(host: u32, c: Conn, replies: seq<Reply>)
    requires Active(c)
    requires |replies| <= Lifetime(c.timer, c.nrtx, MaxRetransmissions(c.state))
    ensures |replies| < Lifetime(c.timer, c.nrtx, MaxRetransmissions(c.state)) ==>
              Ticks(host, c, replies).state == c.state && Ticks(host, c, replies).len == c.len
    ensures |replies| == Lifetime(c.timer, c.nrtx, MaxRetransmissions(c.state)) ==>
              Ticks(host, c, replies).Is(CLOSED) && Retransmissions(host, c, replies) ==
                  MaxRetransmissions(c.state) - c.nrtx
    decreases |replies|
  {
    hide Timer, ConnInv;
    if replies != [] {
      ActiveTick(host, c, replies[0]);
      var c' := Timer(host, c, replies[0]).c;
      if c.timer == 0 && c.nrtx == MaxRetransmissions(c.state) {
        ClosedStays(host, c', replies[1..]);
      } else {
        ExactLifetime(host, c', replies[1..]);
      }
    }
  }

  /** From the first transmission on: t + 246 ticks and 8 retransmissions, or t + 99 and 5 while opening. */
  lemma ExactTimeout(host: u32, c: Conn, replies: seq<Reply>)
    requires Active(c) && c.nrtx == 0
    ensures var opening := c.state == SYN_SENT || c.state == SYN_RCVD;
            var n := c.timer as int + if opening then 99 else 246;
            && (|replies| < n ==> Ticks(host, c, replies).state == c.state)
            && (|replies| == n ==>
                  Ticks(host, c, replies).Is(CLOSED) && Retransmissions(host, c, replies) == if opening then 5 else 8)
  {
    hide ConnInv;
    LifetimeValues(c.timer);
    var n := Lifetime(c.timer, 0, MaxRetransmissions(c.state));
    if |replies| <= n {
      ExactLifetime(host, c, replies);
    }
  }

  // ----- when each retransmission happens

  function Power2(n: nat): (r: nat)
    ensures r >= 1
  {
    if n == 0 then 1 else 2 * Power2(n - 1)
  }

  /** The tick of the (n+1)-th retransmission of what was sent when the timer stood at `timer`. */
  function RetransmittedAt(timer: nat, n: nat): nat {
    if n <= 5 then timer + 1 + 3 * (Power2(n) - 1) + n else RetransmittedAt(timer, n - 1) + 49
  }

  /** Ticks until `n` more retransmissions happened. */
  function TicksUntil(timer: u8, nrtx: u8, n: nat): nat
    requires nrtx as int + n <= UIP_MAXRTX as int
    decreases n
  {
    if n == 0 then 0 else timer as int + 1 + if n == 1 then 0 else TicksUntil(Backoff(nrtx), nrtx + 1, n - 1)
  }

  lemma {:induction false} CountsWhenDue(host: u32, c: Conn, replies: seq<Reply>, n: nat)
    requires Active(c) && 1 <= n <= MaxRetransmissions(c.state) as int - c.nrtx as int
    ensures Retransmissions(host, c, replies) >= n <==> |replies| >= TicksUntil(c.timer, c.nrtx, n)
    decreases |replies|
  {
    hide Timer, ConnInv, Backoff;
    if replies != [] {
      ActiveTick(host, c, replies[0]);
      var c' := Timer(host, c, replies[0]).c;
      if c.timer > 0 || n > 1 {
        CountsWhenDue(host, c', replies[1..], if c.timer > 0 then n else n - 1);
      }
    }
  }

  lemma TicksUntilValues(timer: u8, n: nat)
    requires 1 <= n <= 8
    ensures TicksUntil(timer, 0, n) == RetransmittedAt(timer, n - 1)
  {
    assert RetransmittedAt(timer, 3) == timer + 25 && RetransmittedAt(timer, 4) == timer + 50;
    assert RetransmittedAt(timer, 5) == timer + 99 && RetransmittedAt(timer, 6) == timer + 148;
    assert TicksUntil(48, 5, 2) == 98 && TicksUntil(48, 5, 3) == 147;
  }

  /**
    The backoff. From the first transmission on the (n+1)-th retransmission happens on exactly that tick, whatever the
    application does: the pauses double five times, from 3 to 48, and stay there.
   */
  lemma RetransmissionTimes(host: u32, c: Conn, replies: seq<Reply>, n: nat)
    requires Active(c) && c.nrtx == 0 && n < if c.state == SYN_SENT || c.state == SYN_RCVD then 5 else 8
    ensures Retransmissions(host, c, replies) > n <==> |replies| >= RetransmittedAt(c.timer as int, n)
  {
    hide ConnInv, Retransmissions, RetransmittedAt, TicksUntil;
    CountsWhenDue(host, c, replies, n + 1);
    TicksUntilValues(c.timer, n + 1);
  }

  /**
    What a tick of a slot with something outstanding sends and tells: nothing before the timer has run down; then the
    SYN, SYN|ACK or FIN once more, or the question to the application, whose data goes out again from the first
    unacknowledged byte; at the end a reset, and the application is told.
   */
  lemma TickOutcome(host: u32, c: Conn, reply: Reply)
    requires Active(c)
    ensures var r := Timer(host, c, reply);
            if r.c.Is(CLOSED) then
              r.out.Some? && r.out.value.flags.rst && r.told == Some(Told(NO_EVENT.(timedout := true), []))
            else if r.c.nrtx == c.nrtx then r.out.None? && r.told.None?
            else if c.state == ESTABLISHED then
              && r.told == Some(Told(NO_EVENT.(rexmit := true), []))
              && (reply.send.Some? && reply.send.value > 0 ==>
                    && r.out.Some? && r.out.value.flags == ACK.(psh := true) && r.out.value.seqno == c.sndNxt
                    && r.out.value.payload == reply.buf[..c.len])
            else
              && r.told.None? && r.out.Some? && r.out.value.seqno == c.sndNxt && r.out.value.payload == []
              && r.out.value.flags == match c.state
                                      case SYN_SENT => SYN
                                      case SYN_RCVD => ACK.(syn := true)
                                      case _ => ACK.(fin := true)
  {
    hide Backoff;
  }

  /** A SYN of ours goes out on the second tick, and what it opened is given up on the hundredth. */
  lemma OpenedGivesUp(host: u32, c: Conn, iss: Bytes4, lport: u16, ripaddr: u32, rport: u16, replies: seq<Reply>)
    requires ConnInv(c)
    ensures var o := Opened(c, iss, lport, ripaddr, rport);
            && (Retransmissions(host, o, replies) > 0 <==> |replies| >= 2)
            && (Ticks(host, o, replies).Is(CLOSED) <==> |replies| >= 100)
  {
    hide Ticks, Retransmissions;
    var o := Opened(c, iss, lport, ripaddr, rport);
    RetransmissionTimes(host, o, replies, 0);
    ClosesAt(host, o, replies);
  }

  /** A SYN|ACK is repeated on the fourth tick, and what it opened is given up on the 102nd. */
  lemma AcceptedGivesUp(host: u32, c: Conn, iss: Bytes4, seg: Segment, replies: seq<Reply>)
    requires ConnInv(c)
    ensures var a := Accept(c, iss, seg);
            && (Retransmissions(host, a, replies) > 0 <==> |replies| >= 4)
            && (Ticks(host, a, replies).Is(CLOSED) <==> |replies| >= 102)
  {
    hide Ticks, Retransmissions, Plus;
    var a := Accept(c, iss, seg);
    RetransmissionTimes(host, a, replies, 0);
    ClosesAt(host, a, replies);
  }

  lemma ClosesAt(host: u32, c: Conn, replies: seq<Reply>)
    requires Active(c) && c.nrtx == 0
    ensures var n := c.timer as int + if c.state == SYN_SENT || c.state == SYN_RCVD then 99 else 246;
            Ticks(host, c, replies).Is(CLOSED) <==> |replies| >= n
  {
    hide Ticks, Retransmissions, ConnInv;
    var n := c.timer as int + if c.state == SYN_SENT || c.state == SYN_RCVD then 99 else 246;
    if |replies| <= n {
      ExactTimeout(host, c, replies);
    } else {
      ExactTimeout(host, c, replies[..n]);
      assert replies == replies[..n] + replies[n..];
      TicksConcat(host, c, replies[..n], replies[n..]);
      ClosedStays(host, Ticks(host, c, replies[..n]), replies[n..]);
    }
  }

  // ----- waiting states

  predicate Waiting(c: Conn) { c.Is(TIME_WAIT) || c.Is(FIN_WAIT_2) }

  /** Ticks until a byte counting up from `timer` next equals the timeout. */
  function WaitTicks(timer: u8): nat {
    if timer < UIP_TIME_WAIT_TIMEOUT then (UIP_TIME_WAIT_TIMEOUT - timer) as int else 376 - timer as int
  }

  /** A waiting slot closes at exactly that tick: 120 ticks from timer 0, never more than 256. */
  lemma {:induction false} ExactWait(host: u32, c: Conn, replies: seq<Reply>)
    requires Waiting(c) && |replies| <= WaitTicks(c.timer)
    ensures |replies| < WaitTicks(c.timer) ==> Ticks(host, c, replies).state == c.state
    ensures |replies| == WaitTicks(c.timer) ==> Ticks(host, c, replies).Is(CLOSED)
    ensures WaitTicks(0) == 120 && WaitTicks(c.timer) <= 256
    decreases |replies|
  {
    if replies != [] {
      var c' := Timer(host, c, replies[0]).c;
      if c'.Is(CLOSED) {
        ClosedStays(host, c', replies[1..]);
      } else {
        assert c' == c.(timer := Wrap8(c.timer as int + 1));
        ExactWait(host, c', replies[1..]);
      }
    }
  }

  /** Every segment that brings a slot into TIME_WAIT starts its wait at 0, and none that arrives later prolongs it. */
  lemma TimeWaitStartsAtZero(host: u32, c: Conn, slen: u16, seg: Segment, reply: Reply)
    requires ConnInv(c) && !c.Is(CLOSED)
    ensures var c' := Found(host, c, slen, seg, reply).c;
            if c.state == TIME_WAIT then c' == c || c'.Is(CLOSED) else c'.state == TIME_WAIT ==> c'.timer == 0
  {
    hide Acked, Plus, AppSend;
    AckedKeeps(c);
    if c.state == ESTABLISHED || c.state == SYN_RCVD || c.state == SYN_SENT {
      hide Found;
      FoundKeeps(host, c, slen, seg, reply);
    }
  }

  // ----- silence

  /** The application has nothing to send and nothing to close. */
  predicate Quiet(reply: Reply) {
    (reply.send.None? || reply.send.value == 0) && reply.action == Continue
  }

  predicate IdleEstablished(c: Conn) { c.state == ESTABLISHED && c.len == 0 }

  lemma {:induction false} IdleStays(host: u32, c: Conn, replies: seq<Reply>)
    requires IdleEstablished(c) && forall i | 0 <= i < |replies| :: Quiet(replies[i])
    ensures IdleEstablished(Ticks(host, c, replies))
    decreases |replies|
  {
    if replies != [] {
      assert Quiet(replies[0]);
      IdleStays(host, Timer(host, c, replies[0]).c, replies[1..]);
    }
  }

  /** After 501 ticks of silence a slot is CLOSED or idle in ESTABLISHED. */
  lemma SilenceLeavesIdle(host: u32, c: Conn, replies: seq<Reply>)
    requires ConnInv(c) && |replies| >= 501
    requires forall i | 0 <= i < |replies| :: Quiet(replies[i])
    ensures var c' := Ticks(host, c, replies); c'.Is(CLOSED) || IdleEstablished(c')
  {
    hide Ticks, Lifetime, WaitTicks, ConnInv, Quiet;
    StateCases(c);
    if c.Is(CLOSED) {
      ClosedStays(host, c, replies);
    } else if IdleEstablished(c) {
      IdleStays(host, c, replies);
    } else {
      var n := if Waiting(c) then WaitTicks(c.timer) else Lifetime(c.timer, c.nrtx, MaxRetransmissions(c.state));
      if Waiting(c) {
        ExactWait(host, c, []);
        ExactWait(host, c, replies[..n]);
      } else {
        LifetimeBound(c);
        ExactLifetime(host, c, replies[..n]);
      }
      assert replies == replies[..n] + replies[n..];
      TicksConcat(host, c, replies[..n], replies[n..]);
      ClosedStays(host, Ticks(host, c, replies[..n]), replies[n..]);
    }
  }

  lemma StateCases(c: Conn)
    requires ConnInv(c)
    ensures c.Is(CLOSED) || IdleEstablished(c) || Waiting(c) || Active(c)
  {
  }

  lemma LifetimeBound(c: Conn)
    requires ConnInv(c)
    ensures Lifetime(c.timer, c.nrtx, MaxRetransmissions(c.state)) <= 501
  {
    LifetimeValues(c.timer);
  }
}
