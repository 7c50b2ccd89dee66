/**
 The round-trip estimator. On a signed char and bytes it is Jacobson's: the mean moves an eighth of the way to the
 sample and the deviation a quarter of the way to the distance, as long as the numbers fit.
 */
module TcpRtt {
  import opened Words
  import opened SeqNum
  import opened Tcp
  import opened TcpInvariants
  import N = TcpNotices

  /** The time measured: how far the timer ran down since it was last set. */
  function Sample(c: Conn): int { c.rto as int - c.timer as int }

  function Distance(a: int, b: int): nat { if a < b then b - a else a - b }

  /** Eight times the mean, and the mean itself. */
  function ScaledMean(sa: u8, sample: int): int { sa as int - (sa / 8) as int + sample }

  function Deviation(sa: u8, sv: u8, sample: int): int {
    sv as int - (sv / 4) as int + Distance(sample, (sa / 8) as int)
  }

  /** Nothing wraps. */
  predicate Fits(sa: u8, sv: u8, sample: int) {
    && 0 <= sample <= 127 && ScaledMean(sa, sample) <= 255 && Distance(sample, (sa / 8) as int) <= 127
    && ScaledMean(sa, sample) / 8 + Deviation(sa, sv, sample) <= 255
  }

  /** The estimator in the form of Jacobson's paper, and the timeout it sets. */
  lemma Jacobson(c: Conn)
    requires Fits(c.sa, c.sv, Sample(c))
    ensures var c' := RttUpdate(c);
            && c'.sa as int == ScaledMean(c.sa, Sample(c)) && c'.sv as int == Deviation(c.sa, c.sv, Sample(c))
            && c'.rto as int == c'.sa as int / 8 + c'.sv as int
            && c' == c.(sa := c'.sa, sv := c'.sv, rto := c'.rto)
  {
    hide Signed8, Wrap8;
    var mean := (c.sa / 8) as int;
    SignedFits(Sample(c));
    SignedFits(Sample(c) - mean);
    SignedFits(mean - Sample(c));
    SignedFits(Distance(Sample(c), mean) - (c.sv / 4) as int);
    ByteFits(ScaledMean(c.sa, Sample(c)));
    ByteFits(Deviation(c.sa, c.sv, Sample(c)));
    ByteFits(ScaledMean(c.sa, Sample(c)) / 8 + Deviation(c.sa, c.sv, Sample(c)));
  }

  lemma SignedFits(x: int)
    requires -128 <= x <= 127
    ensures Signed8(x) == x
  {
  }

  lemma ByteFits(x: int)
    requires 0 <= x <= 255
    ensures Wrap8(x) == x
  {
  }

  /**
    The mean moves towards the sample and never beyond it; where they agree it stays, and the timeout shrinks to it.
   */
  lemma MovesTowardsSample(sa: u8, sv: u8, sample: int)
    requires Fits(sa, sv, sample)
    ensures var mean, mean' := (sa / 8) as int, ScaledMean(sa, sample) / 8;
            && (mean <= sample ==> mean <= mean' <= sample) && (sample <= mean ==> sample <= mean' <= mean)
            && (mean == sample ==> ScaledMean(sa, sample) == sa as int && Deviation(sa, sv, sample) <= sv as int)
  {
  }

  /** The slot after `n` more measurements that all give `sample`. */
  function Measured(c: Conn, sample: u8, n: nat): Conn
    decreases n
  {
    if n == 0 then c
    else Measured(RttUpdate(c.(timer := if c.rto >= sample then c.rto - sample else 0)), sample, n - 1)
  }

  /** With a steady round-trip time that the mean has reached, the timeout settles within three ticks above it. */
  lemma {:induction false} Settles(c: Conn, sample: u8, n: nat)
    requires c.sa / 8 == sample && c.rto >= sample && sample as int + c.sv as int <= 255 && n + 3 >= c.sv as int
    ensures var c' := Measured(c, sample, n); c'.sa == c.sa && c'.sv <= 3 && (n > 0 ==> c'.rto == sample + c'.sv)
    decreases n
  {
    hide RttUpdate;
    if n > 0 {
      var t := c.(timer := c.rto - sample);
      Jacobson(t);
      var c1 := RttUpdate(t);
      Settles(c1, sample, n - 1);
    }
  }

  /** The handshake of an accepted connection measures at most three ticks and sets the timeout three above them. */
  lemma FirstMeasurement(c: Conn, iss: Bytes4, seg: Segment, timer: u8)
    requires timer <= 3
    ensures var a := Accept(c, iss, seg).(timer := timer); Acked(a).rto == Acked(a).timer == 6 - timer
  {
    hide Plus, RttUpdate;
    Jacobson(Accept(c, iss, seg).(timer := timer));
  }

  /** What was sent more than once is not measured, by Karn's rule; the timeout stays and runs again. */
  lemma RetransmittedIsNotMeasured(c: Conn)
    requires c.nrtx > 0
    ensures var c' := Acked(c); c'.sa == c.sa && c'.sv == c.sv && c'.rto == c'.timer == c.rto && c'.len == 0
  {
    hide Plus;
  }

  /**
    The SYN of an opened connection goes out as a retransmission; its first data, measured, sets the timeout twelve
    above.
   */
  lemma FirstMeasurementOpened(c: Conn, iss: Bytes4, lport: u16, ripaddr: u32, rport: u16, timer: u8)
    requires timer <= 3
    ensures var o := Acked(Opened(c, iss, lport, ripaddr, rport).(nrtx := 1));
            var c' := Acked(o.(state := ESTABLISHED, nrtx := 0, len := 1, timer := timer));
            o.timer == 3 && c'.rto == c'.timer == 15 - timer
  {
    hide Plus, RttUpdate;
    RetransmittedIsNotMeasured(Opened(c, iss, lport, ripaddr, rport).(nrtx := 1));
    Jacobson(Acked(Opened(c, iss, lport, ripaddr, rport).(nrtx := 1)).(state := ESTABLISHED, nrtx := 0, len := 1,
        timer := timer));
  }

  // ----- at every segment

  lemma AppSendTimes(host: u32, c: Conn, told: Told, slen: u16, reply: Reply)
    ensures SameTimes(c, AppSend(host, c, told, slen, reply).c)
    ensures AppSend(host, c, told, slen, reply).c.state == TIME_WAIT ==> c.state == TIME_WAIT
  {
  }

  predicate SameTimes(a: Conn, b: Conn) { a.timer == b.timer && a.rto == b.rto && a.sa == b.sa && a.sv == b.sv }

  /**
    What a segment does to the clock of a connection: one that acknowledges what is outstanding measures it, if it was
    sent once, and starts the timer at the timeout; any other leaves the clock alone; and a wait in TIME_WAIT begins at
    0.
   */
  lemma ClockAtSegment(host: u32, c: Conn, slen: u16, seg: Segment, reply: Reply)
    requires ConnInv(c) && c.state != CLOSED
    ensures var c' := Found(host, c, slen, seg, reply).c;
            var measured := if c.nrtx == 0 then RttUpdate(c) else c;
            if c'.state == TIME_WAIT && c.state != TIME_WAIT then c'.timer == 0
            else if N.Clears(c, seg) then
              c'.timer == c'.rto == measured.rto && c'.sa == measured.sa && c'.sv == measured.sv
            else SameTimes(c, c')
  {
    hide Plus, RttUpdate, ByState, Acked;
    AckedKeeps(c);
    AckedTimes(c);
    var ackd := Acknowledges(c, seg);
    ByStateTimes(host, if ackd then Acked(c) else c, ackd, slen, seg, reply);
  }

  lemma AckedTimes(c: Conn)
    ensures var measured := if c.nrtx == 0 then RttUpdate(c) else c;
            Acked(c).timer == Acked(c).rto == measured.rto && Acked(c).sa == measured.sa && Acked(c).sv == measured.sv
  {
    hide Plus, RttUpdate;
  }

  /** The clock stays as it is, but for a wait that begins. */
  predicate ClockStays(c: Conn, c': Conn) {
    if c'.state == TIME_WAIT && c.state != TIME_WAIT then c'.timer == 0 else SameTimes(c, c')
  }

  lemma ByStateTimes(host: u32, c: Conn, ackd: bool, slen: u16, seg: Segment, reply: Reply)
    ensures ClockStays(c, ByState(host, c, ackd, slen, seg, reply).c)
  {
    hide InEstablished, InSynRcvd, InSynSent, Plus, Emit;
    OpeningTimes(host, c, ackd, slen, seg, reply);
    if c.state == ESTABLISHED {
      EstablishedTimes(host, c, ackd, slen, seg, reply);
    }
  }

  lemma OpeningTimes(host: u32, c: Conn, ackd: bool, slen: u16, seg: Segment, reply: Reply)
    ensures ClockStays(c, InSynRcvd(host, c, ackd, slen, seg, reply).c)
    ensures ClockStays(c, InSynSent(host, c, ackd, slen, seg, reply).c)
  {
    hide Plus, AppSend;
    var c1 := c.In(ESTABLISHED).(len := 0).Received(|seg.payload|);
    AppSendTimes(host, c1, Told(NO_EVENT.(connected := true, newdata := |seg.payload| > 0), AtAppdata(seg)), 0, reply);
    var c2 := WithMss(c, seg.mss).In(ESTABLISHED).(rcvNxt := Plus(seg.seqno, 1), len := 0);
    AppSendTimes(host, c2, Told(NO_EVENT.(connected := true, newdata := true), []), 0, reply);
  }

  lemma EstablishedTimes(host: u32, c: Conn, ackd: bool, slen: u16, seg: Segment, reply: Reply)
    requires c.state == ESTABLISHED
    ensures ClockStays(c, InEstablished(host, c, ackd, slen, seg, reply).c)
  {
    hide Plus, AppSend, Window, Data, DataLength;
    var isNew := DataLength(seg) > 0 && !c.stopped;
    var c' := (if isNew then c.Received(DataLength(seg)) else c).(mss := Window(c, seg.wnd));
    AppSendTimes(host, c', Told(NO_EVENT.(ackdata := ackd, newdata := isNew), Data(seg)), 0, reply);
  }
}
