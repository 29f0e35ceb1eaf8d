/** The multicast tester (`MulticastTesterGUI`): input validation, the probe
    payload of the extended test, the receiver thread's tally loop, the send
    loop, and the loss and quality summary.  Socket outcomes, the stamps
    that encode send times and the measured latencies are parameters. */
module Tester {
  import opened Wrappers
  import opened Pcm

  function Min(a: int, b: int): int { if a <= b then a else b }
  function Max(a: int, b: int): int { if a >= b then a else b }

  /** `validate_inputs` on the parsed field values; `None` stands for a field
      that `int()` or `float()` rejects with ValueError. */
  function ValidateInputs(group: string, port: Option<int>, timeout: Option<real>): (ok: bool)
    ensures ok <==> && port.Some? && timeout.Some?
                    && |group| >= 4 && group[..4] == "224."
                    && 1024 <= port.value <= 65535
  {
    match (port, timeout)
    case (Some(p), Some(_)) => "224." <= group && 1024 <= p <= 65535
    case _ => false
  }

  /** The tester's start-up values (group 224.1.1.1, port 5007, timeout 3)
      pass; the ends of the port range are inclusive. */
  lemma DefaultInputsValid()
    ensures ValidateInputs("224.1.1.1", Some(5007), Some(3.0))
    ensures ValidateInputs("224.0.0.1", Some(1024), Some(0.5)) && ValidateInputs("224.0.0.1", Some(65535), Some(0.5))
    ensures !ValidateInputs("224.0.0.1", Some(1023), Some(0.5)) && !ValidateInputs("239.1.1.1", Some(5007), Some(3.0))
  {
    assert "239.1.1.1"[1] != "224."[1];
  }

  const Filler: Byte := 88  // b'X'

  /** The 8 bytes of `struct.pack('d', send_time)`. */
  type Stamp = s: Bytes | |s| == 8 witness [0, 0, 0, 0, 0, 0, 0, 0]

  /** `timestamp_data + b'X' * (packet_size - 8)`; a repeat count below zero
      gives no filler. */
  function ProbePayload(stamp: Stamp, packetSize: int): (p: Bytes)
    ensures |p| == Max(packetSize, 8)
    ensures p[..8] == stamp
    ensures forall k :: 8 <= k < |p| ==> p[k] == Filler
  {
    stamp + seq(Max(packetSize - 8, 0), _ => Filler)
  }

  /** What one `recvfrom` of the receiver thread produced. */
  datatype Arrival =
    | Packet(length: nat, latency: real)  // a datagram; `latency` is its measured delay in ms
    | RecvTimeout
    | RecvFailure

  /** The measured delays of the datagrams long enough to hold a stamp, in
      arrival order. */
  function Latencies(arrivals: seq<Arrival>): (r: seq<real>)
    ensures |r| <= |arrivals|
  {
    if arrivals == [] then []
    else
      var last := arrivals[|arrivals| - 1];
      Latencies(arrivals[..|arrivals| - 1])
        + (if last.Packet? && last.length >= 8 then [last.latency] else [])
  }

  /** Reading one more arrival adds its delay when it is counted. */
  lemma LatenciesSnoc(arrivals: seq<Arrival>, i: nat)
    requires i < |arrivals|
    ensures Latencies(arrivals[..i + 1]) == Latencies(arrivals[..i])
      + (if arrivals[i].Packet? && arrivals[i].length >= 8 then [arrivals[i].latency] else [])
  {
    assert arrivals[..i + 1][..i] == arrivals[..i];
  }

  lemma {:induction false} LatenciesPrefix(arrivals: seq<Arrival>, i: nat)
    requires i <= |arrivals|
    ensures Latencies(arrivals[..i]) <= Latencies(arrivals)
    decreases |arrivals| - i
  {
    if i < |arrivals| {
      LatenciesPrefix(arrivals, i + 1);
      LatenciesSnoc(arrivals, i);
    } else {
      assert arrivals[..i] == arrivals;
    }
  }

  function Sum(s: seq<real>): real {
    if s == [] then 0.0 else Sum(s[..|s| - 1]) + s[|s| - 1]
  }

  /** The receiver thread's counters: `received_count`, `total_latency`,
      `min_latency` (None stands for its start value `float('inf')`) and
      `max_latency`. */
  datatype Tally = Tally(received: nat, totalLatency: real, minLatency: Option<real>, maxLatency: real)

  /** `t` holds the count, the sum, the minimum and the maximum (never
      below its start value 0) of the delays `counted`. */
  predicate Describes(t: Tally, counted: seq<real>) {
    && t.received == |counted|
    && t.totalLatency == Sum(counted)
    && (t.minLatency == None <==> counted == [])
    && (t.minLatency.Some? ==> t.minLatency.value in counted
                               && forall k :: 0 <= k < |counted| ==> t.minLatency.value <= counted[k])
    && t.maxLatency >= 0.0
    && (forall k :: 0 <= k < |counted| ==> counted[k] <= t.maxLatency)
    && (t.maxLatency == 0.0 || t.maxLatency in counted)
  }

  /** The update of the four counters for one counted datagram: one more
      datagram, its delay added to the sum, a new minimum when it is below
      the current one (or there is none yet), a new maximum when above. */
  function Count(t: Tally, latency: real): (u: Tally)
    ensures u.received == t.received + 1 && u.minLatency.Some?
    ensures u.minLatency.value <= latency <= u.maxLatency
    ensures t.minLatency.Some? ==> u.minLatency.value <= t.minLatency.value
    ensures t.maxLatency <= u.maxLatency
  {
    Tally(t.received + 1, t.totalLatency + latency,
          Some(if t.minLatency.None? || latency < t.minLatency.value then latency else t.minLatency.value),
          if latency > t.maxLatency then latency else t.maxLatency)
  }

  /** Counting one more delay keeps the counters describing the counted
      delays. */
  lemma CountDelay(t: Tally, counted: seq<real>, latency: real)
    requires Describes(t, counted)
    ensures Describes(Count(t, latency), counted + [latency])
  {
    assert (counted + [latency])[..|counted|] == counted;
  }

  /** The counters after counting the delays `counted` one by one from
      their start values (0, 0, +inf, 0). */
  function TallyOf(counted: seq<real>): (t: Tally)
    ensures t.received == |counted|
  {
    if counted == [] then Tally(0, 0.0, None, 0.0)
    else Count(TallyOf(counted[..|counted| - 1]), counted[|counted| - 1])
  }

  /** The counters describe the delays they counted: count, sum, minimum
      and maximum. */
  lemma {:induction false} TallyOfDescribes(counted: seq<real>)
    ensures Describes(TallyOf(counted), counted)
  {
    if counted != [] {
      var init, last := counted[..|counted| - 1], counted[|counted| - 1];
      TallyOfDescribes(init);
      CountDelay(TallyOf(init), init, last);
      assert init + [last] == counted;
    }
  }

  /** One pass of the tally loop over `arrivals[i]`: a counted datagram
      updates the counters, any other arrival leaves them. */
  lemma TallyStep(arrivals: seq<Arrival>, i: nat)
    requires i < |arrivals|
    ensures arrivals[i].Packet? && arrivals[i].length >= 8 ==>
      TallyOf(Latencies(arrivals[..i + 1])) == Count(TallyOf(Latencies(arrivals[..i])), arrivals[i].latency)
    ensures !(arrivals[i].Packet? && arrivals[i].length >= 8) ==>
      TallyOf(Latencies(arrivals[..i + 1])) == TallyOf(Latencies(arrivals[..i]))
  {
    LatenciesSnoc(arrivals, i);
    var before := Latencies(arrivals[..i]);
    if arrivals[i].Packet? && arrivals[i].length >= 8 {
      assert (before + [arrivals[i].latency])[..|before|] == before;
    } else {
      assert Latencies(arrivals[..i + 1]) == before;
    }
  }

  /** The receiver thread's loop: it counts datagrams of at least 8 bytes
      until `packet_count` of them were counted or the arrivals end, keeping
      the sum, the running minimum and the running maximum (which starts at
      0) of their delays. */
  method ReceiveProbes(arrivals: seq<Arrival>, packetCount: int) returns (t: Tally)
    ensures t.received == Min(|Latencies(arrivals)|, Max(packetCount, 0))
    ensures t == TallyOf(Latencies(arrivals)[..t.received])
    ensures Describes(t, Latencies(arrivals)[..t.received])
  {
    var receivedCount: nat := 0;
    var totalLatency := 0.0;
    var minLatency: Option<real> := None;
    var maxLatency := 0.0;
    var i := 0;
    while i < |arrivals| && receivedCount < packetCount
      invariant 0 <= i <= |arrivals|
      invariant receivedCount <= Max(packetCount, 0)
      invariant Tally(receivedCount, totalLatency, minLatency, maxLatency) == TallyOf(Latencies(arrivals[..i]))
    {
      TallyStep(arrivals, i);
      var arrival := arrivals[i];
      if arrival.Packet? && arrival.length >= 8 {
        var latency := arrival.latency;
        receivedCount := receivedCount + 1;
        totalLatency := totalLatency + latency;
        minLatency := Some(if minLatency.None? || latency < minLatency.value then latency else minLatency.value);
        maxLatency := if latency > maxLatency then latency else maxLatency;
      }
      i := i + 1;
    }
    TallyOfDescribes(Latencies(arrivals[..i]));
    CountedPrefix(arrivals, i, packetCount, Latencies(arrivals[..i]));
    t := Tally(receivedCount, totalLatency, minLatency, maxLatency);
  }

  /** Where the tally loop stops, the delays it counted are the first
      `min(|Latencies|, max(packet_count, 0))` of all counted delays. */
  lemma CountedPrefix(arrivals: seq<Arrival>, i: nat, packetCount: int, counted: seq<real>)
    requires i <= |arrivals| && counted == Latencies(arrivals[..i])
    requires |counted| <= Max(packetCount, 0)
    requires i == |arrivals| || |counted| >= packetCount
    ensures |counted| == Min(|Latencies(arrivals)|, Max(packetCount, 0))
    ensures counted == Latencies(arrivals)[..|counted|]
  {
    LatenciesPrefix(arrivals, i);
    if i == |arrivals| {
      assert arrivals[..i] == arrivals;
    }
  }

  /** One pass of the send loop: the stamp that `struct.pack` produced and
      whether `sendto` succeeded. */
  datatype SendAttempt = SendAttempt(stamp: Stamp, ok: bool)

  function CountFailed(attempts: seq<SendAttempt>): (n: nat)
    ensures n <= |attempts|
  {
    if attempts == [] then 0
    else CountFailed(attempts[..|attempts| - 1]) + (if attempts[|attempts| - 1].ok then 0 else 1)
  }

  /** The send loop `for i in range(packet_count)`: one probe per pass, a
      failed `sendto` adding one to `lost_count`.  `attempts` lists the passes
      made before the test was stopped, so the loop runs for the shorter of
      it and `packet_count`.  Returns the datagrams handed to `sendto` and
      the number of failed sends. */
  method SendProbes(packetCount: int, packetSize: int, attempts: seq<SendAttempt>)
    returns (payloads: seq<Bytes>, failures: nat)
    ensures |payloads| == Min(|attempts|, Max(packetCount, 0))
    ensures forall k :: 0 <= k < |payloads| ==> payloads[k] == ProbePayload(attempts[k].stamp, packetSize)
    ensures failures == CountFailed(attempts[..|payloads|]) <= |payloads|
  {
    payloads := [];
    failures := 0;
    var i := 0;
    while i < packetCount && i < |attempts|
      invariant 0 <= i <= |attempts| && i <= Max(packetCount, 0)
      invariant |payloads| == i
      invariant forall k :: 0 <= k < i ==> payloads[k] == ProbePayload(attempts[k].stamp, packetSize)
      invariant failures == CountFailed(attempts[..i])
    {
      assert attempts[..i + 1][..i] == attempts[..i];
      var testData := ProbePayload(attempts[i].stamp, packetSize);
      payloads := payloads + [testData];
      if !attempts[i].ok {
        failures := failures + 1;
      }
      i := i + 1;
    }
  }

  datatype Quality = Excellent | Satisfactory | Poor

  /** The closing grade: excellent below 5 % loss, satisfactory below 20 %,
      poor otherwise. */
  function Grade(lossPercentage: real): (q: Quality)
    ensures q == Excellent <==> lossPercentage < 5.0
    ensures q == Poor <==> lossPercentage >= 20.0
  {
    if lossPercentage < 5.0 then Excellent
    else if lossPercentage < 20.0 then Satisfactory
    else Poor
  }

  /** `loss_percentage = lost_count / packet_count * 100`, or 0 when no
      packet was to be sent. */
  function LossPercentage(lost: int, packetCount: int): (r: real)
    ensures packetCount > 0 ==> r * packetCount as real == 100.0 * lost as real
    ensures packetCount <= 0 ==> r == 0.0
  {
    if packetCount > 0 then (lost as real / packetCount as real) * 100.0 else 0.0
  }

  /** `lost_count` as the source computes it: the failed sends, plus
      `packet_count - received_count` once the wait is over. */
  function LostCountAsWritten(packetCount: int, received: nat, sendFailures: nat): (lost: int)
    ensures lost == LostCount(packetCount, received) + sendFailures
    ensures received <= packetCount && sendFailures <= packetCount ==> 0 <= lost <= 2 * packetCount
  {
    sendFailures + (packetCount - received)
  }

  /** A probe whose `sendto` failed is never received, so it is already
      among the `packet_count - received_count` missing ones: when every
      probe that left arrives, the source reports twice the real loss.  With
      10 probes of which 1 fails and 9 arrive it reports 2 lost, 20 % and
      "poor" for a 10 % loss that grades "satisfactory". */
  lemma LostCountDoubleCountsFailures(packetCount: nat, sendFailures: nat)
    requires 0 < sendFailures <= packetCount
    ensures var received := packetCount - sendFailures;
      && LostCountAsWritten(packetCount, received, sendFailures) == 2 * LostCount(packetCount, received)
      && LostCount(packetCount, received) == sendFailures
    ensures LossPercentage(LostCountAsWritten(10, 9, 1), 10) == 20.0 && Grade(20.0) == Poor
    ensures LossPercentage(LostCount(10, 9), 10) == 10.0 && Grade(10.0) == Satisfactory
    ensures LossPercentage(LostCountAsWritten(1, 0, 1), 1) == 200.0
  {
  }

  /** The probes that were to be sent and were not counted by the receiver
      thread; a failed send is one of them. */
  function LostCount(packetCount: int, received: nat): (lost: int)
    ensures received <= packetCount ==> 0 <= lost <= packetCount
  {
    packetCount - received
  }

  /** The closing statistics of the extended test. */
  datatype Summary = Summary(lost: int, lossPercentage: real, avgLatency: real, quality: Quality)

  function Summarize(packetCount: int, t: Tally): (s: Summary)
    requires t.received <= Max(packetCount, 0)
    ensures 0.0 <= s.lossPercentage <= 100.0
    ensures s.lossPercentage == 0.0 <==> packetCount <= 0 || t.received == packetCount
    ensures t.received == 0 ==> s.avgLatency == 0.0
    ensures t.received > 0 ==> s.avgLatency * t.received as real == t.totalLatency
  {
    var lost := LostCount(packetCount, t.received);
    var loss := LossPercentage(lost, packetCount);
    assert packetCount > 0 ==> loss <= 100.0 by {
      if packetCount > 0 {
        assert loss * packetCount as real <= 100.0 * packetCount as real;
      }
    }
    var avg := if t.received > 0 then t.totalLatency / t.received as real else 0.0;
    Summary(lost, loss, avg, Grade(loss))
  }

  /** The closing statistics as the source computes them, with the failed
      sends added to the probes that were not counted: the loss can reach
      200 %, and it is 0 only when nothing failed and everything was
      counted. */
  function SummarizeAsWritten(packetCount: int, t: Tally, sendFailures: nat): (s: Summary)
    requires t.received <= Max(packetCount, 0) && sendFailures <= Max(packetCount, 0)
    ensures s.lost == LostCountAsWritten(packetCount, t.received, sendFailures)
    ensures packetCount > 0 ==> s.lossPercentage * packetCount as real == 100.0 * s.lost as real
    ensures 0.0 <= s.lossPercentage <= 200.0
    ensures s.lossPercentage == 0.0 <==> packetCount <= 0 || (sendFailures == 0 && t.received == packetCount)
    ensures s.quality == Grade(s.lossPercentage)
    ensures s.avgLatency == Summarize(packetCount, t).avgLatency
  {
    var lost := LostCountAsWritten(packetCount, t.received, sendFailures);
    var loss := LossPercentage(lost, packetCount);
    assert packetCount > 0 ==> 0.0 <= loss <= 200.0 by {
      if packetCount > 0 {
        assert 0 <= lost <= 2 * packetCount;
        Bounded(loss, lost as real, packetCount as real);
      }
    }
    var avg := if t.received > 0 then t.totalLatency / t.received as real else 0.0;
    Summary(lost, loss, avg, Grade(loss))
  }

  /** A percentage `r` with `r * n == 100 * part` and `0 <= part <= 2n`
      lies in [0, 200]. */
  lemma Bounded(r: real, part: real, n: real)
    requires n > 0.0 && 0.0 <= part <= 2.0 * n && r * n == 100.0 * part
    ensures 0.0 <= r <= 200.0
  {
    assert (200.0 - r) * n == 200.0 * n - 100.0 * part >= 0.0;
  }

  /** `_extended_test_thread` after validation: the send loop, the tally of
      what arrived, and the summary as the source computes it.  The
      reported loss lies in [0, 200] %, and it is 0 % and the network
      excellent exactly when every probe was sent and counted. */
  method ExtendedTest(packetCount: int, packetSize: int, attempts: seq<SendAttempt>, arrivals: seq<Arrival>)
    returns (payloads: seq<Bytes>, sendFailures: nat, tally: Tally, summary: Summary)
    ensures |payloads| == Min(|attempts|, Max(packetCount, 0))
    ensures sendFailures == CountFailed(attempts[..|payloads|]) <= |payloads|
    ensures tally.received == Min(|Latencies(arrivals)|, Max(packetCount, 0))
    ensures Describes(tally, Latencies(arrivals)[..tally.received])
    ensures summary.lost == sendFailures + packetCount - tally.received
    ensures 0.0 <= summary.lossPercentage <= 200.0
    ensures packetCount > 0 ==>
      (summary.lossPercentage == 0.0 <==> sendFailures == 0 && |Latencies(arrivals)| >= packetCount)
    ensures summary.lossPercentage == 0.0 ==> summary.quality == Excellent
    ensures tally == TallyOf(Latencies(arrivals)[..tally.received])
    ensures summary == SummarizeAsWritten(packetCount, tally, sendFailures)
  {
    payloads, sendFailures := SendProbes(packetCount, packetSize, attempts);
    tally := ReceiveProbes(arrivals, packetCount);
    summary := SummarizeAsWritten(packetCount, tally, sendFailures);
  }

  /** The fields `_extended_test_thread` parses with `int()`/`float()` and
      then uses; an `Option<TestFields>` is `None` when any of the parsed
      fields does not parse. */
  datatype TestFields = TestFields(packetCount: int, timeout: real, interval: real, packetSize: int)

  /** The number of passes the send loop makes: one per attempt, at most
      `packet_count`. */
  function Passes(packetCount: int, attempts: seq<SendAttempt>): (n: nat)
    ensures n <= |attempts| && n <= Max(packetCount, 0)
    ensures n == |attempts| || n == Max(packetCount, 0)
  {
    Min(|attempts|, Max(packetCount, 0))
  }

  /** `_extended_test_thread`.  The test raises, and the handler logs the
      error with no summary, when a field does not parse or a socket cannot
      be set up; when `settimeout` is given a negative timeout, before any
      probe is sent; and when `time.sleep` is given a negative interval,
      after the first pass of the send loop.  Otherwise the test reports the
      source's summary of the probes sent and counted. */
  method ExtendedTestThread(fields: Option<TestFields>, socketsOk: bool,
                            attempts: seq<SendAttempt>, arrivals: seq<Arrival>)
    returns (summary: Option<Summary>)
    ensures summary.Some? <==>
              && fields.Some? && socketsOk && fields.value.timeout >= 0.0
              && (fields.value.interval >= 0.0 || Passes(fields.value.packetCount, attempts) == 0)
    ensures summary.Some? ==>
              var n := Max(fields.value.packetCount, 0);
              summary.value == SummarizeAsWritten(fields.value.packetCount,
                                 TallyOf(Latencies(arrivals)[..Min(|Latencies(arrivals)|, n)]),
                                 CountFailed(attempts[..Passes(fields.value.packetCount, attempts)]))
  {
    if fields.None? || !socketsOk || fields.value.timeout < 0.0 {
      return None;
    }
    var f := fields.value;
    var _, _, _, s := ExtendedTest(f.packetCount, f.packetSize, attempts, arrivals);
    if f.interval < 0.0 && Passes(f.packetCount, attempts) > 0 {
      return None;
    }
    summary := Some(s);
  }
}
