/** The receiving side (`MulticastAudioReceiverGUI`): a receive loop that
    admits datagrams into the capacity-2 jitter queue, an audio output
    callback that pulls one frame per block, and the session and profile
    handlers.  Each loop iteration or callback is one atomic step whose
    outside inputs (the datagram, the arrival time, the output buffer) are
    parameters. */
module Receiver {
  import opened Wrappers
  import opened Pcm
  import Jitter
  import Stats
  import Profiles

  /** What one `recvfrom` call of the receive loop produced. */
  datatype RecvEvent =
    | Datagram(data: Bytes, now: real)  // a datagram and `time.time()` at its arrival
    | Timeout                           // `socket.timeout`
    | RecvError                         // any other exception

  /** The receiver's state as a value: the fields of the object. */
  datatype Rx = Rx(
    running: bool,
    queue: seq<Bytes>,
    packetCount: nat,
    lostPackets: nat,
    chunkSize: nat,
    sampleRate: nat,
    expectedInterval: real,
    admitSize: nat,          // `expected_size`, fixed when the receive loop starts
    lastPacketTime: real,
    estimatedLatency: real)

  predicate WellFormed(s: Rx) {
    |s.queue| <= Jitter.Capacity && s.sampleRate > 0
  }

  /** The network delay estimate after an admitted datagram that found room:
      the arrival gap beyond the nominal packet interval, in milliseconds,
      when there was a previous packet and the gap is longer than nominal;
      otherwise the previous estimate. */
  function LatencyEstimate(s: Rx, now: real): (r: real)
    ensures r != s.estimatedLatency ==> r > 0.0
  {
    if s.lastPacketTime > 0.0 && now - s.lastPacketTime - s.expectedInterval > 0.0
    then (now - s.lastPacketTime - s.expectedInterval) * 1000.0
    else s.estimatedLatency
  }

  /** One iteration of `receive_loop`.  Once `running` is false the loop has
      exited and nothing changes. */
  function Receive(s: Rx, e: RecvEvent): (t: Rx)
    requires WellFormed(s)
    ensures WellFormed(t)
  {
    if !s.running then s
    else match e
      case Timeout => s
      case RecvError => s.(lostPackets := s.lostPackets + 1)
      case Datagram(data, now) =>
        if |data| < s.admitSize then s.(lostPackets := s.lostPackets + 1)
        else
          var (q, evicted) := Jitter.Offer(s.queue, data);
          if evicted then
            s.(queue := q, packetCount := s.packetCount + 1,
               lostPackets := s.lostPackets + 1, lastPacketTime := now)
          else
            s.(queue := q, packetCount := s.packetCount + 1,
               estimatedLatency := LatencyEstimate(s, now), lastPacketTime := now)
  }

  /** The effect of each kind of receive event on a running receiver. */
  lemma ReceiveEffects(s: Rx, e: RecvEvent)
    requires WellFormed(s) && s.running
    ensures var t := Receive(s, e);
      && t.running && t.admitSize == s.admitSize
      && (e.Timeout? ==> t == s)
      && (e.RecvError? ==> t == s.(lostPackets := s.lostPackets + 1))
      && (e.Datagram? && |e.data| < s.admitSize ==>
            t == s.(lostPackets := s.lostPackets + 1))
      && (e.Datagram? && |e.data| >= s.admitSize && |s.queue| < Jitter.Capacity ==>
            t.queue == s.queue + [e.data] && t.packetCount == s.packetCount + 1
            && t.lostPackets == s.lostPackets)
      && (e.Datagram? && |e.data| >= s.admitSize && |s.queue| == Jitter.Capacity ==>
            t.queue == s.queue[1..] + [e.data] && t.packetCount == s.packetCount + 1
            && t.lostPackets == s.lostPackets + 1)
  {
  }

  /** The new state after an admitted datagram, field by field. */
  lemma AdmitResult(s: Rx, data: Bytes, now: real)
    requires WellFormed(s) && s.running && |data| >= s.admitSize
    ensures |s.queue| < Jitter.Capacity ==>
      Receive(s, Datagram(data, now))
        == s.(queue := s.queue + [data], packetCount := s.packetCount + 1,
              estimatedLatency := LatencyEstimate(s, now), lastPacketTime := now)
    ensures |s.queue| == Jitter.Capacity ==>
      Receive(s, Datagram(data, now))
        == s.(queue := s.queue[1..] + [data], packetCount := s.packetCount + 1,
              lostPackets := s.lostPackets + 1, lastPacketTime := now)
  {
  }

  /** A sequence of receive-loop iterations with no playback pulls. */
  function ReceiveAll(s: Rx, evs: seq<RecvEvent>): (t: Rx)
    requires WellFormed(s)
    ensures WellFormed(t)
    decreases |evs|
  {
    if evs == [] then s else ReceiveAll(Receive(s, evs[0]), evs[1..])
  }

  /** The datagrams among `evs` that are long enough to be admitted. */
  function Admitted(size: nat, evs: seq<RecvEvent>): (r: seq<Bytes>)
    ensures |r| <= |evs|
    ensures forall k :: 0 <= k < |r| ==> |r[k]| >= size
  {
    if evs == [] then []
    else (if evs[0].Datagram? && |evs[0].data| >= size then [evs[0].data] else [])
         + Admitted(size, evs[1..])
  }

  /** The events among `evs` that count as lost on arrival: undersized
      datagrams and receive errors other than timeouts. */
  function Rejected(size: nat, evs: seq<RecvEvent>): (r: nat)
    ensures r <= |evs|
  {
    if evs == [] then 0
    else (if evs[0].RecvError? || (evs[0].Datagram? && |evs[0].data| < size) then 1 else 0)
         + Rejected(size, evs[1..])
  }

  /** How many queued frames `n` further admissions evict from a queue that
      holds `q`. */
  function Overflow(q: nat, n: nat): nat {
    if q + n > Jitter.Capacity then q + n - Jitter.Capacity else 0
  }

  /** The frame a single event offers to the queue, if it is admitted. */
  function AdmittedBy(size: nat, e: RecvEvent): seq<Bytes> {
    if e.Datagram? && |e.data| >= size then [e.data] else []
  }

  /** One step in the terms of `ReceiveAllAccounting`. */
  lemma ReceiveAccounting(s: Rx, e: RecvEvent)
    requires WellFormed(s) && s.running
    ensures var t, a := Receive(s, e), AdmittedBy(s.admitSize, e);
      && t.running && t.admitSize == s.admitSize
      && t.queue == Jitter.Newest(s.queue + a, Jitter.Capacity)
      && t.packetCount == s.packetCount + |a|
      && t.lostPackets == s.lostPackets + Rejected(s.admitSize, [e]) + Overflow(|s.queue|, |a|)
      && |t.queue| == if |s.queue| + |a| < Jitter.Capacity then |s.queue| + |a| else Jitter.Capacity
  {
    assert [e][1..] == [];
    if AdmittedBy(s.admitSize, e) == [] {
      assert Jitter.Newest(s.queue + [], Jitter.Capacity) == s.queue;
    }
  }

  /** Evictions add up across consecutive admissions. */
  lemma OverflowSplit(q: nat, m: nat, n: nat)
    requires q <= Jitter.Capacity
    ensures var q1 := if q + m < Jitter.Capacity then q + m else Jitter.Capacity;
      Overflow(q, m) + Overflow(q1, n) == Overflow(q, m + n)
  {
  }

  /** Without playback pulls, a running receiver holds the newest admitted
      frames in arrival order; every admitted datagram adds one to
      `packet_count`; and `lost_packets` grows by one per rejected event and
      one per frame evicted from the full queue. */
  lemma {:induction false} ReceiveAllAccounting(s: Rx, evs: seq<RecvEvent>)
    requires WellFormed(s) && s.running
    ensures var t, a := ReceiveAll(s, evs), Admitted(s.admitSize, evs);
      && t.running && t.admitSize == s.admitSize
      && t.queue == Jitter.Newest(s.queue + a, Jitter.Capacity)
      && t.packetCount == s.packetCount + |a|
      && t.lostPackets == s.lostPackets + Rejected(s.admitSize, evs) + Overflow(|s.queue|, |a|)
    decreases |evs|
  {
    if evs == [] {
      assert Jitter.Newest(s.queue + [], Jitter.Capacity) == s.queue;
    } else {
      var s1 := Receive(s, evs[0]);
      var head, rest := AdmittedBy(s.admitSize, evs[0]), Admitted(s.admitSize, evs[1..]);
      ReceiveAccounting(s, evs[0]);
      ReceiveAllAccounting(s1, evs[1..]);
      assert ReceiveAll(s, evs) == ReceiveAll(s1, evs[1..]);
      assert Admitted(s.admitSize, evs) == head + rest;
      assert Rejected(s.admitSize, evs) == Rejected(s.admitSize, [evs[0]]) + Rejected(s.admitSize, evs[1..]);
      OverflowSplit(|s.queue|, |head|, |rest|);
      Jitter.NewestConcat(s.queue, head, rest, Jitter.Capacity);
    }
  }

  /** From an empty queue and with no pulls, `n >= 2` admitted datagrams,
      arriving at any times, leave exactly the last two queued, in arrival
      order, and add `n - 2` to `lost_packets` for the evicted ones. */
  lemma NoPullsKeepLastTwo(s: Rx, frames: seq<Bytes>, times: seq<real>)
    requires WellFormed(s) && s.running && s.queue == []
    requires |frames| >= 2 && |times| == |frames|
    requires forall k :: 0 <= k < |frames| ==> |frames[k]| >= s.admitSize
    ensures var t := ReceiveAll(s, seq(|frames|, k requires 0 <= k < |frames| => Datagram(frames[k], times[k])));
      && t.queue == frames[|frames| - 2..]
      && t.packetCount == s.packetCount + |frames|
      && t.lostPackets == s.lostPackets + |frames| - 2
  {
    var evs := seq(|frames|, k requires 0 <= k < |frames| => Datagram(frames[k], times[k]));
    AdmittedAll(s.admitSize, evs, frames);
    ReceiveAllAccounting(s, evs);
    assert s.queue + frames == frames;
  }

  lemma {:induction false} AdmittedAll(size: nat, evs: seq<RecvEvent>, frames: seq<Bytes>)
    requires |evs| == |frames|
    requires forall k :: 0 <= k < |frames| ==> evs[k].Datagram? && evs[k].data == frames[k] && |frames[k]| >= size
    ensures Admitted(size, evs) == frames
    ensures Rejected(size, evs) == 0
    decreases |evs|
  {
    if evs != [] {
      AdmittedAll(size, evs[1..], frames[1..]);
    }
  }

  /** `n` zero samples: the effect of `outdata.fill(0)`. */
  function Silence(n: nat): (r: seq<Int16>)
    ensures |r| == n && forall k :: 0 <= k < n ==> r[k] == 0
  {
    seq(n, k => 0)
  }

  /** What the output callback writes for a dequeued datagram: its first
      `frames * CHANNELS` samples when it decodes to at least that many, and
      silence when it is too short or has an odd length (the ValueError of
      `np.frombuffer`, caught by the callback's generic handler). */
  function PlaybackBlock(data: Bytes, frames: nat): (out: seq<Int16>)
    ensures |out| == frames * Channels
  {
    var n := frames * Channels;
    match DecodeSamples(data)
    case None => Silence(n)
    case Some(samples) => if |samples| >= n then samples[..n] else Silence(n)
  }

  /** One `audio_output_callback`: the receiver's new state and what is
      written to `outdata` (None: `outdata` is not touched). */
  function Pull(s: Rx, frames: nat): (r: (Rx, Option<seq<Int16>>))
    ensures r.1.Some? <==> s.running
    ensures r.1.Some? ==> |r.1.value| == frames * Channels
    ensures r.0 == s.(queue := if s.running && s.queue != [] then s.queue[1..] else s.queue)
    ensures s.running && s.queue != [] ==> r.1 == Some(PlaybackBlock(s.queue[0], frames))
    ensures s.running && s.queue == [] ==> r.1 == Some(Silence(frames * Channels))
  {
    if !s.running then (s, None)
    else if s.queue == [] then (s, Some(Silence(frames * Channels)))
    else (s.(queue := s.queue[1..]), Some(PlaybackBlock(s.queue[0], frames)))
  }

  /** A stopped receiver's callback touches nothing; a running one takes at
      most the oldest frame, changes nothing else, and always fills the whole
      block. */
  lemma PullEffects(s: Rx, frames: nat)
    ensures var (t, out) := Pull(s, frames);
      && (!s.running ==> t == s && out == None)
      && (s.running ==> out.Some? && |out.value| == frames * Channels
                        && t == s.(queue := if s.queue == [] then [] else s.queue[1..]))
      && (s.running && s.queue == [] ==> out == Some(Silence(frames * Channels)))
  {
  }

  /** A datagram that carries an encoded frame of at least `frames` samples
      per channel plays back as that frame's first `frames * CHANNELS`
      samples; one with too few samples plays back as silence. */
  lemma PlaybackOfEncodedFrame(samples: seq<Int16>, frames: nat)
    ensures |samples| >= frames * Channels ==>
      PlaybackBlock(EncodeSamples(samples), frames) == samples[..frames * Channels]
    ensures |samples| < frames * Channels ==>
      PlaybackBlock(EncodeSamples(samples), frames) == Silence(frames * Channels)
  {
    DecodeEncode(samples);
  }

  /** `loss_rate` of `update_stats`. */
  function LossRate(s: Rx): (r: real)
    ensures 0.0 <= r <= 100.0
    ensures s.packetCount + s.lostPackets == 0 ==> r == 0.0
  {
    Stats.LossPercent(s.lostPackets, s.packetCount)
  }

  /** `total_delay` of `update_stats`: the network estimate plus the time the
      queued frames take to play. */
  function TotalDelay(s: Rx): (r: real)
    requires s.expectedInterval >= 0.0
    ensures r >= s.estimatedLatency
    ensures s.queue == [] ==> r == s.estimatedLatency
  {
    var bufferDelay := if s.queue != [] then |s.queue| as real * s.expectedInterval * 1000.0 else 0.0;
    s.estimatedLatency + bufferDelay
  }

  /** The receiver object; its fields are those of `Rx`. */
  class AudioReceiver {
    var running: bool
    var audioQueue: seq<Bytes>
    var packetCount: nat
    var lostPackets: nat
    var chunkSize: nat
    var sampleRate: nat
    var expectedPacketInterval: real
    var admitSize: nat
    var lastPacketTime: real
    var estimatedLatency: real

    function Model(): Rx
      reads this
    {
      Rx(running, audioQueue, packetCount, lostPackets, chunkSize, sampleRate,
         expectedPacketInterval, admitSize, lastPacketTime, estimatedLatency)
    }

    ghost predicate Valid()
      reads this
    {
      WellFormed(Model())
    }

    /** `__init__` with the statistics fields that `setup_gui` zeroes. */
    constructor ()
      ensures Valid() && !running && audioQueue == []
      ensures packetCount == 0 && lostPackets == 0 && estimatedLatency == 0.0 && lastPacketTime == 0.0
      ensures chunkSize == Profiles.DefaultChunk && sampleRate == Profiles.DefaultRate
      ensures expectedPacketInterval == Profiles.FrameSeconds(chunkSize, sampleRate)
    {
      running := false;
      audioQueue := [];
      chunkSize := Profiles.DefaultChunk;
      sampleRate := Profiles.DefaultRate;
      expectedPacketInterval := Profiles.FrameSeconds(Profiles.DefaultChunk, Profiles.DefaultRate);
      admitSize := FrameBytes(Profiles.DefaultChunk);
      packetCount := 0;
      lostPackets := 0;
      lastPacketTime := 0.0;
      estimatedLatency := 0.0;
    }

    /** `on_latency_profile_change`: a known profile sets the frame size,
        the rate and the nominal packet interval; an unknown name changes
        nothing. */
    method OnLatencyProfileChange(name: string)
      requires Valid()
      modifies this
      ensures Valid()
      ensures match Profiles.Lookup(name)
        case None => Model() == old(Model())
        case Some(p) => Model() == old(Model()).(chunkSize := p.chunk, sampleRate := p.rate,
                                                 expectedInterval := Profiles.FrameSeconds(p.chunk, p.rate))
    {
      if name in Profiles.LatencyProfiles {
        var config := Profiles.LatencyProfiles[name];
        chunkSize := config.chunk;
        sampleRate := config.rate;
        expectedPacketInterval := Profiles.FrameSeconds(chunkSize, sampleRate);
      }
    }

    /** `start_receive`.  Without the audio library or a selected device it
        returns at once.  A failure of the device lookup or the network setup
        (`setupOk`) or of the output stream (`streamOk`) is caught and
        `stop_receive` runs.  On the way to the stream the session counters
        are zeroed, the admission size is fixed from the current frame size
        and the receive loop begins. */
    method StartReceive(soundDeviceAvailable: bool, deviceSelected: bool,
                        setupOk: bool, streamOk: bool, now: real) returns (started: bool)
      requires Valid()
      modifies this
      ensures Valid()
      ensures started <==> soundDeviceAvailable && deviceSelected && setupOk && streamOk
      ensures soundDeviceAvailable && deviceSelected ==> running == started
      ensures !(soundDeviceAvailable && deviceSelected) ==> Model() == old(Model())
      ensures soundDeviceAvailable && deviceSelected && !setupOk ==>
        Model() == old(Model()).(running := false, queue := [])
      ensures soundDeviceAvailable && deviceSelected && setupOk ==>
        && packetCount == 0 && lostPackets == 0 && estimatedLatency == 0.0
        && lastPacketTime == now && admitSize == FrameBytes(chunkSize)
        && audioQueue == (if streamOk then old(audioQueue) else [])
        && chunkSize == old(chunkSize) && sampleRate == old(sampleRate)
        && expectedPacketInterval == old(expectedPacketInterval)
    {
      if !soundDeviceAvailable || !deviceSelected {
        return false;
      }
      if !setupOk {
        StopReceive();
        return false;
      }
      running := true;
      packetCount := 0;
      lostPackets := 0;
      lastPacketTime := now;
      estimatedLatency := 0.0;
      admitSize := FrameBytes(chunkSize);
      if !streamOk {
        StopReceive();
        return false;
      }
      started := true;
    }

    /** One iteration of `receive_loop`, proved against `Receive`. */
    method ReceiveStep(e: RecvEvent)
      requires Valid()
      modifies this
      ensures Valid()
      ensures Model() == Receive(old(Model()), e)
    {
      if !running {
        return;
      }
      match e {
        case Timeout =>
        case RecvError =>
          lostPackets := lostPackets + 1;
        case Datagram(data, now) =>
          if |data| >= admitSize {
            Enqueue(data, now);
          } else {
            lostPackets := lostPackets + 1;
          }
      }
    }

    /** The `put_nowait` of an admitted datagram and its `queue.Full`
        handler. */
    method Enqueue(data: Bytes, now: real)
      requires Valid() && running && |data| >= admitSize
      modifies this
      ensures Valid()
      ensures Model() == Receive(old(Model()), Datagram(data, now))
    {
      AdmitResult(Model(), data, now);
      if |audioQueue| < Jitter.Capacity {
        audioQueue := audioQueue + [data];
        packetCount := packetCount + 1;
        if lastPacketTime > 0.0 {
          var interval := now - lastPacketTime;
          var delayDiff := interval - expectedPacketInterval;
          if delayDiff > 0.0 {
            estimatedLatency := delayDiff * 1000.0;
          }
        }
        lastPacketTime := now;
      } else {
        audioQueue := audioQueue[1..] + [data];
        packetCount := packetCount + 1;
        lostPackets := lostPackets + 1;
        lastPacketTime := now;
      }
    }

    /** `audio_output_callback` on an output block of `frames` rows of
        CHANNELS samples, stored row by row in `outdata`; proved against
        `Pull`. */
    method AudioOutputCallback(outdata: array<Int16>, frames: nat)
      requires Valid()
      requires outdata.Length == frames * Channels
      modifies this, outdata
      ensures Valid()
      ensures Model() == Pull(old(Model()), frames).0
      ensures Pull(old(Model()), frames).1.None? ==> outdata[..] == old(outdata[..])
      ensures Pull(old(Model()), frames).1.Some? ==> outdata[..] == Pull(old(Model()), frames).1.value
    {
      if !running {
        return;
      }
      if audioQueue == [] {
        Fill(outdata);
        return;
      }
      var audioData := audioQueue[0];
      audioQueue := audioQueue[1..];
      var audioArray := DecodeSamples(audioData);
      if audioArray.Some? && |audioArray.value| >= frames * Channels {
        CopyPrefix(outdata, audioArray.value);
      } else {
        Fill(outdata);
      }
    }

    /** `stop_receive`: clears `running` and drains the queue; the counters
        keep their values for the last statistics display. */
    method StopReceive()
      requires Valid()
      modifies this
      ensures Valid()
      ensures Model() == old(Model()).(running := false, queue := [])
    {
      running := false;
      while audioQueue != []
        invariant Model() == old(Model()).(running := false, queue := audioQueue)
        invariant |audioQueue| <= Jitter.Capacity
        decreases |audioQueue|
      {
        audioQueue := audioQueue[1..];
      }
    }
  }

  /** `outdata.fill(0)` */
  method Fill(a: array<Int16>)
    modifies a
    ensures a[..] == Silence(a.Length)
  {
    var i := 0;
    while i < a.Length
      invariant 0 <= i <= a.Length
      invariant forall k :: 0 <= k < i ==> a[k] == 0
    {
      a[i] := 0;
      i := i + 1;
    }
  }

  /** `outdata[:] = audio_array[:frames * CHANNELS].reshape(-1, CHANNELS)` */
  method CopyPrefix(a: array<Int16>, samples: seq<Int16>)
    requires |samples| >= a.Length
    modifies a
    ensures a[..] == samples[..a.Length]
  {
    var i := 0;
    while i < a.Length
      invariant 0 <= i <= a.Length
      invariant forall k :: 0 <= k < i ==> a[k] == samples[k]
    {
      a[i] := samples[i];
      i := i + 1;
    }
  }
}
