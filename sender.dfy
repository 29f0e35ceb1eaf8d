/** The sending side (`GameAudioStreamServer`): the capture callback queues
    each captured block in the capacity-2 drop-oldest queue, and the send
    loop takes the oldest block and hands it to `sendto`.  Each callback or
    loop iteration is one atomic step; the captured samples and whether
    `sendto` succeeded are parameters. */
module Sender {
  import opened Wrappers
  import opened Pcm
  import Jitter
  import Stats
  import Profiles

  /** The sender's state as a value: the fields of the object. */
  datatype Tx = Tx(
    running: bool,
    queue: seq<Bytes>,
    packetCount: nat,
    droppedPackets: nat,
    chunkSize: nat,
    sampleRate: nat)

  predicate WellFormed(s: Tx) {
    |s.queue| <= Jitter.Capacity
  }

  /** `audio_callback` on a captured block `indata` (its samples row by
      row): while running, the block's bytes are queued, evicting the oldest
      queued block and counting a drop when the queue is full. */
  function Capture(s: Tx, indata: seq<Int16>): (t: Tx)
    requires WellFormed(s)
    ensures WellFormed(t)
  {
    if !s.running then s
    else
      var (q, evicted) := Jitter.Offer(s.queue, EncodeSamples(indata));
      s.(queue := q, droppedPackets := s.droppedPackets + if evicted then 1 else 0)
  }

  /** One iteration of `send_audio_data`: the new state and the datagram
      handed to `sendto`, if any.  The oldest queued block is taken; it is
      counted as sent only when `sendto` did not raise. */
  function Send(s: Tx, sendOk: bool): (r: (Tx, Option<Bytes>))
    ensures r.1.Some? <==> s.running && s.queue != []
    ensures r.1.Some? ==>
              && r.1.value == s.queue[0]
              && r.0 == s.(queue := s.queue[1..], packetCount := s.packetCount + if sendOk then 1 else 0)
    ensures r.1.None? ==> r.0 == s
  {
    if !s.running || s.queue == [] then (s, None)
    else (s.(queue := s.queue[1..], packetCount := s.packetCount + if sendOk then 1 else 0),
          Some(s.queue[0]))
  }

  /** The capture callback and the send step on a running sender. */
  lemma StepEffects(s: Tx, indata: seq<Int16>, sendOk: bool)
    requires WellFormed(s)
    ensures !s.running ==> Capture(s, indata) == s && Send(s, sendOk) == (s, None)
    ensures s.running ==> var t := Capture(s, indata);
      && |t.queue| <= Jitter.Capacity
      && t.queue[|t.queue| - 1] == EncodeSamples(indata)
      && (|s.queue| < Jitter.Capacity ==> t == s.(queue := s.queue + [EncodeSamples(indata)]))
      && (|s.queue| == Jitter.Capacity ==>
            t == s.(queue := s.queue[1..] + [EncodeSamples(indata)], droppedPackets := s.droppedPackets + 1))
    ensures s.running && s.queue != [] ==> var (t, sent) := Send(s, sendOk);
      && sent == Some(s.queue[0]) && t.queue == s.queue[1..]
      && t.packetCount == s.packetCount + (if sendOk then 1 else 0)
      && t.droppedPackets == s.droppedPackets
    ensures s.queue == [] ==> Send(s, sendOk) == (s, None)
  {
  }

  /** What happens on the sending side, in order. */
  datatype TxEvent = Captured(indata: seq<Int16>) | SendAttempt(ok: bool)

  function Step(s: Tx, e: TxEvent): (t: Tx)
    requires WellFormed(s)
    ensures WellFormed(t)
  {
    match e
    case Captured(indata) => Capture(s, indata)
    case SendAttempt(ok) => Send(s, ok).0
  }

  function RunAll(s: Tx, evs: seq<TxEvent>): (t: Tx)
    requires WellFormed(s)
    ensures WellFormed(t)
    decreases |evs|
  {
    if evs == [] then s else RunAll(Step(s, evs[0]), evs[1..])
  }

  function Captures(evs: seq<TxEvent>): (n: nat)
    ensures n <= |evs|
  {
    if evs == [] then 0 else (if evs[0].Captured? then 1 else 0) + Captures(evs[1..])
  }

  /** The send steps among `evs` that took a block and whose `sendto`
      raised. */
  function FailedSends(s: Tx, evs: seq<TxEvent>): nat
    requires WellFormed(s)
    decreases |evs|
  {
    if evs == [] then 0
    else (if evs[0].SendAttempt? && !evs[0].ok && s.running && s.queue != [] then 1 else 0)
         + FailedSends(Step(s, evs[0]), evs[1..])
  }

  /** Every block captured while running is accounted for exactly once: sent,
      dropped from the full queue, lost to a failed `sendto`, or still
      queued.  For a session that starts with an empty queue and zeroed
      counters, blocks captured = packet_count + dropped_packets + failed
      sends + queue length. */
  lemma {:induction false} Conservation(s: Tx, evs: seq<TxEvent>)
    requires WellFormed(s) && s.running
    ensures var t := RunAll(s, evs);
      && t.running
      && Captures(evs) + s.packetCount + s.droppedPackets + |s.queue|
         == t.packetCount + t.droppedPackets + FailedSends(s, evs) + |t.queue|
    decreases |evs|
  {
    if evs != [] {
      var s1 := Step(s, evs[0]);
      StepEffects(s, if evs[0].Captured? then evs[0].indata else [], evs[0].SendAttempt? && evs[0].ok);
      Conservation(s1, evs[1..]);
    }
  }

  /** `drop_rate` of `update_stats`. */
  function DropRate(s: Tx): (r: real)
    ensures 0.0 <= r <= 100.0
    ensures s.packetCount + s.droppedPackets == 0 ==> r == 0.0
  {
    Stats.LossPercent(s.droppedPackets, s.packetCount)
  }

  /** The sender object; its fields are those of `Tx`. */
  class AudioSender {
    var running: bool
    var audioQueue: seq<Bytes>
    var packetCount: nat
    var droppedPackets: nat
    var chunkSize: nat
    var sampleRate: nat

    function Model(): Tx
      reads this
    {
      Tx(running, audioQueue, packetCount, droppedPackets, chunkSize, sampleRate)
    }

    ghost predicate Valid()
      reads this
    {
      WellFormed(Model())
    }

    /** `__init__`; `packet_count` is first assigned by `start_stream` in the
        source and starts at 0 here. */
    constructor ()
      ensures Valid() && !running && audioQueue == []
      ensures packetCount == 0 && droppedPackets == 0
      ensures chunkSize == Profiles.DefaultChunk && sampleRate == Profiles.DefaultRate
    {
      running := false;
      audioQueue := [];
      packetCount := 0;
      droppedPackets := 0;
      chunkSize := Profiles.DefaultChunk;
      sampleRate := Profiles.DefaultRate;
    }

    /** `on_latency_profile_change`: a known profile sets the frame size and
        the rate; an unknown name changes nothing. */
    method OnLatencyProfileChange(name: string)
      requires Valid()
      modifies this
      ensures Valid()
      ensures match Profiles.Lookup(name)
        case None => Model() == old(Model())
        case Some(p) => Model() == old(Model()).(chunkSize := p.chunk, sampleRate := p.rate)
    {
      if name in Profiles.LatencyProfiles {
        var config := Profiles.LatencyProfiles[name];
        chunkSize := config.chunk;
        sampleRate := config.rate;
      }
    }

    /** `start_stream`.  Without a selected device, or when the device lookup
        or the socket setup raises (`setupOk` false), nothing changes.
        Otherwise `running` is set and both counters are zeroed before the
        input stream is opened; a failure there (`streamOk` false) is only
        reported, so `running` stays set.  The queue is not emptied.  The
        result says whether capture is running. */
    method StartStream(deviceSelected: bool, setupOk: bool, streamOk: bool) returns (capturing: bool)
      requires Valid()
      modifies this
      ensures Valid()
      ensures capturing <==> deviceSelected && setupOk && streamOk
      ensures !(deviceSelected && setupOk) ==> Model() == old(Model())
      ensures deviceSelected && setupOk ==>
        Model() == old(Model()).(running := true, packetCount := 0, droppedPackets := 0)
    {
      if !deviceSelected || !setupOk {
        return false;
      }
      running := true;
      packetCount := 0;
      droppedPackets := 0;
      capturing := streamOk;
    }

    /** `audio_callback`, proved against `Capture`. */
    method AudioCallback(indata: seq<Int16>)
      requires Valid()
      modifies this
      ensures Valid()
      ensures Model() == Capture(old(Model()), indata)
    {
      if running {
        var audioData := EncodeSamples(indata);
        if |audioQueue| < Jitter.Capacity {
          audioQueue := audioQueue + [audioData];
        } else {
          audioQueue := audioQueue[1..];
          audioQueue := audioQueue + [audioData];
          droppedPackets := droppedPackets + 1;
        }
      }
    }

    /** One iteration of `send_audio_data`, proved against `Send`; `sent` is
        the datagram passed to `sendto`. */
    method SendStep(sendOk: bool) returns (sent: Option<Bytes>)
      requires Valid()
      modifies this
      ensures Valid()
      ensures (Model(), sent) == Send(old(Model()), sendOk)
    {
      if !running || audioQueue == [] {
        return None;
      }
      var audioData := audioQueue[0];
      audioQueue := audioQueue[1..];
      sent := Some(audioData);
      if sendOk {
        packetCount := packetCount + 1;
      }
    }

    /** `stop_stream`: clears `running`; queued blocks stay queued. */
    method StopStream()
      requires Valid()
      modifies this
      ensures Valid()
      ensures Model() == old(Model()).(running := false)
    {
      running := false;
    }
  }
}
