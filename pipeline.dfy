/** The sending and the receiving side together: a block captured by the
    server, sent, received by a client and played back. */
module Pipeline {
  import opened Wrappers
  import opened Pcm
  import Sender
  import Receiver

  /** The datagram the server sends for a block captured while its queue
      was empty. */
  function SentDatagram(s: Sender.Tx, indata: seq<Int16>, sendOk: bool): Option<Bytes>
    requires Sender.WellFormed(s)
  {
    Sender.Send(Sender.Capture(s, indata), sendOk).1
  }

  /** What the client plays for a datagram that reached it while its queue
      was empty: the next output block of `frames` frames. */
  function Played(r: Receiver.Rx, data: Bytes, now: real, frames: nat): Option<seq<Int16>>
    requires Receiver.WellFormed(r)
  {
    Receiver.Pull(Receiver.Receive(r, Receiver.Datagram(data, now)), frames).1
  }

  /** A block captured while the server's queue was empty is the next
      datagram sent, in its byte form. */
  lemma SentIsEncoded(s: Sender.Tx, indata: seq<Int16>, sendOk: bool)
    requires Sender.WellFormed(s) && s.running && s.queue == []
    ensures SentDatagram(s, indata, sendOk) == Some(EncodeSamples(indata))
  {
    Sender.StepEffects(s, indata, sendOk);
    var s1 := Sender.Capture(s, indata);
    Sender.StepEffects(s1, indata, sendOk);
  }

  /** A block of `chunk` stereo frames is exactly one frame's worth of bytes. */
  lemma FrameLength(indata: seq<Int16>, chunk: nat)
    requires |indata| == chunk * Channels
    ensures |EncodeSamples(indata)| == FrameBytes(chunk)
  {
  }

  /** A running client with an empty queue plays an admissible datagram in
      the next output block. */
  lemma PlayedIsBlock(r: Receiver.Rx, data: Bytes, now: real, frames: nat)
    requires Receiver.WellFormed(r) && r.running && r.queue == []
    requires |data| >= r.admitSize
    ensures Played(r, data, now, frames) == Some(Receiver.PlaybackBlock(data, frames))
    ensures Receiver.Receive(r, Receiver.Datagram(data, now)).packetCount == r.packetCount + 1
  {
    Receiver.ReceiveEffects(r, Receiver.Datagram(data, now));
    var r1 := Receiver.Receive(r, Receiver.Datagram(data, now));
    assert r1.queue == [data];
  }

  /** A block of `chunk` stereo frames captured by a running server whose
      queue is empty is sent as `FrameBytes(chunk)` bytes (whether or not
      `sendto` then succeeds); a running client on the same latency profile
      admits that datagram and plays back exactly the captured samples. */
  lemma CapturedBlockPlaysBack(s: Sender.Tx, r: Receiver.Rx, indata: seq<Int16>,
                               sendOk: bool, now: real, chunk: nat)
    requires Sender.WellFormed(s) && s.running && s.queue == []
    requires Receiver.WellFormed(r) && r.running && r.queue == []
    requires |indata| == chunk * Channels
    requires r.admitSize == FrameBytes(chunk)
    ensures SentDatagram(s, indata, sendOk) == Some(EncodeSamples(indata))
    ensures |EncodeSamples(indata)| == FrameBytes(chunk)
    ensures Played(r, EncodeSamples(indata), now, chunk) == Some(indata)
    ensures Receiver.Receive(r, Receiver.Datagram(EncodeSamples(indata), now)).packetCount == r.packetCount + 1
  {
    SentIsEncoded(s, indata, sendOk);
    FrameLength(indata, chunk);
    PlayedIsBlock(r, EncodeSamples(indata), now, chunk);
    Receiver.PlaybackOfEncodedFrame(indata, chunk);
    assert indata[..chunk * Channels] == indata;
  }

  /** When the client's profile has a larger chunk than the server's, every
      datagram the server sends is below the client's `expected_size`: it is
      counted lost and never queued. */
  lemma {:induction false} SmallerServerChunkIsLost(r: Receiver.Rx, indata: seq<Int16>, now: real,
                                                     serverChunk: nat, clientChunk: nat)
    requires Receiver.WellFormed(r) && r.running
    requires |indata| == serverChunk * Channels && serverChunk < clientChunk
    requires r.admitSize == FrameBytes(clientChunk)
    ensures Receiver.Receive(r, Receiver.Datagram(EncodeSamples(indata), now))
         == r.(lostPackets := r.lostPackets + 1)
  {
    assert FrameBytes(serverChunk) < FrameBytes(clientChunk);
  }

  /** When the server's chunk is larger, the client admits the datagram but
      plays back only its first `clientChunk` frames. */
  lemma {:induction false} LargerServerChunkIsTruncated(r: Receiver.Rx, indata: seq<Int16>, now: real,
                                                        serverChunk: nat, clientChunk: nat)
    requires Receiver.WellFormed(r) && r.running && r.queue == []
    requires |indata| == serverChunk * Channels && serverChunk >= clientChunk
    requires r.admitSize == FrameBytes(clientChunk)
    ensures Played(r, EncodeSamples(indata), now, clientChunk) == Some(indata[..clientChunk * Channels])
  {
    FrameLength(indata, serverChunk);
    assert FrameBytes(serverChunk) >= FrameBytes(clientChunk);
    PlayedIsBlock(r, EncodeSamples(indata), now, clientChunk);
    Receiver.PlaybackOfEncodedFrame(indata, clientChunk);
  }
}
