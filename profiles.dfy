/** The latency profiles: named (chunk, rate) pairs, one table that the
    sender and the receiver each carry a copy of and that must agree. */
module Profiles {
  import opened Wrappers

  datatype Profile = Profile(chunk: nat, rate: nat)

  const DefaultChunk: nat := 256
  const DefaultRate: nat := 44100

  const Minimal: string := "Минимальная"
  const Low: string := "Низкая"
  const Medium: string := "Средняя"
  const High: string := "Высокая"

  const LatencyProfiles: map<string, Profile> := map[
    Minimal := Profile(128, 44100),
    Low := Profile(256, 44100),
    Medium := Profile(512, 44100),
    High := Profile(1024, 44100)
  ]

  /** `profile in LATENCY_PROFILES` followed by the lookup. */
  function Lookup(name: string): (r: Option<Profile>)
    ensures r.Some? <==> name in {Minimal, Low, Medium, High}
    ensures r.Some? ==> r.value.rate == 44100 && r.value.chunk in {128, 256, 512, 1024}
  {
    if name in LatencyProfiles then Some(LatencyProfiles[name]) else None
  }

  /** The profiles are ordered by frame size, so a higher-latency profile
      buffers more audio per packet, and the start-up values are the "low"
      profile, which is also what the profile selector shows at start-up. */
  lemma ProfileOrder()
    ensures Lookup(Minimal).value.chunk < Lookup(Low).value.chunk
         < Lookup(Medium).value.chunk < Lookup(High).value.chunk
    ensures Lookup(Low) == Some(Profile(DefaultChunk, DefaultRate))
  {
  }

  /** Nominal interval between packets in seconds:
      `expected_packet_interval = chunk_size / sample_rate`. */
  function FrameSeconds(chunk: nat, rate: nat): (r: real)
    requires rate > 0
    ensures r >= 0.0
    ensures r * rate as real == chunk as real
  {
    chunk as real / rate as real
  }
}
