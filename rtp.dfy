/** The parts of the RTP library the sample track drives: the sequencer,
    the packetizer's timestamp and sequence-number bookkeeping, and the
    audio-level header extension payload. The payloader's fragmentation of
    a sample is not modelled: it is a parameter. */
module Rtp {
  import opened Media
  import opened Payloaders

  /** rtpOutboundMTU, and the payload budget left after the 12-byte fixed
      RTP header, which is what the packetizer hands to the payloader. */
  const OutboundMtu: nat := 1200
  const PayloadMtu: nat := OutboundMtu - 12

  /** Header extension attached to one packet: its id and its payload. */
  datatype Extension = Extension(id: nat, payload: seq<byte>)

  /** One outgoing RTP packet, restricted to the fields the core touches. */
  datatype Packet = Packet(sequenceNumber: uint16, timestamp: uint32, marker: bool,
                           payload: seq<byte>, extension: Option<Extension>)

  /** The per-binding packetization context: payloader, the sequencer's
      counter and the packetizer's running timestamp. */
  datatype Assembly = Assembly(payloader: Payloader, sequenceNumber: uint16, timestamp: uint32)

  /** Sequencer.NextSequenceNumber: increments the 16-bit counter (wrapping
      at 2^16) and returns the new value; section 5.1 of RFC 3550 makes the
      sequence number grow by one per packet. */
  function NextSequenceNumber(s: uint16): (r: uint16)
    ensures r == (s + 1) % Uint16Modulus
    ensures s < Uint16Modulus - 1 ==> r == s + 1
  {
    if s == Uint16Modulus - 1 then 0 else s + 1
  }

  /** The counter after `n` calls of NextSequenceNumber. */
  function AdvanceSequence(s: uint16, n: nat): (r: uint16)
  {
    if n == 0 then s else NextSequenceNumber(AdvanceSequence(s, n - 1))
  }

  /** `n` calls of NextSequenceNumber move the counter by `n`, modulo 2^16;
      `base` is any number the counter stands for modulo 2^16. */
  lemma {:induction false} AdvanceSequenceIsAddition(s: uint16, n: nat, base: nat)
    requires s == base % Uint16Modulus
    ensures AdvanceSequence(s, n) == (base + n) % Uint16Modulus
  {
    if n > 0 {
      AdvanceSequenceIsAddition(s, n - 1, base);
    }
  }

  /** uint32 addition, wrapping at 2^32. */
  function AddUint32(a: uint32, b: nat): (r: uint32)
    ensures r == (a + b) % Uint32Modulus
    ensures a + b < Uint32Modulus ==> r == a + b
  {
    (a + b) % Uint32Modulus
  }

  /** uint32(d.Seconds() * clockRate): the timestamp units one sample of
      duration `d` nanoseconds covers, truncated toward zero and kept to
      32 bits. */
  function TimestampUnits(duration: nat, clockRate: uint32): (r: uint32)
  {
    ((duration * clockRate) / Second) % Uint32Modulus
  }

  /** Short of 32-bit wrap-around, the increment is the floor of
      duration x clock rate in seconds: never rounded up. */
  lemma TimestampUnitsIsFloor(duration: nat, clockRate: uint32)
    requires duration * clockRate < Second * Uint32Modulus
    ensures var r := TimestampUnits(duration, clockRate);
      r * Second <= duration * clockRate < (r + 1) * Second
  {
  }

  /** Packetizer.SkipSamples: the running timestamp moves on by `n` units. */
  function SkipSamples(a: Assembly, n: uint32): (r: Assembly)
    ensures r.payloader == a.payloader && r.sequenceNumber == a.sequenceNumber
    ensures r.timestamp == (a.timestamp + n) % Uint32Modulus
  {
    a.(timestamp := AddUint32(a.timestamp, n))
  }

  /** Packetizer.Packetize: one packet per fragment the payloader produced,
      each numbered by the sequencer and stamped with the current
      timestamp, the last one marked; the timestamp then moves on by
      `samples`. An empty sample yields no packets and changes nothing. */
  function Packetize(a: Assembly, data: seq<byte>, samples: uint32, fragments: seq<seq<byte>>): (r: (seq<Packet>, Assembly))
    ensures |data| == 0 ==> r == ([], a)
    ensures |data| > 0 ==> |r.0| == |fragments| && r.1.payloader == a.payloader
  {
    if |data| == 0 then ([], a)
    else
      var n := |fragments|;
      var packets := seq(n, i requires 0 <= i < n =>
        Packet(AdvanceSequence(a.sequenceNumber, i + 1), a.timestamp, i == n - 1, fragments[i], None));
      (packets, Assembly(a.payloader, AdvanceSequence(a.sequenceNumber, n), AddUint32(a.timestamp, samples)))
  }

  /** Every packet of one Packetize call shares the timestamp the
      packetizer held, carries its own fragment and no extension, and the
      sequence numbers follow each other by one; the counters then stand
      past the batch. */
  lemma PacketizeShape(a: Assembly, data: seq<byte>, samples: uint32, fragments: seq<seq<byte>>, base: nat)
    requires |data| > 0
    requires a.sequenceNumber == base % Uint16Modulus
    ensures var (ps, a') := Packetize(a, data, samples, fragments);
      && |ps| == |fragments|
      && (forall i :: 0 <= i < |ps| ==>
            && ps[i].sequenceNumber == (base + i + 1) % Uint16Modulus
            && ps[i].timestamp == a.timestamp
            && ps[i].payload == fragments[i]
            && ps[i].extension.None?
            && (ps[i].marker <==> i == |ps| - 1))
      && a'.payloader == a.payloader
      && a'.sequenceNumber == (base + |ps|) % Uint16Modulus
      && a'.timestamp == (a.timestamp + samples) % Uint32Modulus
  {
    var (ps, a') := Packetize(a, data, samples, fragments);
    forall i | 0 <= i < |ps|
      ensures ps[i].sequenceNumber == (base + i + 1) % Uint16Modulus
    {
      AdvanceSequenceIsAddition(a.sequenceNumber, i + 1, base);
    }
    AdvanceSequenceIsAddition(a.sequenceNumber, |ps|, base);
  }

  /** The decoded audio-level extension of RFC 6464: a 7-bit level (the
      magnitude of -dBov) and the voice-activity flag. */
  datatype AudioLevel = AudioLevel(level: uint8, voice: bool)

  /** AudioLevelExtension.Marshal with the voice flag unset: one byte
      holding the level, which must fit in 7 bits. */
  function MarshalAudioLevel(level: uint8): (r: Result<seq<byte>>)
    ensures r.Ok? <==> level <= 127
    ensures r.Err? ==> r.error == AudioLevelOverflow
    ensures r.Ok? ==> |r.value| == 1
  {
    if level > 127 then Err(AudioLevelOverflow) else Ok([level])
  }

  /** AudioLevelExtension.Unmarshal: the low 7 bits of the first byte are
      the level, the top bit the voice flag. */
  function UnmarshalAudioLevel(data: seq<byte>): (r: Result<AudioLevel>)
    ensures r.Err? <==> |data| < 1
    ensures r.Ok? ==> r.value.level <= 127
  {
    if |data| < 1 then Err(AudioLevelTooSmall)
    else Ok(AudioLevel(data[0] % 128, data[0] >= 128))
  }

  /** Decoding what Marshal produced gives back the level, with no voice
      activity. */
  lemma AudioLevelRoundTrip(level: uint8)
    requires level <= 127
    ensures MarshalAudioLevel(level).Ok?
    ensures UnmarshalAudioLevel(MarshalAudioLevel(level).value) == Ok(AudioLevel(level, false))
  {
  }
}
