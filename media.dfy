/** Shared value types of the send-side sample pipeline: bytes, errors,
    samples, codec capabilities and the fixed-width integer ranges the
    Go code works with. */
module Media {

  type byte = x: int | 0 <= x < 256
  /** Go's uint8, of which byte is an alias. */
  type uint8 = byte
  type uint16 = x: int | 0 <= x < 0x1_0000
  type uint32 = x: int | 0 <= x < 0x1_0000_0000

  const Uint16Modulus: nat := 0x1_0000
  const Uint32Modulus: nat := 0x1_0000_0000
  const Uint64Modulus: nat := 0x1_0000_0000_0000_0000

  /** Durations are Go time.Duration values, in nanoseconds. */
  const Millisecond: nat := 1_000_000
  const Second: nat := 1_000_000_000

  /** time.Second / 30, the frame duration of the simple providers. */
  const FrameDuration: nat := Second / 30

  datatype Option<+T> = None | Some(value: T)

  /** The errors the core produces itself, plus `External` for errors that
      come from collaborators whose behaviour is not modelled
      (transport, provider hooks, file readers). */
  datatype Error =
    | EOF                    // io.EOF from a provider: a clean end of stream
    | NoPayloaderForCodec    // webrtc.ErrNoPayloaderForCodec
    | AudioLevelOverflow     // the level does not fit the 7 bits of RFC 6464
    | AudioLevelTooSmall     // an audio-level payload shorter than one byte
    | ComingSoon             // "coming soon" (Opus file provider)
    | FormatNotSupported     // "format not supported"
    | BitrateTooLow          // "bitrate lower than minimum of 1920"
    | NilProvider            // a method call on a nil provider (a Go panic)
    | External(code: nat)

  datatype Result<+T> = Ok(value: T) | Err(error: Error)

  /** media.Sample, restricted to the fields the core reads. */
  datatype Sample = Sample(data: seq<byte>, duration: nat, prevDroppedPackets: uint16)

  /** The result of a provider's NextSample: a sample and an optional error. */
  datatype Pulled = Pulled(sample: Sample, err: Option<Error>)

  datatype RtcpFeedback = RtcpFeedback(kind: string, parameter: string)

  /** webrtc.RTPCodecCapability. */
  datatype Codec = Codec(mimeType: string, clockRate: uint32, sdpFmtpLine: string, rtcpFeedback: seq<RtcpFeedback>)

  function Zeros(n: nat): (s: seq<byte>)
    ensures |s| == n
    ensures forall i :: 0 <= i < n ==> s[i] == 0
  {
    seq(n, _ => 0)
  }
}
