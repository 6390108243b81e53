/** The simple sample providers: the null and load-test providers sized
    from a bitrate, the file providers chosen by MIME type, and the
    NextSample of each. File decoding is not modelled: what the H.264 and
    IVF readers return is a parameter. */
module Providers {
  import opened Media
  import opened Payloaders
  import opened Pacing

  /** A sample with no data and no duration: what a provider returns with
      an error, and what the Opus provider always returns. */
  const EmptySample: Sample := Sample([], 0, 0)

  /** bitrate / 8 / 30 in uint32 arithmetic: the bytes one of thirty
      samples a second carries, the largest count whose bits stay within
      the bitrate. */
  function BytesPerSampleOf(bitrate: uint32): (n: uint32)
    ensures n * 8 * 30 <= bitrate < (n + 1) * 8 * 30
  {
    bitrate / 8 / 30
  }

  /** Thirty samples of time.Second / 30 fall ten nanoseconds short of a
      second: the integer division truncates. */
  lemma FrameDurationTruncates()
    ensures FrameDuration == 33_333_333
    ensures 30 * FrameDuration == Second - 10
  {
  }

  datatype NullSampleProvider = NullSampleProvider(bytesPerSample: uint32, sampleDuration: nat)

  /** NewNullSampleProvider: thirty samples a second, sized to the bitrate. */
  function NewNullSampleProvider(bitrate: uint32): (p: NullSampleProvider)
    ensures p.sampleDuration == FrameDuration
    ensures p.bytesPerSample * 8 * 30 <= bitrate < (p.bytesPerSample + 1) * 8 * 30
  {
    NullSampleProvider(BytesPerSampleOf(bitrate), FrameDuration)
  }

  /** NullSampleProvider.NextSample: never an error; BytesPerSample zero
      bytes lasting SampleDuration. */
  function NullNextSample(p: NullSampleProvider): (r: Pulled)
    ensures r.err.None? && r.sample.prevDroppedPackets == 0
    ensures |r.sample.data| == p.bytesPerSample && r.sample.duration == p.sampleDuration
    ensures forall i :: 0 <= i < |r.sample.data| ==> r.sample.data[i] == 0
  {
    Pulled(Sample(Zeros(p.bytesPerSample), p.sampleDuration, 0), None)
  }

  /** A null provider's samples of one second carry the bitrate, rounded
      down to a whole number of bytes per sample. */
  lemma NullProviderMeetsBitrate(bitrate: uint32)
    ensures var s := NullNextSample(NewNullSampleProvider(bitrate)).sample;
      && s.duration == FrameDuration
      && 30 * 8 * |s.data| <= bitrate < 30 * 8 * (|s.data| + 1)
  {
  }

  datatype LoadTestProvider = LoadTestProvider(bytesPerSample: uint32, sampleDuration: nat)

  /** NewLoadTestProvider: the null provider's sizing, refused when a sample
      would be shorter than the 8-byte timestamp it carries. */
  function NewLoadTestProvider(bitrate: uint32): (r: Result<LoadTestProvider>)
    ensures r.Err? <==> BytesPerSampleOf(bitrate) < 8
    ensures r.Err? ==> r.error == BitrateTooLow
    ensures r.Ok? ==> r.value.bytesPerSample == BytesPerSampleOf(bitrate) && r.value.sampleDuration == FrameDuration
  {
    var bps := BytesPerSampleOf(bitrate);
    if bps < 8 then Err(BitrateTooLow) else Ok(LoadTestProvider(bps, FrameDuration))
  }

  /** The minimum the error message names: the load-test provider accepts
      exactly the bitrates of at least 1920 bits per second. */
  lemma {:induction false} LoadTestMinimumBitrate(bitrate: uint32)
    ensures NewLoadTestProvider(bitrate).Ok? <==> bitrate >= 1920
  {
    var n := BytesPerSampleOf(bitrate);
    if bitrate >= 1920 {
      assert 8 * 240 <= bitrate as int < (n as int + 1) * 240;
    }
  }

  /** 256 to the power n. */
  function ByteRange(n: nat): (r: nat)
    ensures r > 0
  {
    if n == 0 then 1 else 256 * ByteRange(n - 1)
  }

  /** The n-byte little-endian encoding of v, least significant byte first,
      as binary.LittleEndian writes it. */
  function LittleEndian(v: nat, n: nat): (s: seq<byte>)
    ensures |s| == n
  {
    if n == 0 then [] else [v % 256] + LittleEndian(v / 256, n - 1)
  }

  /** The number a little-endian byte string stands for. */
  function FromLittleEndian(s: seq<byte>): (v: nat)
    ensures v < ByteRange(|s|)
  {
    if s == [] then 0 else s[0] + 256 * FromLittleEndian(s[1..])
  }

  /** Decoding the encoding gives the value back when it fits in n bytes. */
  lemma {:induction false} LittleEndianRoundTrip(v: nat, n: nat)
    requires v < ByteRange(n)
    ensures FromLittleEndian(LittleEndian(v, n)) == v
  {
    if n > 0 {
      LittleEndianRoundTrip(v / 256, n - 1);
      assert LittleEndian(v, n)[1..] == LittleEndian(v / 256, n - 1);
    }
  }

  /** Encoding what was decoded gives the bytes back. */
  lemma {:induction false} FromLittleEndianRoundTrip(s: seq<byte>)
    ensures LittleEndian(FromLittleEndian(s), |s|) == s
  {
    if s != [] {
      FromLittleEndianRoundTrip(s[1..]);
      var v := FromLittleEndian(s);
      assert v % 256 == s[0] && v / 256 == FromLittleEndian(s[1..]);
    }
  }

  /** binary.LittleEndian.PutUint64: writes the eight bytes of v into the
      front of the buffer, least significant first, one shift at a time. */
  method PutUint64(b: array<byte>, v: nat)
    requires b.Length >= 8 && v < Uint64Modulus
    modifies b
    ensures b[..8] == LittleEndian(v, 8)
    ensures b[8..] == old(b[8..])
  {
    var x := v;
    var i := 0;
    while i < 8
      invariant 0 <= i <= 8
      invariant b[..i] + LittleEndian(x, 8 - i) == LittleEndian(v, 8)
      invariant b[8..] == old(b[8..])
    {
      assert LittleEndian(x, 8 - i) == [x % 256] + LittleEndian(x / 256, 8 - i - 1);
      b[i] := x % 256;
      assert b[..i + 1] == b[..i] + [x % 256];
      x := x / 256;
      i := i + 1;
    }
    assert b[..8] + [] == b[..8];
  }

  /** LoadTestProvider.NextSample: BytesPerSample bytes, zero except for the
      last eight, which hold the clock reading in nanoseconds as the uint64
      the Go conversion makes of it, little-endian. */
  method LoadTestNextSample(p: LoadTestProvider, now: int) returns (r: Pulled)
    requires p.bytesPerSample >= 8
    ensures r.err.None? && r.sample.duration == p.sampleDuration && r.sample.prevDroppedPackets == 0
    ensures |r.sample.data| == p.bytesPerSample
    ensures forall i :: 0 <= i < p.bytesPerSample - 8 ==> r.sample.data[i] == 0
    ensures FromLittleEndian(r.sample.data[p.bytesPerSample - 8..]) == now % Uint64Modulus
  {
    var ts := new byte[8](_ => 0);
    var stamp := now % Uint64Modulus;
    PutUint64(ts, stamp);
    var packet := Zeros(p.bytesPerSample - 8) + ts[..];
    assert packet[p.bytesPerSample - 8..] == ts[..8];
    assert ByteRange(8) == Uint64Modulus;
    LittleEndianRoundTrip(stamp, 8);
    r := Pulled(Sample(packet, p.sampleDuration, 0), None);
  }

  /** The parameters every H.264 fmtp line of the file provider shares, up
      to the packetization-mode value, and the name of the profile
      parameter that follows it. */
  const FmtpPrefix: string := "level-asymmetry-allowed=1;packetization-mode="
  const ProfileParameter: string := ";profile-level-id="

  /** The H.264 fmtp line of the file provider for counter value k. */
  function FmtpLine(k: nat): (line: string)
    ensures line == ComposedFmtp(k % 2, ProfileLevelIds[(k % 6) / 2])
  {
    match k % 6
    case 0 => FmtpPrefix + "0" + ProfileParameter + "42001f"
    case 1 => FmtpPrefix + "1" + ProfileParameter + "42001f"
    case 2 => FmtpPrefix + "0" + ProfileParameter + "42e01f"
    case 3 => FmtpPrefix + "1" + ProfileParameter + "42e01f"
    case 4 => FmtpPrefix + "0" + ProfileParameter + "640032"
    case 5 => FmtpPrefix + "1" + ProfileParameter + "640032"
  }

  /** The profile-level-id values of section 8.1 of RFC 6184 the lines
      offer: baseline level 3.1, constrained baseline level 3.1 and high
      level 5.0. */
  const ProfileLevelIds: seq<string> := ["42001f", "42e01f", "640032"]

  /** An fmtp line built from its two parameters. */
  function ComposedFmtp(mode: nat, profileLevelId: string): (line: string)
    requires mode <= 1
  {
    FmtpPrefix + (if mode == 0 then "0" else "1") + ProfileParameter + profileLevelId
  }

  /** The lines repeat after six calls, and consecutive calls never offer
      the same line: the packetization mode alternates. */
  lemma FmtpRoundRobin(k: nat)
    ensures FmtpLine(k + 6) == FmtpLine(k)
    ensures FmtpLine(k + 1) != FmtpLine(k)
  {
    assert (k + 6) % 6 == k % 6 && (k + 6) % 2 == k % 2;
    ModeAfterPrefix(k % 2, ProfileLevelIds[(k % 6) / 2]);
    ModeAfterPrefix((k + 1) % 2, ProfileLevelIds[((k + 1) % 6) / 2]);
  }

  /** The character after the common prefix is the packetization mode. */
  lemma ModeAfterPrefix(mode: nat, profileLevelId: string)
    requires mode <= 1
    ensures ComposedFmtp(mode, profileLevelId)[|FmtpPrefix|] == (if mode == 0 then '0' else '1')
  {
  }

  /** The RTCP feedback the H.264 capability advertises. */
  const H264Feedback: seq<RtcpFeedback> :=
    [RtcpFeedback("goog-remb", ""), RtcpFeedback("ccm", "fir"), RtcpFeedback("nack", ""), RtcpFeedback("nack", "pli")]

  /** The H.264 capability of the k-th H.264 file provider. */
  function H264Capability(k: nat): (codec: Codec)
    ensures codec.mimeType == MimeTypeH264 && codec.clockRate == 90000
    ensures codec.rtcpFeedback == H264Feedback && |codec.rtcpFeedback| == 4
    ensures codec.sdpFmtpLine == FmtpLine(k)
  {
    Codec(MimeTypeH264, 90000, FmtpLine(k), H264Feedback)
  }

  /** The zero RTPCodecCapability returned with every error. */
  const NoCapability: Codec := Codec("", 0, "", [])

  /** The providers NewFileSampleProvider builds; the file readers behind
      them are not modelled. */
  datatype FileProvider = H264VideoProvider | VP8VideoProvider(sampleDuration: nat)

  /** The package-level state of the file providers: the counter c that
      picks the next H.264 fmtp line. */
  class FileProviders {
    var c: nat

    constructor ()
      ensures c == 0
    {
      c := 0;
    }

    /** NewFileSampleProvider: the MIME type is matched exactly. Opus is
        "coming soon"; H.264 opens its reader, whose error is returned as
        is, and otherwise takes the next fmtp line and moves the counter
        on; VP8 opens its IVF reader, whose header gives the frame
        duration; anything else is not supported. Every error comes with
        no provider and the zero capability. */
    method NewFileSampleProvider(mimeType: string, h264Open: Option<Error>, ivfOpen: Result<nat>)
      returns (provider: Option<FileProvider>, codec: Codec, err: Option<Error>)
      modifies this
      ensures err.Some? ==> provider.None? && codec == NoCapability
      ensures mimeType == MimeTypeOpus ==> err == Some(ComingSoon) && c == old(c)
      ensures mimeType == MimeTypeH264 && h264Open.Some? ==> err == h264Open && c == old(c)
      ensures mimeType == MimeTypeH264 && h264Open.None? ==>
                && err.None? && provider == Some(H264VideoProvider)
                && codec == H264Capability(old(c)) && c == old(c) + 1
      ensures mimeType == MimeTypeVP8 && ivfOpen.Err? ==> err == Some(ivfOpen.error) && c == old(c)
      ensures mimeType == MimeTypeVP8 && ivfOpen.Ok? ==>
                && err.None? && provider == Some(VP8VideoProvider(ivfOpen.value))
                && codec == Codec(MimeTypeVP8, 0, "", []) && c == old(c)
      ensures mimeType !in {MimeTypeOpus, MimeTypeH264, MimeTypeVP8} ==> err == Some(FormatNotSupported) && c == old(c)
    {
      provider, codec, err := None, NoCapability, None;
      if mimeType == MimeTypeOpus {
        err := Some(ComingSoon);
      } else if mimeType == MimeTypeH264 {
        if h264Open.Some? {
          err := h264Open;
          return;
        }
        codec := Codec(MimeTypeH264, 90000, "", H264Feedback);
        codec := codec.(sdpFmtpLine := FmtpLine(c));
        c := c + 1;
        provider := Some(H264VideoProvider);
      } else if mimeType == MimeTypeVP8 {
        if ivfOpen.Err? {
          err := Some(ivfOpen.error);
          return;
        }
        provider := Some(VP8VideoProvider(ivfOpen.value));
        codec := Codec(MimeTypeVP8, 0, "", []);
      } else {
        err := Some(FormatNotSupported);
      }
    }
  }

  /** OpusAudioProvider.NextSample: an empty sample and no error. */
  function OpusNextSample(): (r: Pulled)
    ensures r.err.None? && r.sample.data == [] && r.sample.duration == 0
  {
    Pulled(EmptySample, None)
  }

  /** H264VideoProvider.NextSample: the reader's next NAL unit as a sample
      of a thirtieth of a second, or the reader's error with an empty
      sample. */
  function H264NextSample(nal: Result<seq<byte>>): (r: Pulled)
    ensures nal.Err? ==> r.sample == EmptySample && r.err == Some(nal.error)
    ensures nal.Ok? ==> r.err.None? && r.sample.data == nal.value && r.sample.duration == FrameDuration
  {
    if nal.Err? then Pulled(EmptySample, Some(nal.error))
    else Pulled(Sample(nal.value, FrameDuration, 0), None)
  }

  /** VP8VideoProvider.NextSample: the reader's next frame lasting the
      duration taken from the IVF header, or the reader's error with an
      empty sample. */
  function VP8NextSample(p: FileProvider, frame: Result<seq<byte>>): (r: Pulled)
    requires p.VP8VideoProvider?
    ensures frame.Err? ==> r.sample == EmptySample && r.err == Some(frame.error)
    ensures frame.Ok? ==> r.err.None? && r.sample.data == frame.value && r.sample.duration == p.sampleDuration
  {
    if frame.Err? then Pulled(EmptySample, Some(frame.error))
    else Pulled(Sample(frame.value, p.sampleDuration, 0), None)
  }

  /** Samples of one fixed duration move the worker's target time by that
      duration each. */
  lemma {:induction false} FixedDurationsAddUp(pulls: seq<Pulled>, i: nat, j: nat, d: nat)
    requires i <= j <= |pulls|
    requires forall k :: i <= k < j ==> pulls[k].sample.duration == d
    ensures Durations(pulls, i, j) == (j - i) * d
    decreases j - i
  {
    if i < j {
      FixedDurationsAddUp(pulls, i + 1, j, d);
    }
  }

  /** Fed by an H.264 file provider, the worker's target after n NAL units
      read without error is n thirtieths of a second (truncated) past its
      start. */
  lemma H264PacesAtFrameRate(nals: seq<Result<seq<byte>>>, n: nat)
    requires n <= |nals|
    requires forall k :: 0 <= k < n ==> nals[k].Ok?
    ensures var pulls := seq(|nals|, k requires 0 <= k < |nals| => H264NextSample(nals[k]));
      Durations(pulls, 0, n) == n * FrameDuration
  {
    var pulls := seq(|nals|, k requires 0 <= k < |nals| => H264NextSample(nals[k]));
    forall k | 0 <= k < n
      ensures pulls[k].sample.duration == FrameDuration
    {
      assert pulls[k] == H264NextSample(nals[k]);
    }
    FixedDurationsAddUp(pulls, 0, n, FrameDuration);
  }
}
