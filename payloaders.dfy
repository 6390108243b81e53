/** Selection of the RTP payloader from a negotiated codec's MIME type
    (payloaderForCodec). The comparison ignores case. */
module Payloaders {
  import opened Media

  /** The payload-framing strategies the track can use. */
  datatype Payloader = H264 | Opus | VP8 | VP9 | G722 | G711

  /** The MIME type constants of the WebRTC library, as it spells them. */
  const MimeTypeH264: string := "video/H264"
  const MimeTypeOpus: string := "audio/opus"
  const MimeTypeVP8: string := "video/VP8"
  const MimeTypeVP9: string := "video/VP9"
  const MimeTypeG722: string := "audio/G722"
  const MimeTypePCMU: string := "audio/PCMU"
  const MimeTypePCMA: string := "audio/PCMA"

  /** unicode.ToLower of one character, as far as it can matter to an
      ASCII comparison: ASCII upper-case letters, and the two non-ASCII
      characters whose lower case is ASCII, U+0130 (capital I with dot
      above, lower-cased to 'i') and U+212A (Kelvin sign, lower-cased to
      'k'). Every other character is kept. */
  function LowerChar(ch: char): (r: char)
    ensures 'A' <= ch <= 'Z' ==> r as int == ch as int + 32
    ensures ch == '\U{0130}' ==> r == 'i'
    ensures ch == '\U{212A}' ==> r == 'k'
    ensures !('A' <= ch <= 'Z') && ch != '\U{0130}' && ch != '\U{212A}' ==> r == ch
    ensures !('A' <= r <= 'Z')
  {
    if 'A' <= ch <= 'Z' then (ch as int + 32) as char
    else if ch == '\U{0130}' then 'i'
    else if ch == '\U{212A}' then 'k'
    else ch
  }

  /** strings.ToLower, character by character. */
  function ToLower(s: string): (r: string)
    ensures |r| == |s|
    ensures forall i :: 0 <= i < |s| ==> r[i] == LowerChar(s[i])
  {
    seq(|s|, i requires 0 <= i < |s| => LowerChar(s[i]))
  }

  /** Lower-casing twice is lower-casing once. */
  lemma ToLowerIdempotent(s: string)
    ensures ToLower(ToLower(s)) == ToLower(s)
  {
  }

  /** The lower-cased MIME types that select each payloader. */
  function MimesOf(k: Payloader): (r: set<string>)
    ensures r != {}
  {
    match k
    case H264 => {"video/h264"}
    case Opus => {"audio/opus"}
    case VP8 => {"video/vp8"}
    case VP9 => {"video/vp9"}
    case G722 => {"audio/g722"}
    case G711 => {"audio/pcmu", "audio/pcma"}
  }

  /** payloaderForCodec: the payloader for a MIME type, compared without
      regard to case; any other type is ErrNoPayloaderForCodec. */
  function PayloaderForCodec(mimeType: string): (r: Result<Payloader>)
    ensures r.Err? ==> r.error == NoPayloaderForCodec
  {
    var m := ToLower(mimeType);
    if m == "video/h264" then Ok(H264)
    else if m == "audio/opus" then Ok(Opus)
    else if m == "video/vp8" then Ok(VP8)
    else if m == "video/vp9" then Ok(VP9)
    else if m == "audio/g722" then Ok(G722)
    else if m == "audio/pcmu" || m == "audio/pcma" then Ok(G711)
    else Err(NoPayloaderForCodec)
  }

  /** The selector is determined by the lower-cased MIME type: it answers
      the same for a type and for its lower-cased form. */
  lemma PayloaderIgnoresCase(mimeType: string)
    ensures PayloaderForCodec(ToLower(mimeType)) == PayloaderForCodec(mimeType)
  {
    ToLowerIdempotent(mimeType);
  }

  /** Every MIME type the selector accepts for a payloader, and only those,
      selects that payloader (both directions). */
  lemma PayloaderExactly(mimeType: string, k: Payloader)
    ensures PayloaderForCodec(mimeType) == Ok(k) <==> ToLower(mimeType) in MimesOf(k)
  {
  }

  /** The library's MIME constants select their own payloader; PCMU and PCMA share the G.711 payloader. */
  lemma LibraryMimeTypesSelect()
    ensures PayloaderForCodec(MimeTypeH264) == Ok(H264)
    ensures PayloaderForCodec(MimeTypeOpus) == Ok(Opus)
    ensures PayloaderForCodec(MimeTypeVP8) == Ok(VP8)
    ensures PayloaderForCodec(MimeTypeVP9) == Ok(VP9)
    ensures PayloaderForCodec(MimeTypeG722) == Ok(G722)
    ensures PayloaderForCodec(MimeTypePCMU) == Ok(G711)
    ensures PayloaderForCodec(MimeTypePCMA) == Ok(G711)
    ensures PayloaderForCodec("video/AV1") == Err(NoPayloaderForCodec)
  {
    assert ToLower(MimeTypeH264) == "video/h264";
    assert ToLower(MimeTypeOpus) == "audio/opus";
    assert ToLower(MimeTypeVP8) == "video/vp8";
    assert ToLower(MimeTypeVP9) == "video/vp9";
    assert ToLower(MimeTypeG722) == "audio/g722";
    assert ToLower(MimeTypePCMU) == "audio/pcmu";
    assert ToLower(MimeTypePCMA) == "audio/pcma";
  }

  /** Spellings in other letter cases select the same payloader, including
      the non-ASCII capital I with dot above, which lower-cases to 'i'. */
  lemma MixedCaseSelect()
    ensures PayloaderForCodec("VIDEO/h264") == Ok(H264)
    ensures PayloaderForCodec("v\U{0130}deo/H264") == Ok(H264)
    ensures PayloaderForCodec("Audio/PCMA") == Ok(G711)
  {
    assert ToLower("VIDEO/h264") == "video/h264";
    assert ToLower("v\U{0130}deo/H264") == "video/h264";
    assert ToLower("Audio/PCMA") == "audio/pcma";
  }
}
