/**
 * The values the Matroska decoder exchanges with the rest of the media
 * stack: the declared container type, the per-track descriptors it builds,
 * the result code it reports, and the collaborators it consults but does
 * not own (preferences, codec-string recognisers, the decoder factory).
 */
module MediaTypes {

  datatype Option<+T> = None | Some(value: T)

  /**
   * A MediaMIMEType: the four Matroska types the decoder compares against
   * are constants, every other type is kept by its name.
   */
  datatype MediaMimeType =
    | VideoXMatroska
    | VideoMkv
    | AudioXMatroska
    | AudioMkv
    | OtherType(name: string)

  const MATROSKA_MIME_NAMES: seq<string> := ["video/x-matroska", "video/mkv", "audio/x-matroska", "audio/mkv"]

  /** The text of a MIME type. */
  function MimeTypeName(t: MediaMimeType): string {
    match t
    case VideoXMatroska => "video/x-matroska"
    case VideoMkv => "video/mkv"
    case AudioXMatroska => "audio/x-matroska"
    case AudioMkv => "audio/mkv"
    case OtherType(name) => name
  }

  /** A MIME type from its text: one of the constants exactly when the text is theirs. */
  function ParseMimeType(s: string): (t: MediaMimeType)
    ensures MimeTypeName(t) == s
    ensures t.OtherType? <==> s !in MATROSKA_MIME_NAMES
  {
    if s == "video/x-matroska" then VideoXMatroska
    else if s == "video/mkv" then VideoMkv
    else if s == "audio/x-matroska" then AudioXMatroska
    else if s == "audio/mkv" then AudioMkv
    else OtherType(s)
  }

  /** A container MIME type together with its (already parsed) `codecs=` list. */
  datatype MediaContainerType = MediaContainerType(mimeType: MediaMimeType, codecs: seq<string>)

  datatype TrackKind = Audio | Video

  /**
   * The part of a TrackInfo this model keeps: whether it describes an audio
   * or a video stream, and its canonical MIME type.
   */
  datatype TrackInfo = TrackInfo(kind: TrackKind, mimeType: string)

  /**
   * A MediaResult as the decoder reports it: success, or a fatal error whose
   * detail names the rejected container type or an unrecognised codec token.
   */
  datatype MediaResult =
    | Ok
    | InvalidType(mimeType: MediaMimeType)
    | UnknownCodec(codec: string)
  {
    predicate Failed() { !Ok? }
  }

  /**
   * Everything outside the decoder that its answer depends on: the
   * `media.webm.enabled` preference, the AV1 switch (compiled in and the
   * `media.av1.enabled` preference on), the VP9/VP8/AV1 codec-string
   * recognisers, and the platform decoder factory's verdict on a track.
   */
  datatype Platform = Platform(
    webmEnabled: bool,
    av1Enabled: bool,
    isVP9CodecString: string -> bool,
    isVP8CodecString: string -> bool,
    isAV1CodecString: string -> bool,
    pdmSupports: TrackInfo -> bool)

  /** Whether `pattern` occurs in `s` at index `k`. */
  predicate OccursAt(s: string, pattern: string, k: int) {
    0 <= k && k + |pattern| <= |s| && s[k..k + |pattern|] == pattern
  }

  /**
   * nsTString::Find searching from index `from`: the first index at or after
   * `from` where `pattern` occurs, or -1 when there is none.
   */
  function Find(s: string, pattern: string, from: nat): (r: int)
    ensures r == -1 || (from <= r && OccursAt(s, pattern, r))
    ensures forall k :: from <= k && (r == -1 || k < r) ==> !OccursAt(s, pattern, k)
    decreases |s| - from
  {
    if from + |pattern| > |s| then -1
    else if OccursAt(s, pattern, from) then from
    else Find(s, pattern, from + 1)
  }

  /** `s.Find(prefix) == 0`: the first occurrence of `prefix` is at the start. */
  predicate StartsWith(s: string, prefix: string): (b: bool)
    ensures b <==> Find(s, prefix, 0) == 0
  {
    |prefix| <= |s| && s[..|prefix|] == prefix
  }
}
