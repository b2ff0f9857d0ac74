/**
 * MatroskaDecoder's "can this be played?" decision: the codec-token
 * classifier GetTracksInfo and the support resolver IsSupportedType.
 *
 * The first half states, as functions, what each codec token is classified
 * as and what the whole list yields; the second half is the code itself,
 * loops and early returns included, proved against those functions.
 */
module MatroskaDecoder {
  import opened MediaTypes

  /** The four container types the decoder registers. */
  predicate IsMatroskaType(mimeType: MediaMimeType) {
    mimeType == VideoXMatroska || mimeType == VideoMkv ||
    mimeType == AudioXMatroska || mimeType == AudioMkv
  }

  /** Only these two container types let video codec patterns be tried. */
  predicate IsVideoType(mimeType: MediaMimeType) {
    mimeType == VideoXMatroska || mimeType == VideoMkv
  }

  // ---------------------------------------------------------------------
  // Token patterns
  // ---------------------------------------------------------------------

  predicate IsAudioCodec(codec: string) {
    codec == "opus" || codec == "vorbis" ||
    codec == "mp4a" || StartsWith(codec, "mp4a.") ||
    codec == "aac" || StartsWith(codec, "aac.")
  }

  predicate IsAvcCodec(codec: string) {
    codec == "avc1" || StartsWith(codec, "avc1.") ||
    codec == "h264" || StartsWith(codec, "h264.")
  }

  predicate IsHevcCodec(codec: string) {
    codec == "hvc1" || StartsWith(codec, "hvc1.") ||
    codec == "hev1" || StartsWith(codec, "hev1.") ||
    codec == "hevc" || StartsWith(codec, "hevc.")
  }

  /** The canonical MIME type of an audio-family token. */
  function AudioMimeType(codec: string): string {
    if codec == "opus" then "audio/opus"
    else if codec == "vorbis" then "audio/vorbis"
    else "audio/mp4a-latm"
  }

  /** The descriptor of an audio track with the given canonical MIME type. */
  function AudioTrack(mimeType: string): TrackInfo { TrackInfo(Audio, mimeType) }

  /** The descriptor of a video track with the given canonical MIME type. */
  function VideoTrack(mimeType: string): TrackInfo { TrackInfo(Video, mimeType) }

  // ---------------------------------------------------------------------
  // Specification of the classifier
  // ---------------------------------------------------------------------

  /**
   * The track one codec token yields, or None when the token is unknown.
   * First match wins: audio family, then (video containers only) VP9, VP8,
   * AVC, HEVC, and last AV1 when enabled, whatever the container category.
   */
  function ClassifyToken(codec: string, isVideo: bool, platform: Platform): (r: Option<TrackInfo>)
    ensures (r.Some? && r.value.kind == Audio) <==> IsAudioCodec(codec)
    ensures !isVideo && r.Some? && !IsAudioCodec(codec) ==>
              r.value == TrackInfo(Video, "video/av1") && platform.av1Enabled
  {
    if IsAudioCodec(codec) then Some(AudioTrack(AudioMimeType(codec)))
    else if isVideo && platform.isVP9CodecString(codec) then Some(VideoTrack("video/vp9"))
    else if isVideo && platform.isVP8CodecString(codec) then Some(VideoTrack("video/vp8"))
    else if isVideo && IsAvcCodec(codec) then Some(VideoTrack("video/avc"))
    else if isVideo && IsHevcCodec(codec) then Some(VideoTrack("video/hevc"))
    else if platform.av1Enabled && platform.isAV1CodecString(codec) then Some(VideoTrack("video/av1"))
    else None
  }

  predicate Recognized(codec: string, isVideo: bool, platform: Platform) {
    ClassifyToken(codec, isVideo, platform).Some?
  }

  // ---------------------------------------------------------------------
  // Specification of the token loop
  //
  // The list-level definitions take the per-token classification as a
  // function value, so that what they promise holds for any cascade; the
  // decoder's own is TokenClassifier.
  // ---------------------------------------------------------------------

  type Classifier = string -> Option<TrackInfo>

  /** The decoder's cascade for a container of the given category. */
  function TokenClassifier(isVideo: bool, platform: Platform): Classifier {
    codec => ClassifyToken(codec, isVideo, platform)
  }

  predicate AllRecognized(codecs: seq<string>, classify: Classifier) {
    forall i :: 0 <= i < |codecs| ==> classify(codecs[i]).Some?
  }

  /** The tracks built for `codecs`: one per recognised token, in order. */
  function Tracks(codecs: seq<string>, classify: Classifier): (r: seq<TrackInfo>)
    ensures |r| <= |codecs|
    decreases |codecs|
  {
    if codecs == [] then []
    else
      var prev := Tracks(codecs[..|codecs| - 1], classify);
      match classify(codecs[|codecs| - 1])
      case Some(t) => prev + [t]
      case None => prev
  }

  /**
   * The error left behind once every token of `codecs` has been looked at:
   * success unless some token is unknown, in which case the last unknown
   * token is the one reported.
   */
  function Verdict(codecs: seq<string>, classify: Classifier): (r: MediaResult)
    ensures r.Ok? || r.UnknownCodec?
    ensures r.UnknownCodec? ==> r.codec in codecs && classify(r.codec).None?
    decreases |codecs|
  {
    if codecs == [] then Ok
    else if classify(codecs[|codecs| - 1]).None? then UnknownCodec(codecs[|codecs| - 1])
    else Verdict(codecs[..|codecs| - 1], classify)
  }

  /** The track list of the two-argument GetTracksInfo. */
  function TracksOf(aType: MediaContainerType, platform: Platform): (r: seq<TrackInfo>)
    ensures |r| <= |aType.codecs|
    ensures !IsMatroskaType(aType.mimeType) ==> r == []
  {
    if IsMatroskaType(aType.mimeType) then Tracks(aType.codecs, TokenClassifier(IsVideoType(aType.mimeType), platform))
    else []
  }

  /** The error out-parameter of the two-argument GetTracksInfo. */
  function ResultOf(aType: MediaContainerType, platform: Platform): (r: MediaResult)
    ensures r.InvalidType? <==> !IsMatroskaType(aType.mimeType)
    ensures r.InvalidType? ==> r.mimeType == aType.mimeType
    ensures r.UnknownCodec? ==>
              r.codec in aType.codecs && !Recognized(r.codec, IsVideoType(aType.mimeType), platform)
  {
    if IsMatroskaType(aType.mimeType) then Verdict(aType.codecs, TokenClassifier(IsVideoType(aType.mimeType), platform))
    else InvalidType(aType.mimeType)
  }

  predicate AllSupported(tracks: seq<TrackInfo>, pdmSupports: TrackInfo -> bool) {
    forall i :: 0 <= i < |tracks| ==> pdmSupports(tracks[i])
  }

  /** The answer of IsSupportedType. */
  predicate IsSupported(aType: MediaContainerType, platform: Platform): (b: bool)
    ensures b ==> platform.webmEnabled && IsMatroskaType(aType.mimeType)
  {
    platform.webmEnabled &&
    ResultOf(aType, platform).Ok? &&
    AllSupported(TracksOf(aType, platform), platform.pdmSupports)
  }

  /** A list is recognised throughout iff its front and its last token are. */
  lemma AllRecognizedSnoc(prefix: seq<string>, codec: string, classify: Classifier)
    ensures AllRecognized(prefix + [codec], classify) <==>
              AllRecognized(prefix, classify) && classify(codec).Some?
  {
    var codecs := prefix + [codec];
    assert codecs[|prefix|] == codec;
    assert forall i :: 0 <= i < |prefix| ==> codecs[i] == prefix[i];
  }

  /** What looking at one more token does to the specified tracks and error. */
  lemma TracksAndVerdictSnoc(prefix: seq<string>, codec: string, classify: Classifier)
    ensures Tracks(prefix + [codec], classify) ==
            if classify(codec).Some? then Tracks(prefix, classify) + [classify(codec).value]
            else Tracks(prefix, classify)
    ensures Verdict(prefix + [codec], classify) ==
            if classify(codec).Some? then Verdict(prefix, classify) else UnknownCodec(codec)
  {
    var codecs := prefix + [codec];
    assert codecs[..|prefix|] == prefix;
    assert codecs[|prefix|] == codec;
  }

  /** The same, for the prefixes of one list that the decoder's loop walks through. */
  lemma TracksAndVerdictStep(codecs: seq<string>, i: nat, classify: Classifier)
    requires i < |codecs|
    ensures Tracks(codecs[..i + 1], classify) ==
            if classify(codecs[i]).Some? then Tracks(codecs[..i], classify) + [classify(codecs[i]).value]
            else Tracks(codecs[..i], classify)
    ensures Verdict(codecs[..i + 1], classify) ==
            if classify(codecs[i]).Some? then Verdict(codecs[..i], classify) else UnknownCodec(codecs[i])
  {
    assert codecs[..i + 1] == codecs[..i] + [codecs[i]];
    TracksAndVerdictSnoc(codecs[..i], codecs[i], classify);
  }

  lemma {:induction false} VerdictOkIffAllRecognized(codecs: seq<string>, classify: Classifier)
    ensures Verdict(codecs, classify).Ok? <==> AllRecognized(codecs, classify)
    decreases |codecs|
  {
    if codecs != [] {
      var n := |codecs| - 1;
      var prefix := codecs[..n];
      VerdictOkIffAllRecognized(prefix, classify);
      AllRecognizedSnoc(prefix, codecs[n], classify);
      assert prefix + [codecs[n]] == codecs;
    }
  }

  lemma {:induction false} TracksLengthIffAllRecognized(codecs: seq<string>, classify: Classifier)
    ensures |Tracks(codecs, classify)| == |codecs| <==> AllRecognized(codecs, classify)
    decreases |codecs|
  {
    if codecs != [] {
      var n := |codecs| - 1;
      var prefix := codecs[..n];
      TracksLengthIffAllRecognized(prefix, classify);
      AllRecognizedSnoc(prefix, codecs[n], classify);
      assert prefix + [codecs[n]] == codecs;
    }
  }

  /** The positions of the tokens that the classification recognises. */
  function RecognizedPositions(codecs: seq<string>, classify: Classifier): set<int> {
    set i | 0 <= i < |codecs| && classify(codecs[i]).Some?
  }

  /** One more token adds its own position to the recognised ones exactly when it is recognised. */
  lemma RecognizedPositionsSnoc(prefix: seq<string>, codec: string, classify: Classifier)
    ensures |prefix| !in RecognizedPositions(prefix, classify)
    ensures RecognizedPositions(prefix + [codec], classify) ==
            RecognizedPositions(prefix, classify) + (if classify(codec).Some? then {|prefix|} else {})
  {
    var codecs := prefix + [codec];
    assert codecs[|prefix|] == codec;
    forall i | 0 <= i < |prefix|
      ensures codecs[i] == prefix[i]
    {
    }
  }

  /** There are as many tracks as recognised tokens, unknown ones contributing none. */
  lemma {:induction false} TracksCount(codecs: seq<string>, classify: Classifier)
    ensures |Tracks(codecs, classify)| == |RecognizedPositions(codecs, classify)|
    decreases |codecs|
  {
    if codecs != [] {
      var n := |codecs| - 1;
      var prefix := codecs[..n];
      assert prefix + [codecs[n]] == codecs;
      TracksCount(prefix, classify);
      TracksAndVerdictSnoc(prefix, codecs[n], classify);
      RecognizedPositionsSnoc(prefix, codecs[n], classify);
    }
  }

  // ---------------------------------------------------------------------
  // The code
  // ---------------------------------------------------------------------

  /**
   * The body of GetTracksInfo's loop for one token: the first rule that
   * matches builds the track, and None stands for "unknown codec".
   */
  method ClassifyCodec(codec: string, isVideo: bool, platform: Platform) returns (trackInfo: Option<TrackInfo>)
    ensures trackInfo == ClassifyToken(codec, isVideo, platform)
  {
    if IsAudioCodec(codec) {
      var mimeType;
      if codec == "opus" {
        mimeType := "audio/opus";
      } else if codec == "vorbis" {
        mimeType := "audio/vorbis";
      } else {
        mimeType := "audio/mp4a-latm";
      }
      return Some(AudioTrack(mimeType));
    }
    if isVideo {
      trackInfo := None;
      if platform.isVP9CodecString(codec) {
        trackInfo := Some(VideoTrack("video/vp9"));
      } else if platform.isVP8CodecString(codec) {
        trackInfo := Some(VideoTrack("video/vp8"));
      } else if IsAvcCodec(codec) {
        trackInfo := Some(VideoTrack("video/avc"));
      } else if IsHevcCodec(codec) {
        trackInfo := Some(VideoTrack("video/hevc"));
      }
      if trackInfo.Some? {
        return trackInfo;
      }
    }
    if platform.av1Enabled && platform.isAV1CodecString(codec) {
      return Some(VideoTrack("video/av1"));
    }
    return None;
  }

  /**
   * GetTracksInfo(aType, aError): checks the container type, then walks the
   * codec tokens, appending one track per recognised token and recording a
   * failure (without stopping) for each unknown one.
   */
  method GetTracksInfo(aType: MediaContainerType, platform: Platform)
    returns (tracks: seq<TrackInfo>, error: MediaResult)
    ensures tracks == TracksOf(aType, platform)
    ensures error == ResultOf(aType, platform)
    ensures !IsMatroskaType(aType.mimeType) ==> tracks == [] && error == InvalidType(aType.mimeType)
  {
    tracks := [];
    var isVideo := aType.mimeType == VideoXMatroska || aType.mimeType == VideoMkv;

    if aType.mimeType != AudioXMatroska && aType.mimeType != AudioMkv && !isVideo {
      error := InvalidType(aType.mimeType);
      return;
    }

    error := Ok;
    ghost var classify := TokenClassifier(isVideo, platform);

    var codecs := aType.codecs;
    if |codecs| == 0 {
      return;
    }

    for i := 0 to |codecs|
      invariant tracks == Tracks(codecs[..i], classify)
      invariant error == Verdict(codecs[..i], classify)
    {
      var codec := codecs[i];
      TracksAndVerdictStep(codecs, i, classify);
      var trackInfo := ClassifyCodec(codec, isVideo, platform);
      if trackInfo.Some? {
        tracks := tracks + [trackInfo.value];
        continue;
      }
      // Unknown codec
      error := UnknownCodec(codec);
    }
    assert codecs[..|codecs|] == codecs;
  }

  /** GetTracksInfo(aType): the same tracks, with the error discarded. */
  method GetTracks(aType: MediaContainerType, platform: Platform) returns (tracks: seq<TrackInfo>)
    ensures tracks == TracksOf(aType, platform)
    ensures IsMatroskaType(aType.mimeType) ==>
              (|tracks| == |aType.codecs| <==>
               forall i :: 0 <= i < |aType.codecs| ==> Recognized(aType.codecs[i], IsVideoType(aType.mimeType), platform))
  {
    var rv;
    tracks, rv := GetTracksInfo(aType, platform);
    TracksLengthIffAllRecognized(aType.codecs, TokenClassifier(IsVideoType(aType.mimeType), platform));
  }

  /**
   * IsSupportedType: false when the preference is off or classification
   * failed, true for an empty track list, otherwise true exactly when the
   * decoder factory supports every track, giving up at the first it does not.
   */
  method IsSupportedType(aContainerType: MediaContainerType, platform: Platform) returns (supported: bool)
    ensures supported == IsSupported(aContainerType, platform)
  {
    if !platform.webmEnabled {
      return false;
    }

    var tracks, rv := GetTracksInfo(aContainerType, platform);

    if rv.Failed() {
      return false;
    }

    if |tracks| == 0 {
      // The container's default codecs are always playable.
      return true;
    }

    for i := 0 to |tracks|
      invariant forall j :: 0 <= j < i ==> platform.pdmSupports(tracks[j])
    {
      if !platform.pdmSupports(tracks[i]) {
        return false;
      }
    }

    return true;
  }
}
