/**
 * What the Matroska classifier and support resolver promise, stated over
 * the specification functions that GetTracksInfo and IsSupportedType are
 * proved to compute.
 */
module MatroskaProperties {
  import opened MediaTypes
  import opened MatroskaDecoder

  // ---------------------------------------------------------------------
  // Container type
  // ---------------------------------------------------------------------

  /**
   * A type read from its text is one of the four registered types exactly
   * when the text is one of their names, and a video type exactly when it
   * is `video/x-matroska` or `video/mkv`.
   */
  lemma RegisteredTypeNames(s: string)
    ensures IsMatroskaType(ParseMimeType(s)) <==> s in MATROSKA_MIME_NAMES
    ensures IsVideoType(ParseMimeType(s)) <==> s == "video/x-matroska" || s == "video/mkv"
  {
  }

  /**
   * A container type whose text is none of the four registered names fails
   * with an invalid-type error and no tracks, whatever its codec list holds.
   */
  lemma InvalidTypeRejected(name: string, codecs: seq<string>, other: seq<string>, platform: Platform)
    requires name !in MATROSKA_MIME_NAMES
    ensures TracksOf(MediaContainerType(ParseMimeType(name), codecs), platform) == []
    ensures ResultOf(MediaContainerType(ParseMimeType(name), codecs), platform) == InvalidType(OtherType(name))
    ensures ResultOf(MediaContainerType(ParseMimeType(name), codecs), platform) ==
            ResultOf(MediaContainerType(ParseMimeType(name), other), platform)
    ensures !IsSupported(MediaContainerType(ParseMimeType(name), codecs), platform)
  {
  }

  /**
   * A registered type with no codec list succeeds with no tracks, and is
   * then supported whenever the preference is on, whatever the decoder
   * factory says.
   */
  lemma EmptyCodecListSupported(mimeType: MediaMimeType, platform: Platform)
    requires IsMatroskaType(mimeType)
    ensures TracksOf(MediaContainerType(mimeType, []), platform) == []
    ensures ResultOf(MediaContainerType(mimeType, []), platform) == Ok
    ensures IsSupported(MediaContainerType(mimeType, []), platform) <==> platform.webmEnabled
  {
  }

  // ---------------------------------------------------------------------
  // One token
  // ---------------------------------------------------------------------

  /**
   * Audio-family tokens are classified under audio and video containers
   * alike: opus and vorbis to their own MIME types, every mp4a/aac form to
   * audio/mp4a-latm.
   */
  lemma AudioTokenClassification(codec: string, isVideo: bool, platform: Platform)
    requires IsAudioCodec(codec)
    ensures codec == "opus" ==> ClassifyToken(codec, isVideo, platform) == Some(TrackInfo(Audio, "audio/opus"))
    ensures codec == "vorbis" ==> ClassifyToken(codec, isVideo, platform) == Some(TrackInfo(Audio, "audio/vorbis"))
    ensures codec != "opus" && codec != "vorbis" ==>
              ClassifyToken(codec, isVideo, platform) == Some(TrackInfo(Audio, "audio/mp4a-latm"))
  {
  }

  /**
   * Under a video container a non-audio token is tried against VP9, VP8,
   * AVC and HEVC in that order, the first match deciding; a token none of
   * them matches is classified as it would be under an audio container.
   */
  lemma VideoPatternPrecedence(codec: string, platform: Platform)
    requires !IsAudioCodec(codec)
    ensures platform.isVP9CodecString(codec) ==>
              ClassifyToken(codec, true, platform) == Some(TrackInfo(Video, "video/vp9"))
    ensures !platform.isVP9CodecString(codec) && platform.isVP8CodecString(codec) ==>
              ClassifyToken(codec, true, platform) == Some(TrackInfo(Video, "video/vp8"))
    ensures !platform.isVP9CodecString(codec) && !platform.isVP8CodecString(codec) && IsAvcCodec(codec) ==>
              ClassifyToken(codec, true, platform) == Some(TrackInfo(Video, "video/avc"))
    ensures !platform.isVP9CodecString(codec) && !platform.isVP8CodecString(codec) && !IsAvcCodec(codec) &&
            IsHevcCodec(codec) ==>
              ClassifyToken(codec, true, platform) == Some(TrackInfo(Video, "video/hevc"))
    ensures !platform.isVP9CodecString(codec) && !platform.isVP8CodecString(codec) && !IsAvcCodec(codec) &&
            !IsHevcCodec(codec) ==>
              ClassifyToken(codec, true, platform) == ClassifyToken(codec, false, platform)
  {
  }

  /**
   * Under an audio container the video patterns are never tried: a
   * non-audio token is an AV1 track when AV1 is on and recognises it, and
   * unknown otherwise.
   */
  lemma AudioContainerSkipsVideoPatterns(codec: string, platform: Platform)
    requires !IsAudioCodec(codec)
    ensures ClassifyToken(codec, false, platform) ==
            if platform.av1Enabled && platform.isAV1CodecString(codec) then Some(TrackInfo(Video, "video/av1"))
            else None
  {
  }

  /** avc1 is unknown under an audio container unless the AV1 rule takes it. */
  lemma AvcUnknownUnderAudioContainer(platform: Platform)
    requires !(platform.av1Enabled && platform.isAV1CodecString("avc1"))
    ensures !Recognized("avc1", false, platform)
    ensures !IsSupported(MediaContainerType(AudioXMatroska, ["avc1"]), platform)
    ensures !IsSupported(MediaContainerType(AudioMkv, ["avc1"]), platform)
  {
    assert !IsAudioCodec("avc1") by {
      assert "avc1"[1] != "aac."[1];
    }
  }

  /**
   * A token that only the AV1 recogniser accepts is a video/av1 track when
   * AV1 is on, under either container category, and unknown when it is off.
   */
  lemma Av1Gate(codec: string, isVideo: bool, platform: Platform)
    requires !IsAudioCodec(codec)
    requires platform.isAV1CodecString(codec)
    requires isVideo ==> !platform.isVP9CodecString(codec) && !platform.isVP8CodecString(codec) &&
                         !IsAvcCodec(codec) && !IsHevcCodec(codec)
    ensures platform.av1Enabled ==> ClassifyToken(codec, isVideo, platform) == Some(TrackInfo(Video, "video/av1"))
    ensures !platform.av1Enabled ==> ClassifyToken(codec, isVideo, platform) == None
  {
  }

  // ---------------------------------------------------------------------
  // The token list (for any per-token classification)
  // ---------------------------------------------------------------------

  /** Tracks are produced token by token, in input order. */
  lemma {:induction false} TracksAppend(a: seq<string>, b: seq<string>, classify: Classifier)
    ensures Tracks(a + b, classify) == Tracks(a, classify) + Tracks(b, classify)
    decreases |b|
  {
    if b == [] {
      assert a + b == a;
    } else {
      var n := |b| - 1;
      TracksAppend(a, b[..n], classify);
      assert a + b == (a + b[..n]) + [b[n]];
      assert b == b[..n] + [b[n]];
      TracksAndVerdictSnoc(a + b[..n], b[n], classify);
      TracksAndVerdictSnoc(b[..n], b[n], classify);
    }
  }

  /**
   * When every token is recognised there is exactly one track per token,
   * the i-th track being the classification of the i-th token.
   */
  lemma {:induction false} TracksOfRecognizedTokens(codecs: seq<string>, classify: Classifier)
    requires AllRecognized(codecs, classify)
    ensures |Tracks(codecs, classify)| == |codecs|
    ensures forall i :: 0 <= i < |codecs| ==> Tracks(codecs, classify)[i] == classify(codecs[i]).value
    decreases |codecs|
  {
    if codecs != [] {
      var n := |codecs| - 1;
      var prefix := codecs[..n];
      assert prefix + [codecs[n]] == codecs;
      AllRecognizedSnoc(prefix, codecs[n], classify);
      TracksAndVerdictSnoc(prefix, codecs[n], classify);
      TracksOfRecognizedTokens(prefix, classify);
    }
  }

  /**
   * An unknown token fails the whole list wherever it sits, and a failure
   * once recorded is never reset by later tokens.
   */
  lemma FailureSticks(a: seq<string>, b: seq<string>, classify: Classifier)
    ensures Verdict(a + b, classify).Ok? <==> Verdict(a, classify).Ok? && Verdict(b, classify).Ok?
  {
    VerdictOkIffAllRecognized(a + b, classify);
    VerdictOkIffAllRecognized(a, classify);
    VerdictOkIffAllRecognized(b, classify);
    var ab := a + b;
    assert forall i :: 0 <= i < |a| ==> ab[i] == a[i];
    assert forall i :: 0 <= i < |b| ==> ab[|a| + i] == b[i];
    if AllRecognized(a, classify) && AllRecognized(b, classify) {
      forall i | 0 <= i < |ab|
        ensures classify(ab[i]).Some?
      {
        if i >= |a| {
          assert ab[i] == b[i - |a|];
        }
      }
    }
  }

  /** The error reports the last unknown token; recognised tokens after it leave it alone. */
  lemma {:induction false} VerdictReportsLastUnknown(a: seq<string>, codec: string, b: seq<string>, classify: Classifier)
    requires classify(codec).None?
    requires AllRecognized(b, classify)
    ensures Verdict(a + [codec] + b, classify) == UnknownCodec(codec)
    decreases |b|
  {
    if b == [] {
      assert a + [codec] + b == a + [codec];
      TracksAndVerdictSnoc(a, codec, classify);
    } else {
      var n := |b| - 1;
      AllRecognizedSnoc(b[..n], b[n], classify);
      assert b[..n] + [b[n]] == b;
      VerdictReportsLastUnknown(a, codec, b[..n], classify);
      assert a + [codec] + b == (a + [codec] + b[..n]) + [b[n]];
      TracksAndVerdictSnoc(a + [codec] + b[..n], b[n], classify);
    }
  }

  // ---------------------------------------------------------------------
  // The token list under the decoder's cascade
  // ---------------------------------------------------------------------

  /** Classification succeeds iff the type is registered and every token is recognised. */
  lemma ClassificationSucceedsIffAllRecognized(aType: MediaContainerType, platform: Platform)
    ensures ResultOf(aType, platform).Ok? <==>
              IsMatroskaType(aType.mimeType) &&
              forall i :: 0 <= i < |aType.codecs| ==> Recognized(aType.codecs[i], IsVideoType(aType.mimeType), platform)
  {
    VerdictOkIffAllRecognized(aType.codecs, TokenClassifier(IsVideoType(aType.mimeType), platform));
  }

  /** A list made only of audio tokens gives the same answer under every registered type. */
  lemma {:induction false} AudioTokensIgnoreContainerCategory(codecs: seq<string>, platform: Platform)
    requires forall i :: 0 <= i < |codecs| ==> IsAudioCodec(codecs[i])
    ensures Tracks(codecs, TokenClassifier(true, platform)) == Tracks(codecs, TokenClassifier(false, platform))
    ensures Verdict(codecs, TokenClassifier(true, platform)) == Ok
    ensures Verdict(codecs, TokenClassifier(false, platform)) == Ok
    decreases |codecs|
  {
    if codecs != [] {
      var n := |codecs| - 1;
      var prefix := codecs[..n];
      assert forall i :: 0 <= i < n ==> prefix[i] == codecs[i];
      assert prefix + [codecs[n]] == codecs;
      AudioTokensIgnoreContainerCategory(prefix, platform);
      TracksAndVerdictSnoc(prefix, codecs[n], TokenClassifier(true, platform));
      TracksAndVerdictSnoc(prefix, codecs[n], TokenClassifier(false, platform));
    }
  }

  /** Whatever an audio container accepts, a video container accepts too, with as many tracks. */
  lemma AudioAcceptanceImpliesVideoAcceptance(codecs: seq<string>, platform: Platform)
    requires Verdict(codecs, TokenClassifier(false, platform)).Ok?
    ensures Verdict(codecs, TokenClassifier(true, platform)).Ok?
    ensures |Tracks(codecs, TokenClassifier(true, platform))| == |Tracks(codecs, TokenClassifier(false, platform))|
  {
    var audio, video := TokenClassifier(false, platform), TokenClassifier(true, platform);
    VerdictOkIffAllRecognized(codecs, audio);
    forall i | 0 <= i < |codecs|
      ensures video(codecs[i]).Some?
    {
      assert audio(codecs[i]).Some?;
    }
    VerdictOkIffAllRecognized(codecs, video);
    TracksOfRecognizedTokens(codecs, audio);
    TracksOfRecognizedTokens(codecs, video);
  }

  // ---------------------------------------------------------------------
  // The support decision
  // ---------------------------------------------------------------------

  /** An unknown token anywhere in the list makes the type unsupported. */
  lemma UnknownTokenForcesUnsupported(aType: MediaContainerType, platform: Platform, k: nat)
    requires k < |aType.codecs|
    requires !Recognized(aType.codecs[k], IsVideoType(aType.mimeType), platform)
    ensures !IsSupported(aType, platform)
  {
    ClassificationSucceedsIffAllRecognized(aType, platform);
  }

  /**
   * The type is supported exactly when the preference is on, the type is
   * registered, every token is recognised and the decoder factory supports
   * the track every token yields.
   */
  lemma SupportedIffEveryTokenSupported(aType: MediaContainerType, platform: Platform)
    ensures IsSupported(aType, platform) <==>
              platform.webmEnabled && IsMatroskaType(aType.mimeType) &&
              forall i :: 0 <= i < |aType.codecs| ==>
                Recognized(aType.codecs[i], IsVideoType(aType.mimeType), platform) &&
                platform.pdmSupports(ClassifyToken(aType.codecs[i], IsVideoType(aType.mimeType), platform).value)
  {
    var classify := TokenClassifier(IsVideoType(aType.mimeType), platform);
    ClassificationSucceedsIffAllRecognized(aType, platform);
    if IsMatroskaType(aType.mimeType) && AllRecognized(aType.codecs, classify) {
      TracksOfRecognizedTokens(aType.codecs, classify);
    }
  }

  /** Swapping two parts of the codec list does not change the answer. */
  lemma SupportIgnoresTokenOrder(mimeType: MediaMimeType, a: seq<string>, b: seq<string>, platform: Platform)
    ensures IsSupported(MediaContainerType(mimeType, a + b), platform) <==>
            IsSupported(MediaContainerType(mimeType, b + a), platform)
  {
    SupportedIffEveryTokenSupported(MediaContainerType(mimeType, a + b), platform);
    SupportedIffEveryTokenSupported(MediaContainerType(mimeType, b + a), platform);
    var ab, ba := a + b, b + a;
    assert forall i :: 0 <= i < |ab| ==> ab[i] == (if i < |a| then ba[|b| + i] else ba[i - |a|]);
    assert forall i :: 0 <= i < |ba| ==> ba[i] == (if i < |b| then ab[|a| + i] else ab[i - |b|]);
  }

  // ---------------------------------------------------------------------
  // Cases the test page checks
  // ---------------------------------------------------------------------

  /** An unknown token makes a video type unsupported whether it precedes or follows vorbis. */
  lemma UnknownTokenBesideVorbis(mimeType: MediaMimeType, unknown: string, platform: Platform)
    requires IsVideoType(mimeType)
    requires !Recognized(unknown, true, platform)
    ensures !IsSupported(MediaContainerType(mimeType, [unknown]), platform)
    ensures !IsSupported(MediaContainerType(mimeType, [unknown, "vorbis"]), platform)
    ensures !IsSupported(MediaContainerType(mimeType, ["vorbis", unknown]), platform)
  {
    UnknownTokenForcesUnsupported(MediaContainerType(mimeType, [unknown]), platform, 0);
    UnknownTokenForcesUnsupported(MediaContainerType(mimeType, [unknown, "vorbis"]), platform, 0);
    UnknownTokenForcesUnsupported(MediaContainerType(mimeType, ["vorbis", unknown]), platform, 1);
  }

  /** "xyz" is matched by no literal or prefix pattern. */
  lemma XyzMatchesNoLiteralPattern()
    ensures !IsAudioCodec("xyz") && !IsAvcCodec("xyz") && !IsHevcCodec("xyz")
  {
    assert "xyz"[0] == 'x';
  }

  /**
   * `codecs=xyz` under a video type is unsupported alone, before vorbis and
   * after vorbis, given that no codec-string recogniser accepts "xyz".
   */
  lemma XyzUnsupported(mimeType: MediaMimeType, platform: Platform)
    requires IsVideoType(mimeType)
    requires !platform.isVP9CodecString("xyz") && !platform.isVP8CodecString("xyz")
    requires !(platform.av1Enabled && platform.isAV1CodecString("xyz"))
    ensures !IsSupported(MediaContainerType(mimeType, ["xyz"]), platform)
    ensures !IsSupported(MediaContainerType(mimeType, ["xyz", "vorbis"]), platform)
    ensures !IsSupported(MediaContainerType(mimeType, ["vorbis", "xyz"]), platform)
  {
    XyzMatchesNoLiteralPattern();
    UnknownTokenBesideVorbis(mimeType, "xyz", platform);
  }

  /**
   * av01 under a video type: with AV1 on (and the decoder factory
   * supporting video/av1) it is supported, with AV1 off it is not.
   */
  lemma Av01FollowsPreference(mimeType: MediaMimeType, platform: Platform)
    requires IsVideoType(mimeType) && platform.webmEnabled
    requires platform.isAV1CodecString("av01")
    requires !platform.isVP9CodecString("av01") && !platform.isVP8CodecString("av01")
    ensures platform.av1Enabled && platform.pdmSupports(TrackInfo(Video, "video/av1")) ==>
              IsSupported(MediaContainerType(mimeType, ["av01"]), platform)
    ensures !platform.av1Enabled ==> !IsSupported(MediaContainerType(mimeType, ["av01"]), platform)
  {
    assert !IsAudioCodec("av01") && !IsAvcCodec("av01") && !IsHevcCodec("av01") by {
      assert "av01"[1] == 'v';
    }
    SupportedIffEveryTokenSupported(MediaContainerType(mimeType, ["av01"]), platform);
  }

  /** A VP9 token under a video type yields one video/vp9 track, supported when the factory supports it. */
  lemma Vp9UnderVideoType(mimeType: MediaMimeType, codec: string, platform: Platform)
    requires IsVideoType(mimeType) && platform.webmEnabled
    requires platform.isVP9CodecString(codec) && !IsAudioCodec(codec)
    ensures TracksOf(MediaContainerType(mimeType, [codec]), platform) == [TrackInfo(Video, "video/vp9")]
    ensures IsSupported(MediaContainerType(mimeType, [codec]), platform) <==>
              platform.pdmSupports(TrackInfo(Video, "video/vp9"))
  {
    assert [codec][..0] == [];
    var tracks := TracksOf(MediaContainerType(mimeType, [codec]), platform);
    assert tracks[0] == TrackInfo(Video, "video/vp9");
  }
}
