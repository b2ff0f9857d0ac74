# Matroska "can this be played?" decision

A Dafny model of the part of `MatroskaDecoder` that decides, before any
bytes are read, whether a Matroska container type with an optional
`codecs=` list (the parameter of section 3 of RFC 6381) can be played:

- `GetTracksInfo` checks the declared type against the four registered ones
  (`video/x-matroska`, `video/mkv`, `audio/x-matroska`, `audio/mkv`).
  It then walks the codec tokens in order and builds one track descriptor
  per recognised token. The rules are tried first match wins:
  - the audio family first;
  - then, under the two video types only, VP9, VP8, AVC and HEVC;
  - then AV1, when AV1 is enabled.
  An unknown token sets the error and the loop goes on.
- `IsSupportedType` answers false when the WebM/Matroska preference is off
  or classification failed. It answers true for an empty track list.
  Otherwise it answers true exactly when the platform decoder factory
  supports every track, and it stops at the first track it rejects.

Layout:
- `MediaTypes.dfy` holds the values exchanged: the container MIME type with
  its codec list, the track descriptor, the result code, and a `Platform`
  value that gathers the outside collaborators.
- `MatroskaDecoder.dfy` holds the specification functions and the
  imperative code proved against them.
  - The specification functions are `ClassifyToken` (one token), `Tracks`
    and `Verdict` (the loop over the tokens) and `IsSupported` (the answer).
  - The code is `ClassifyCodec`, `GetTracksInfo`, `GetTracks` and
    `IsSupportedType`.
- `MatroskaProperties.dfy` holds the properties as lemmas.

`aType.Type()` is a `MediaMimeType`. The four Matroska types it is
compared with are constructors, and any other type is `OtherType(name)`.
`ParseMimeType` reads a type from its text and `MimeTypeName` gives the text
back. A type read from text is one of the constructors exactly when the text
is one of the four names.

`Tracks` and `Verdict` take the per-token classification as a function
value. So their lemmas (order, one track per token, the error sticking) hold
for any cascade. `TokenClassifier` supplies the decoder's own cascade.
`ClassifyCodec` is the body of the source's loop (lines 47-103), written as
a method of its own. Its early returns follow the source, and its pattern
tests are the predicates `IsAudioCodec`, `IsAvcCodec` and `IsHevcCodec`. `GetTracksInfo` calls it once per token and records an
unknown codec when it returns `None`.

The collaborators are fields of `Platform`:
- the `media.webm.enabled` preference;
- the AV1 switch, which stands for "`MOZ_AV1` compiled in and
  `media.av1.enabled` on";
- the `IsVP9CodecString`, `IsVP8CodecString` and `IsAV1CodecString`
  recognisers, as arbitrary string predicates;
- `PDMFactory::Supports`, as an arbitrary predicate on descriptors.

Every property is proved for all values of these fields.

`Find` is modelled as the function of the same name: the first index at
which the pattern occurs, or -1. `codec.Find("x."_ns) == 0` is written
`StartsWith(codec, "x.")`, whose contract says it holds exactly when `Find`
returns 0.

The AV1 rule (dom/media/webm/MatroskaDecoder.cpp:89-97) sits after the
`if (isVideo)` block. So under `audio/x-matroska` and `audio/mkv`, an
AV1-style token becomes a `video/av1` track whenever AV1 is enabled
(`AudioContainerSkipsVideoPatterns`, `Av1Gate`).

## Model

| member | source | states |
|---|---|---|
| `MediaTypes.ParseMimeType` | dom/media/webm/MatroskaDecoder.cpp:28-32 | reading a type from its text gives the text back, and gives one of the four Matroska constants exactly when the text is one of their names |
| `MediaTypes.StartsWith` | dom/media/webm/MatroskaDecoder.cpp:47-49 | `codec.Find(p) == 0`: holds exactly when the first occurrence of the pattern, as `Find` returns it, is at index 0 |
| `MatroskaDecoder.ClassifyToken` | dom/media/webm/MatroskaDecoder.cpp:47-97 | a token yields an audio track iff it is an audio-family token; under an audio type the only other track it can yield is `video/av1`, and only with AV1 enabled |
| `MatroskaDecoder.Tracks` | dom/media/webm/MatroskaDecoder.cpp:46-103 | the list never holds more tracks than there are tokens |
| `MatroskaDecoder.TracksOf` | dom/media/webm/MatroskaDecoder.cpp:25-105 | the track list of GetTracksInfo: no more tracks than tokens, and none at all for an unregistered type |
| `MatroskaDecoder.ResultOf` | dom/media/webm/MatroskaDecoder.cpp:28-103 | the error of GetTracksInfo: an invalid-type error naming the type iff the type is unregistered; an unknown-codec error names a token of the list that is not recognised |
| `MatroskaDecoder.IsSupported` | dom/media/webm/MatroskaDecoder.cpp:108-139 | the answer of IsSupportedType: true only with the preference on and a registered type |
| `MatroskaDecoder.TracksCount` | dom/media/webm/MatroskaDecoder.cpp:46-103 | for any cascade, the number of tracks is the number of positions holding a recognised token; unknown tokens add none |
| `MatroskaDecoder.Verdict` | dom/media/webm/MatroskaDecoder.cpp:99-103 | the error is success or an unknown-codec error, and the token it names is in the list and is really unrecognised |
| `MatroskaDecoder.VerdictOkIffAllRecognized` | dom/media/webm/MatroskaDecoder.cpp:39-103 | the loop ends in success iff every token is recognised |
| `MatroskaDecoder.TracksLengthIffAllRecognized` | dom/media/webm/MatroskaDecoder.cpp:58-61 | there are as many tracks as tokens iff every token is recognised |
| `MatroskaDecoder.ClassifyCodec` | dom/media/webm/MatroskaDecoder.cpp:47-98 | the tests and early returns of the loop body pick the same track as the first-match cascade `ClassifyToken`, or none |
| `MatroskaDecoder.GetTracksInfo` | dom/media/webm/MatroskaDecoder.cpp:25-105 | the loop builds exactly the specified tracks and error; an unregistered type gives an invalid-type error with no tracks |
| `MatroskaDecoder.GetTracks` | dom/media/webm/MatroskaDecoder.cpp:142-146 | returns the same tracks as the two-argument form and drops the error; for a registered type there is one track per token iff every token is recognised |
| `MatroskaDecoder.IsSupportedType` | dom/media/webm/MatroskaDecoder.cpp:108-139 | the early returns and the loop over the tracks compute exactly `IsSupported`: preference on, classification successful, every track supported by the decoder factory |
| `MatroskaProperties.RegisteredTypeNames` | dom/media/webm/MatroskaDecoder.cpp:28-32 | a type read from text is registered iff its text is one of the four names, and a video type iff it is `video/x-matroska` or `video/mkv` |
| `MatroskaProperties.InvalidTypeRejected` | dom/media/webm/MatroskaDecoder.cpp:28-37 | a type whose text is none of the four registered names gives no tracks and an invalid-type error naming it, whatever the codec list holds, and is never supported |
| `MatroskaProperties.EmptyCodecListSupported` | dom/media/webm/MatroskaDecoder.cpp:39-44 | a registered type with no codecs succeeds with no tracks and is supported iff the preference is on, whatever the decoder factory says |
| `MatroskaProperties.AudioTokenClassification` | dom/media/webm/MatroskaDecoder.cpp:47-61 | under either container category, opus gives audio/opus, vorbis gives audio/vorbis, and every mp4a/aac form gives audio/mp4a-latm |
| `MatroskaProperties.VideoPatternPrecedence` | dom/media/webm/MatroskaDecoder.cpp:63-88 | under a video type a non-audio token goes to VP9, else VP8, else AVC, else HEVC; a token none of them matches is classified as under an audio type |
| `MatroskaProperties.AudioContainerSkipsVideoPatterns` | dom/media/webm/MatroskaDecoder.cpp:63-97 | under an audio type a non-audio token is `video/av1` when AV1 is on and recognises it, and unknown otherwise |
| `MatroskaProperties.AvcUnknownUnderAudioContainer` | dom/media/webm/MatroskaDecoder.cpp:63-103 | `avc1` under `audio/x-matroska` or `audio/mkv` is unknown and the type unsupported, unless the AV1 rule takes it |
| `MatroskaProperties.Av1Gate` | dom/media/webm/MatroskaDecoder.cpp:89-97 | a token only the AV1 recogniser accepts is a `video/av1` track when AV1 is on, under either category, and unknown when it is off |
| `MatroskaProperties.TracksAppend` | dom/media/webm/MatroskaDecoder.cpp:46-103 | for any cascade, the tracks of a concatenation are the tracks of each part in order |
| `MatroskaProperties.TracksOfRecognizedTokens` | dom/media/webm/MatroskaDecoder.cpp:58-61 | for any cascade, when every token is recognised the i-th track is the classification of the i-th token |
| `MatroskaProperties.FailureSticks` | dom/media/webm/MatroskaDecoder.cpp:99-103 | for any cascade, a concatenation succeeds iff both parts do, so a recorded failure is never reset |
| `MatroskaProperties.VerdictReportsLastUnknown` | dom/media/webm/MatroskaDecoder.cpp:99-102 | for any cascade, the reported token is the last unknown one; recognised tokens after it leave the error alone |
| `MatroskaProperties.ClassificationSucceedsIffAllRecognized` | dom/media/webm/MatroskaDecoder.cpp:31-103 | the error out-parameter is success iff the type is registered and every token is recognised |
| `MatroskaProperties.AudioTokensIgnoreContainerCategory` | dom/media/test/can_play_type_matroska.js:19-24 | a list of audio tokens gives the same tracks and succeeds under audio and video types alike |
| `MatroskaProperties.AudioAcceptanceImpliesVideoAcceptance` | dom/media/webm/MatroskaDecoder.cpp:28-29 | whatever classifies under an audio type also classifies under a video type, with as many tracks |
| `MatroskaProperties.UnknownTokenForcesUnsupported` | dom/media/webm/MatroskaDecoder.cpp:113-118 | an unknown token anywhere in the list makes the type unsupported |
| `MatroskaProperties.SupportedIffEveryTokenSupported` | dom/media/webm/MatroskaDecoder.cpp:108-139 | supported iff the preference is on, the type is registered, every token is recognised and the decoder factory supports each token's track |
| `MatroskaProperties.SupportIgnoresTokenOrder` | dom/media/test/can_play_type_matroska.js:28-33 | swapping two parts of the codec list does not change the answer |
| `MatroskaProperties.UnknownTokenBesideVorbis` | dom/media/test/can_play_type_matroska.js:37-42 | an unknown token makes a video type unsupported alone, before vorbis and after vorbis |
| `MatroskaProperties.XyzUnsupported` | dom/media/test/can_play_type_matroska.js:37-42 | `codecs=xyz` under a video type is unsupported alone, before vorbis and after vorbis, when no recogniser accepts `xyz` |
| `MatroskaProperties.XyzMatchesNoLiteralPattern` | dom/media/test/can_play_type_matroska.js:37 | `xyz` matches none of the audio, AVC and HEVC literal or prefix patterns |
| `MatroskaProperties.Av01FollowsPreference` | dom/media/test/can_play_type_matroska.js:44-50 | `av01` under a video type is supported with AV1 on and a supporting decoder factory, and unsupported with AV1 off |
| `MatroskaProperties.Vp9UnderVideoType` | dom/media/webm/MatroskaDecoder.cpp:65-67 | a VP9 token under a video type yields one `video/vp9` track, supported iff the decoder factory supports it |

## Left out

- The bodies of `IsVP9CodecString`, `IsVP8CodecString` and `IsAV1CodecString` are not part of this model. They are arbitrary predicates in `Platform`, so the scenarios that depend on them (for example `vp8` under a video type) hold only under explicit assumptions about them.
- `VPXDecoder::SetVideoInfo` and `AOMDecoder::SetVideoInfo` are not part of this model. A descriptor keeps only its kind and its canonical MIME type, not the profile, level or bit depth decoded from the token.
- `CreateTrackInfoWithMIMETypeAndContainerTypeExtraParameters` is reduced to building the descriptor. The container's extra parameters it copies are not modelled.
- `PDMFactory::Supports` is an arbitrary predicate. The null-track check at line 130 cannot arise, because every descriptor in the model exists.
- `IsSupportedType`: the oracle is pure, so the model does not count how many oracle queries the early return saves. Its contract states only the answer.
- Preferences and the `MOZ_AV1` build switch are plain booleans in `Platform`. They are not read from configuration storage.
- Parsing of the MIME string and of its `codecs=` list happens outside this core. The model takes the type and the list already split.
- Error message text and the UTF-16 to UTF-8 conversions are left out. The result keeps only the kind of error and the offending type or token.
- `OtherType` can be built with the name of a registered type, and the model then treats it as unregistered. Types read with `ParseMimeType` never take that form, and `InvalidTypeRejected` is stated for types read from their text.
- The mapping of the answer to the `canPlayType` strings `""`, `"maybe"` and `"probably"` is implemented elsewhere and is not modelled.
