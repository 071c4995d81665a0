/**
  The uploaded asset set of one `/upload` request and the guard chain that
  picks the encode pipeline for it (server/index.js, lines 35-61 and 115).
 */
module Assets {
  import opened Wrappers

  /** A file-system path, as multer reports it for a received file. */
  type Path = string

  /** The three optional form fields; `None` is the `null` the handler stores
      when the field was not uploaded. */
  datatype AssetSet = AssetSet(mainImg: Option<Path>, audio: Option<Path>, video: Option<Path>)

  /** JavaScript truthiness of the stored path: `null` and `""` are both falsy. */
  predicate Truthy(p: Option<Path>) {
    p.Some? && p.value != ""
  }

  /** The three encode pipelines, each carrying the paths it reads. */
  datatype Pipeline =
    | VideoTranscode(video: Path)
    | ImageAudioCompose(image: Path, audio: Path)
    | BlackAudioCompose(audio: Path)

  /** The two 400 answers of the handler: the missing-media guard and the
      final `invalid request` fallback. */
  datatype Rejection = MissingMedia | InvalidRequest

  /** The handler's guard chain, first match wins, including the fallback that
      follows the last guard. */
  function Select(a: AssetSet): (r: Result<Pipeline, Rejection>)
  {
    if !Truthy(a.audio) && !Truthy(a.video) then
      Failure(MissingMedia)
    else if Truthy(a.video) && !Truthy(a.audio) then
      Success(VideoTranscode(a.video.value))
    else if Truthy(a.audio) then
      if Truthy(a.mainImg) then Success(ImageAudioCompose(a.mainImg.value, a.audio.value))
      else Success(BlackAudioCompose(a.audio.value))
    else
      Failure(InvalidRequest)
  }

  /** Every path a pipeline reads is a non-empty uploaded path. */
  ghost predicate UsesOnlyUploads(p: Pipeline, a: AssetSet) {
    match p
    case VideoTranscode(v) => Truthy(a.video) && v == a.video.value
    case ImageAudioCompose(i, au) =>
      Truthy(a.mainImg) && i == a.mainImg.value && Truthy(a.audio) && au == a.audio.value
    case BlackAudioCompose(au) => Truthy(a.audio) && au == a.audio.value
  }

  /** Rejection happens exactly when neither audio nor video is present, and
      then it is always the missing-media answer. */
  lemma RejectIffNoMedia(a: AssetSet)
    ensures Select(a).Failure? <==> !Truthy(a.audio) && !Truthy(a.video)
    ensures Select(a).Failure? ==> Select(a).error == MissingMedia
  {
  }

  /** The `invalid request` fallback can never be reached: the guards are exhaustive. */
  lemma FallbackUnreachable(a: AssetSet)
    ensures Select(a) != Failure(InvalidRequest)
  {
  }

  /** An image alone is rejected like an empty request. */
  lemma ImageAloneRejected(img: Path)
    ensures Select(AssetSet(Some(img), None, None)) == Failure(MissingMedia)
  {
  }

  /** Video without audio is re-encoded, whatever image was uploaded. */
  lemma VideoWithoutAudio(a: AssetSet)
    requires Truthy(a.video) && !Truthy(a.audio)
    ensures Select(a) == Success(VideoTranscode(a.video.value))
  {
  }

  /** Audio always selects an audio-driven pipeline, even when a video was also
      uploaded: the video is silently dropped. */
  lemma AudioTakesPrecedence(a: AssetSet)
    requires Truthy(a.audio)
    ensures Truthy(a.mainImg) ==> Select(a) == Success(ImageAudioCompose(a.mainImg.value, a.audio.value))
    ensures !Truthy(a.mainImg) ==> Select(a) == Success(BlackAudioCompose(a.audio.value))
  {
  }

  /** The selected pipeline reads only paths that were uploaded, and each
      pipeline is chosen exactly under its triggering condition. */
  lemma SelectDecisionTable(a: AssetSet)
    ensures Select(a).Success? ==> UsesOnlyUploads(Select(a).value, a)
    ensures (Select(a).Success? && Select(a).value.VideoTranscode?) <==> Truthy(a.video) && !Truthy(a.audio)
    ensures (Select(a).Success? && Select(a).value.ImageAudioCompose?) <==> Truthy(a.audio) && Truthy(a.mainImg)
    ensures (Select(a).Success? && Select(a).value.BlackAudioCompose?) <==> Truthy(a.audio) && !Truthy(a.mainImg)
  {
  }

  /** An empty path counts as absent, as JavaScript's `!` makes it. */
  lemma EmptyPathIsAbsent(a: AssetSet)
    requires a.audio == Some("") && !Truthy(a.video)
    ensures Select(a) == Failure(MissingMedia)
  {
  }
}
