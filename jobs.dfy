/**
  The declarative encode job the handler hands to ffmpeg: ordered inputs with
  their per-input flags, the output options and the output path, and the
  naming of the output file and its public URL from one request identifier
  (server/index.js, lines 11, 14, 33-34, 46-47, 66-76, 83-87).
 */
module Jobs {
  import opened Wrappers
  import opened Assets

  /** The request identifier, a fresh UUID v4 string. */
  type Id = string

  /** One ffmpeg input: its target (a file path or a lavfi graph), the options
      given with `.inputOptions`, and the argument of `.loop` if it was called. */
  datatype InputSpec = InputSpec(target: string, options: seq<string>, loop: Option<int>)

  /** The command as it stands when `.save` is called. */
  datatype JobDescriptor = JobDescriptor(inputs: seq<InputSpec>, outputOptions: seq<string>, output: Path)

  /** Whether an input is a file or a synthetic source, and whether the output stops
      at the shortest stream: both read off the options the handler passes. */
  datatype SourceKind = File | SyntheticColorSource
  datatype SyncPolicy = NoSync | ShortestStream

  // The directory the app serves statically, relative to the repository root
  // (`path.join(__dirname, '..', 'public')` with `__dirname` the server directory).
  const PUBLIC_DIR: string := "public"
  // Where encoded videos are written.
  const OUT_DIR: string := PUBLIC_DIR + "/videos"

  const VIDEO_CODEC: string := "-c:v libx264"
  const AUDIO_CODEC: string := "-c:a aac"
  const FAST_START: string := "-movflags +faststart"
  const SHORTEST: string := "-shortest"
  const PIXEL_FORMAT: string := "-pix_fmt yuv420p"
  const LAVFI: string := "-f lavfi"

  /** The lavfi graph that stands in for a missing image: 1280x720 black, far longer than any audio. */
  const BLACK_SOURCE: string := "color=size=1280x720:duration=9999:color=black"

  const TRANSCODE_OPTIONS: seq<string> := [VIDEO_CODEC, AUDIO_CODEC, FAST_START]
  const IMAGE_AUDIO_OPTIONS: seq<string> := [VIDEO_CODEC, AUDIO_CODEC, SHORTEST, PIXEL_FORMAT, FAST_START]
  const BLACK_AUDIO_OPTIONS: seq<string> := [VIDEO_CODEC, AUDIO_CODEC, SHORTEST, FAST_START, PIXEL_FORMAT]

  /** `path.join(OUT_DIR, id + '.mp4')`; a UUID holds no `/` or `.`, so the join
      normalises nothing away. */
  function OutPath(id: Id): Path {
    OUT_DIR + "/" + id + ".mp4"
  }

  /** The public URL returned to the client. */
  function UrlOf(id: Id): string {
    "/videos/" + id + ".mp4"
  }

  /** The file the static middleware rooted at PUBLIC_DIR serves for a URL path. */
  function ServedFile(url: string): Path {
    PUBLIC_DIR + url
  }

  /** An input with no options and no loop, as `.input(target)` or `ffmpeg(target)` adds it. */
  function PlainInput(target: string): InputSpec {
    InputSpec(target, [], None)
  }

  function KindOf(i: InputSpec): SourceKind {
    if LAVFI in i.options then SyntheticColorSource else File
  }

  function SyncOf(j: JobDescriptor): SyncPolicy {
    if SHORTEST in j.outputOptions then ShortestStream else NoSync
  }

  /** The codec/container contract every output must meet: H.264 video, AAC audio,
      metadata moved to the front of the MP4. */
  predicate CodecContract(opts: seq<string>) {
    VIDEO_CODEC in opts && AUDIO_CODEC in opts && FAST_START in opts
  }

  /** The job each pipeline builds. */
  function Build(p: Pipeline, id: Id): (job: JobDescriptor)
    ensures CodecContract(job.outputOptions)
    ensures job.output == OutPath(id)
    ensures |job.inputs| == if p.VideoTranscode? then 1 else 2
    ensures p.VideoTranscode? <==> SyncOf(job) == NoSync
  {
    match p
    case VideoTranscode(v) =>
      JobDescriptor([PlainInput(v)], TRANSCODE_OPTIONS, OutPath(id))
    case ImageAudioCompose(img, au) =>
      JobDescriptor([InputSpec(img, [], Some(1)), PlainInput(au)], IMAGE_AUDIO_OPTIONS, OutPath(id))
    case BlackAudioCompose(au) =>
      JobDescriptor([InputSpec(BLACK_SOURCE, [LAVFI], None), PlainInput(au)], BLACK_AUDIO_OPTIONS, OutPath(id))
  }

  /** Re-encoding reads the video file alone, and neither cuts at the shortest
      stream nor forces a pixel format. */
  lemma TranscodeJobShape(v: Path, id: Id)
    ensures Build(VideoTranscode(v), id).inputs == [PlainInput(v)]
    ensures KindOf(Build(VideoTranscode(v), id).inputs[0]) == File
    ensures Build(VideoTranscode(v), id).outputOptions == TRANSCODE_OPTIONS
    ensures SHORTEST !in Build(VideoTranscode(v), id).outputOptions
    ensures PIXEL_FORMAT !in Build(VideoTranscode(v), id).outputOptions
  {
  }

  /** Image + audio: the image loops first, the audio file second, the output stops
      at the shorter stream in yuv420p. */
  lemma ImageAudioJobShape(img: Path, au: Path, id: Id)
    ensures Build(ImageAudioCompose(img, au), id).inputs == [InputSpec(img, [], Some(1)), PlainInput(au)]
    ensures Build(ImageAudioCompose(img, au), id).outputOptions == IMAGE_AUDIO_OPTIONS
    ensures SyncOf(Build(ImageAudioCompose(img, au), id)) == ShortestStream
    ensures PIXEL_FORMAT in Build(ImageAudioCompose(img, au), id).outputOptions
  {
  }

  /** Audio alone: a synthetic black 1280x720 lavfi source first, the audio file
      second, cut at the shorter stream in yuv420p. */
  lemma BlackAudioJobShape(au: Path, id: Id)
    ensures Build(BlackAudioCompose(au), id).inputs == [InputSpec(BLACK_SOURCE, [LAVFI], None), PlainInput(au)]
    ensures KindOf(Build(BlackAudioCompose(au), id).inputs[0]) == SyntheticColorSource
    ensures KindOf(Build(BlackAudioCompose(au), id).inputs[1]) == File
    ensures Build(BlackAudioCompose(au), id).outputOptions == BLACK_AUDIO_OPTIONS
    ensures SyncOf(Build(BlackAudioCompose(au), id)) == ShortestStream
    ensures PIXEL_FORMAT in Build(BlackAudioCompose(au), id).outputOptions
  {
  }

  /** The two compose pipelines pass the same options, in a different order. */
  lemma ComposeOptionsAgree()
    ensures multiset(IMAGE_AUDIO_OPTIONS) == multiset(BLACK_AUDIO_OPTIONS)
    ensures IMAGE_AUDIO_OPTIONS != BLACK_AUDIO_OPTIONS
  {
  }

  /** The only loop ever requested is on the image input of the image + audio
      pipeline, and only the black pipeline has a synthetic input. */
  lemma LoopAndSyntheticPlacement(p: Pipeline, id: Id, k: nat)
    requires k < |Build(p, id).inputs|
    ensures Build(p, id).inputs[k].loop.Some? <==> p.ImageAudioCompose? && k == 0
    ensures KindOf(Build(p, id).inputs[k]) == SyntheticColorSource <==> p.BlackAudioCompose? && k == 0
  {
  }

  /** The advertised URL is served from exactly the file the job writes. */
  lemma UrlServesOutPath(id: Id)
    ensures ServedFile(UrlOf(id)) == OutPath(id)
  {
  }

  /** Distinct identifiers never share an output path. */
  lemma {:induction false} OutPathInjective(id1: Id, id2: Id)
    requires OutPath(id1) == OutPath(id2)
    ensures id1 == id2
  {
    var pre := OUT_DIR + "/";
    assert OutPath(id1)[|pre|..|pre| + |id1|] == id1;
    assert OutPath(id2)[|pre|..|pre| + |id2|] == id2;
  }

  /** Distinct identifiers never share a public URL. */
  lemma {:induction false} UrlInjective(id1: Id, id2: Id)
    requires UrlOf(id1) == UrlOf(id2)
    ensures id1 == id2
  {
    UrlServesOutPath(id1);
    UrlServesOutPath(id2);
    OutPathInjective(id1, id2);
  }
}
