# Upload-to-MP4 handler: a Dafny model

This project models the `/upload` handler of a small Express server. The server
takes up to three uploaded files: an optional still image (`mainImg`), an
optional audio track (`audio`) and an optional video (`video`). It turns them
into one standard MP4 with ffmpeg.

The handler does four things, and the model has one part for each:

- **Pipeline selection** (`Assets`). The uploads form an `AssetSet`. A chain of
  guards, first match wins, picks one outcome:
  - reject with HTTP 400 when there is neither audio nor video;
  - re-encode the video when there is video and no audio;
  - loop the image under the audio when there is audio and an image;
  - put a synthetic black 1280x720 picture under the audio otherwise.

  A stored path counts as present when it is JavaScript-truthy, so an empty
  string counts as absent.
- **Job construction** (`Jobs`, `Ffmpeg`). Each pipeline builds one fluent ffmpeg
  command. The command is a mutable builder: `Ffmpeg.Command` is a class whose
  methods `Input`, `Loop`, `InputOptions`, `OutputOptions` and `Save` update it in
  place. `Jobs.Build` is the declarative job each pipeline must produce.
  `Upload.BuildCommand` calls these methods in the handler's order, and it is
  proved to produce exactly `Build`'s job. The handler passes the re-encode
  options as three separate arguments and the other option lists as one array;
  the model passes a sequence in every case (see "Left out").
- **Result mapping** (`Responses`). ffmpeg's `end` signal becomes
  `{id, url}`. Its `error` signal becomes status 500 with
  `{error: 'ffmpeg error', detail}`. The Express response object is the
  `ResponseWriter` class, and each request sends on it once.
- **Output naming** (`Jobs`). The output file `public/videos/<id>.mp4` and the
  URL `/videos/<id>.mp4` both come from the same request identifier. The static
  middleware serves that URL from exactly that file.

The request identifier (a UUID) and the engine's terminal signal
(`End` or `Error(message)`) are parameters. Paths are relative to the repository
root.

Behaviour of the code that the model keeps as written:

- The missing-media guard is tested first, before the pipeline guards. Every
  asset set falls under exactly one pipeline or that rejection
  (`Assets.SelectDecisionTable`).
- With audio present, the image is used and an uploaded video is silently
  ignored (`Assets.AudioTakesPrecedence`).
- The output options are ordered lists. The two compose pipelines pass the same
  five options in different orders (`Jobs.ComposeOptionsAgree`).
- Stopping at the shortest stream is the `-shortest` output option; the model
  reads this policy off the options with `Jobs.SyncOf`.
- The engine's error message is forwarded to the client verbatim, file paths
  included.

## Model

| member | source | states |
|---|---|---|
| Assets.RejectIffNoMedia | server/index.js:39-41 | the request is rejected exactly when neither audio nor video is present, and the rejection is always the missing-media one |
| Assets.FallbackUnreachable | server/index.js:39-115 | the guards are exhaustive, so the `invalid request` fallback is never selected |
| Assets.ImageAloneRejected | server/index.js:35-41 | an image uploaded alone is rejected like an empty request |
| Assets.VideoWithoutAudio | server/index.js:44-47 | video without audio selects the re-encode pipeline on the video's path, whatever image was uploaded |
| Assets.AudioTakesPrecedence | server/index.js:61-77 | with audio present, an audio pipeline is chosen even if a video was uploaded: image + audio when there is an image, black + audio when there is none |
| Assets.SelectDecisionTable | server/index.js:35-77 | each pipeline is selected if and only if its triggering condition holds, and it reads only non-empty uploaded paths from their own fields |
| Assets.EmptyPathIsAbsent | server/index.js:36-41 | an empty audio path is falsy, so with no video the request is rejected |
| Jobs.Build | server/index.js:46-87 | every job meets the codec contract (libx264, aac, faststart) and writes `OUT_DIR/<id>.mp4`; it has one input for re-encoding and two otherwise; it cuts at the shortest stream exactly when it composes |
| Jobs.TranscodeJobShape | server/index.js:46-47 | re-encoding has the video file as its only input, its output options are exactly libx264, aac and faststart, and it passes neither `-shortest` nor `-pix_fmt` |
| Jobs.ImageAudioJobShape | server/index.js:66-76 | image + audio inputs are [image looped with 1, audio], the output options are exactly the five of lines 71-75 in that order, and the output is cut at the shortest stream in yuv420p |
| Jobs.BlackAudioJobShape | server/index.js:83-87 | black + audio inputs are [the lavfi black 1280x720 source with `-f lavfi`, the audio file], the output options are exactly the five of line 87 in that order, and the output is cut at the shortest stream in yuv420p |
| Jobs.ComposeOptionsAgree | server/index.js:70-87 | the two compose pipelines pass the same multiset of output options, in a different order |
| Jobs.LoopAndSyntheticPlacement | server/index.js:64-86 | in any job, an input is looped only if it is the image of image + audio, and it is synthetic only if it is the first input of black + audio |
| Jobs.UrlServesOutPath | server/index.js:11-50 | the URL returned to the client is served from exactly the file the job writes |
| Jobs.OutPathInjective | server/index.js:33-34 | distinct identifiers give distinct output paths |
| Jobs.UrlInjective | server/index.js:50 | distinct identifiers give distinct public URLs |
| Ffmpeg.Command.constructor | server/index.js:62 | `ffmpeg()` starts with no inputs, no output options and no output |
| Ffmpeg.Command.WithInput | server/index.js:46 | `ffmpeg(video)` starts with the video as its only input |
| Ffmpeg.Command.Input | server/index.js:67-69 | `.input` appends one input with no options and no loop, and changes nothing else |
| Ffmpeg.Command.Loop | server/index.js:68 | `.loop(n)` marks only the latest input as looped |
| Ffmpeg.Command.InputOptions | server/index.js:85 | `.inputOptions` extends only the latest input's options |
| Ffmpeg.Command.OutputOptions | server/index.js:70-76 | `.outputOptions` appends the given options in order, and changes nothing else |
| Ffmpeg.Command.Save | server/index.js:56 | `.save(path)` fixes the output path and keeps inputs and options |
| Responses.MapOutcome | server/index.js:48-55 | the reply is 200 exactly on `end`, and it then carries `{id, url}` with a URL served from the output file; on `error` it is 500 with `ffmpeg error` and the engine's message |
| Responses.FailureHidesOutput | server/index.js:52-55 | an encode failure never advertises the output: its body has no id or URL, only the category and the engine's message |
| Responses.ResponseWriter.constructor | server/index.js:31 | a fresh response has status 200 and nothing sent |
| Responses.ResponseWriter.Status | server/index.js:40 | `res.status` sets the status and sends nothing |
| Responses.ResponseWriter.Json | server/index.js:50 | `res.json` sends the body once, keeping the status |
| Responses.ResponseWriter.Send | server/index.js:104-108 | sending a response leaves exactly that response as the reply |
| Upload.Plan | server/index.js:39-87 | a job is built exactly when audio or video is present, and every built job meets the codec contract and writes `OUT_DIR/<id>.mp4` |
| Upload.Handle | server/index.js:32-115 | every reply is 200, 400 or 500; it is 400 exactly when no job is built; it is 200 exactly when a job is built and the engine ends |
| Upload.BuildCommand | server/index.js:44-110 | the step-by-step builder calls of each pipeline produce exactly the declared job |
| Upload.HandleUpload | server/index.js:32-115 | the handler submits the planned job, or none, and leaves exactly one reply, the one `Handle` specifies |
| Upload.SuccessLocatesOutput | server/index.js:33-104 | a success reply carries the request's own id and a URL served from the submitted job's output file |
| Upload.EngineErrorNeverSucceeds | server/index.js:52-109 | an engine error never gives a success reply in any pipeline; a built job then answers 500 with `ffmpeg error` and the message |
| Upload.RejectionBuildsNoJob | server/index.js:39-41 | without audio and video, no job is built and the reply is the 400 missing-media message |
| Upload.InvalidRequestNeverSent | server/index.js:115 | the `invalid request` reply is never sent |
| Upload.DistinctRequestsDistinctOutputs | server/index.js:33-34 | requests with different identifiers never write the same file, and their success replies differ |

## Left out

- Express setup, CORS, the `/ping` route and `app.listen` are HTTP plumbing and are not modelled. Static serving appears only as `Jobs.ServedFile`, the URL-to-file mapping under `public`.
- multer's disk storage and its `Date.now()`-prefixed file names are I/O and clock-dependent. The model takes the stored paths as given.
- Creating the upload and output directories at start-up is a file-system side effect. `OUT_DIR` is the constant `public/videos`.
- UUID generation is left out. The identifier is a parameter. The model proves that distinct identifiers never collide. That identifiers are distinct is the library's promise.
- `path.join` normalisation is not modelled. The model concatenates with `/`. The two agree for UUID identifiers, which hold no `/` or `.`.
- Running ffmpeg is left out: codec semantics, duration, resolution and playability. The engine is a parameter that either ends or errors with a message.
- Ffmpeg.Command.Loop: models only the loop flag on the latest input. In fluent-ffmpeg, `loop(duration)` may also set an output duration of `duration` seconds (`-t`). If so, line 68's `.loop(1)` would cut the image + audio video to one second, against the comment at line 65 that wants a video as long as the audio. The library is not part of this model, so the model does not capture that duration.
- How fluent-ffmpeg splits an option string such as `-c:v libx264` into command-line words is not modelled. Options are kept as the strings the handler passes.
- Ffmpeg.Command.OutputOptions: does not record the call form. Line 47 passes three separate string arguments, while lines 70-76 and 87 pass one array. fluent-ffmpeg may split `"-opt value"` strings only in the one-argument or array form. If so, the re-encode job hands ffmpeg `-c:v libx264` as a single word. The library is not part of this model, so the model does not capture this difference.
- Asynchronous callback timing, concurrent requests and `console` logging are left out.
- The outer `try/catch` and its 500 `server error` reply are left out. This includes a request whose uploaded-files object is missing.
- At line 62 the source creates a command that it replaces at line 66 (image present) or never uses (black background). The model builds one command per pipeline, because the discarded command affects nothing.
- The handler method `Upload.HandleUpload` dispatches on `Assets.Select` rather than re-testing the guards in place. The guard chain, including the unreachable fallback, lives in `Select`. Statements in the dead fallback branch of a method would be proved only from contradictory facts, and the verifier warns about that.
