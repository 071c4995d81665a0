/**
  The `/upload` handler: pick a pipeline for the uploaded assets, build its
  ffmpeg command, submit it once, and answer with exactly one reply
  (server/index.js, lines 32-115). The request identifier (a fresh UUID) and the
  engine's terminal signal are parameters.
 */
module Upload {
  import opened Wrappers
  import opened Assets
  import opened Jobs
  import opened Ffmpeg
  import opened Responses

  /** The job the handler submits, if any. */
  function Plan(a: AssetSet, id: Id): (job: Option<JobDescriptor>)
    ensures job.None? <==> !Truthy(a.audio) && !Truthy(a.video)
    ensures job.Some? ==> CodecContract(job.value.outputOptions) && job.value.output == OutPath(id)
  {
    match Select(a)
    case Failure(_) => None
    case Success(p) => Some(Build(p, id))
  }

  /** The reply the handler sends, given what the engine reports. */
  function Handle(a: AssetSet, id: Id, engine: EngineOutcome): (r: Response)
    ensures r.status in {OK, BAD_REQUEST, SERVER_ERROR}
    ensures r.status == BAD_REQUEST <==> Plan(a, id).None?
    ensures r.status == OK <==> Plan(a, id).Some? && engine.End?
  {
    match Select(a)
    case Failure(e) => RejectionResponse(e)
    case Success(_) => MapOutcome(engine, id)
  }

  /** Builds the command of one pipeline with the same calls, in the same order,
      as the handler. */
  method BuildCommand(p: Pipeline, id: Id) returns (cmd: Command)
    ensures fresh(cmd) && cmd.output.Some?
    ensures cmd.Job() == Build(p, id)
  {
    var outFile := OutPath(id);
    if p.VideoTranscode? {
      cmd := new Command.WithInput(p.video);
      cmd.OutputOptions([VIDEO_CODEC, AUDIO_CODEC, FAST_START]);
      cmd.Save(outFile);
    } else if p.ImageAudioCompose? {
      cmd := new Command();
      cmd.Input(p.image);
      cmd.Loop(1);
      assert cmd.inputs == [InputSpec(p.image, [], Some(1))];
      cmd.Input(p.audio);
      cmd.OutputOptions([VIDEO_CODEC, AUDIO_CODEC, SHORTEST, PIXEL_FORMAT, FAST_START]);
      cmd.Save(outFile);
    } else {
      cmd := new Command();
      cmd.Input(BLACK_SOURCE);
      cmd.InputOptions([LAVFI]);
      assert cmd.inputs[0].options == [] + [LAVFI] == [LAVFI];
      assert cmd.inputs == [InputSpec(BLACK_SOURCE, [LAVFI], None)];
      cmd.Input(p.audio);
      cmd.OutputOptions([VIDEO_CODEC, AUDIO_CODEC, SHORTEST, FAST_START, PIXEL_FORMAT]);
      cmd.Save(outFile);
    }
  }

  /** The handler: returns the job it submitted (none on a 400) and leaves exactly
      one reply in `res`. */
  method HandleUpload(a: AssetSet, id: Id, engine: EngineOutcome, res: ResponseWriter)
    returns (job: Option<JobDescriptor>)
    requires res.sent.None? && res.statusCode == OK
    modifies res
    ensures job == Plan(a, id)
    ensures res.Reply() == Some(Handle(a, id, engine))
  {
    match Select(a)
    case Failure(e) =>
      job := None;
      res.Send(RejectionResponse(e));
    case Success(p) =>
      var cmd := BuildCommand(p, id);
      job := Some(cmd.Job());
      res.Send(MapOutcome(engine, id));
  }

  /** A successful reply names the request's identifier and a URL served from the
      very file the submitted job wrote. */
  lemma SuccessLocatesOutput(a: AssetSet, id: Id, engine: EngineOutcome)
    requires Handle(a, id, engine).status == OK
    ensures Handle(a, id, engine).body == Created(id, UrlOf(id))
    ensures Plan(a, id).Some? && ServedFile(Handle(a, id, engine).body.url) == Plan(a, id).value.output
  {
    UrlServesOutPath(id);
  }

  /** An engine error is never reported as success, whatever was uploaded. */
  lemma EngineErrorNeverSucceeds(a: AssetSet, id: Id, msg: string)
    ensures Handle(a, id, Error(msg)).status != OK
    ensures !Handle(a, id, Error(msg)).body.Created?
    ensures Plan(a, id).Some? ==> Handle(a, id, Error(msg)) == Response(SERVER_ERROR, Failed(FFMPEG_ERROR, msg))
  {
  }

  /** Rejections are decided before any job exists and always carry the
      missing-media message. */
  lemma RejectionBuildsNoJob(a: AssetSet, id: Id, engine: EngineOutcome)
    requires !Truthy(a.audio) && !Truthy(a.video)
    ensures Plan(a, id) == None
    ensures Handle(a, id, engine) == Response(BAD_REQUEST, Refused(MISSING_MEDIA_MESSAGE))
  {
  }

  /** The `invalid request` reply is never sent. */
  lemma InvalidRequestNeverSent(a: AssetSet, id: Id, engine: EngineOutcome)
    ensures Handle(a, id, engine).body != Refused(INVALID_REQUEST_MESSAGE)
  {
    FallbackUnreachable(a);
  }

  /** Two requests with different identifiers never write the same file, and
      their success replies never name the same URL. */
  lemma {:induction false} DistinctRequestsDistinctOutputs(a1: AssetSet, a2: AssetSet, id1: Id, id2: Id)
    requires id1 != id2 && Plan(a1, id1).Some? && Plan(a2, id2).Some?
    ensures Plan(a1, id1).value.output != Plan(a2, id2).value.output
    ensures Handle(a1, id1, End).body != Handle(a2, id2, End).body
  {
    if Plan(a1, id1).value.output == Plan(a2, id2).value.output {
      OutPathInjective(id1, id2);
    }
  }
}
