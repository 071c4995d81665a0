/**
  What the handler sends back: the mapping of ffmpeg's `end` / `error` signal
  to a JSON reply, the two 400 rejections, and the Express response object that
  is written exactly once (server/index.js, lines 40, 48-55, 88-95, 102-109, 115).
 */
module Responses {
  import opened Wrappers
  import opened Assets
  import opened Jobs

  /** The terminal signal of one encode: `end`, or `error` with the error's message. */
  datatype EngineOutcome = End | Error(message: string)

  /** The JSON bodies the handler sends. */
  datatype Body =
    | Created(id: Id, url: string)          // { id, url }
    | Failed(error: string, detail: string) // { error, detail }
    | Refused(error: string)                // { error }

  datatype Response = Response(status: nat, body: Body)

  const OK: nat := 200
  const BAD_REQUEST: nat := 400
  const SERVER_ERROR: nat := 500

  /** The missing-media message ("at least one audio or video file is required"). */
  const MISSING_MEDIA_MESSAGE: string := "ต้องมี audio หรือ video อย่างน้อย 1 ไฟล์"
  const INVALID_REQUEST_MESSAGE: string := "invalid request"
  const FFMPEG_ERROR: string := "ffmpeg error"

  /** The `end` and `error` callbacks, identical in all three pipelines. */
  function MapOutcome(o: EngineOutcome, id: Id): (r: Response)
    ensures r.status == OK <==> o.End?
    ensures r.status == OK ==> r.body == Created(id, UrlOf(id)) && ServedFile(r.body.url) == OutPath(id)
    ensures o.Error? ==> r.status == SERVER_ERROR && r.body == Failed(FFMPEG_ERROR, o.message)
  {
    UrlServesOutPath(id);
    match o
    case End => Response(OK, Created(id, UrlOf(id)))
    case Error(msg) => Response(SERVER_ERROR, Failed(FFMPEG_ERROR, msg))
  }

  /** The 400 answers. */
  function RejectionResponse(e: Rejection): Response
  {
    match e
    case MissingMedia => Response(BAD_REQUEST, Refused(MISSING_MEDIA_MESSAGE))
    case InvalidRequest => Response(BAD_REQUEST, Refused(INVALID_REQUEST_MESSAGE))
  }

  /** An encode failure never advertises the output file: its body carries no URL
      and no identifier, only the generic category and the engine's message. */
  lemma FailureHidesOutput(msg: string, id: Id)
    ensures !MapOutcome(Error(msg), id).body.Created?
    ensures MapOutcome(Error(msg), id).body.error == FFMPEG_ERROR
    ensures MapOutcome(Error(msg), id).body.detail == msg
  {
  }

  /** Express's `res`: a status that `.status(code)` sets (200 until then) and a
      body that `.json(body)` sends, once. */
  class ResponseWriter {
    var statusCode: nat
    var sent: Option<Body>

    constructor ()
      ensures statusCode == OK && sent == None
    {
      statusCode, sent := OK, None;
    }

    /** `res.status(code)`. */
    method Status(code: nat)
      modifies this
      ensures statusCode == code && sent == old(sent)
    {
      statusCode := code;
    }

    /** `res.json(body)`: sends the reply; a second send is an error in Express. */
    method Json(body: Body)
      requires sent.None?
      modifies this
      ensures sent == Some(body) && statusCode == old(statusCode)
    {
      sent := Some(body);
    }

    /** The reply the client receives, once one has been sent. */
    function Reply(): Option<Response>
      reads this
    {
      if sent.Some? then Some(Response(statusCode, sent.value)) else None
    }

    /** Sends `r` as the one reply of this request. */
    method Send(r: Response)
      requires sent.None? && statusCode == OK
      modifies this
      ensures Reply() == Some(r)
    {
      if r.status != OK {
        Status(r.status);
      }
      Json(r.body);
    }
  }
}
