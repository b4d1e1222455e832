/**
 * The webhook endpoint `POST /update`: validate the decoded body, hand it to
 * exactly one handler, and answer 200, 400 or 500.
 */
module TelegramRoute {
  import opened Wrappers
  import opened JsonModel
  import opened TelegramTypes
  import opened Geo
  import opened TelegramHandlers

  /** What `c.req.json()` produced: a value, a `SyntaxError`, or some other failure. */
  datatype Body = Parsed(update: Json) | MalformedJson | ReadFailure

  datatype Response = Response(status: nat, text: string)

  const Ok := Response(200, "OK")
  const InvalidUpdate := Response(400, "Bad Request: Invalid update format")
  const BadJson := Response(400, "Bad Request: Malformed JSON")
  const ServerError := Response(500, "Internal Server Error")

  /** The handler the endpoint runs for an update. */
  datatype Dispatch = Rejected | ToMessage(message: Json) | ToEditedMessage(message: Json) | NoHandler

  /**
   * Validation first; then the choice is by truthiness of `message`, not by
   * which of the two fields passed validation.
   */
  function Route(update: Json): Dispatch {
    var u := Some(update);
    if !IsValidTelegramUpdate(u) then Rejected
    else if Truthy(Get(u, "message")) then ToMessage(Get(u, "message").value)
    else if Truthy(Get(u, "edited_message")) then ToEditedMessage(Get(u, "edited_message").value)
    else NoHandler
  }

  /** How `handleMessage` ends when given a `message` value that failed validation. */
  datatype UnvalidatedRun =
    | RunsWithoutStorage  // returns normally without a statement
    | ThrowsTypeError     // reads `msg.chat.id` with `chat` undefined or null
    | ReachesStorage      // the start path issues statements with unvalidated fields

  /**
   * Decided by the property reads alone; converting an unvalidated field to
   * text can throw as well, which this function does not model.
   */
  function RunOnUnvalidatedMessage(m: Json): UnvalidatedRun {
    var msg := Some(m);
    var loc := Get(msg, "location");
    if !Truthy(loc) then RunsWithoutStorage
    else
      var chat := Get(msg, "chat");
      if chat.None? || chat.value.JNull? then ThrowsTypeError
      else if !Truthy(Get(loc, "live_period")) then RunsWithoutStorage
      else if !Truthy(Get(msg, "from")) then RunsWithoutStorage
      else ReachesStorage
  }

  /** The storage failures injected into the three handlers a request can run. */
  datatype Faults = Faults(start: Fault, update: Fault, end: Fault)

  /** The response to a request. The handlers catch every storage failure, so only the listed cases answer 500. */
  function ResponseFor(body: Body): Response {
    match body
    case MalformedJson => BadJson
    case ReadFailure => ServerError
    case Parsed(update) =>
      match Route(update)
      case Rejected => InvalidUpdate
      case ToMessage(m) =>
        if DecodeMessage(Some(m)).None? && RunOnUnvalidatedMessage(m) == ThrowsTypeError then ServerError else Ok
      case ToEditedMessage(_) => Ok
      case NoHandler => Ok
  }

  /** The tables after a request. */
  function AfterPost(t: Tables, body: Body, now: int, dist: (Point, Point) -> real, faults: Faults): Tables {
    match body
    case Parsed(update) =>
      (match Route(update)
       case ToMessage(m) =>
         (match DecodeMessage(Some(m))
          case Some(msg) => AfterMessage(t, msg, faults.start)
          case None => t)
       case ToEditedMessage(m) =>
         (match DecodeMessage(Some(m))
          case Some(msg) => AfterEditedMessage(t, msg, now, dist, faults.update, faults.end)
          case None => t)
       case _ => t)
    case _ => t
  }

  method PostUpdate(db: Database, body: Body, now: int, dist: (Point, Point) -> real, faults: Faults) returns (resp: Response)
    requires db.Valid()
    modifies db
    ensures db.Valid()
    ensures db.State() == AfterPost(old(db.State()), body, now, dist, faults)
    ensures resp == ResponseFor(body)
  {
    match body {
      case MalformedJson =>
        return BadJson;
      case ReadFailure =>
        return ServerError;
      case Parsed(update) =>
        var route := Route(update);
        match route {
          case Rejected =>
            return InvalidUpdate;
          case ToMessage(m) =>
            var msg := DecodeMessage(Some(m));
            if msg.Some? {
              db.HandleMessage(msg.value, faults.start);
            } else if RunOnUnvalidatedMessage(m) == ThrowsTypeError {
              return ServerError;
            }
            return Ok;
          case ToEditedMessage(m) =>
            var msg := DecodeMessage(Some(m));
            if msg.Some? {
              db.HandleEditedMessage(msg.value, now, dist, faults.update, faults.end);
            }
            return Ok;
          case NoHandler =>
            return Ok;
        }
    }
  }

  // ---------------------------------------------------------------------------
  // Properties

  /** An update failing the guard is answered 400 and no handler runs. */
  lemma InvalidUpdateRejected(t: Tables, update: Json, now: int, dist: (Point, Point) -> real, faults: Faults)
    requires !IsValidTelegramUpdate(Some(update))
    ensures ResponseFor(Parsed(update)) == Response(400, "Bad Request: Invalid update format")
    ensures AfterPost(t, Parsed(update), now, dist, faults) == t
  {
  }

  /**
   * A valid update goes to exactly one handler: `handleMessage` when
   * `message` is present, otherwise `handleEditedMessage`, whose message then
   * is valid.
   */
  lemma ValidUpdateOneHandler(update: Json)
    requires IsValidTelegramUpdate(Some(update))
    ensures Route(update).ToMessage? || Route(update).ToEditedMessage?
    ensures Route(update).ToMessage? <==> Truthy(Get(Some(update), "message"))
    ensures Route(update).ToEditedMessage? ==> DecodeMessage(Some(Route(update).message)).Some?
  {
    var u := Some(update);
    MessageGuardDecodes(Get(u, "message"));
    MessageGuardDecodes(Get(u, "edited_message"));
  }

  /** Dispatch is by presence: a truthy but invalid `message` beside a valid `edited_message` still goes to `handleMessage`. */
  lemma DispatchByPresence(update: Json)
    requires IsValidTelegramUpdate(Some(update))
    requires Truthy(Get(Some(update), "message")) && !IsValidTelegramMessage(Get(Some(update), "message"))
    ensures IsValidTelegramMessage(Get(Some(update), "edited_message"))
    ensures Route(update) == ToMessage(Get(Some(update), "message").value)
    ensures DecodeMessage(Get(Some(update), "message")).None?
  {
    MessageGuardDecodes(Get(Some(update), "message"));
  }

  /** Once a handler has run on a valid message the answer is 200 "OK", whatever the storage did. */
  lemma HandledUpdateOk(update: Json)
    requires IsValidTelegramUpdate(Some(update))
    requires Route(update).ToMessage? ==> IsValidTelegramMessage(Some(Route(update).message))
    ensures ResponseFor(Parsed(update)) == Response(200, "OK")
  {
    ValidUpdateOneHandler(update);
    if Route(update).ToMessage? {
      MessageGuardDecodes(Some(Route(update).message));
    }
  }

  /** A `SyntaxError` is a 400, any other failure to read the body a 500; neither touches storage. */
  lemma BodyErrors(t: Tables, now: int, dist: (Point, Point) -> real, faults: Faults)
    ensures ResponseFor(MalformedJson) == Response(400, "Bad Request: Malformed JSON")
    ensures ResponseFor(ReadFailure) == Response(500, "Internal Server Error")
    ensures AfterPost(t, MalformedJson, now, dist, faults) == t && AfterPost(t, ReadFailure, now, dist, faults) == t
  {
  }
}
