/**
 * The two JSON handlers of the guestbook (app/handlers.go): create-entry,
 * gated by the session flag `hasEntry`, and list-entries, plus the error
 * responses they share.  A response is modelled as its status code, its JSON
 * envelope and its headers; writing it is not modelled.
 */
module Handlers {
  import opened Wrappers
  import opened Data

  // ---------------------------------------------------------------------------
  // Responses
  // ---------------------------------------------------------------------------

  const StatusOK := 200
  const StatusCreated := 201
  const StatusBadRequest := 400
  const StatusNotFound := 404
  const StatusMethodNotAllowed := 405
  const StatusInternalServerError := 500
  const StatusBadGateway := 502

  const NotFoundMessage := "The requested resource could not be found."
  const ServerErrorMessage := "The server encountered a problem and could not process your request."

  /** The envelopes the handlers write: {"status": ...}, {"error": ...} or {"entries": [...]}. */
  datatype Payload =
    | StatusBody(status: string)
    | ErrorBody(error: string)
    | EntriesBody(entries: seq<seq<(string, Json)>>)

  datatype Response = Response(status: int, body: Payload, headers: map<string, string>)

  const NoHeaders: map<string, string> := map[]

  /** {"status": "failure"} with 201: the answer to a session that has already submitted. */
  const AlreadySubmitted := Response(StatusCreated, StatusBody("failure"), NoHeaders)

  /** {"status": "failure"} with 502: the answer to an input that fails validation. */
  const ValidationFailed := Response(StatusBadGateway, StatusBody("failure"), NoHeaders)

  /** {"status": "success"} with 201 and `Location: /`. */
  const Created := Response(StatusCreated, StatusBody("success"), map["Location" := "/"])

  /** The error envelope {"error": message} with the given status and no headers. */
  function ErrorResponse(status: int, message: string): (r: Response)
    ensures r.status == status && r.body == ErrorBody(message) && r.headers == NoHeaders
  {
    Response(status, ErrorBody(message), NoHeaders)
  }

  /** A 400 whose error envelope carries the error's own text. */
  function BadRequestResponse(err: string): (r: Response)
    ensures r.status == StatusBadRequest && r.body == ErrorBody(err) && r.headers == NoHeaders
  {
    ErrorResponse(StatusBadRequest, err)
  }

  /** A 404 with the fixed not-found message. */
  function NotFoundResponse(): (r: Response)
    ensures r.status == StatusNotFound && r.body == ErrorBody(NotFoundMessage) && r.headers == NoHeaders
  {
    ErrorResponse(StatusNotFound, NotFoundMessage)
  }

  /** A 405 whose message names the request's method. */
  function NotAllowedResponse(httpMethod: string): (r: Response)
    ensures r.status == StatusMethodNotAllowed && r.headers == NoHeaders
    ensures r.body == ErrorBody("The " + httpMethod + " method is not supported for this resource.")
  {
    ErrorResponse(StatusMethodNotAllowed, "The " + httpMethod + " method is not supported for this resource.")
  }

  /** The cause is only logged: every server error looks the same to the client. */
  function ServerErrorResponse(cause: Error): (r: Response)
    ensures r.status == StatusInternalServerError && r.body == ErrorBody(ServerErrorMessage)
    ensures r.headers == NoHeaders
  {
    ErrorResponse(StatusInternalServerError, ServerErrorMessage)
  }

  // ---------------------------------------------------------------------------
  // Create entry
  // ---------------------------------------------------------------------------

  /** The decoded request body; the rating is decoded into an int8. */
  datatype Input = Input(
    rating: int8,
    testimonial: string,
    lastName: string,
    firstName: string,
    occupation: string,
    github: string)

  /** What the handler accepts for storing: a rating from 1 to 5, a testimonial and a first name. */
  predicate Acceptable(input: Input)
  {
    1 <= input.rating <= 5 && |input.testimonial| > 0 && |input.firstName| > 0
  }

  /** The entry the handler passes to Insert: the six user fields, id and timestamp left zero. */
  function EntryOf(input: Input): (e: Entry)
    ensures e.rating == input.rating && e.testimonial == input.testimonial &&
            e.lastName == input.lastName && e.firstName == input.firstName &&
            e.occupation == input.occupation && e.github == input.github
    ensures e.id == 0 && e.createdAt == ZeroTime
  {
    Entry(0, ZeroTime, input.rating, input.testimonial, input.lastName,
          input.firstName, input.occupation, input.github)
  }

  /** The outcome of one create request: the response, and whether a row was stored and the flag set. */
  datatype Decision = Decision(response: Response, commits: bool)

  /**
   * The decision procedure of createEntryHandler, step by step: the session
   * gate, the body parse (`parsed`, the outcome of readJSON), validation, and
   * the insert (`execErr`, the driver's outcome of executing it).
   */
  function CreateDecision(submitted: bool, parsed: Result<Input, string>, execErr: Option<string>): (d: Decision)
    ensures submitted ==> d == Decision(AlreadySubmitted, false)
    ensures !submitted && parsed.Failure? ==>
              d == Decision(Response(StatusBadRequest, ErrorBody(parsed.error), NoHeaders), false)
    ensures !submitted && parsed.Success? && !Acceptable(parsed.value) ==>
              d == Decision(ValidationFailed, false)
    ensures !submitted && parsed.Success? && Acceptable(parsed.value) && execErr.Some? ==>
              d == Decision(Response(StatusInternalServerError, ErrorBody(ServerErrorMessage), NoHeaders), false)
    ensures d.commits <==> !submitted && parsed.Success? && Acceptable(parsed.value) && execErr.None?
    ensures d.commits <==> d.response == Created
  {
    if submitted then Decision(AlreadySubmitted, false)
    else if parsed.Failure? then Decision(BadRequestResponse(parsed.error), false)
    else
      var input := parsed.value;
      if input.rating > 5 || input.rating < 1 || input.testimonial == "" || input.firstName == "" then
        Decision(ValidationFailed, false)
      else if execErr.Some? then Decision(ServerErrorResponse(Driver(execErr.value)), false)
      else Decision(Created, true)
  }

  /** One create request of a session, with the outcome its insert would have. */
  datatype Request = Request(parsed: Result<Input, string>, execErr: Option<string>)

  /** The decisions for a sequence of create requests in one session, the flag threaded through. */
  function Replay(submitted: bool, reqs: seq<Request>): (ds: seq<Decision>)
    ensures |ds| == |reqs|
    decreases reqs
  {
    if reqs == [] then []
    else
      var d := CreateDecision(submitted, reqs[0].parsed, reqs[0].execErr);
      [d] + Replay(submitted || d.commits, reqs[1..])
  }

  /**
   * At most one create request per session stores an entry; every request
   * after it, and every request of a session that has already submitted, is
   * answered with the soft failure and stores nothing.
   */
  lemma {:induction false} AtMostOneCommit(submitted: bool, reqs: seq<Request>)
    ensures forall i, j :: 0 <= i < j < |reqs| && Replay(submitted, reqs)[i].commits ==>
              Replay(submitted, reqs)[j] == Decision(AlreadySubmitted, false)
    ensures submitted ==> forall d :: d in Replay(submitted, reqs) ==> d == Decision(AlreadySubmitted, false)
    decreases reqs
  {
    if reqs != [] {
      var d := CreateDecision(submitted, reqs[0].parsed, reqs[0].execErr);
      var rest := Replay(submitted || d.commits, reqs[1..]);
      AtMostOneCommit(submitted || d.commits, reqs[1..]);
      assert Replay(submitted, reqs) == [d] + rest;
      var ds := Replay(submitted, reqs);
      forall i, j | 0 <= i < j < |ds| && ds[i].commits
        ensures ds[j] == Decision(AlreadySubmitted, false)
      {
        assert ds[j] == rest[j - 1];
        if i == 0 {
          assert ds[0] == d;
          assert rest[j - 1] in rest;
        } else {
          assert ds[i] == rest[i - 1];
        }
      }
    }
  }

  // ---------------------------------------------------------------------------
  // List entries
  // ---------------------------------------------------------------------------

  /** The "entries" array: each entry in its JSON form, in order. */
  function Serialized(entries: seq<Entry>): (objs: seq<seq<(string, Json)>>)
    ensures |objs| == |entries|
    ensures forall i :: 0 <= i < |entries| ==> objs[i] == ToJson(entries[i])
  {
    if entries == [] then [] else [ToJson(entries[0])] + Serialized(entries[1..])
  }

  /**
   * The error-to-status mapping of entryHandler: ErrRecordNotFound gives 404,
   * any other error 500, and success 200 with every entry under "entries".
   */
  function ListResponse(entries: Option<seq<Entry>>, err: Option<Error>): (r: Response)
    requires err.None? ==> entries.Some?
    ensures err == Some(RecordNotFound) ==> r == Response(StatusNotFound, ErrorBody(NotFoundMessage), NoHeaders)
    ensures err.Some? && err.value.Driver? ==>
              r == Response(StatusInternalServerError, ErrorBody(ServerErrorMessage), NoHeaders)
    ensures err.None? ==> r == Response(StatusOK, EntriesBody(Serialized(entries.value)), NoHeaders)
    ensures err.None? ==>
              |r.body.entries| == |entries.value| &&
              forall i :: 0 <= i < |entries.value| ==>
                Keys(r.body.entries[i]) == EntryJsonKeys &&
                FromJson(r.body.entries[i]) == Some(entries.value[i].(createdAt := ZeroTime))
  {
    if err.Some? then
      match err.value
      case RecordNotFound => NotFoundResponse()
      case _ => ServerErrorResponse(err.value)
    else
      var objs := Serialized(entries.value);
      assert forall i :: 0 <= i < |entries.value| ==> FromJson(objs[i]) == Some(entries.value[i].(createdAt := ZeroTime)) by {
        forall i | 0 <= i < |entries.value| {
          JsonRoundTrip(entries.value[i]);
        }
      }
      Response(StatusOK, EntriesBody(objs), NoHeaders)
  }

  // ---------------------------------------------------------------------------
  // The application
  // ---------------------------------------------------------------------------

  /** The opaque identifier the session layer issues. */
  type SessionId = string

  /** The application: the entry repository and the session store's `hasEntry` values. */
  class App {
    const db: EntryModel
    var sessions: map<SessionId, bool>

    ghost predicate Valid()
      reads this, db
    {
      db.Valid()
    }

    constructor (db: EntryModel)
      requires db.Valid()
      ensures this.db == db && sessions == map[] && Valid()
    {
      this.db := db;
      sessions := map[];
    }

    /** The session manager's GetBool: false when the key was never set. */
    function HasEntry(session: SessionId): (b: bool)
      reads this
      ensures session !in sessions ==> !b
      ensures session in sessions ==> b == sessions[session]
    {
      session in sessions && sessions[session]
    }

    /**
     * createEntryHandler for a request of `session`.  `parsed` is what readJSON
     * made of the body, `execErr` the driver's outcome of the INSERT, and `id`
     * and `now` the id and time the store would give the row.
     */
    method CreateEntry(session: SessionId, parsed: Result<Input, string>, execErr: Option<string>, id: nat, now: Time)
      returns (r: Response)
      requires Valid()
      requires id >= db.nextId
      modifies this, db
      ensures Valid()
      ensures var d := CreateDecision(old(HasEntry(session)), parsed, execErr);
        r == d.response &&
        sessions == (if d.commits then old(sessions)[session := true] else old(sessions)) &&
        db.rows == (if d.commits then old(db.rows) + [EntryOf(parsed.value).(id := id, createdAt := now)]
                    else old(db.rows)) &&
        db.nextId == (if d.commits then id + 1 else old(db.nextId))
      ensures forall s :: old(HasEntry(s)) ==> HasEntry(s)
    {
      var hasEntry := HasEntry(session);
      if hasEntry {
        return AlreadySubmitted;
      }
      if parsed.Failure? {
        return BadRequestResponse(parsed.error);
      }
      var input := parsed.value;
      if input.rating > 5 || input.rating < 1 || input.testimonial == "" || input.firstName == "" {
        return ValidationFailed;
      }
      var entry := EntryOf(input);
      var err := db.Insert(entry, execErr, id, now);
      if err.Some? {
        return ServerErrorResponse(err.value);
      }
      sessions := sessions[session := true];
      r := Created;
    }

    /**
     * entryHandler: lists the table.  `fault` is how the database misbehaves
     * during the SELECT.  The session store is neither read nor written, and a
     * driver error is never ErrRecordNotFound, so the 404 branch is not reached.
     */
    method ListEntries(fault: ReadFault) returns (r: Response)
      requires Valid()
      ensures r.status == StatusOK <==> !FaultFires(fault, |db.rows|)
      ensures r.status == StatusOK ==> r.body == EntriesBody(Serialized(db.rows))
      ensures r.status != StatusOK ==>
                r == Response(StatusInternalServerError, ErrorBody(ServerErrorMessage), NoHeaders)
      ensures r.headers == NoHeaders
    {
      var entries, err := db.GetAll(fault);
      r := ListResponse(entries, err);
    }
  }

  /**
   * A session submits a valid entry, submits again, and lists: the second
   * submission is the soft failure and the listing shows the one stored entry
   * with the store's id and without a timestamp.
   */
  method SubmitTwiceThenList()
  {
    var db := new EntryModel();
    var app := new App(db);
    var jane := Input(3, "Great tool", "", "Jane", "", "");
    assert Acceptable(jane);
    var r1 := app.CreateEntry("s1", Success(jane), None, 1, 42);
    assert r1 == Created;
    var stored := Entry(1, 42, 3, "Great tool", "", "Jane", "", "");
    assert EntryOf(jane).(id := 1, createdAt := 42) == stored;
    assert db.rows == [stored] && db.nextId == 2;
    assert app.HasEntry("s1");
    var r2 := app.CreateEntry("s1", Success(jane), None, 2, 43);
    assert r2 == AlreadySubmitted;
    assert db.rows == [stored];
    var r3 := app.ListEntries(NoFault);
    assert r3.status == StatusOK && r3.body == EntriesBody([ToJson(stored)]);
    JsonRoundTrip(stored);
    assert FromJson(r3.body.entries[0]) == Some(Entry(1, ZeroTime, 3, "Great tool", "", "Jane", "", ""));
  }
}
