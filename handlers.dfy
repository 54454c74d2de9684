/**
 * The five movie handlers. The backend is an oracle from request to response;
 * every handler returns the backend calls it made, in order, and the outcome
 * the client sees, so that "no call is made" and "exactly one follow-up call
 * is made" are statements about the returned calls.
 */
module Handlers {
  import opened Wrappers
  import opened Http
  import opened Credentials
  import opened Validation
  import opened Query

  datatype Verb = GET | POST | PATCH | DELETE

  datatype BackendRequest = BackendRequest(
    verb: Verb, url: string, headers: map<string, string>,
    params: map<string, string>, body: Option<map<string, Value>>)

  /** A row as the backend returns it. */
  type Row = map<string, Value>

  /** `status_code`, `text` and the decoded JSON rows of a backend response. */
  datatype BackendResponse = BackendResponse(status: int, text: string, rows: seq<Row>)

  type Backend = BackendRequest -> BackendResponse

  /** What the client receives: a status with rows, or an error. */
  datatype Outcome = Success(status: int, rows: seq<Row>) | Failure(error: HttpError)

  datatype Exchange = Exchange(calls: seq<BackendRequest>, outcome: Outcome)

  const NotFound: HttpError := HttpError(404, Message("Movie not found"))
  const NoFieldsToUpdate: HttpError := HttpError(400, Message("No fields to update"))

  /** Any backend status of 400 or more is re-raised with the backend's own status and text. */
  predicate IsBackendError(r: BackendResponse) { r.status >= 400 }

  function Reraise(r: BackendResponse): Outcome
  {
    Failure(HttpError(r.status, BackendBody(r.text)))
  }

  /** A call to the movies table carrying the caller's credential and the fixed headers. */
  function Call(cfg: Config, verb: Verb, token: string, params: map<string, string>,
                body: Option<map<string, Value>>): BackendRequest
  {
    BackendRequest(verb, TableUrl(cfg), PostgrestHeaders(cfg, token), params, body)
  }

  /** Every call of an exchange carries the inbound header, unchanged, and goes to the table. */
  predicate ForwardsCredential(ex: Exchange, cfg: Config, authorization: Option<string>)
  {
    forall c :: c in ex.calls ==>
      && authorization.Some?
      && c.url == TableUrl(cfg)
      && c.headers == PostgrestHeaders(cfg, authorization.value)
  }

  /** Tail of `list_movies` and `create_movie`: errors re-raised, rows returned as they are. */
  function RowsResult(r: BackendResponse, status: int): (o: Outcome)
    ensures IsBackendError(r) ==> o == Reraise(r)
    ensures !IsBackendError(r) ==> o == Success(status, r.rows)
  {
    if r.status >= 400 then Reraise(r) else Success(status, r.rows)
  }

  /** Tail of `get_movie` and `update_movie`: errors re-raised, no rows is 404, rows returned. */
  function FoundResult(r: BackendResponse): (o: Outcome)
    ensures IsBackendError(r) ==> o == Reraise(r)
    ensures !IsBackendError(r) && r.rows == [] ==> o == Failure(NotFound)
    ensures !IsBackendError(r) && r.rows != [] ==> o == Success(200, r.rows)
    ensures o.Success? ==> o.rows != []
  {
    if r.status >= 400 then Reraise(r)
    else if r.rows == [] then Failure(NotFound)
    else Success(200, r.rows)
  }

  /** `get_movie` once the credential is accepted: one GET filtered on the id. */
  function Lookup(cfg: Config, token: string, id: Uuid, backend: Backend): (ex: Exchange)
    ensures |ex.calls| == 1
    ensures ex.calls[0] == Call(cfg, GET, token, LookupParams(id), None)
    ensures ex.calls[0].params["id"] == "eq." + id.text
    ensures ex.outcome == FoundResult(backend(ex.calls[0]))
  {
    var req := Call(cfg, GET, token, LookupParams(id), None);
    Exchange([req], FoundResult(backend(req)))
  }

  /** `GET /movies/{id}`. */
  function GetMovie(cfg: Config, authorization: Option<string>, id: Uuid, backend: Backend): (ex: Exchange)
    ensures ForwardsCredential(ex, cfg, authorization)
    ensures GetUserToken(authorization).Err? ==> ex == Exchange([], Failure(Unauthorized))
    ensures GetUserToken(authorization).Ok? ==>
      && |ex.calls| == 1
      && ex.calls[0].verb == GET && ex.calls[0].body == None
      && ex.calls[0].params == map["select" := "*", "id" := "eq." + id.text]
      && var r := backend(ex.calls[0]);
         && (IsBackendError(r) ==> ex.outcome == Reraise(r))
         && (!IsBackendError(r) && r.rows == [] ==> ex.outcome == Failure(NotFound))
         && (!IsBackendError(r) && r.rows != [] ==> ex.outcome == Success(200, r.rows))
  {
    match GetUserToken(authorization)
    case Err(e) => Exchange([], Failure(e))
    case Ok(token) => Lookup(cfg, token, id, backend)
  }

  /** `POST /movies`: credential, then validation, then one POST of the full payload. */
  function CreateMovie(cfg: Config, currentYear: int, authorization: Option<string>,
                       payload: MovieCreate, backend: Backend): (ex: Exchange)
    ensures ForwardsCredential(ex, cfg, authorization)
    ensures GetUserToken(authorization).Err? ==> ex == Exchange([], Failure(Unauthorized))
    ensures GetUserToken(authorization).Ok? && ValidateCreate(payload, currentYear).Err? ==>
      ex == Exchange([], Failure(Unprocessable(CreateViolations(payload, currentYear))))
    ensures GetUserToken(authorization).Ok? && ValidateCreate(payload, currentYear).Ok? ==>
      && |ex.calls| == 1
      && ex.calls[0].verb == POST
      && ex.calls[0].params == map[]
      && ex.calls[0].body == Some(CreateBody(payload))
      && var r := backend(ex.calls[0]);
         && (IsBackendError(r) ==> ex.outcome == Reraise(r))
         && (!IsBackendError(r) ==> ex.outcome == Success(201, r.rows))
  {
    match GetUserToken(authorization)
    case Err(e) => Exchange([], Failure(e))
    case Ok(token) =>
      match ValidateCreate(payload, currentYear)
      case Err(e) => Exchange([], Failure(e))
      case Ok(m) =>
        var req := Call(cfg, POST, token, map[], Some(CreateBody(m)));
        Exchange([req], RowsResult(backend(req), 201))
  }

  /** `PUT /movies/{id}`: credential, validation, a non-empty patch, then one PATCH filtered on the id. */
  function UpdateMovie(cfg: Config, currentYear: int, authorization: Option<string>, id: Uuid,
                       payload: MovieUpdate, backend: Backend): (ex: Exchange)
    ensures ForwardsCredential(ex, cfg, authorization)
    ensures GetUserToken(authorization).Err? ==> ex == Exchange([], Failure(Unauthorized))
    ensures GetUserToken(authorization).Ok? && ValidateUpdate(payload, currentYear).Err? ==>
      ex == Exchange([], Failure(Unprocessable(UpdateViolations(payload, currentYear))))
    ensures GetUserToken(authorization).Ok? && (forall f :: !Present(payload, f)) ==>
      ex == Exchange([], Failure(NoFieldsToUpdate))
    ensures GetUserToken(authorization).Ok? && ValidateUpdate(payload, currentYear).Ok?
            && (exists f :: Present(payload, f)) ==>
      && |ex.calls| == 1
      && ex.calls[0].verb == PATCH
      && ex.calls[0].params == map["id" := "eq." + id.text]
      && ex.calls[0].body == Some(Patch(payload))
      && var r := backend(ex.calls[0]);
         && (IsBackendError(r) ==> ex.outcome == Reraise(r))
         && (!IsBackendError(r) && r.rows == [] ==> ex.outcome == Failure(NotFound))
         && (!IsBackendError(r) && r.rows != [] ==> ex.outcome == Success(200, r.rows))
  {
    match GetUserToken(authorization)
    case Err(e) => Exchange([], Failure(e))
    case Ok(token) =>
      EmptyUpdateIsValid(payload, currentYear);
      match ValidateUpdate(payload, currentYear)
      case Err(e) => Exchange([], Failure(e))
      case Ok(u) =>
        var data := Patch(u);
        PatchEmptyIffNothingPresent(u);
        if data == map[] then Exchange([], Failure(NoFieldsToUpdate))
        else
          var req := Call(cfg, PATCH, token, RowFilter(id), Some(data));
          Exchange([req], FoundResult(backend(req)))
  }

  /**
   * `DELETE /movies/{id}`. A 204 is success at once; any other non-error
   * status is followed by one lookup of the id, which decides between
   * success and 404 (or re-raises the lookup's own backend error).
   */
  function DeleteMovie(cfg: Config, authorization: Option<string>, id: Uuid, backend: Backend): (ex: Exchange)
    ensures ForwardsCredential(ex, cfg, authorization)
    ensures GetUserToken(authorization).Err? ==> ex == Exchange([], Failure(Unauthorized))
    ensures ex.outcome.Success? ==> ex.outcome == Success(204, [])
    ensures GetUserToken(authorization).Ok? ==>
      && 1 <= |ex.calls| <= 2
      && ex.calls[0].verb == DELETE && ex.calls[0].body == None
      && ex.calls[0].params == map["id" := "eq." + id.text]
      && var d := backend(ex.calls[0]);
         && (IsBackendError(d) ==> |ex.calls| == 1 && ex.outcome == Reraise(d))
         && (d.status == 204 ==> |ex.calls| == 1 && ex.outcome == Success(204, []))
         && (!IsBackendError(d) && d.status != 204 ==>
               && |ex.calls| == 2
               && ex.calls[1].verb == GET && ex.calls[1].body == None
               && ex.calls[1].params == map["select" := "*", "id" := "eq." + id.text]
               && var g := backend(ex.calls[1]);
                  && (IsBackendError(g) ==> ex.outcome == Reraise(g))
                  && (!IsBackendError(g) && g.rows == [] ==> ex.outcome == Failure(NotFound))
                  && (!IsBackendError(g) && g.rows != [] ==> ex.outcome == Success(204, [])))
  {
    match GetUserToken(authorization)
    case Err(e) => Exchange([], Failure(e))
    case Ok(token) =>
      var del := Call(cfg, DELETE, token, RowFilter(id), None);
      var d := backend(del);
      if d.status >= 400 then Exchange([del], Reraise(d))
      else if d.status == 204 then Exchange([del], Success(204, []))
      else
        var check := Lookup(cfg, token, id, backend);
        match check.outcome
        case Failure(_) => Exchange([del] + check.calls, check.outcome)
        case Success(_, rows) =>
          // The source's own "no rows" branch after the lookup: the lookup has
          // already raised 404 on no rows, so this branch is never taken.
          if rows == [] then assert false; Exchange([del] + check.calls, Failure(NotFound))
          else Exchange([del] + check.calls, Success(204, []))
  }

  // ---- the post-delete lookup under `Prefer: return=representation` ----

  /**
   * A backend as the delete of an existing row looks under
   * `Prefer: return=representation`: the DELETE answers 200 with the removed
   * row, and afterwards a lookup of that id finds nothing.
   */
  function RemovedRowBackend(row: Row): Backend
  {
    (req: BackendRequest) => if req.verb == DELETE then BackendResponse(200, "", [row]) else BackendResponse(200, "[]", [])
  }

  /** As written, deleting a row that existed is reported as 404. */
  lemma DeleteOfExistingRowReportsNotFound(cfg: Config, authorization: string, id: Uuid, row: Row)
    requires HasBearerScheme(authorization)
    ensures DeleteMovie(cfg, Some(authorization), id, RemovedRowBackend(row)).outcome == Failure(NotFound)
  {
  }

  /**
   * `DELETE /movies/{id}` deciding on the rows the delete itself returns:
   * the removed rows are exactly the rows that existed, so no lookup is needed.
   */
  function DeleteMovieByReturnedRows(cfg: Config, authorization: Option<string>, id: Uuid,
                                     backend: Backend): (ex: Exchange)
    ensures ForwardsCredential(ex, cfg, authorization)
    ensures GetUserToken(authorization).Err? ==> ex == Exchange([], Failure(Unauthorized))
    ensures ex.outcome.Success? ==> ex.outcome == Success(204, [])
    ensures GetUserToken(authorization).Ok? ==>
      && |ex.calls| == 1
      && ex.calls[0].verb == DELETE && ex.calls[0].body == None
      && ex.calls[0].params == map["id" := "eq." + id.text]
      && var d := backend(ex.calls[0]);
         && (IsBackendError(d) ==> ex.outcome == Reraise(d))
         && (d.status == 204 ==> ex.outcome == Success(204, []))
         && (!IsBackendError(d) && d.status != 204 ==>
               (ex.outcome.Success? <==> d.rows != [])
               && (d.rows == [] ==> ex.outcome == Failure(NotFound)))
  {
    match GetUserToken(authorization)
    case Err(e) => Exchange([], Failure(e))
    case Ok(token) =>
      var del := Call(cfg, DELETE, token, RowFilter(id), None);
      var d := backend(del);
      if d.status >= 400 then Exchange([del], Reraise(d))
      else if d.status == 204 || d.rows != [] then Exchange([del], Success(204, []))
      else Exchange([del], Failure(NotFound))
  }

  /** Deciding on the returned rows, deleting a row that existed succeeds. */
  lemma DeleteByReturnedRowsReportsRemoval(cfg: Config, authorization: string, id: Uuid, row: Row)
    requires HasBearerScheme(authorization)
    ensures DeleteMovieByReturnedRows(cfg, Some(authorization), id, RemovedRowBackend(row)).outcome
            == Success(204, [])
  {
  }

  /** `GET /movies`: credential, then one GET with the list parameters. */
  method ListMovies(cfg: Config, authorization: Option<string>, args: ListArgs, backend: Backend)
    returns (ex: Exchange)
    ensures ForwardsCredential(ex, cfg, authorization)
    ensures GetUserToken(authorization).Err? ==> ex == Exchange([], Failure(Unauthorized))
    ensures GetUserToken(authorization).Ok? ==>
      && |ex.calls| == 1
      && ex.calls[0].verb == GET && ex.calls[0].body == None
      && IsListQuery(args, ex.calls[0].params)
      && var r := backend(ex.calls[0]);
         && (IsBackendError(r) ==> ex.outcome == Reraise(r))
         && (!IsBackendError(r) ==> ex.outcome == Success(200, r.rows))
  {
    var auth := GetUserToken(authorization);
    if auth.Err? {
      return Exchange([], Failure(auth.error));
    }
    var params := BuildListParams(args);
    var req := Call(cfg, GET, auth.value, params, None);
    ex := Exchange([req], RowsResult(backend(req), 200));
  }
}
