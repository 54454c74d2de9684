# Movies API: verified model of the request-translation layer

The Movies API is a small REST facade in front of a PostgREST-style backend (Supabase). A client
sends CRUD requests for "movies". The facade checks the bearer credential and validates the JSON
payload. It then translates the request into the backend's `field=op.value` query grammar,
forwards the credential unchanged, and maps the backend's status and rows back into REST outcomes.

This project models that layer in Dafny. The modules follow its components:

- `Wrappers` (`wrappers.dfy`): `Option`.
- `Http` (`http.dfy`): errors (`HttpError`: a status and a detail), `Result`, and the deployment
  `Config` (base URL, anon key, table name).
- `Credentials` (`credentials.dfy`): `get_user_token` and `postgrest_headers`.
- `Validation` (`validation.dfy`): the `MovieCreate`/`MovieUpdate` field constraints, the create
  body and the partial-update patch.
- `Query` (`query.dfy`): decimal rendering of integers (with its inverse), the limit and offset
  clamps, the list parameters (a method that extends a map filter by filter, as the source does),
  and the id filters.
- `Handlers` (`handlers.dfy`): the five handlers. The backend is an oracle of type
  `BackendRequest -> BackendResponse`. Each handler returns an `Exchange`: the backend calls it
  made, in order, and the client's outcome. So "no backend call is made" and "exactly one
  follow-up lookup" are stated about the returned calls.

The current year, which bounds `release_year`, is the parameter `currentYear`. In the source it
is read once, when the classes are defined at start-up (`main.py:26`, `main.py:36`). So it is the
year the process started, not the year of the request. A request made in a later calendar year is
still checked against the start-up year.

The model also records these behaviours of the code:
- The current year is fixed at start-up, as said above.
- A get by id returns every matching row. More than one row is not treated as an error.
- An explicit JSON `null` and a missing field are the same in an update. Both are dropped from the
  patch, so `Option` models both.
- The credential is checked before the payload's fields are validated. So a bad credential gives
  401 even when the body is well-formed JSON that breaks a field constraint. This order comes from
  FastAPI, which resolves the `Depends(get_user_token)` dependency before it validates the body's
  fields.
- An omitted `limit` is 50 and an omitted `offset` is 0 (`main.py:79-80`), before the clamps apply.
- `min_rating` is a float, so a client's `7` is sent as `gte.7.0`.

`str.lower()` is modelled by ASCII lower-casing (`AsciiLower`). For the only decision that uses
it, "does the lowered header start with `bearer `", this is exact. No non-ASCII character
lower-cases to text that begins with `b`, `e`, `a`, `r` or a space. So each of the first seven
characters of an accepted header is itself ASCII. The accepted header is forwarded as received,
not lowered.

## Model

| member | source | states |
|---|---|---|
| `Credentials.Lower` | main.py:56 | lowering keeps the length and lowers each character in place |
| `Credentials.GetUserToken` | main.py:55-61 | accepted iff the header is present and its first seven characters spell `bearer ` in any case; on success the exact input is returned; otherwise 401 "Missing or invalid Authorization header" |
| `Credentials.BearerSchemeAnyCase` | main.py:56 | every capitalisation of `bearer` followed by a space is accepted, and the header comes back unchanged |
| `Credentials.MixedCaseBearerAccepted` | main.py:56 | `Bearer abc` and `BEARER abc` are accepted verbatim |
| `Credentials.MalformedCredentialsRefused` | main.py:56-60 | `Bearer` (no space), `Basic abc`, an empty header and no header give 401 |
| `Credentials.PostgrestHeaders` | main.py:63-70 | exactly five headers: the caller's credential verbatim as `Authorization`, the anon key as `apikey`, JSON content type and accept, `Prefer: return=representation` |
| `Validation.CreateViolations` | main.py:23-30 | a field is listed iff it breaks its create constraint; all violations are listed, not only the first |
| `Validation.UpdateViolations` | main.py:33-40 | a field is listed iff it is present and breaks its constraint; absent fields are never listed |
| `Validation.ValidateCreate` | main.py:23-31 | accepted, unchanged, iff 1 ≤ \|title\| ≤ 200, 1888 ≤ release_year ≤ current year, duration ≥ 1, \|genre\| ≤ 100, \|director\| ≤ 100 and 0 ≤ rating ≤ 10; otherwise 422 listing the violations |
| `Validation.ValidateUpdate` | main.py:33-40 | accepted iff every present field meets its create constraint; otherwise 422 listing the violations |
| `Validation.CreateBoundaries` | main.py:24-30 | the bounds 1888, the current year, 0 and 10 are accepted; 1887, the current year + 1, rating 10.5 and an empty title each give 422 naming just that field |
| `Validation.FullUpdateValidatesAsCreate` | main.py:23-40 | an update that sets every field of a create payload has the same violations and the same verdict |
| `Validation.EmptyUpdateIsValid` | main.py:33-40 | an update that sets no field passes validation |
| `Validation.Dump` | main.py:135 | `model_dump` of an update has all seven field keys, `None` exactly at the absent fields |
| `Validation.Patch` | main.py:135 | the patch holds exactly the present fields, each with its value, and no other key |
| `Validation.PatchEmptyIffNothingPresent` | main.py:135-138 | the patch is empty iff no field is present |
| `Validation.CreateBody` | main.py:126 | the create body holds all seven movie fields and `user_id`, with their values |
| `Validation.FullPatchIsCreateBody` | main.py:126-135 | the patch of a fully set update equals the create body without `user_id` |
| `Query.NatToString` | main.py:87-88 | `str` of a natural number is a non-empty string of digits |
| `Query.NatToStringRoundTrip` | main.py:87-88 | the digits rendered for `n` read back as `n` |
| `Query.IntToStringRoundTrip` | main.py:87-88 | every integer rendered by `str`, negative ones included, reads back as itself |
| `Query.ListQueryDefaults` | main.py:79-88 | an omitted limit is sent as `50` and an omitted offset as `0` |
| `Query.ListQueryNoArguments` | main.py:79-97 | `GET /movies` with no arguments sends exactly `select=*`, `limit=50`, `offset=0`, `order=created_at.desc` |
| `Query.ClampLimit` | main.py:87 | `min(limit, 100)`: at most 100, unchanged when at most 100, no lower clamp |
| `Query.ClampOffset` | main.py:88 | `max(offset, 0)`: at least 0, unchanged when non-negative |
| `Query.BuildListParams` | main.py:79-97 | always `select=*`, the clamped `limit` and `offset` (50 and 0 when omitted), and `order=created_at.desc`; `genre`/`director` iff the term is non-empty, as `ilike.*term*`; `rating` iff a minimum is given (0 included), as `gte.` + threshold; no other key |
| `Query.ListQueryUnique` | main.py:85-97 | that description determines the parameter map completely |
| `Query.ListQueryPagination` | main.py:79-88 | the backend reads back the limit and offset from the rendered text; the limit is at most 100 and unchanged when a given limit is at most 100; the offset is at least 0 and unchanged when a given offset is non-negative |
| `Query.ListQueryExample` | main.py:83-97 | `limit=500&offset=-5&genre=Noir&director=&min_rating=7` (threshold rendered `7.0`) gives `limit=100`, `offset=0`, `genre=ilike.*Noir*`, `rating=gte.7.0` and no director filter |
| `Query.IdFilter` | main.py:108 | the id filter is `eq.` followed by the id's text, so distinct ids give distinct filters |
| `Query.LookupParams` | main.py:108 | the lookup parameters are exactly `select=*` and the id filter |
| `Query.RowFilter` | main.py:144 | the update and delete parameters are exactly the id filter |
| `Handlers.RowsResult` | main.py:102-104 | a backend status ≥ 400 is re-raised with that status and the backend text; otherwise the rows are returned unchanged |
| `Handlers.FoundResult` | main.py:112-118 | status ≥ 400 is re-raised; no rows is 404 "Movie not found"; rows are returned unchanged with 200 |
| `Handlers.Lookup` | main.py:107-118 | get-by-id after the credential check: exactly one GET filtered by `eq.` + id, mapped as above |
| `Handlers.GetMovie` | main.py:106-118 | a bad credential gives 401 with no backend call; otherwise one GET with no body, `select=*` and `id=eq.{id}`, carrying the credential verbatim; then error, 404 or the rows |
| `Handlers.CreateMovie` | main.py:120-131 | 401, then 422, both with no backend call; otherwise one POST of the full payload; the backend error is re-raised, or the rows come back with 201 |
| `Handlers.UpdateMovie` | main.py:133-154 | 401, then 422, then 400 "No fields to update" when nothing is set, each with no backend call; otherwise one PATCH with the id filter and exactly the patch; then error, 404 or the rows |
| `Handlers.DeleteMovie` | main.py:156-175 | 401 with no call; otherwise one DELETE with no body and the id filter; a backend error is re-raised; 204 is success with no follow-up; any other status leads to exactly one lookup by id (a GET with no body), whose backend error is re-raised, whose empty result is 404 and whose rows mean success; every success is 204 with no body; the source's later "no rows" check is proved unreachable |
| `Handlers.ListMovies` | main.py:76-104 | 401 with no call; otherwise one GET with no body whose parameters are the list query; the backend error is re-raised, or the rows come back with 200 |
| `Handlers.DeleteOfExistingRowReportsNotFound` | main.py:156-175 | the delete answers 200 with the removed row and the row is then gone; as written, the outcome is 404 |
| `Handlers.DeleteMovieByReturnedRows` | main.py:156-175 | corrected delete: one DELETE with no body and the id filter, and no other call; a non-error, non-204 answer succeeds iff it returned rows, and is 404 otherwise |
| `Handlers.DeleteByReturnedRowsReportsRemoval` | main.py:156-175 | with the corrected delete, that same scenario is reported as success |

Every handler also ensures `ForwardsCredential`: each backend call it makes goes to
`{url}/rest/v1/{table}` with exactly the headers of `PostgrestHeaders`, built from the inbound
header unchanged. No handler makes a call unless the credential was accepted.

## Findings

| source | as written | input that shows it | evidently intended | confidence | as-written member | corrected member |
|---|---|---|---|---|---|---|
| main.py:156-175 | every backend call sends `Prefer: return=representation` (main.py:69), so a PostgREST DELETE answers 200 with the removed rows, not 204; a non-204 answer then triggers a lookup of the id, which no longer exists, so the handler raises 404 | `DELETE /movies/{id}` for a row that exists: the delete returns 200 with that row, and the lookup returns no rows, giving 404 "Movie not found" | report success iff a row was removed; the rows returned by the delete are exactly the removed rows | not executed; medium: it depends on the backend answering a DELETE under `return=representation` with 200 and the removed rows, as PostgREST does | `Handlers.DeleteOfExistingRowReportsNotFound` (on `Handlers.DeleteMovie`) | `Handlers.DeleteMovieByReturnedRows`, with `Handlers.DeleteByReturnedRowsReportsRemoval` |

`Handlers.DeleteMovie` remains the model of the code as written. It is what the table rows above
describe for `main.py:156-175`.

## Left out

- FastAPI routing, dependency injection, the `/health` endpoint and the uvicorn entry point: these are framework plumbing.
- The httpx calls, the 10-second timeout and async/await: the backend is the `Backend` oracle, and a timeout or transport failure is not modelled.
- Loading the environment and `.env`, and the start-up `RuntimeError` when the URL or key is missing: the `Config` value is a parameter.
- `date.today()`: the year is the parameter `currentYear`.
- Python's rendering of a float threshold (`f"gte.{min_rating}"`): `ListArgs.minRating` carries the already-rendered text.
- Float semantics of `rating`, such as NaN and infinities: the model uses `real`.
- A request body that is not well-formed JSON: FastAPI decodes the body before it resolves the credential dependency, so such a body is refused with 422 even without an Authorization header. The model starts from an already-decoded payload.
- Credentials.Lower: only `A`..`Z` are lowered. Other letters are left unchanged, and Unicode lowerings that change the length (`İ` becomes `i̇`) are not modelled. This difference cannot change the `bearer ` prefix decision it is used for.
- Pydantic internals: UUID parsing of the path id, JSON type coercion, and validation of the `limit`/`offset` query types. A malformed value there gives 422 before the handler runs; ids here are already-parsed `Uuid` values.
- Validation.ValidateCreate: the 422 detail is the list of violated field names. Pydantic's messages, error types and locations are not modelled.
- Validation.ValidateUpdate: the 422 detail is the list of violated field names, as for create.
- Decoding of the backend body (`r.json()`): `BackendResponse.rows` is already decoded. A body that is not a JSON array, or a 2xx response with no body on list, get, create or update, is not modelled.
- `MovieOut` response serialisation and its response-model checks.
- The backend's storage: the oracle has no state. So the "delete twice" sequence is not modelled; only the single scenario in the finding gives the backend a before and after.
