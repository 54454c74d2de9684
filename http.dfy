/**
 * The vocabulary shared by every part of the facade: the error a handler
 * raises (an HTTP status with a detail), a result that is either a value or
 * such an error, and the deployment configuration read once at start-up.
 */
module Http {

  /** The `detail` of an error response. */
  datatype Detail =
    | Message(text: string)              // a fixed message of the facade itself
    | InvalidFields(fields: seq<string>) // payload validation: the offending fields, in declaration order
    | BackendBody(text: string)          // the backend's own response text, passed through

  /** An `HTTPException`: the status the client sees and its detail. */
  datatype HttpError = HttpError(status: int, detail: Detail)

  datatype Result<+T> = Ok(value: T) | Err(error: HttpError)

  /** The backend base URL, its public API key and the table holding the movies. */
  datatype Config = Config(supabaseUrl: string, anonKey: string, table: string)

  /** The row-filtering endpoint of the movies table: `{url}/rest/v1/{table}`. */
  function TableUrl(cfg: Config): string
  {
    cfg.supabaseUrl + "/rest/v1" + "/" + cfg.table
  }
}
