/**
 * The credential gate: the inbound `Authorization` header is accepted only
 * when it uses the bearer scheme (compared case-insensitively), and is then
 * forwarded to the backend verbatim together with the fixed headers.
 */
module Credentials {
  import opened Wrappers
  import opened Http

  const BearerPrefix: string := "bearer "

  const Unauthorized: HttpError := HttpError(401, Message("Missing or invalid Authorization header"))

  /** Lower-casing of one character. Only `A`..`Z` change; see README for why this is exact here. */
  function AsciiLower(c: char): char
  {
    if 'A' <= c <= 'Z' then (c as int + 32) as char else c
  }

  /** `s.lower()`, character by character. */
  function Lower(s: string): (r: string)
    ensures |r| == |s|
    ensures forall i :: 0 <= i < |s| ==> r[i] == AsciiLower(s[i])
  {
    if s == [] then [] else [AsciiLower(s[0])] + Lower(s[1..])
  }

  predicate StartsWith(s: string, prefix: string)
  {
    |prefix| <= |s| && s[..|prefix|] == prefix
  }

  /** Reference definition of the scheme test: the first seven characters spell `bearer ` in any case. */
  predicate HasBearerScheme(h: string)
  {
    |h| >= |BearerPrefix| && forall i :: 0 <= i < |BearerPrefix| ==> AsciiLower(h[i]) == BearerPrefix[i]
  }

  /** The `get_user_token` dependency: absent, empty or non-bearer headers are refused with 401. */
  function GetUserToken(authorization: Option<string>): (r: Result<string>)
    ensures r.Ok? <==> authorization.Some? && HasBearerScheme(authorization.value)
    ensures r.Ok? ==> r.value == authorization.value
    ensures r.Err? ==> r.error == Unauthorized
  {
    if authorization.None? || authorization.value == ""
       || !StartsWith(Lower(authorization.value), BearerPrefix)
    then Err(Unauthorized)
    else
      var lowered := Lower(authorization.value);
      assert lowered[..|BearerPrefix|] == BearerPrefix;
      assert forall i :: 0 <= i < |BearerPrefix| ==> lowered[i] == BearerPrefix[i];
      Ok(authorization.value)
  }

  /** The headers of every backend call: API key, the caller's credential, JSON both ways, rows echoed back. */
  function PostgrestHeaders(cfg: Config, authorization: string): (h: map<string, string>)
    ensures h.Keys == {"apikey", "Authorization", "Content-Type", "Accept", "Prefer"}
    ensures h["Authorization"] == authorization
    ensures h["apikey"] == cfg.anonKey
    ensures h["Content-Type"] == "application/json" && h["Accept"] == "application/json"
    ensures h["Prefer"] == "return=representation"
  {
    map[
      "apikey" := cfg.anonKey,
      "Authorization" := authorization,
      "Content-Type" := "application/json",
      "Accept" := "application/json",
      "Prefer" := "return=representation"
    ]
  }

  /** The scheme name is matched in any case. */
  lemma MixedCaseBearerAccepted()
    ensures GetUserToken(Some("Bearer abc")) == Ok("Bearer abc")
    ensures GetUserToken(Some("BEARER abc")) == Ok("BEARER abc")
  {
    BearerSchemeAnyCase("Bearer abc");
    BearerSchemeAnyCase("BEARER abc");
  }

  /** Any capitalisation of the scheme name, followed by a space, is accepted. */
  lemma BearerSchemeAnyCase(h: string)
    requires |h| >= 7 && h[0] in "Bb" && h[1] in "Ee" && h[2] in "Aa" && h[3] in "Rr"
    requires h[4] in "Ee" && h[5] in "Rr" && h[6] == ' '
    ensures GetUserToken(Some(h)) == Ok(h)
  {
  }

  /** A missing space, another scheme, an empty header or no header are refused. */
  lemma MalformedCredentialsRefused()
    ensures GetUserToken(Some("Bearer")) == Err(Unauthorized)
    ensures GetUserToken(Some("Basic abc")) == Err(Unauthorized)
    ensures GetUserToken(Some("")) == Err(Unauthorized)
    ensures GetUserToken(None) == Err(Unauthorized)
  {
  }
}
