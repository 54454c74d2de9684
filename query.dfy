/**
 * Query building: REST arguments rendered in the backend's `field=op.value`
 * grammar. Integers are rendered as Python's `str` renders them; `ParseInt`
 * is how the backend reads them back.
 */
module Query {
  import opened Wrappers
  import opened Validation

  // ---- decimal rendering of integers, and its inverse ----

  predicate IsDigit(c: char) { '0' <= c <= '9' }

  predicate AllDigits(s: string) { forall i :: 0 <= i < |s| ==> IsDigit(s[i]) }

  function DigitChar(d: int): (c: char)
    requires 0 <= d < 10
    ensures IsDigit(c)
  {
    (d + '0' as int) as char
  }

  function DigitValue(c: char): (d: nat)
    requires IsDigit(c)
    ensures d < 10
  {
    c as int - '0' as int
  }

  /** `str(n)` for a natural number: its decimal digits, most significant first. */
  function NatToString(n: nat): (s: string)
    ensures |s| >= 1 && AllDigits(s)
    decreases n
  {
    if n < 10 then [DigitChar(n)] else NatToString(n / 10) + [DigitChar(n % 10)]
  }

  /** `str(i)`: a minus sign before the digits of a negative number. */
  function IntToString(i: int): string
  {
    if i < 0 then "-" + NatToString(-i) else NatToString(i)
  }

  /** The number a string of decimal digits denotes. */
  function DigitsValue(s: string): nat
    requires AllDigits(s)
  {
    if s == [] then 0 else DigitsValue(s[..|s| - 1]) * 10 + DigitValue(s[|s| - 1])
  }

  /** Reading an optionally signed decimal integer; anything else is not a number. */
  function ParseInt(s: string): Option<int>
  {
    if |s| >= 2 && s[0] == '-' && AllDigits(s[1..]) then Some(-(DigitsValue(s[1..]) as int))
    else if |s| >= 1 && AllDigits(s) then Some(DigitsValue(s))
    else None
  }

  lemma {:induction false} NatToStringRoundTrip(n: nat)
    ensures DigitsValue(NatToString(n)) == n
    decreases n
  {
    if n >= 10 {
      NatToStringRoundTrip(n / 10);
      var s := NatToString(n);
      assert s[..|s| - 1] == NatToString(n / 10);
    }
  }

  /** Every integer rendered by `str` reads back as itself. */
  lemma IntToStringRoundTrip(i: int)
    ensures ParseInt(IntToString(i)) == Some(i)
  {
    if i < 0 {
      var t := NatToString(-i);
      var s := "-" + t;
      assert s[1..] == t;
      assert |s| >= 2 && s[0] == '-' && AllDigits(s[1..]);
      NatToStringRoundTrip(-i);
    } else {
      var t := NatToString(i);
      assert IsDigit(t[0]);
      NatToStringRoundTrip(i);
    }
  }

  // ---- list_movies ----

  const MaxLimit := 100
  const DefaultLimit := 50
  const DefaultOffset := 0

  /** `min(limit, 100)`: capped from above, with no lower clamp. */
  function ClampLimit(limit: int): (l: int)
    ensures l <= MaxLimit
    ensures limit <= MaxLimit ==> l == limit
    ensures limit > MaxLimit ==> l == MaxLimit
  {
    if limit < MaxLimit then limit else MaxLimit
  }

  /** `max(offset, 0)`: never negative. */
  function ClampOffset(offset: int): (o: int)
    ensures o >= 0
    ensures offset >= 0 ==> o == offset
    ensures offset < 0 ==> o == 0
  {
    if offset > 0 then offset else 0
  }

  /**
   * The query arguments of `GET /movies`; `None` is an argument the client
   * omitted. `minRating` carries the threshold as Python renders it (`str` of
   * a float, so `7` arrives as `7.0`); that rendering is not modelled.
   */
  datatype ListArgs = ListArgs(
    limit: Option<int>, offset: Option<int>,
    genre: Option<string>, director: Option<string>, minRating: Option<string>)

  /** The value of an integer argument, or its declared default when omitted. */
  function OrDefault(arg: Option<int>, default: int): int
  {
    if arg.Some? then arg.value else default
  }

  /** The limit sent to the backend: the given or default limit, capped at 100. */
  function ListLimit(args: ListArgs): int
  {
    ClampLimit(OrDefault(args.limit, DefaultLimit))
  }

  /** The offset sent to the backend: the given or default offset, never negative. */
  function ListOffset(args: ListArgs): int
  {
    ClampOffset(OrDefault(args.offset, DefaultOffset))
  }

  /** A substring filter applies only to a present, non-empty term (Python truthiness). */
  predicate Given(term: Option<string>)
  {
    term.Some? && term.value != ""
  }

  function Contains(term: string): string
  {
    "ilike.*" + term + "*"
  }

  function ListKeys(args: ListArgs): set<string>
  {
    {"select", "limit", "offset", "order"}
    + (if Given(args.genre) then {"genre"} else {})
    + (if Given(args.director) then {"director"} else {})
    + (if args.minRating.Some? then {"rating"} else {})
  }

  /** What the backend parameters of a list request must be. */
  predicate IsListQuery(args: ListArgs, p: map<string, string>)
  {
    && p.Keys == ListKeys(args)
    && p["select"] == "*"
    && p["order"] == "created_at.desc"
    && p["limit"] == IntToString(ListLimit(args))
    && p["offset"] == IntToString(ListOffset(args))
    && (Given(args.genre) ==> p["genre"] == Contains(args.genre.value))
    && (Given(args.director) ==> p["director"] == Contains(args.director.value))
    && (args.minRating.Some? ==> p["rating"] == "gte." + args.minRating.value)
  }

  /** The `params` dictionary of `list_movies`, built and then extended filter by filter. */
  method BuildListParams(args: ListArgs) returns (params: map<string, string>)
    ensures IsListQuery(args, params)
    ensures args.limit.None? ==> params["limit"] == "50"
    ensures args.offset.None? ==> params["offset"] == "0"
  {
    params := map[
      "select" := "*",
      "limit" := IntToString(ListLimit(args)),
      "offset" := IntToString(ListOffset(args)),
      "order" := "created_at.desc"
    ];
    if Given(args.genre) {
      params := params["genre" := Contains(args.genre.value)];
    }
    if Given(args.director) {
      params := params["director" := Contains(args.director.value)];
    }
    if args.minRating.Some? {
      params := params["rating" := "gte." + args.minRating.value];
    }
    ListQueryDefaults(args, params);
  }

  /** The description of a list query leaves no freedom: there is one such map. */
  lemma ListQueryUnique(args: ListArgs, p: map<string, string>, q: map<string, string>)
    requires IsListQuery(args, p) && IsListQuery(args, q)
    ensures p == q
  {
  }

  /** An omitted limit is sent as `50` and an omitted offset as `0`. */
  lemma ListQueryDefaults(args: ListArgs, p: map<string, string>)
    requires IsListQuery(args, p)
    ensures args.limit.None? ==> p["limit"] == "50"
    ensures args.offset.None? ==> p["offset"] == "0"
  {
  }

  /** The backend reads back a limit of at most 100, and an offset of at least 0. */
  lemma ListQueryPagination(args: ListArgs, p: map<string, string>)
    requires IsListQuery(args, p)
    ensures ParseInt(p["limit"]) == Some(ListLimit(args))
    ensures ListLimit(args) <= MaxLimit
    ensures args.limit.Some? && args.limit.value <= MaxLimit ==> ListLimit(args) == args.limit.value
    ensures ParseInt(p["offset"]) == Some(ListOffset(args))
    ensures ListOffset(args) >= 0
    ensures args.offset.Some? && args.offset.value >= 0 ==> ListOffset(args) == args.offset.value
  {
    IntToStringRoundTrip(ListLimit(args));
    IntToStringRoundTrip(ListOffset(args));
  }

  /**
   * `GET /movies?limit=500&offset=-5&genre=Noir&director=&min_rating=7`: the
   * threshold arrives as the float 7.0 and is rendered `7.0`; the empty
   * director term adds no filter.
   */
  lemma ListQueryExample(p: map<string, string>)
    requires IsListQuery(ListArgs(Some(500), Some(-5), Some("Noir"), Some(""), Some("7.0")), p)
    ensures p == map[
      "select" := "*", "limit" := "100", "offset" := "0", "order" := "created_at.desc",
      "genre" := "ilike.*Noir*", "rating" := "gte.7.0"]
  {
    var args := ListArgs(Some(500), Some(-5), Some("Noir"), Some(""), Some("7.0"));
    var q := map[
      "select" := "*", "limit" := "100", "offset" := "0", "order" := "created_at.desc",
      "genre" := "ilike.*Noir*", "rating" := "gte.7.0"];
    assert IntToString(ListLimit(args)) == "100" by {
      assert NatToString(10) == "10";
      assert NatToString(100) == NatToString(10) + "0";
    }
    assert IntToString(ListOffset(args)) == "0";
    assert ListKeys(args) == q.Keys;
    ListQueryUnique(args, p, q);
  }

  /** `GET /movies` with no arguments: `select=*`, `limit=50`, `offset=0`, newest first, no filter. */
  lemma ListQueryNoArguments(p: map<string, string>)
    requires IsListQuery(ListArgs(None, None, None, None, None), p)
    ensures p == map["select" := "*", "limit" := "50", "offset" := "0", "order" := "created_at.desc"]
  {
    var args := ListArgs(None, None, None, None, None);
    ListQueryDefaults(args, p);
    assert ListKeys(args) == {"select", "limit", "offset", "order"};
  }

  // ---- lookups by id ----

  /** `eq.{id}`: an exact-match filter on the canonical text of the id. */
  function IdFilter(id: Uuid): (r: string)
    ensures |r| == 3 + |id.text| && r[..3] == "eq." && r[3..] == id.text
  {
    "eq." + id.text
  }

  /** The parameters of `get_movie`: all columns of the row with this id. */
  function LookupParams(id: Uuid): (p: map<string, string>)
    ensures p.Keys == {"select", "id"} && p["select"] == "*" && p["id"] == IdFilter(id)
  {
    map["select" := "*", "id" := IdFilter(id)]
  }

  /** The parameters of `update_movie` and `delete_movie`: only the id filter. */
  function RowFilter(id: Uuid): (p: map<string, string>)
    ensures p.Keys == {"id"} && p["id"] == IdFilter(id)
  {
    map["id" := IdFilter(id)]
  }
}
