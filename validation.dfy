/**
 * Payload validation for the `MovieCreate` and `MovieUpdate` models, and the
 * JSON objects sent to the backend for a create and for a partial update.
 * The upper bound of `release_year` is the current year, a parameter here.
 */
module Validation {
  import opened Wrappers
  import opened Http

  const MinTitleLength := 1
  const MaxTitleLength := 200
  const MinReleaseYear := 1888
  const MinDuration := 1
  const MaxNameLength := 100
  const MinRating: real := 0.0
  const MaxRating: real := 10.0

  /** A UUID, already parsed; `text` is its canonical rendering `str(uuid)`. */
  datatype Uuid = Uuid(text: string)

  /** A JSON scalar as `model_dump(mode="json")` produces it. */
  datatype Value = Str(s: string) | Int(i: int) | Num(x: real)

  /** The movie fields a client may write, in the models' declaration order. */
  datatype Field = Title | Description | ReleaseYear | Duration | Genre | Director | Rating

  function FieldName(f: Field): string
  {
    match f
    case Title => "title"
    case Description => "description"
    case ReleaseYear => "release_year"
    case Duration => "duration"
    case Genre => "genre"
    case Director => "director"
    case Rating => "rating"
  }

  const UserIdKey := "user_id"

  datatype MovieCreate = MovieCreate(
    title: string, description: string, releaseYear: int, duration: int,
    genre: string, director: string, rating: real, userId: Uuid)

  /** Every field optional; `None` stands both for a missing key and for an explicit JSON null. */
  datatype MovieUpdate = MovieUpdate(
    title: Option<string>, description: Option<string>, releaseYear: Option<int>,
    duration: Option<int>, genre: Option<string>, director: Option<string>, rating: Option<real>)

  // The per-field constraints, shared by both models.
  predicate TitleOk(t: string) { MinTitleLength <= |t| <= MaxTitleLength }
  predicate ReleaseYearOk(y: int, currentYear: int) { MinReleaseYear <= y <= currentYear }
  predicate DurationOk(d: int) { d >= MinDuration }
  predicate NameOk(s: string) { |s| <= MaxNameLength }
  predicate RatingOk(x: real) { MinRating <= x <= MaxRating }

  /** Does field `f` of a create payload meet its constraint? (`description` has none.) */
  predicate CreateFieldOk(m: MovieCreate, f: Field, currentYear: int)
  {
    match f
    case Title => TitleOk(m.title)
    case Description => true
    case ReleaseYear => ReleaseYearOk(m.releaseYear, currentYear)
    case Duration => DurationOk(m.duration)
    case Genre => NameOk(m.genre)
    case Director => NameOk(m.director)
    case Rating => RatingOk(m.rating)
  }

  predicate Present(u: MovieUpdate, f: Field)
  {
    match f
    case Title => u.title.Some?
    case Description => u.description.Some?
    case ReleaseYear => u.releaseYear.Some?
    case Duration => u.duration.Some?
    case Genre => u.genre.Some?
    case Director => u.director.Some?
    case Rating => u.rating.Some?
  }

  /** An absent field of an update is never checked; a present one meets the create constraint. */
  predicate UpdateFieldOk(u: MovieUpdate, f: Field, currentYear: int)
  {
    match f
    case Title => u.title.None? || TitleOk(u.title.value)
    case Description => true
    case ReleaseYear => u.releaseYear.None? || ReleaseYearOk(u.releaseYear.value, currentYear)
    case Duration => u.duration.None? || DurationOk(u.duration.value)
    case Genre => u.genre.None? || NameOk(u.genre.value)
    case Director => u.director.None? || NameOk(u.director.value)
    case Rating => u.rating.None? || RatingOk(u.rating.value)
  }

  function Check(ok: bool, f: Field): seq<Field>
  {
    if ok then [] else [f]
  }

  /** All violated fields of a create payload, not only the first. */
  function CreateViolations(m: MovieCreate, currentYear: int): (r: seq<Field>)
    ensures forall f :: f in r <==> !CreateFieldOk(m, f, currentYear)
  {
    Check(TitleOk(m.title), Title)
    + Check(ReleaseYearOk(m.releaseYear, currentYear), ReleaseYear)
    + Check(DurationOk(m.duration), Duration)
    + Check(NameOk(m.genre), Genre)
    + Check(NameOk(m.director), Director)
    + Check(RatingOk(m.rating), Rating)
  }

  /** All violated fields of an update payload; only present fields can appear. */
  function UpdateViolations(u: MovieUpdate, currentYear: int): (r: seq<Field>)
    ensures forall f :: f in r <==> !UpdateFieldOk(u, f, currentYear)
    ensures forall f :: f in r ==> Present(u, f)
  {
    Check(u.title.None? || TitleOk(u.title.value), Title)
    + Check(u.releaseYear.None? || ReleaseYearOk(u.releaseYear.value, currentYear), ReleaseYear)
    + Check(u.duration.None? || DurationOk(u.duration.value), Duration)
    + Check(u.genre.None? || NameOk(u.genre.value), Genre)
    + Check(u.director.None? || NameOk(u.director.value), Director)
    + Check(u.rating.None? || RatingOk(u.rating.value), Rating)
  }

  function FieldNames(fs: seq<Field>): (r: seq<string>)
    ensures |r| == |fs|
  {
    seq(|fs|, i requires 0 <= i < |fs| => FieldName(fs[i]))
  }

  /** The 422 raised for a payload that fails validation. */
  function Unprocessable(violations: seq<Field>): HttpError
  {
    HttpError(422, InvalidFields(FieldNames(violations)))
  }

  /** `MovieCreate` validation: accepted unchanged iff every constraint holds, else 422 listing the violations. */
  function ValidateCreate(m: MovieCreate, currentYear: int): (r: Result<MovieCreate>)
    ensures r.Ok? <==>
      && 1 <= |m.title| <= 200
      && 1888 <= m.releaseYear <= currentYear
      && m.duration >= 1
      && |m.genre| <= 100 && |m.director| <= 100
      && 0.0 <= m.rating <= 10.0
    ensures r.Ok? ==> r.value == m
    ensures r.Err? ==> r.error.status == 422 && r.error == Unprocessable(CreateViolations(m, currentYear))
  {
    var violations := CreateViolations(m, currentYear);
    if violations == [] then Ok(m)
    else
      assert !CreateFieldOk(m, violations[0], currentYear);
      Err(Unprocessable(violations))
  }

  /** `MovieUpdate` validation: only the present fields are held to their constraints. */
  function ValidateUpdate(u: MovieUpdate, currentYear: int): (r: Result<MovieUpdate>)
    ensures r.Ok? <==>
      && (u.title.Some? ==> 1 <= |u.title.value| <= 200)
      && (u.releaseYear.Some? ==> 1888 <= u.releaseYear.value <= currentYear)
      && (u.duration.Some? ==> u.duration.value >= 1)
      && (u.genre.Some? ==> |u.genre.value| <= 100)
      && (u.director.Some? ==> |u.director.value| <= 100)
      && (u.rating.Some? ==> 0.0 <= u.rating.value <= 10.0)
    ensures r.Ok? ==> r.value == u
    ensures r.Err? ==> r.error.status == 422 && r.error == Unprocessable(UpdateViolations(u, currentYear))
  {
    var violations := UpdateViolations(u, currentYear);
    if violations == [] then Ok(u)
    else
      assert !UpdateFieldOk(u, violations[0], currentYear);
      Err(Unprocessable(violations))
  }

  /** The value of a present update field as it is serialised. */
  function FieldValue(u: MovieUpdate, f: Field): Value
    requires Present(u, f)
  {
    match f
    case Title => Str(u.title.value)
    case Description => Str(u.description.value)
    case ReleaseYear => Int(u.releaseYear.value)
    case Duration => Int(u.duration.value)
    case Genre => Str(u.genre.value)
    case Director => Str(u.director.value)
    case Rating => Num(u.rating.value)
  }

  const FieldNameSet: set<string> :=
    {"title", "description", "release_year", "duration", "genre", "director", "rating"}

  /** `payload.model_dump(mode="json")` of an update: every field, `None` where it is absent. */
  function Dump(u: MovieUpdate): (d: map<string, Option<Value>>)
    ensures d.Keys == FieldNameSet
    ensures forall f :: d[FieldName(f)] == if Present(u, f) then Some(FieldValue(u, f)) else None
  {
    map[
      "title" := if u.title.Some? then Some(Str(u.title.value)) else None,
      "description" := if u.description.Some? then Some(Str(u.description.value)) else None,
      "release_year" := if u.releaseYear.Some? then Some(Int(u.releaseYear.value)) else None,
      "duration" := if u.duration.Some? then Some(Int(u.duration.value)) else None,
      "genre" := if u.genre.Some? then Some(Str(u.genre.value)) else None,
      "director" := if u.director.Some? then Some(Str(u.director.value)) else None,
      "rating" := if u.rating.Some? then Some(Num(u.rating.value)) else None
    ]
  }

  /**
   * The patch body of `update_movie`: the dumped update with every `None`
   * dropped, so exactly the present fields with their values.
   */
  function Patch(u: MovieUpdate): (r: map<string, Value>)
    ensures r.Keys <= FieldNameSet
    ensures forall f :: FieldName(f) in r <==> Present(u, f)
    ensures forall f :: Present(u, f) ==> r[FieldName(f)] == FieldValue(u, f)
  {
    var dump := Dump(u);
    map k | k in dump && dump[k].Some? :: dump[k].value
  }

  /** The field named by a key of the patch, the inverse of `FieldName`. */
  function FieldNamed(k: string): (f: Field)
    requires k in FieldNameSet
    ensures FieldName(f) == k
  {
    if k == "title" then Title else if k == "description" then Description
    else if k == "release_year" then ReleaseYear else if k == "duration" then Duration
    else if k == "genre" then Genre else if k == "director" then Director else Rating
  }

  /** The patch is empty exactly when the update sets no field at all. */
  lemma PatchEmptyIffNothingPresent(u: MovieUpdate)
    ensures Patch(u) == map[] <==> forall f :: !Present(u, f)
  {
    var r := Patch(u);
    if r == map[] {
      forall f ensures !Present(u, f) { assert FieldName(f) !in r; }
    } else {
      var k :| k in r;
      assert Present(u, FieldNamed(k));
    }
  }

  /** An update that sets no field passes validation, so it reaches the empty-patch check. */
  lemma EmptyUpdateIsValid(u: MovieUpdate, currentYear: int)
    ensures (forall f :: !Present(u, f)) ==> ValidateUpdate(u, currentYear) == Ok(u)
  {
    if forall f :: !Present(u, f) {
      assert !Present(u, Title) && !Present(u, ReleaseYear) && !Present(u, Duration);
      assert !Present(u, Genre) && !Present(u, Director) && !Present(u, Rating);
    }
  }

  /** Every field of a create payload, as an update that sets all of them. */
  function AsUpdate(m: MovieCreate): (u: MovieUpdate)
    ensures forall f :: Present(u, f)
  {
    MovieUpdate(Some(m.title), Some(m.description), Some(m.releaseYear), Some(m.duration),
                Some(m.genre), Some(m.director), Some(m.rating))
  }

  /** The body of `create_movie`: the full dumped payload, the owner's id included. */
  function CreateBody(m: MovieCreate): (r: map<string, Value>)
    ensures r.Keys == FieldNameSet + {UserIdKey}
    ensures forall f :: r[FieldName(f)] == FieldValue(AsUpdate(m), f)
    ensures r[UserIdKey] == Str(m.userId.text)
  {
    map[
      "title" := Str(m.title), "description" := Str(m.description),
      "release_year" := Int(m.releaseYear), "duration" := Int(m.duration),
      "genre" := Str(m.genre), "director" := Str(m.director),
      "rating" := Num(m.rating), UserIdKey := Str(m.userId.text)
    ]
  }

  /** An update that sets every field is validated exactly as the create payload it was taken from. */
  lemma FullUpdateValidatesAsCreate(m: MovieCreate, currentYear: int)
    ensures UpdateViolations(AsUpdate(m), currentYear) == CreateViolations(m, currentYear)
    ensures ValidateUpdate(AsUpdate(m), currentYear).Ok? <==> ValidateCreate(m, currentYear).Ok?
  {
  }

  /** An update that sets every field patches exactly the create body without the owner's id. */
  lemma FullPatchIsCreateBody(m: MovieCreate)
    ensures Patch(AsUpdate(m)) == CreateBody(m) - {UserIdKey}
  {
  }

  /** The boundary values 1888, the current year, 0 and 10 are accepted; one past any bound is refused. */
  lemma CreateBoundaries(m: MovieCreate, currentYear: int)
    requires |m.title| == 1 && m.duration == 1 && |m.genre| == 100 && |m.director| == 0
    requires m.releaseYear == 1888 || m.releaseYear == currentYear
    requires m.rating == 0.0 || m.rating == 10.0
    requires 1888 <= currentYear
    ensures ValidateCreate(m, currentYear) == Ok(m)
    ensures ValidateCreate(m.(rating := 10.5), currentYear) == Err(Unprocessable([Rating]))
    ensures ValidateCreate(m.(releaseYear := currentYear + 1), currentYear) == Err(Unprocessable([ReleaseYear]))
    ensures ValidateCreate(m.(releaseYear := 1887), currentYear) == Err(Unprocessable([ReleaseYear]))
    ensures ValidateCreate(m.(title := ""), currentYear) == Err(Unprocessable([Title]))
  {
    assert CreateViolations(m.(rating := 10.5), currentYear) == [Rating];
    assert CreateViolations(m.(releaseYear := currentYear + 1), currentYear) == [ReleaseYear];
    assert CreateViolations(m.(releaseYear := 1887), currentYear) == [ReleaseYear];
    assert CreateViolations(m.(title := ""), currentYear) == [Title];
  }
}
