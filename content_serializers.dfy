/** The request serializers of backend/content/serializers.py: the one-target rule and the create step of
    the watchlist and rating serializers, and the field bounds of the search and recommendation requests. */
module ContentSerializers {
  import opened Wrappers
  import opened PyDict

  const MovieId := "movie_id"
  const TvShowId := "tv_show_id"
  const NeitherProvided := "Either movie_id or tv_show_id must be provided"
  const BothProvided := "Cannot provide both movie_id and tv_show_id"

  /** `validate` of the watchlist and rating serializers: exactly one of the two ids must be truthy (an id of
      0 counts as absent); the attributes pass through unchanged. */
  function ValidateTarget(attrs: map<string, Value>): (r: Result<map<string, Value>, string>)
    ensures r.Ok? <==> TruthyAt(attrs, MovieId) != TruthyAt(attrs, TvShowId)
    ensures r.Ok? ==> r.value == attrs
    ensures r == Err(NeitherProvided) <==> !TruthyAt(attrs, MovieId) && !TruthyAt(attrs, TvShowId)
    ensures r == Err(BothProvided) <==> TruthyAt(attrs, MovieId) && TruthyAt(attrs, TvShowId)
  {
    var movie, show := Get(attrs, MovieId), Get(attrs, TvShowId);
    var hasMovie := movie.Some? && Truthy(movie.value);
    var hasShow := show.Some? && Truthy(show.value);
    if !hasMovie && !hasShow then Err(NeitherProvided)
    else if hasMovie && hasShow then Err(BothProvided)
    else Ok(attrs)
  }

  /** What `create` hands to the model manager: each id key kept only when it held a truthy value, every
      other key as it was. */
  ghost predicate CreatePayload(before: map<string, Value>, after: map<string, Value>) {
    && (forall k :: k != MovieId && k != TvShowId ==> (k in after <==> k in before))
    && (forall k :: k in after && k != MovieId && k != TvShowId ==> after[k] == before[k])
    && (MovieId in after <==> TruthyAt(before, MovieId))
    && (MovieId in after ==> after[MovieId] == before[MovieId])
    && (TvShowId in after <==> TruthyAt(before, TvShowId))
    && (TvShowId in after ==> after[TvShowId] == before[TvShowId])
  }

  /** `create` of the watchlist and rating serializers, up to the call into the model manager: pop both ids,
      then put back the ones that are truthy. */
  method PrepareCreate(data: Dict)
    modifies data
    ensures CreatePayload(old(data.items), data.items)
  {
    var movieId := data.Pop(MovieId);
    var tvShowId := data.Pop(TvShowId);
    if movieId.Some? && Truthy(movieId.value) {
      data.Set(MovieId, movieId.value);
    }
    if tvShowId.Some? && Truthy(tvShowId.value) {
      data.Set(TvShowId, tvShowId.value);
    }
  }

  /** After `validate` has passed, the payload of `create` names exactly one target. */
  lemma ValidatedPayloadHasOneTarget(attrs: map<string, Value>, payload: map<string, Value>)
    requires ValidateTarget(attrs).Ok?
    requires CreatePayload(attrs, payload)
    ensures (MovieId in payload) != (TvShowId in payload)
  {
  }

  /** The two search-request kinds of content. */
  datatype ContentKind = MovieKind | ShowKind

  function ParseKind(s: string): (r: Option<ContentKind>)
    ensures r == Some(MovieKind) <==> s == "movie"
    ensures r == Some(ShowKind) <==> s == "tv_show"
  {
    if s == "movie" then Some(MovieKind) else if s == "tv_show" then Some(ShowKind) else None
  }

  /** The choice value a client submits for a kind. */
  function KindName(k: ContentKind): (s: string)
    ensures ParseKind(s) == Some(k)
  {
    match k
    case MovieKind => "movie"
    case ShowKind => "tv_show"
  }

  /** A `CharField`: a present value must be a non-blank string of at most `maxLength` characters; an absent
      one is an error only when the field is required. */
  predicate CharFieldOk(d: map<string, Value>, key: string, required: bool, maxLength: nat) {
    if key in d then d[key].Str? && d[key].s != "" && |d[key].s| <= maxLength else !required
  }

  /** An optional `ChoiceField` over "movie" and "tv_show". */
  predicate KindFieldOk(d: map<string, Value>, key: string) {
    key in d ==> d[key].Str? && ParseKind(d[key].s).Some?
  }

  /** An optional `IntegerField` with inclusive bounds. */
  predicate IntFieldOk(d: map<string, Value>, key: string, min: Option<int>, max: Option<int>) {
    key in d ==> d[key].Int? && (min.Some? ==> min.value <= d[key].i) && (max.Some? ==> d[key].i <= max.value)
  }

  /** The field, when present and of the right type, else `None`. */
  function StrField(d: map<string, Value>, key: string): Option<string> {
    if key in d && d[key].Str? then Some(d[key].s) else None
  }

  function IntField(d: map<string, Value>, key: string, default: int): int {
    if key in d && d[key].Int? then d[key].i else default
  }

  function KindField(d: map<string, Value>, key: string): Option<ContentKind> {
    if key in d && d[key].Str? then ParseKind(d[key].s) else None
  }

  /** The validated search request. */
  datatype SearchParams = SearchParams(
    query: string, contentType: Option<ContentKind>, genre: Option<string>, year: Option<int>,
    page: int, pageSize: int)

  const SearchFields: set<string> := {"query", "content_type", "genre", "year", "page", "page_size"}

  /** The names of the search fields that fail validation. */
  function SearchErrors(d: map<string, Value>): (e: set<string>)
    ensures e <= SearchFields
    ensures "query" in e <==> !CharFieldOk(d, "query", true, 200)
    ensures "content_type" in e <==> !KindFieldOk(d, "content_type")
    ensures "genre" in e <==> !CharFieldOk(d, "genre", false, 50)
    ensures "year" in e <==> !IntFieldOk(d, "year", None, None)
    ensures "page" in e <==> !IntFieldOk(d, "page", Some(1), None)
    ensures "page_size" in e <==> !IntFieldOk(d, "page_size", Some(1), Some(50))
  {
    (if CharFieldOk(d, "query", true, 200) then {} else {"query"})
    + (if KindFieldOk(d, "content_type") then {} else {"content_type"})
    + (if CharFieldOk(d, "genre", false, 50) then {} else {"genre"})
    + (if IntFieldOk(d, "year", None, None) then {} else {"year"})
    + (if IntFieldOk(d, "page", Some(1), None) then {} else {"page"})
    + (if IntFieldOk(d, "page_size", Some(1), Some(50)) then {} else {"page_size"})
  }

  /** `ContentSearchSerializer(data=...).is_valid()` and its `validated_data`: the query is required and
      at most 200 characters, the page is at least 1 (default 1) and the page size is 1 to 50 (default
      20); every field that was given and accepted is passed on as submitted. */
  function ValidateSearch(d: map<string, Value>): (r: Result<SearchParams, set<string>>)
    ensures r.Err? <==> SearchErrors(d) != {}
    ensures r.Err? ==> r.error == SearchErrors(d)
    ensures r.Ok? ==> 1 <= |r.value.query| <= 200 && r.value.page >= 1 && 1 <= r.value.pageSize <= 50
    ensures r.Ok? ==> ("page" !in d ==> r.value.page == 1) && ("page_size" !in d ==> r.value.pageSize == 20)
    ensures r.Ok? ==> (r.value.contentType.Some? <==> "content_type" in d)
    ensures r.Ok? ==> r.value.genre.Some? ==> 1 <= |r.value.genre.value| <= 50
    ensures r.Ok? ==> d["query"] == Str(r.value.query)
    ensures r.Ok? ==> "content_type" in d ==> d["content_type"].Str? && ParseKind(d["content_type"].s) == r.value.contentType
    ensures r.Ok? ==> (r.value.genre.Some? <==> "genre" in d) && ("genre" in d ==> d["genre"] == Str(r.value.genre.value))
    ensures r.Ok? ==> (r.value.year.Some? <==> "year" in d) && ("year" in d ==> d["year"] == Int(r.value.year.value))
    ensures r.Ok? ==> ("page" in d ==> d["page"] == Int(r.value.page))
    ensures r.Ok? ==> ("page_size" in d ==> d["page_size"] == Int(r.value.pageSize))
  {
    var errors := SearchErrors(d);
    if errors != {} then Err(errors)
    else
      Ok(SearchParams(
        StrField(d, "query").value, KindField(d, "content_type"), StrField(d, "genre"),
        if "year" in d then Some(d["year"].i) else None,
        IntField(d, "page", 1), IntField(d, "page_size", 20)))
  }

  /** The validated recommendation request. */
  datatype RecommendParams = RecommendParams(contentType: Option<ContentKind>, genre: Option<string>, limit: int)

  const RecommendFields: set<string> := {"content_type", "genre", "limit"}

  function RecommendErrors(d: map<string, Value>): (e: set<string>)
    ensures e <= RecommendFields
    ensures "content_type" in e <==> !KindFieldOk(d, "content_type")
    ensures "genre" in e <==> !CharFieldOk(d, "genre", false, 50)
    ensures "limit" in e <==> !IntFieldOk(d, "limit", Some(1), Some(50))
  {
    (if KindFieldOk(d, "content_type") then {} else {"content_type"})
    + (if CharFieldOk(d, "genre", false, 50) then {} else {"genre"})
    + (if IntFieldOk(d, "limit", Some(1), Some(50)) then {} else {"limit"})
  }

  /** `ContentRecommendationSerializer`: the limit is 1 to 50 (default 10), the kind is "movie" or
      "tv_show" when given; every field that was given and accepted is passed on as submitted. */
  function ValidateRecommend(d: map<string, Value>): (r: Result<RecommendParams, set<string>>)
    ensures r.Err? <==> RecommendErrors(d) != {}
    ensures r.Err? ==> r.error == RecommendErrors(d)
    ensures r.Ok? ==> 1 <= r.value.limit <= 50 && ("limit" !in d ==> r.value.limit == 10)
    ensures r.Ok? ==> (r.value.contentType.Some? <==> "content_type" in d)
    ensures r.Ok? ==> r.value.genre.Some? ==> 1 <= |r.value.genre.value| <= 50
    ensures r.Ok? ==> "content_type" in d ==> d["content_type"].Str? && ParseKind(d["content_type"].s) == r.value.contentType
    ensures r.Ok? ==> (r.value.genre.Some? <==> "genre" in d) && ("genre" in d ==> d["genre"] == Str(r.value.genre.value))
    ensures r.Ok? ==> ("limit" in d ==> d["limit"] == Int(r.value.limit))
  {
    var errors := RecommendErrors(d);
    if errors != {} then Err(errors)
    else Ok(RecommendParams(KindField(d, "content_type"), StrField(d, "genre"), IntField(d, "limit", 10)))
  }

  /** An empty recommendation request is valid and asks for ten of each kind. */
  lemma EmptyRecommendRequest()
    ensures ValidateRecommend(map[]) == Ok(RecommendParams(None, None, 10))
  {
  }

  /** A search request with only a query gets the first page of twenty. */
  lemma QueryOnlySearch(q: string)
    requires 1 <= |q| <= 200
    ensures ValidateSearch(map["query" := Str(q)]) == Ok(SearchParams(q, None, None, None, 1, 20))
  {
  }

  /** The request a client sends to ask for `p`: every field written out, the optional ones only when set. */
  function SearchRequest(p: SearchParams): map<string, Value> {
    var base := map["query" := Str(p.query), "page" := Int(p.page), "page_size" := Int(p.pageSize)];
    var withKind := if p.contentType.Some? then base["content_type" := Str(KindName(p.contentType.value))] else base;
    var withGenre := if p.genre.Some? then withKind["genre" := Str(p.genre.value)] else withKind;
    if p.year.Some? then withGenre["year" := Int(p.year.value)] else withGenre
  }

  /** Search parameters within the serializer's bounds survive the trip through a request unchanged. */
  lemma SearchRoundTrip(p: SearchParams)
    requires 1 <= |p.query| <= 200 && p.page >= 1 && 1 <= p.pageSize <= 50
    requires p.genre.Some? ==> 1 <= |p.genre.value| <= 50
    ensures ValidateSearch(SearchRequest(p)) == Ok(p)
  {
    var d := SearchRequest(p);
    assert SearchErrors(d) == {};
    var r := ValidateSearch(d);
    assert r.value.contentType == p.contentType;
    assert r.value.genre == p.genre;
    assert r.value.year == p.year;
  }

  function RecommendRequest(p: RecommendParams): map<string, Value> {
    var base := map["limit" := Int(p.limit)];
    var withKind := if p.contentType.Some? then base["content_type" := Str(KindName(p.contentType.value))] else base;
    if p.genre.Some? then withKind["genre" := Str(p.genre.value)] else withKind
  }

  /** Recommendation parameters within the serializer's bounds survive the trip through a request unchanged. */
  lemma RecommendRoundTrip(p: RecommendParams)
    requires 1 <= p.limit <= 50
    requires p.genre.Some? ==> 1 <= |p.genre.value| <= 50
    ensures ValidateRecommend(RecommendRequest(p)) == Ok(p)
  {
    var d := RecommendRequest(p);
    assert RecommendErrors(d) == {};
    var r := ValidateRecommend(d);
    assert r.value.contentType == p.contentType;
    assert r.value.genre == p.genre;
  }
}
