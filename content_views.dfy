/** The search and recommendation endpoints of backend/content/views.py. Query sets are sequences of rows in
    the model's default ordering; the object-relational filters are the sequence filters below. */
module ContentViews {
  import opened Wrappers
  import opened Seqs
  import opened Text
  import opened PyDict
  import opened ContentSerializers

  /** A movie or a show as the endpoints see it: key, searchable text, genre names and release year. */
  datatype Title = Title(id: int, title: string, description: string, genres: seq<string>, year: int)

  /** `Q(title__icontains=q) | Q(description__icontains=q)`. */
  function Matching(query: string): Title -> bool {
    (t: Title) => ContainsIgnoreCase(t.title, query) || ContainsIgnoreCase(t.description, query)
  }

  /** `genres__name__icontains=g` holds for a title with at least one such genre. */
  predicate HasGenreLike(t: Title, g: string) {
    exists i :: 0 <= i < |t.genres| && ContainsIgnoreCase(t.genres[i], g)
  }

  function LikeGenre(g: string): Title -> bool {
    (t: Title) => HasGenreLike(t, g)
  }

  /** How many of the genre names contain `g`. */
  function GenreHits(genres: seq<string>, g: string): (n: nat)
    ensures n <= |genres|
    ensures n > 0 <==> exists i :: 0 <= i < |genres| && ContainsIgnoreCase(genres[i], g)
  {
    if genres == [] then 0
    else
      var rest := GenreHits(genres[1..], g);
      assert forall i :: 1 <= i < |genres| ==> genres[i] == genres[1..][i - 1];
      (if ContainsIgnoreCase(genres[0], g) then 1 else 0) + rest
  }

  function Repeat(t: Title, n: nat): (r: seq<Title>)
    ensures |r| == n && forall i :: 0 <= i < n ==> r[i] == t
    ensures forall x :: multiset(r)[x] == if x == t then n else 0
  {
    if n == 0 then [] else [t] + Repeat(t, n - 1)
  }

  /** The genre filter as written: filtering across the many-to-many genre relation joins each title with
      its genres, so a title comes back once for every genre whose name contains `g`. */
  function GenreJoin(rows: seq<Title>, g: string): (r: seq<Title>)
    ensures forall t :: t in r <==> t in rows && HasGenreLike(t, g)
    ensures forall t :: multiset(r)[t] == multiset(rows)[t] * GenreHits(t.genres, g)
  {
    if rows == [] then []
    else
      assert rows == [rows[0]] + rows[1..];
      var r := Repeat(rows[0], GenreHits(rows[0].genres, g)) + GenreJoin(rows[1..], g);
      forall t ensures multiset(r)[t] == multiset(rows)[t] * GenreHits(t.genres, g) {
        JoinCountStep(rows, g, t);
      }
      r
  }

  /** One step of the join's count: the head's copies plus the tail's count. */
  lemma JoinCountStep(rows: seq<Title>, g: string, t: Title)
    requires rows != []
    ensures multiset(Repeat(rows[0], GenreHits(rows[0].genres, g)) + GenreJoin(rows[1..], g))[t]
      == multiset(rows)[t] * GenreHits(t.genres, g)
  {
    assert rows == [rows[0]] + rows[1..];
    var m := multiset(rows[1..])[t];
    var h := GenreHits(t.genres, g);
    var a := if t == rows[0] then 1 else 0;
    assert multiset(rows)[t] == a + m;
    assert (a + m) * h == a * h + m * h;
  }

  /** The genre filter as intended (`.distinct()` after the join): every matching title once, in order. */
  function GenreFilter(rows: seq<Title>, g: string): (r: seq<Title>)
    ensures forall t :: t in r <==> t in rows && HasGenreLike(t, g)
    ensures IsSubsequence(r, rows)
  {
    Filter(rows, LikeGenre(g))
  }

  /** "ma" occurs in the genre name "Drama", whatever the case. */
  lemma DramaHasMa()
    ensures ContainsIgnoreCase("Drama", "ma")
  {
    var l := LowerString("Drama");
    assert l[0] == 'd';
    assert forall i :: 1 <= i < 5 ==> l[i] == "Drama"[i];
    assert l == "drama";
    assert LowerString("ma") == "ma";
    assert "ma" <= "drama"[3..];
  }

  /** "ma" occurs in the genre name "Romance", whatever the case. */
  lemma RomanceHasMa()
    ensures ContainsIgnoreCase("Romance", "ma")
  {
    var l := LowerString("Romance");
    assert l[0] == 'r';
    assert forall i :: 1 <= i < 7 ==> l[i] == "Romance"[i];
    assert l == "romance";
    assert LowerString("ma") == "ma";
    assert Contains("romance"[1..], "ma") by {
      assert "ma" <= "romance"[2..];
    }
  }

  /** A title with two genres that both contain the term is listed twice by the join, once by the intended
      filter. */
  lemma {:induction false} TwoHitsListTwice(t: Title, g: string)
    requires |t.genres| == 2
    requires ContainsIgnoreCase(t.genres[0], g) && ContainsIgnoreCase(t.genres[1], g)
    ensures GenreJoin([t], g) == [t, t]
    ensures GenreFilter([t], g) == [t]
  {
    assert t.genres[1..][1..] == [];
    assert GenreHits(t.genres[1..], g) == 1;
    assert GenreHits(t.genres, g) == 2;
    assert GenreJoin([t], g) == Repeat(t, 2) + GenreJoin([], g);
    assert HasGenreLike(t, g) by {
      assert ContainsIgnoreCase(t.genres[0], g);
    }
    assert GenreFilter([t], g) == [t] + Filter([], LikeGenre(g));
  }

  /** The concrete case: searching with genre "ma" for a title filed under Drama and Romance lists it twice
      and counts it twice. */
  lemma GenreJoinDuplicates()
    ensures var t := Title(1, "Titanic", "", ["Drama", "Romance"], 1997);
      GenreJoin([t], "ma") == [t, t] && GenreFilter([t], "ma") == [t]
  {
    DramaHasMa();
    RomanceHasMa();
    TwoHitsListTwice(Title(1, "Titanic", "", ["Drama", "Romance"], 1997), "ma");
  }

  /** The recommendation consequence: the Drama/Romance title, not held and recommended with genre "ma",
      takes both places of a limit of two under the join, and one under the intended filter. */
  lemma JoinFillsTwoPlaces(held: set<int>)
    requires 1 !in held
    ensures var t := Title(1, "Titanic", "", ["Drama", "Romance"], 1997);
      && Take(GenreJoin(Filter([t], NotIn(held)), "ma"), 2) == [t, t]
      && Take(GenreFilter(Filter([t], NotIn(held)), "ma"), 2) == [t]
  {
    var t := Title(1, "Titanic", "", ["Drama", "Romance"], 1997);
    assert Filter([t], NotIn(held)) == [t] + Filter([], NotIn(held));
    GenreJoinDuplicates();
  }

  /** The intended filter never lists a title more often than the query set holds it. */
  lemma {:induction false} GenreFilterNoDuplicates(rows: seq<Title>, g: string)
    ensures forall t :: multiset(GenreFilter(rows, g))[t] <= multiset(rows)[t]
  {
    FilterCounts(rows, LikeGenre(g));
  }

  /** `release_date__year=y` / `first_air_date__year=y`. */
  function InYear(y: int): Title -> bool {
    (t: Title) => t.year == y
  }

  /** The matches of a validated search within one kind of content: the query, then the genre when one is
      given, then the year when it is non-zero. */
  function SearchMatches(rows: seq<Title>, p: SearchParams): (r: seq<Title>)
    ensures forall t :: t in r <==>
      && t in rows
      && Matching(p.query)(t)
      && (p.genre.Some? && p.genre.value != "" ==> HasGenreLike(t, p.genre.value))
      && (p.year.Some? && p.year.value != 0 ==> t.year == p.year.value)
    ensures |r| <= |rows|
  {
    var found := Filter(rows, Matching(p.query));
    var byGenre := if p.genre.Some? && p.genre.value != "" then GenreFilter(found, p.genre.value) else found;
    if p.year.Some? && p.year.value != 0 then Filter(byGenre, InYear(p.year.value)) else byGenre
  }

  /** One kind's part of the search response: the total and the requested page. */
  datatype Page = Page(count: nat, results: seq<Title>)

  /** Where page `page` begins. */
  function PageStart(page: int, pageSize: int): nat
    requires page >= 1 && pageSize >= 1
  {
    (page - 1) * pageSize
  }

  /** The page window: page `page` of `pageSize` results is the matches from `(page - 1) * pageSize` on, at
      most `pageSize` of them; the count is the total whatever the page. */
  function PageOf(matches: seq<Title>, page: int, pageSize: int): (r: Page)
    requires page >= 1 && pageSize >= 1
    ensures r.count == |matches|
    ensures |r.results| == if PageStart(page, pageSize) < |matches|
      then Min(pageSize, |matches| - PageStart(page, pageSize)) else 0
    ensures forall i :: 0 <= i < |r.results| ==> r.results[i] == matches[PageStart(page, pageSize) + i]
  {
    var start := PageStart(page, pageSize);
    Page(|matches|, Slice(matches, start, start + pageSize))
  }

  /** Pages 1 to `n` one after another. */
  function Pages(matches: seq<Title>, pageSize: int, n: nat): seq<Title>
    requires pageSize >= 1
  {
    if n == 0 then [] else Pages(matches, pageSize, n - 1) + PageOf(matches, n, pageSize).results
  }

  /** Reading the pages in order loses and repeats nothing: the first `n` pages are the first
      `n * pageSize` matches. */
  lemma {:induction false} PagesTile(matches: seq<Title>, pageSize: int, n: nat)
    requires pageSize >= 1
    ensures Pages(matches, pageSize, n) == Take(matches, n * pageSize)
  {
    if n > 0 {
      PagesTile(matches, pageSize, n - 1);
      var start := PageStart(n, pageSize);
      assert start == (n - 1) * pageSize;
      assert start + pageSize == n * pageSize;
      TakeThenSlice(matches, start, pageSize);
    }
  }

  /** The search response: 400 with the failing fields, or 200 with one entry per searched kind. */
  datatype SearchResponse = SearchRejected(errors: set<string>) | SearchFound(movies: Option<Page>, tvShows: Option<Page>)

  /** The search steps for one kind, narrowing the query set one filter at a time. */
  method SearchKind(rows: seq<Title>, p: SearchParams) returns (page: Page)
    requires p.page >= 1 && p.pageSize >= 1
    ensures page == PageOf(SearchMatches(rows, p), p.page, p.pageSize)
  {
    var found := Filter(rows, Matching(p.query));
    if p.genre.Some? && p.genre.value != "" {
      found := GenreFilter(found, p.genre.value);
    }
    if p.year.Some? && p.year.value != 0 {
      found := Filter(found, InYear(p.year.value));
    }
    assert found == SearchMatches(rows, p);
    var start := PageStart(p.page, p.pageSize);
    page := Page(|found|, Slice(found, start, start + p.pageSize));
  }

  /** `ContentSearchView.post`. */
  method SearchPost(data: map<string, Value>, movies: seq<Title>, tvShows: seq<Title>) returns (resp: SearchResponse)
    ensures resp.SearchRejected? <==> ValidateSearch(data).Err?
    ensures resp.SearchRejected? ==> resp.errors == SearchErrors(data)
    ensures resp.SearchFound? ==>
      var p := ValidateSearch(data).value;
      && (resp.movies.Some? <==> p.contentType != Some(ShowKind))
      && (resp.tvShows.Some? <==> p.contentType != Some(MovieKind))
      && (resp.movies.Some? ==> resp.movies.value == PageOf(SearchMatches(movies, p), p.page, p.pageSize))
      && (resp.tvShows.Some? ==> resp.tvShows.value == PageOf(SearchMatches(tvShows, p), p.page, p.pageSize))
  {
    var v := ValidateSearch(data);
    if v.Err? {
      return SearchRejected(v.error);
    }
    var p := v.value;
    var moviePage: Option<Page> := None;
    var showPage: Option<Page> := None;
    if p.contentType.None? || p.contentType == Some(MovieKind) {
      var page := SearchKind(movies, p);
      moviePage := Some(page);
    }
    if p.contentType.None? || p.contentType == Some(ShowKind) {
      var page := SearchKind(tvShows, p);
      showPage := Some(page);
    }
    resp := SearchFound(moviePage, showPage);
  }

  /** A row of the user watchlist table. */
  datatype WatchRow = WatchRow(user: int, movie: Option<Title>, tvShow: Option<Title>)

  /** `values_list('movie_id')` (or `'tv_show_id'`) of the rows that hold that kind. */
  function TargetIds(targets: seq<Option<Title>>): (r: set<int>)
    ensures forall id :: id in r <==> exists i :: 0 <= i < |targets| && targets[i].Some? && targets[i].value.id == id
  {
    if targets == [] then {}
    else
      var rest := TargetIds(targets[1..]);
      assert forall i :: 1 <= i < |targets| ==> targets[i] == targets[1..][i - 1];
      (if targets[0].Some? then {targets[0].value.id} else {}) + rest
  }

  /** `values_list('movie__genres__name', flat=True)`: one name per (row, genre) pair, and one `None` for a
      held title without genres (the outer join yields a null). */
  function HistoryNames(targets: seq<Option<Title>>): (r: seq<Option<string>>)
    ensures forall n :: Some(n) in r <==> exists i :: 0 <= i < |targets| && targets[i].Some? && n in targets[i].value.genres
    ensures |r| == 0 <==> forall i :: 0 <= i < |targets| ==> targets[i].None?
  {
    if targets == [] then []
    else
      var rest := HistoryNames(targets[1..]);
      assert forall i :: 1 <= i < |targets| ==> targets[i] == targets[1..][i - 1];
      var here := if targets[0].None? then []
        else if targets[0].value.genres == [] then [None]
        else Named(targets[0].value.genres);
      assert forall n :: Some(n) in here <==> targets[0].Some? && n in targets[0].value.genres;
      here + rest
  }

  function Named(names: seq<string>): (r: seq<Option<string>>)
    ensures |r| == |names|
    ensures forall i :: 0 <= i < |r| ==> r[i] == Some(names[i])
    ensures forall n :: Some(n) in r <==> n in names
  {
    if names == [] then [] else [Some(names[0])] + Named(names[1..])
  }

  /** `genres__name__in=<names>`: some genre of the title is among the non-null names. */
  predicate GenreAmong(t: Title, names: seq<Option<string>>) {
    exists i :: 0 <= i < |t.genres| && Some(t.genres[i]) in names
  }

  function AmongGenres(names: seq<Option<string>>): Title -> bool {
    (t: Title) => GenreAmong(t, names)
  }

  function NotIn(ids: set<int>): Title -> bool {
    (t: Title) => t.id !in ids
  }

  /** The recommendations for one kind before the limit: everything not held, narrowed by the explicit
      genre when there is one, else by the held titles' genres when there are held titles. */
  function Recommended(catalogue: seq<Title>, held: set<int>, names: seq<Option<string>>, genre: Option<string>): (r: seq<Title>)
    ensures forall t :: t in r <==>
      && t in catalogue
      && t.id !in held
      && (genre.Some? && genre.value != "" ==> HasGenreLike(t, genre.value))
      && (!(genre.Some? && genre.value != "") && |names| > 0 ==> GenreAmong(t, names))
    ensures IsSubsequence(r, Filter(catalogue, NotIn(held)))
  {
    var open := Filter(catalogue, NotIn(held));
    if genre.Some? && genre.value != "" then GenreFilter(open, genre.value)
    else if |names| > 0 then Filter(open, AmongGenres(names))
    else
      SubsequenceOfItself(open);
      open
  }

  /** The recommendation steps for one kind. */
  method RecommendKind(catalogue: seq<Title>, targets: seq<Option<Title>>, genre: Option<string>, limit: nat)
    returns (r: seq<Title>)
    ensures r == Take(Recommended(catalogue, TargetIds(targets), HistoryNames(targets), genre), limit)
  {
    var held := TargetIds(targets);
    var names := HistoryNames(targets);
    var candidates := Filter(catalogue, NotIn(held));
    if genre.Some? && genre.value != "" {
      candidates := GenreFilter(candidates, genre.value);
    } else if |names| > 0 {
      candidates := Filter(candidates, AmongGenres(names));
    }
    r := Take(candidates, limit);
  }

  /** The recommendation response: 400 with the failing fields, or 200 with one list per requested kind. */
  datatype RecommendResponse =
    | RecommendRejected(errors: set<string>)
    | RecommendFound(movies: Option<seq<Title>>, tvShows: Option<seq<Title>>)

  /** The kind of title a watchlist row holds. */
  function Pick(w: WatchRow, movies: bool): Option<Title> {
    if movies then w.movie else w.tvShow
  }

  /** The titles of one kind that the user's watchlist rows hold, one entry per row. */
  function Held(rows: seq<WatchRow>, user: int, movies: bool): (r: seq<Option<Title>>)
    ensures forall w :: w in rows && w.user == user ==> Pick(w, movies) in r
    ensures forall x :: x in r ==> exists w :: w in rows && w.user == user && x == Pick(w, movies)
  {
    if rows == [] then []
    else
      var rest := Held(rows[1..], user, movies);
      assert forall w :: w in rows ==> w == rows[0] || w in rows[1..];
      if rows[0].user == user then [Pick(rows[0], movies)] + rest else rest
  }

  /** `ContentRecommendationView.post` for the signed-in `user` over the whole watchlist table. */
  method RecommendPost(data: map<string, Value>, user: int, watchlist: seq<WatchRow>, movies: seq<Title>, tvShows: seq<Title>)
    returns (resp: RecommendResponse)
    ensures resp.RecommendRejected? <==> ValidateRecommend(data).Err?
    ensures resp.RecommendRejected? ==> resp.errors == RecommendErrors(data)
    ensures resp.RecommendFound? ==>
      var p := ValidateRecommend(data).value;
      && (resp.movies.Some? <==> p.contentType != Some(ShowKind))
      && (resp.tvShows.Some? <==> p.contentType != Some(MovieKind))
      && (resp.movies.Some? ==>
            var held := Held(watchlist, user, true);
            resp.movies.value == Take(Recommended(movies, TargetIds(held), HistoryNames(held), p.genre), p.limit))
      && (resp.tvShows.Some? ==>
            var held := Held(watchlist, user, false);
            resp.tvShows.value == Take(Recommended(tvShows, TargetIds(held), HistoryNames(held), p.genre), p.limit))
  {
    var v := ValidateRecommend(data);
    if v.Err? {
      return RecommendRejected(v.error);
    }
    var p := v.value;
    var movieList: Option<seq<Title>> := None;
    var showList: Option<seq<Title>> := None;
    if p.contentType.None? || p.contentType == Some(MovieKind) {
      var r := RecommendKind(movies, Held(watchlist, user, true), p.genre, p.limit);
      movieList := Some(r);
    }
    if p.contentType.None? || p.contentType == Some(ShowKind) {
      var r := RecommendKind(tvShows, Held(watchlist, user, false), p.genre, p.limit);
      showList := Some(r);
    }
    resp := RecommendFound(movieList, showList);
  }

  /** Nothing the user already holds is recommended, and at most `limit` titles are. */
  lemma {:induction false} NoHeldTitleRecommended(catalogue: seq<Title>, targets: seq<Option<Title>>, genre: Option<string>, limit: nat)
    ensures var r := Take(Recommended(catalogue, TargetIds(targets), HistoryNames(targets), genre), limit);
      && |r| <= limit
      && forall t :: t in r ==> t in catalogue && forall i :: 0 <= i < |targets| && targets[i].Some? ==> targets[i].value.id != t.id
  {
    var all := Recommended(catalogue, TargetIds(targets), HistoryNames(targets), genre);
    var r := Take(all, limit);
    forall t | t in r ensures t in all {
      var j :| 0 <= j < |r| && r[j] == t;
      assert all[j] == t;
    }
  }

  /** An explicit genre overrides the history: two users with the same held titles but different histories
      get the same recommendations once a genre is given. */
  lemma GenreOverridesHistory(catalogue: seq<Title>, held: set<int>, names1: seq<Option<string>>, names2: seq<Option<string>>, g: string)
    requires g != ""
    ensures Recommended(catalogue, held, names1, Some(g)) == Recommended(catalogue, held, names2, Some(g))
  {
  }

  /** A user whose held titles all lack genres gets no recommendation from history: the names are all null
      and no genre matches a null. */
  lemma {:induction false} GenrelessHistoryRecommendsNothing(catalogue: seq<Title>, held: set<int>, names: seq<Option<string>>)
    requires |names| > 0 && forall i :: 0 <= i < |names| ==> names[i].None?
    ensures Recommended(catalogue, held, names, None) == []
  {
    var open := Filter(catalogue, NotIn(held));
    forall t | t in open ensures !AmongGenres(names)(t) {
      forall i | 0 <= i < |t.genres| ensures Some(t.genres[i]) !in names {
      }
    }
    FilterKeepsNone(open, AmongGenres(names));
  }
}
