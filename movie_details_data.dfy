/** The movie detail records of frontend/src/data/movieDetails.ts, keyed by movie id, and their lookups. */
module MovieDetailsData {
  import opened Wrappers
  import MoviesData

  /** A "more like this" entry; its image is not modelled. */
  datatype Similar = Similar(id: int, title: string)

  /** A detail record; the image, backdrop and synopsis are not modelled. */
  datatype MovieDetail = MovieDetail(
    id: int, title: string, genre: string, year: string, rating: string, duration: string,
    director: string, cast: seq<string>, similar: seq<Similar>)

  const MovieDetails: map<int, MovieDetail> := map[
    1 := MovieDetail(1, "Inception", "Sci-Fi", "2010", "PG-13", "2h 28m", "Christopher Nolan",
      ["Leonardo DiCaprio", "Joseph Gordon-Levitt", "Ellen Page", "Tom Hardy", "Ken Watanabe"],
      [Similar(6, "The Matrix"), Similar(9, "Interstellar"), Similar(15, "Blade Runner 2049")]),
    2 := MovieDetail(2, "The Dark Knight", "Action", "2008", "PG-13", "2h 32m", "Christopher Nolan",
      ["Christian Bale", "Heath Ledger", "Aaron Eckhart", "Maggie Gyllenhaal", "Gary Oldman"],
      [Similar(16, "Batman Begins"), Similar(17, "The Dark Knight Rises"), Similar(18, "Joker")]),
    3 := MovieDetail(3, "Pulp Fiction", "Crime", "1994", "R", "2h 34m", "Quentin Tarantino",
      ["John Travolta", "Samuel L. Jackson", "Uma Thurman", "Bruce Willis", "Ving Rhames"],
      [Similar(7, "Goodfellas"), Similar(10, "The Godfather"), Similar(19, "Reservoir Dogs")]),
    4 := MovieDetail(4, "The Shawshank Redemption", "Drama", "1994", "R", "2h 22m", "Frank Darabont",
      ["Tim Robbins", "Morgan Freeman", "Bob Gunton", "William Sadler", "Clancy Brown"],
      [Similar(5, "Fight Club"), Similar(20, "The Green Mile"), Similar(21, "Forrest Gump")]),
    5 := MovieDetail(5, "Fight Club", "Drama", "1999", "R", "2h 19m", "David Fincher",
      ["Brad Pitt", "Edward Norton", "Helena Bonham Carter", "Meat Loaf", "Jared Leto"],
      [Similar(4, "The Shawshank Redemption"), Similar(22, "Se7en"), Similar(23, "American Psycho")])
  ]

  /** `getMovieDetail`: the record under the id, or `null` when there is none (a record object is always
      truthy, so `|| null` only replaces a missing one). */
  function GetMovieDetail(id: int): (r: Option<MovieDetail>)
    ensures r.Some? <==> id in MovieDetails
    ensures r.Some? ==> r.value == MovieDetails[id]
  {
    if id in MovieDetails then Some(MovieDetails[id]) else None
  }

  /** `Object.values` of a record whose keys are the integers `lo .. hi - 1`: the values in ascending key
      order. */
  function ValuesInKeyOrder(m: map<int, MovieDetail>, lo: int, hi: int): (r: seq<MovieDetail>)
    requires lo <= hi
    requires forall k :: k in m <==> lo <= k < hi
    decreases hi - lo
    ensures |r| == hi - lo
    ensures forall i :: 0 <= i < |r| ==> r[i] == m[lo + i]
  {
    if lo == hi then []
    else [m[lo]] + ValuesInKeyOrder(m - {lo}, lo + 1, hi)
  }

  /** `getAllMovieDetails`: every record, in ascending id order. */
  function GetAllMovieDetails(): (r: seq<MovieDetail>)
    ensures |r| == 5
    ensures forall i :: 0 <= i < 5 ==> r[i] == MovieDetails[i + 1]
  {
    ValuesInKeyOrder(MovieDetails, 1, 6)
  }

  /** The key of every record is the record's own id, and the keys are 1 to 5. */
  lemma KeysAreIds()
    ensures forall k :: k in MovieDetails <==> 1 <= k <= 5
    ensures forall k :: k in MovieDetails ==> MovieDetails[k].id == k
  {
  }

  /** Every record is filed under its own id, so looking up the id of any record in the list finds it, and
      every record is in the list. */
  lemma {:induction false} DetailsListedUnderTheirIds()
    ensures forall d :: d in GetAllMovieDetails() ==> GetMovieDetail(d.id) == Some(d)
    ensures forall k :: k in MovieDetails ==> MovieDetails[k] in GetAllMovieDetails()
  {
    var all := GetAllMovieDetails();
    KeysAreIds();
    forall d | d in all ensures GetMovieDetail(d.id) == Some(d) {
      var i :| 0 <= i < 5 && all[i] == d;
      assert d == MovieDetails[i + 1] && d.id == i + 1;
    }
    forall k | k in MovieDetails ensures MovieDetails[k] in all {
      assert all[k - 1] == MovieDetails[k];
    }
  }

  /** A "more like this" entry that points at another detail record names that record's title. */
  lemma SimilarTitlesAgree()
    ensures forall k, s :: k in MovieDetails && s in MovieDetails[k].similar && s.id in MovieDetails ==>
      MovieDetails[s.id].title == s.title
  {
    KeysAreIds();
    forall k | k in MovieDetails {
      SimilarTitlesAgreeAt(k);
    }
  }

  /** `SimilarTitlesAgree` for the record under one key. */
  lemma SimilarTitlesAgreeAt(k: int)
    requires 1 <= k <= 5
    ensures forall s :: s in MovieDetails[k].similar && s.id in MovieDetails ==> MovieDetails[s.id].title == s.title
  {
    KeysAreIds();
    var similar := MovieDetails[k].similar;
    assert |similar| == 3;
    forall i | 0 <= i < 3 && similar[i].id in MovieDetails
      ensures MovieDetails[similar[i].id].title == similar[i].title
    {
    }
  }

  /** The detail records agree with the catalogue entries of the same ids on title, genre, year and
      rating. */
  lemma DetailsAgreeWithCatalogue()
    ensures forall k :: k in MovieDetails ==>
      var m := MoviesData.Movies[k - 1];
      var d := MovieDetails[k];
      m.id == k && m.title == d.title && m.genre == d.genre && m.year == d.year && m.rating == Some(d.rating)
  {
    KeysAreIds();
    forall k | k in MovieDetails {
      AgreesWithCatalogueAt(k);
    }
  }

  /** `DetailsAgreeWithCatalogue` for the record under one key. */
  lemma AgreesWithCatalogueAt(k: int)
    requires 1 <= k <= 5
    ensures k in MovieDetails
    ensures var m, d := MoviesData.Movies[k - 1], MovieDetails[k];
      m.id == k && m.title == d.title && m.genre == d.genre && m.year == d.year && m.rating == Some(d.rating)
  {
    var m := MoviesData.Movies[k - 1];
    if k == 1 {
      assert m == MoviesData.Movies[0];
    } else if k == 2 {
      assert m == MoviesData.Movies[1];
    } else if k == 3 {
      assert m == MoviesData.Movies[2];
    } else if k == 4 {
      assert m == MoviesData.Movies[3];
    } else {
      assert m == MoviesData.Movies[4];
    }
  }
}
