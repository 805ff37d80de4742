/** The static movie catalogue of frontend/src/data/movies.ts and its lookups. */
module MoviesData {
  import opened Wrappers
  import opened Seqs
  import opened Text

  /** A catalogue movie; the image URL and the synopsis are not modelled. */
  datatype Movie = Movie(
    id: int, title: string, genre: string, year: string, rating: Option<string>, duration: Option<string>)

  const Movies: seq<Movie> := [
    Movie(1, "Inception", "Sci-Fi", "2010", Some("PG-13"), Some("2h 28m")),
    Movie(2, "The Dark Knight", "Action", "2008", Some("PG-13"), Some("2h 32m")),
    Movie(3, "Pulp Fiction", "Crime", "1994", Some("R"), Some("2h 34m")),
    Movie(4, "The Shawshank Redemption", "Drama", "1994", Some("R"), Some("2h 22m")),
    Movie(5, "Fight Club", "Drama", "1999", Some("R"), Some("2h 19m")),
    Movie(6, "The Matrix", "Sci-Fi", "1999", Some("R"), Some("2h 16m")),
    Movie(7, "Goodfellas", "Crime", "1990", Some("R"), Some("2h 26m")),
    Movie(8, "The Silence of the Lambs", "Thriller", "1991", Some("R"), Some("1h 58m")),
    Movie(9, "Interstellar", "Sci-Fi", "2014", Some("PG-13"), Some("2h 49m")),
    Movie(10, "The Godfather", "Crime", "1972", Some("R"), Some("2h 55m"))
  ]

  /** `getMoviesByGenre`: exact, case-sensitive match on the genre. */
  function GetMoviesByGenre(genre: string): (r: seq<Movie>)
    ensures forall m :: m in r <==> m in Movies && m.genre == genre
    ensures IsSubsequence(r, Movies)
  {
    Filter(Movies, (m: Movie) => m.genre == genre)
  }

  /** `getPopularMovies`: the first eight movies of the catalogue. */
  function GetPopularMovies(): (r: seq<Movie>)
    ensures |r| == 8
    ensures forall i :: 0 <= i < 8 ==> r[i] == Movies[i]
  {
    Take(Movies, 8)
  }

  /** `getMoviesByYear`: exact match on the year string. */
  function GetMoviesByYear(year: string): (r: seq<Movie>)
    ensures forall m :: m in r <==> m in Movies && m.year == year
    ensures IsSubsequence(r, Movies)
  {
    Filter(Movies, (m: Movie) => m.year == year)
  }

  /** Whether a year string, read with `parseInt`, lies in `start ..= start + 9`. A year or a decade that
      does not start with a digit reads as NaN, and every comparison with NaN is false. */
  predicate InDecade(year: string, start: Option<nat>)
    ensures InDecade(year, start) ==> ParseInt(year).Some? && start.Some?
    ensures InDecade(year, start) <==>
      ParseInt(year).Some? && start.Some? && 0 <= ParseInt(year).value - start.value < 10
  {
    match (ParseInt(year), start)
    case (Some(y), Some(s)) => s <= y <= s + 9
    case _ => false
  }

  /** `getMoviesByDecade`: the movies whose year falls in the ten years starting at the decade's number. */
  function GetMoviesByDecade(decade: string): (r: seq<Movie>)
    ensures forall m :: m in r <==> m in Movies && InDecade(m.year, ParseInt(decade))
    ensures IsSubsequence(r, Movies)
  {
    Filter(Movies, OfDecade(decade))
  }

  function OfDecade(decade: string): Movie -> bool {
    (m: Movie) => InDecade(m.year, ParseInt(decade))
  }

  /** A movie listed for a year is also listed for the decade that contains that year. */
  lemma YearWithinDecade(year: string, decade: string, m: Movie)
    requires m in GetMoviesByYear(year)
    requires InDecade(year, ParseInt(decade))
    ensures m in GetMoviesByDecade(decade)
  {
  }

  /** A decade that does not start with a digit lists nothing. */
  lemma {:induction false} UnreadableDecade(decade: string)
    requires decade == [] || !IsDigit(decade[0])
    ensures GetMoviesByDecade(decade) == []
  {
    FilterKeepsNone(Movies, OfDecade(decade));
  }

  /** The decade written the way the movies page writes it, as the digits of its first year, finds exactly
      the movies whose year reads as a number of that decade. */
  lemma {:induction false} DecadeOfNumber(start: nat, m: Movie)
    requires m in Movies
    ensures m in GetMoviesByDecade(NatToString(start)) <==>
      ParseInt(m.year).Some? && start <= ParseInt(m.year).value <= start + 9
  {
    ParseIntRoundTrip(start);
  }
}
