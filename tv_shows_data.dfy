/** The static TV catalogue of frontend/src/data/tvShows.ts and its lookups. */
module TvShowsData {
  import opened Wrappers
  import opened Seqs

  /** A catalogue show; the image URL and the synopsis are not modelled. The year is optional. */
  datatype TVShow = TVShow(id: int, title: string, genre: string, year: Option<string>)

  const TVShows: seq<TVShow> := [
    TVShow(1, "Stranger Things", "Sci-Fi", Some("2016")),
    TVShow(2, "Money Heist", "Crime", Some("2017")),
    TVShow(3, "The Witcher", "Fantasy", Some("2019")),
    TVShow(4, "Breaking Bad", "Drama", Some("2008")),
    TVShow(5, "Dark", "Thriller", Some("2017")),
    TVShow(6, "The Crown", "Drama", Some("2016")),
    TVShow(7, "Wednesday", "Comedy", Some("2022")),
    TVShow(8, "The Last of Us", "Drama", Some("2023")),
    TVShow(9, "House of the Dragon", "Fantasy", Some("2022")),
    TVShow(10, "Better Call Saul", "Crime", Some("2015"))
  ]

  /** `getTVShowsByGenre`: exact, case-sensitive match on the genre. */
  function GetTVShowsByGenre(genre: string): (r: seq<TVShow>)
    ensures forall s :: s in r <==> s in TVShows && s.genre == genre
    ensures IsSubsequence(r, TVShows)
  {
    Filter(TVShows, (s: TVShow) => s.genre == genre)
  }

  /** `getPopularTVShows`: the first six shows. */
  function GetPopularTVShows(): (r: seq<TVShow>)
    ensures |r| == 6
    ensures forall i :: 0 <= i < 6 ==> r[i] == TVShows[i]
  {
    Take(TVShows, 6)
  }

  /** `getTrendingTVShows`: the first four shows. */
  function GetTrendingTVShows(): (r: seq<TVShow>)
    ensures |r| == 4
    ensures forall i :: 0 <= i < 4 ==> r[i] == TVShows[i]
  {
    Take(TVShows, 4)
  }

  /** Every trending show is also a popular one, in the same place: trending is a prefix of popular. */
  lemma TrendingPrefixOfPopular()
    ensures GetTrendingTVShows() == GetPopularTVShows()[..4]
  {
  }
}
