/** The "Content" column of the watchlist and rating admin lists in backend/content/admin.py. */
module ContentAdmin {
  import opened Wrappers
  import opened ContentModels

  const MoviePrefix := "Movie: "
  const ShowPrefix := "TV Show: "
  const UnknownContent := "Unknown"

  /** `get_content_title`: the movie (which wins when both are set), else the show, else "Unknown". */
  function ContentTitle(movie: Option<ContentRef>, tvShow: Option<ContentRef>): (r: string)
    ensures movie.Some? ==> r == MoviePrefix + movie.value.title
    ensures movie.None? && tvShow.Some? ==> r == ShowPrefix + tvShow.value.title
    ensures movie.None? && tvShow.None? ==> r == UnknownContent
    ensures r == UnknownContent <==> movie.None? && tvShow.None?
  {
    if movie.Some? then
      var r := MoviePrefix + movie.value.title;
      assert r[0] != UnknownContent[0];
      r
    else if tvShow.Some? then
      var r := ShowPrefix + tvShow.value.title;
      assert r[0] != UnknownContent[0];
      r
    else UnknownContent
  }

  /** `UserWatchlistAdmin.get_content_title`. */
  function WatchlistContentTitle(w: WatchlistEntry): (r: string)
    ensures r == UnknownContent <==> w.movie.None? && w.tvShow.None?
  {
    ContentTitle(w.movie, w.tvShow)
  }

  /** `UserRatingAdmin.get_content_title`. */
  function RatingContentTitle(e: RatingEntry): (r: string)
    ensures r == UnknownContent <==> e.movie.None? && e.tvShow.None?
  {
    ContentTitle(e.movie, e.tvShow)
  }

  /** The admin column names the same content as the row's own display string: it is the kind prefix put
      before the title that `__str__` shows, and "Unknown" exactly where `__str__` would raise. */
  lemma AdminAgreesWithDisplay(movie: Option<ContentRef>, tvShow: Option<ContentRef>)
    ensures TargetTitle(movie, tvShow).None? <==> ContentTitle(movie, tvShow) == UnknownContent
    ensures TargetTitle(movie, tvShow).Some? ==>
      ContentTitle(movie, tvShow) == (if movie.Some? then MoviePrefix else ShowPrefix) + TargetTitle(movie, tvShow).value
  {
  }

  /** The watchlist and rating columns agree whenever the two rows point at the same content. */
  lemma ColumnsAgree(w: WatchlistEntry, e: RatingEntry)
    requires w.movie == e.movie && w.tvShow == e.tvShow
    ensures WatchlistContentTitle(w) == RatingContentTitle(e)
  {
  }

  /** A row that passes `clean` never shows "Unknown", and shows the kind of content it holds. */
  lemma CleanRowsAreKnown(w: WatchlistEntry)
    requires w.Clean().Pass?
    ensures WatchlistContentTitle(w) != UnknownContent
    ensures w.movie.Some? ==> WatchlistContentTitle(w)[..|MoviePrefix|] == MoviePrefix
    ensures w.tvShow.Some? ==> WatchlistContentTitle(w)[..|ShowPrefix|] == ShowPrefix
  {
  }
}
