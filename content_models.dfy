/** The content models of backend/content/models.py: the rating and status choices of movies and shows, and
    the user watchlist and rating rows with their validation, display strings and uniqueness constraints. */
module ContentModels {
  import opened Wrappers
  import opened Text

  /** The age rating choices shared by movies and TV shows. */
  datatype AgeRating = G | PG | PG13 | R | NC17 {
    /** The value stored in the database column. */
    function Value(): (s: string)
      ensures 1 <= |s| <= 10
    {
      match this
      case G => "G"
      case PG => "PG"
      case PG13 => "PG-13"
      case R => "R"
      case NC17 => "NC-17"
    }
  }

  /** Choice validation of the rating column: the stored value must be one of the five codes. */
  function ParseAgeRating(s: string): (r: Option<AgeRating>)
    ensures r.Some? ==> r.value.Value() == s
  {
    if s == "G" then Some(G)
    else if s == "PG" then Some(PG)
    else if s == "PG-13" then Some(PG13)
    else if s == "R" then Some(R)
    else if s == "NC-17" then Some(NC17)
    else None
  }

  /** Every choice is accepted back from its stored value. */
  lemma AgeRatingRoundTrip(a: AgeRating)
    ensures ParseAgeRating(a.Value()) == Some(a)
  {
  }

  /** The airing status of a TV show. */
  datatype ShowStatus = Ongoing | Ended | Cancelled {
    function Value(): (s: string)
      ensures 1 <= |s| <= 20
    {
      match this
      case Ongoing => "ongoing"
      case Ended => "ended"
      case Cancelled => "cancelled"
    }
  }

  /** A show created without a status is ongoing. */
  const DefaultShowStatus: ShowStatus := Ongoing

  function ParseShowStatus(s: string): (r: Option<ShowStatus>)
    ensures r.Some? ==> r.value.Value() == s
  {
    if s == "ongoing" then Some(Ongoing)
    else if s == "ended" then Some(Ended)
    else if s == "cancelled" then Some(Cancelled)
    else None
  }

  lemma ShowStatusRoundTrip(t: ShowStatus)
    ensures ParseShowStatus(t.Value()) == Some(t)
    ensures ParseShowStatus(DefaultShowStatus.Value()) == Some(Ongoing)
  {
  }

  /** A movie or a show as a row refers to it: its primary key and title. */
  datatype ContentRef = ContentRef(id: int, title: string)

  /** The owner of a row: its primary key and username. */
  datatype Owner = Owner(id: int, username: string)

  const NeitherSet := "Either movie or tv_show must be set"
  const BothSet := "Cannot set both movie and tv_show"

  /** The shared `clean` rule of watchlist and rating rows: exactly one of movie and TV show is set. A model
      instance is always truthy, so "set" means "not null". */
  function CheckTarget(movie: Option<ContentRef>, tvShow: Option<ContentRef>): (r: Outcome<string>)
    ensures r.Pass? <==> movie.Some? != tvShow.Some?
    ensures r == Fail(NeitherSet) <==> movie.None? && tvShow.None?
    ensures r == Fail(BothSet) <==> movie.Some? && tvShow.Some?
  {
    if movie.None? && tvShow.None? then Fail(NeitherSet)
    else if movie.Some? && tvShow.Some? then Fail(BothSet)
    else Pass
  }

  /** The title a row displays: the movie's if there is one, else the show's. With neither set the code
      dereferences null and raises, modelled as `None`. */
  function TargetTitle(movie: Option<ContentRef>, tvShow: Option<ContentRef>): (r: Option<string>)
    ensures r.None? <==> movie.None? && tvShow.None?
    ensures movie.Some? ==> r == Some(movie.value.title)
    ensures movie.None? && tvShow.Some? ==> r == Some(tvShow.value.title)
  {
    if movie.Some? then Some(movie.value.title)
    else if tvShow.Some? then Some(tvShow.value.title)
    else None
  }

  /** What the unique-together constraints look at: owner and the two nullable foreign keys. */
  datatype RowKey = RowKey(user: int, movie: Option<int>, tvShow: Option<int>)

  function RefId(c: Option<ContentRef>): Option<int> {
    if c.Some? then Some(c.value.id) else None
  }

  datatype WatchlistEntry = WatchlistEntry(
    user: Owner, movie: Option<ContentRef>, tvShow: Option<ContentRef>, isWatched: bool)
  {
    /** `UserWatchlist.clean`. */
    function Clean(): (r: Outcome<string>)
      ensures r.Pass? <==> movie.Some? != tvShow.Some?
    {
      CheckTarget(movie, tvShow)
    }

    /** `UserWatchlist.__str__`: "username - title". */
    function Display(): (r: Option<string>)
      ensures r.None? <==> movie.None? && tvShow.None?
      ensures r.Some? ==> r.value == user.username + " - " + TargetTitle(movie, tvShow).value
    {
      var title := TargetTitle(movie, tvShow);
      if title.Some? then Some(user.username + " - " + title.value) else None
    }

    function Key(): RowKey {
      RowKey(user.id, RefId(movie), RefId(tvShow))
    }
  }

  /** The integer choices of a rating: 1 to 5. */
  const RatingChoices: seq<int> := [1, 2, 3, 4, 5]

  lemma RatingChoicesRange(v: int)
    ensures v in RatingChoices <==> 1 <= v <= 5
  {
  }

  datatype RatingEntry = RatingEntry(
    user: Owner, movie: Option<ContentRef>, tvShow: Option<ContentRef>, rating: int, review: string)
  {
    /** `UserRating.clean`. */
    function Clean(): (r: Outcome<string>)
      ensures r.Pass? <==> movie.Some? != tvShow.Some?
    {
      CheckTarget(movie, tvShow)
    }

    /** Field validation of the `rating` column against its choices. */
    predicate RatingInChoices()
      ensures RatingInChoices() <==> 1 <= rating <= 5
    {
      rating in RatingChoices
    }

    /** `UserRating.__str__`: "username - title (rating/5)". */
    function Display(): (r: Option<string>)
      ensures r.None? <==> movie.None? && tvShow.None?
      ensures r.Some? ==>
        r.value == user.username + " - " + TargetTitle(movie, tvShow).value + " (" + IntToString(rating) + "/5)"
    {
      var title := TargetTitle(movie, tvShow);
      if title.Some? then Some(user.username + " - " + title.value + " (" + IntToString(rating) + "/5)")
      else None
    }

    function Key(): RowKey {
      RowKey(user.id, RefId(movie), RefId(tvShow))
    }
  }

  /** Two rows clash under `unique_together = [(user, movie), (user, tv_show)]`: same owner and the same
      non-null movie, or the same non-null show. Null foreign keys never clash, as in SQL. */
  predicate Clash(a: RowKey, b: RowKey) {
    a.user == b.user && ((a.movie.Some? && a.movie == b.movie) || (a.tvShow.Some? && a.tvShow == b.tvShow))
  }

  predicate UniqueTogether(rows: seq<RowKey>) {
    forall i, j :: 0 <= i < j < |rows| ==> !Clash(rows[i], rows[j])
  }

  /** Saving a new row: the database refuses it (an integrity error, `None`) when it clashes with a stored
      one, and otherwise appends it. */
  function Insert(rows: seq<RowKey>, k: RowKey): (r: Option<seq<RowKey>>)
    ensures r.Some? <==> forall i :: 0 <= i < |rows| ==> !Clash(rows[i], k)
    ensures r.Some? ==> r.value == rows + [k]
  {
    if exists i :: 0 <= i < |rows| && Clash(rows[i], k) then None else Some(rows + [k])
  }

  /** Inserting keeps the table free of clashes. */
  lemma {:induction false} InsertKeepsUnique(rows: seq<RowKey>, k: RowKey)
    requires UniqueTogether(rows)
    ensures Insert(rows, k).Some? ==> UniqueTogether(Insert(rows, k).value)
  {
    if Insert(rows, k).Some? {
      var s := rows + [k];
      forall i, j | 0 <= i < j < |s| ensures !Clash(s[i], s[j]) {
        if j < |rows| {
          assert s[i] == rows[i] && s[j] == rows[j];
        } else {
          assert s[i] == rows[i] && s[j] == k;
        }
      }
    }
  }

  /** With the constraints in place a user holds at most one row per movie and at most one per show. */
  lemma AtMostOnePerTarget(rows: seq<RowKey>, user: int, i: int, j: int)
    requires UniqueTogether(rows)
    requires 0 <= i < |rows| && 0 <= j < |rows|
    requires rows[i].user == user && rows[j].user == user
    ensures rows[i].movie.Some? && rows[i].movie == rows[j].movie ==> i == j
    ensures rows[i].tvShow.Some? && rows[i].tvShow == rows[j].tvShow ==> i == j
  {
    if i < j {
      assert !Clash(rows[i], rows[j]);
    } else if j < i {
      assert !Clash(rows[j], rows[i]);
    }
  }

  /** A row that passes `clean` always has a display string, and the same title shows in either display. */
  lemma CleanRowsDisplay(w: WatchlistEntry)
    requires w.Clean().Pass?
    ensures w.Display().Some?
    ensures exists t :: (
      (w.movie == Some(t) || w.tvShow == Some(t)) && w.Display() == Some(w.user.username + " - " + t.title))
  {
    var t := if w.movie.Some? then w.movie.value else w.tvShow.value;
    assert w.Display() == Some(w.user.username + " - " + t.title);
  }
}
