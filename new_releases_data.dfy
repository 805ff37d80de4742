/** The static release lists of frontend/src/data/newReleases.ts and the views the new-and-popular page takes
    of them. */
module NewReleasesData {
  import opened Wrappers
  import opened Seqs
  import opened Media

  /** A release; `trending` is optional and reads as false when absent. Images and synopses are not
      modelled. */
  datatype NewRelease = NewRelease(
    id: int, title: string, mediaType: MediaType, year: string, isNew: bool, trending: Option<bool>)

  const NewReleases: seq<NewRelease> := [
    NewRelease(1, "Wednesday", TVShow, "2022", true, None),
    NewRelease(2, "The Last of Us", TVShow, "2023", true, None),
    NewRelease(3, "Oppenheimer", Movie, "2023", true, None),
    NewRelease(4, "Barbie", Movie, "2023", true, None),
    NewRelease(5, "House of the Dragon", TVShow, "2022", false, None),
    NewRelease(6, "Top Gun: Maverick", Movie, "2022", false, None),
    NewRelease(7, "The Bear", TVShow, "2022", true, None),
    NewRelease(8, "Everything Everywhere All at Once", Movie, "2022", true, None)
  ]

  const TrendingContent: seq<NewRelease> := [
    NewRelease(9, "Stranger Things", TVShow, "2016", false, Some(true)),
    NewRelease(10, "Money Heist", TVShow, "2017", false, Some(true)),
    NewRelease(11, "The Witcher", TVShow, "2019", false, Some(true)),
    NewRelease(12, "Inception", Movie, "2010", false, Some(true)),
    NewRelease(13, "Breaking Bad", TVShow, "2008", false, Some(true)),
    NewRelease(14, "The Dark Knight", Movie, "2008", false, Some(true))
  ]

  /** JavaScript truthiness of the optional `trending` flag. */
  predicate IsTrending(r: NewRelease) {
    r.trending == Some(true)
  }

  /** `getNewReleases`: the releases flagged new. */
  function GetNewReleases(): (r: seq<NewRelease>)
    ensures forall x :: x in r <==> x in NewReleases && x.isNew
    ensures IsSubsequence(r, NewReleases)
  {
    Filter(NewReleases, (x: NewRelease) => x.isNew)
  }

  /** `getTrendingContent`: the trending list, keeping the entries whose flag is set and true. */
  function GetTrendingContent(): (r: seq<NewRelease>)
    ensures forall x :: x in r <==> x in TrendingContent && IsTrending(x)
    ensures IsSubsequence(r, TrendingContent)
  {
    Filter(TrendingContent, IsTrending)
  }

  /** `getComingSoon`: the first four releases. */
  function GetComingSoon(): (r: seq<NewRelease>)
    ensures |r| == 4
    ensures forall i :: 0 <= i < 4 ==> r[i] == NewReleases[i]
  {
    Slice(NewReleases, 0, 4)
  }

  /** `getRecentlyAdded`: the releases at positions 2 to 5. */
  function GetRecentlyAdded(): (r: seq<NewRelease>)
    ensures |r| == 4
    ensures forall i :: 0 <= i < 4 ==> r[i] == NewReleases[i + 2]
  {
    Slice(NewReleases, 2, 6)
  }

  /** The two windows overlap: the last two entries coming soon are the first two recently added. */
  lemma ComingSoonOverlapsRecentlyAdded()
    ensures GetComingSoon()[2..] == GetRecentlyAdded()[..2]
  {
  }

  /** Every entry of the trending list is trending, so filtering it gives the whole list back. */
  lemma {:induction false} AllTrending()
    ensures GetTrendingContent() == TrendingContent
  {
    assert |TrendingContent| == 6;
    forall x | x in TrendingContent ensures IsTrending(x) {
      var i :| 0 <= i < 6 && TrendingContent[i] == x;
      assert TrendingContent[i].trending == Some(true);
    }
    FilterKeepsAll(TrendingContent, IsTrending);
  }

  /** Everything coming soon is also listed as a new release. */
  lemma ComingSoonAllNew()
    ensures forall x :: x in GetComingSoon() ==> x in GetNewReleases()
  {
    var soon, released := GetComingSoon(), GetNewReleases();
    forall i | 0 <= i < 4 ensures soon[i] in released {
      assert soon[i] == NewReleases[i] && NewReleases[i].isNew;
    }
    forall x | x in soon ensures x in released {
      var i :| 0 <= i < 4 && soon[i] == x;
    }
  }

  /** The recently-added window ends with two releases (House of the Dragon and Top Gun: Maverick) that the
      new-release view leaves out. */
  lemma RecentlyAddedNotAllNew()
    ensures GetRecentlyAdded()[2] !in GetNewReleases() && GetRecentlyAdded()[3] !in GetNewReleases()
  {
    var recent := GetRecentlyAdded();
    assert !NewReleases[4].isNew && !NewReleases[5].isNew;
    assert !recent[2].isNew && !recent[3].isNew;
  }
}
