/** The watchlist page of frontend/src/app/my-list/page.tsx: fetching the list, the optimistic removal that
    puts the previous list back into state when the server call fails, and what the page renders. */
module MyListPage {
  import opened Wrappers
  import opened Seqs
  import opened ApiClient

  const FetchFailed := "Failed to fetch your list. Please try again later."
  const RemoveFailed := "Failed to remove item. Please try again."

  /** The part of a movie or TV show the page renders. */
  datatype ContentSummary = ContentSummary(id: int, title: string, posterUrl: string)

  /** A watchlist row as the API returns it: the server fills in the movie or the TV show. */
  datatype WatchlistItem = WatchlistItem(id: int, movie: Option<ContentSummary>, tvShow: Option<ContentSummary>)

  /** `watchlist.filter((item) => item.id !== id)`. */
  function Without(items: seq<WatchlistItem>, id: int): (r: seq<WatchlistItem>)
    ensures forall x :: x in r <==> x in items && x.id != id
    ensures IsSubsequence(r, items)
  {
    Filter(items, (item: WatchlistItem) => item.id != id)
  }

  /** Taking out an id that no item carries changes nothing. */
  lemma WithoutAbsent(items: seq<WatchlistItem>, id: int)
    requires forall j :: 0 <= j < |items| ==> items[j].id != id
    ensures Without(items, id) == items
  {
    FilterKeepsAll(items, (item: WatchlistItem) => item.id != id);
  }

  /** Taking out an id that some item carries shortens the list. */
  lemma WithoutPresent(items: seq<WatchlistItem>, id: int)
    requires exists j :: 0 <= j < |items| && items[j].id == id
    ensures |Without(items, id)| < |items|
  {
    var j :| 0 <= j < |items| && items[j].id == id;
    assert items[j] in items;
    FilterShrinks(items, (item: WatchlistItem) => item.id != id);
  }

  /** `item.movie || item.tv_show`: what a card shows; an item with neither renders nothing. */
  function Shown(item: WatchlistItem): (c: Option<ContentSummary>)
    ensures c.None? <==> item.movie.None? && item.tvShow.None?
    ensures item.movie.Some? ==> c == item.movie
    ensures item.movie.None? ==> c == item.tvShow
  {
    if item.movie.Some? then item.movie else item.tvShow
  }

  /** An item the page draws a card for: it has a movie or a TV show. */
  predicate HasContent(item: WatchlistItem) {
    Shown(item).Some?
  }

  /** The cards the page renders for a list: one per item that has a movie or a TV show, in list order, each
      showing that item's content. */
  function Cards(items: seq<WatchlistItem>): (r: seq<ContentSummary>)
    ensures |r| == |Filter(items, HasContent)|
    ensures forall k :: 0 <= k < |r| ==>
      HasContent(Filter(items, HasContent)[k]) && r[k] == Shown(Filter(items, HasContent)[k]).value
  {
    if items == [] then []
    else
      var rest := Cards(items[1..]);
      var kept := Filter(items[1..], HasContent);
      assert forall k :: 0 <= k < |kept| ==> kept[k] in kept;
      match Shown(items[0])
      case None => rest
      case Some(c) => [c] + rest
  }

  /** What the page returns from its render: the loading panel, the error panel, the empty-list notice, or
      the grid of cards. */
  datatype View = LoadingPanel | ErrorPanel(message: string) | EmptyNotice | Grid(cards: seq<ContentSummary>)

  class MyListPage {
    var watchlist: seq<WatchlistItem>
    var loading: bool
    var error: string
    /** Every value `setWatchlist` has been given, oldest first (the initial state included). */
    ghost var updates: seq<seq<WatchlistItem>>

    /** The render, given the auth context's loading flag: while anything loads the loading panel; once an
        error is set only the error panel, whatever the list holds; otherwise the list. */
    function Render(authLoading: bool): (v: View)
      reads this
      ensures v.Grid? || v.EmptyNotice? <==> !authLoading && !loading && error == ""
      ensures authLoading || loading ==> v == LoadingPanel
      ensures !authLoading && !loading && error != "" ==> v == ErrorPanel(error)
      ensures v.ErrorPanel? ==> v.message == error
      ensures v.EmptyNotice? <==> !authLoading && !loading && error == "" && watchlist == []
      ensures v.Grid? ==> v.cards == Cards(watchlist)
    {
      if authLoading || loading then LoadingPanel
      else if error != "" then ErrorPanel(error)
      else if watchlist == [] then EmptyNotice
      else Grid(Cards(watchlist))
    }

    constructor ()
      ensures watchlist == [] && loading && error == "" && updates == [[]]
      ensures Render(false) == LoadingPanel
    {
      watchlist := [];
      loading := true;
      error := "";
      updates := [[]];
    }

    /** `fetchWatchlist`: the list is `data.results`, or empty when the body has none; a failure sets the error
        message; loading ends either way. */
    method FetchWatchlist(reply: Result<Option<seq<WatchlistItem>>, ApiError>)
      modifies this
      ensures !loading
      ensures reply.Ok? ==>
        watchlist == reply.value.GetOr([]) && error == old(error) && updates == old(updates) + [watchlist]
      ensures reply.Err? ==>
        && watchlist == old(watchlist) && error == FetchFailed && updates == old(updates)
        && Render(false) == ErrorPanel(FetchFailed)
    {
      loading := true;
      match reply {
        case Ok(results) =>
          watchlist := results.GetOr([]);
          updates := updates + [watchlist];
        case Err(_) =>
          error := FetchFailed;
      }
      loading := false;
    }

    /** `handleRemove`: put the list without the item into state at once, then await the server; on failure
        set the error and put the list as it was back into state. From then on the page renders the error
        panel, so the restored list is not displayed. */
    method HandleRemove(id: int, reply: Outcome<ApiError>)
      modifies this
      ensures loading == old(loading)
      ensures reply.Pass? ==>
        && watchlist == Without(old(watchlist), id) && error == old(error)
        && updates == old(updates) + [watchlist]
      ensures reply.Fail? ==>
        && watchlist == old(watchlist) && error == RemoveFailed
        && updates == old(updates) + [Without(old(watchlist), id), old(watchlist)]
        && Render(false) == (if loading then LoadingPanel else ErrorPanel(RemoveFailed))
    {
      var original := watchlist;
      watchlist := Without(watchlist, id);
      updates := updates + [watchlist];
      match reply
      case Pass =>
      case Fail(_) =>
        error := RemoveFailed;
        watchlist := original;
        updates := updates + [watchlist];
    }
  }
}
