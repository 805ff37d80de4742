/** The mutable mock watchlist of frontend/src/data/myList.ts: a module-level array that `addToMyList` pushes
    to and `removeFromMyList` splices, and the filters that read it. */
module MyListData {
  import opened Wrappers
  import opened Seqs
  import opened Media

  /** A watchlist entry; the poster URL and the synopsis are not modelled. */
  datatype MyListItem = MyListItem(
    id: int, title: string, mediaType: MediaType, year: string, addedDate: string, genre: Option<string>)

  /** What a caller of `addToMyList` supplies: an entry without `id` and `addedDate`. */
  datatype NewItem = NewItem(title: string, mediaType: MediaType, year: string, genre: Option<string>)

  /** `{...item, id, addedDate}`. */
  function Stamp(item: NewItem, id: int, date: string): (r: MyListItem)
    ensures r.id == id && r.addedDate == date
    ensures NewItem(r.title, r.mediaType, r.year, r.genre) == item
  {
    MyListItem(id, item.title, item.mediaType, item.year, date, item.genre)
  }

  const InitialList: seq<MyListItem> := [
    MyListItem(1, "Stranger Things", TVShow, "2016", "2024-01-15", Some("Sci-Fi")),
    MyListItem(2, "Inception", Movie, "2010", "2024-01-10", Some("Sci-Fi")),
    MyListItem(3, "The Witcher", TVShow, "2019", "2024-01-05", Some("Fantasy")),
    MyListItem(4, "Breaking Bad", TVShow, "2008", "2024-01-03", Some("Drama")),
    MyListItem(5, "The Dark Knight", Movie, "2008", "2024-01-01", Some("Action")),
    MyListItem(6, "Money Heist", TVShow, "2017", "2023-12-28", Some("Crime"))
  ]

  ghost predicate UniqueIds(items: seq<MyListItem>) {
    forall i, j :: 0 <= i < j < |items| ==> items[i].id != items[j].id
  }

  /** `Math.max(...items.map((item) => item.id))`. */
  function MaxId(items: seq<MyListItem>): (m: int)
    requires |items| > 0
    ensures forall j :: 0 <= j < |items| ==> items[j].id <= m
    ensures exists j :: 0 <= j < |items| && items[j].id == m
  {
    if |items| == 1 then items[0].id
    else
      var rest := MaxId(items[1..]);
      assert forall j :: 1 <= j < |items| ==> items[j] == items[1..][j - 1];
      if items[0].id >= rest then items[0].id else rest
  }

  /** `items.findIndex((item) => item.id === id)`: the first position holding the id, or -1. */
  function FindIndex(items: seq<MyListItem>, id: int): (i: int)
    ensures -1 <= i < |items|
    ensures i >= 0 ==> items[i].id == id && forall j :: 0 <= j < i ==> items[j].id != id
    ensures i == -1 <==> forall j :: 0 <= j < |items| ==> items[j].id != id
  {
    if items == [] then -1
    else if items[0].id == id then 0
    else
      var k := FindIndex(items[1..], id);
      assert forall j :: 1 <= j < |items| ==> items[j] == items[1..][j - 1];
      if k == -1 then -1 else k + 1
  }

  /** `getMyListByType`. */
  function ByType(items: seq<MyListItem>, t: MediaType): (r: seq<MyListItem>)
    ensures forall x :: x in r <==> x in items && x.mediaType == t
    ensures IsSubsequence(r, items)
  {
    Filter(items, (x: MyListItem) => x.mediaType == t)
  }

  /** Every entry is a movie or a TV show: the two type views together hold as many entries as the list. */
  lemma {:induction false} TypesPartition(items: seq<MyListItem>)
    ensures |ByType(items, Movie)| + |ByType(items, TVShow)| == |items|
  {
    if items != [] {
      TypesPartition(items[1..]);
      assert ByType(items, Movie) == Filter(items, (x: MyListItem) => x.mediaType == Movie);
    }
  }

  /** `getMyListByGenre`: an entry without a genre never matches. */
  function ByGenre(items: seq<MyListItem>, genre: string): (r: seq<MyListItem>)
    ensures forall x :: x in r <==> x in items && x.genre == Some(genre)
    ensures IsSubsequence(r, items)
  {
    Filter(items, (x: MyListItem) => x.genre == Some(genre))
  }

  /** The entries whose id differs from `id`. */
  function Other(id: int): MyListItem -> bool {
    (x: MyListItem) => x.id != id
  }

  /** With unique ids, splicing out the first entry with an id is the same as keeping every other entry,
      and the ids stay unique. */
  lemma UniqueRemoval(items: seq<MyListItem>, id: int)
    requires FindIndex(items, id) >= 0
    ensures UniqueIds(items) ==>
      var i := FindIndex(items, id);
      && items[..i] + items[i + 1..] == Filter(items, Other(id))
      && UniqueIds(items[..i] + items[i + 1..])
  {
    if UniqueIds(items) {
      var i := FindIndex(items, id);
      OnlyAtIndex(items, i);
      FilterRemovesAt(items, Other(id), i);
      SpliceKeepsUnique(items, i);
    }
  }

  /** With unique ids, the entry at `i` is the only one carrying its id. */
  lemma OnlyAtIndex(items: seq<MyListItem>, i: nat)
    requires UniqueIds(items) && i < |items|
    ensures forall j :: 0 <= j < |items| && j != i ==> Other(items[i].id)(items[j])
  {
    forall j | 0 <= j < |items| && j != i ensures Other(items[i].id)(items[j]) {
      if j < i {
        assert items[j].id != items[i].id;
      } else {
        assert items[i].id != items[j].id;
      }
    }
  }

  /** Cutting an entry out of a list with unique ids leaves the ids unique. */
  lemma SpliceKeepsUnique(items: seq<MyListItem>, i: nat)
    requires UniqueIds(items) && i < |items|
    ensures UniqueIds(items[..i] + items[i + 1..])
  {
    var r := items[..i] + items[i + 1..];
    CutAt(items, i);
    forall a, b | 0 <= a < b < |r| ensures r[a].id != r[b].id {
      var a', b' := if a < i then a else a + 1, if b < i then b else b + 1;
      assert r[a] == items[a'] && a' < b';
      assert r[b] == items[b'];
    }
  }

  /** Removing the id that `addToMyList` just handed out gives back the list as it was before the push. */
  lemma {:induction false} AddThenRemove(items: seq<MyListItem>, item: NewItem, today: string)
    requires |items| > 0
    ensures var added := Stamp(item, MaxId(items) + 1, today);
      && FindIndex(items + [added], added.id) == |items|
      && Filter(items + [added], Other(added.id)) == items
  {
    var added := Stamp(item, MaxId(items) + 1, today);
    FreshIdAtEnd(items, added);
    FilterRemovesAt(items + [added], Other(added.id), |items|);
    assert (items + [added])[..|items|] + (items + [added])[|items| + 1..] == items;
  }

  /** An entry whose id exceeds every id of the list is found only at the end once pushed. */
  lemma FreshIdAtEnd(items: seq<MyListItem>, added: MyListItem)
    requires forall j :: 0 <= j < |items| ==> items[j].id < added.id
    ensures forall j :: 0 <= j < |items| ==> Other(added.id)((items + [added])[j])
    ensures FindIndex(items + [added], added.id) == |items|
  {
    var s := items + [added];
    forall j | 0 <= j < |items| ensures Other(added.id)(s[j]) {
      assert s[j] == items[j];
    }
    assert s[|items|].id == added.id;
  }

  class MyListStore {
    var items: seq<MyListItem>

    constructor ()
      ensures items == InitialList && UniqueIds(items)
    {
      items := InitialList;
    }

    /** `getMyList`: the whole list, which the movie and TV-show views split between them. */
    function GetMyList(): (r: seq<MyListItem>)
      reads this
      ensures |GetMyListByType(Movie)| + |GetMyListByType(TVShow)| == |r|
    {
      TypesPartition(items);
      items
    }

    /** `getMyListByType`. */
    function GetMyListByType(t: MediaType): (r: seq<MyListItem>)
      reads this
      ensures forall x :: x in r <==> x in items && x.mediaType == t
    {
      ByType(items, t)
    }

    /** `getMyListByGenre`. */
    function GetMyListByGenre(genre: string): (r: seq<MyListItem>)
      reads this
      ensures forall x :: x in r <==> x in items && x.genre == Some(genre)
    {
      ByGenre(items, genre)
    }

    /** `addToMyList`: the new entry gets an id one above the largest and today's date, and is pushed at the
        end. The list must not be empty (the largest id of no entries is -Infinity). */
    method AddToMyList(item: NewItem, today: string) returns (added: MyListItem)
      requires |items| > 0
      modifies this
      ensures added == Stamp(item, MaxId(old(items)) + 1, today)
      ensures items == old(items) + [added]
      ensures forall j :: 0 <= j < |old(items)| ==> old(items)[j].id < added.id
      ensures UniqueIds(old(items)) ==> UniqueIds(items)
    {
      added := Stamp(item, MaxId(items) + 1, today);
      items := items + [added];
    }

    /** `removeFromMyList`: splice out the first entry with the id and report whether there was one. */
    method RemoveFromMyList(id: int) returns (removed: bool)
      modifies this
      ensures removed <==> exists j :: 0 <= j < |old(items)| && old(items)[j].id == id
      ensures removed ==>
        var i := FindIndex(old(items), id);
        items == old(items)[..i] + old(items)[i + 1..] && |items| == |old(items)| - 1
      ensures !removed ==> items == old(items)
      ensures UniqueIds(old(items)) ==> UniqueIds(items) && items == Filter(old(items), Other(id))
    {
      var index := FindIndex(items, id);
      if index > -1 {
        UniqueRemoval(items, id);
        items := items[..index] + items[index + 1..];
        removed := true;
        return;
      }
      FilterKeepsAll(items, Other(id));
      removed := false;
    }
  }
}
