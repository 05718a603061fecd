/**
 * The restaurant table screen: joins the catalog, the liked ids and the
 * booked ids, orders the catalog by popularity and filters it by name.
 */
module Target {
  import opened Wrappers
  import opened RawData
  import opened Restaurants
  import opened Text
  import Seqs
  import RestaurantService
  import LikesService
  import Bookings
  import Coordinator

  // ---------------------------------------------------------------- ordering

  predicate NonIncreasingLikes(s: seq<Restaurant>) {
    forall i, j :: 0 <= i < j < |s| ==> s[i].likesCount >= s[j].likesCount
  }

  /** `x` placed before the first element it is at least as popular as. */
  function InsertByLikes(x: Restaurant, s: seq<Restaurant>): (r: seq<Restaurant>)
    requires NonIncreasingLikes(s)
    ensures NonIncreasingLikes(r)
    ensures multiset(r) == multiset(s) + multiset{x}
    ensures forall k :: 0 <= k < |r| ==> r[k] == x || r[k] in s
  {
    if s == [] then [x]
    else if x.likesCount >= s[0].likesCount then
      InsertInFront(x, s);
      [x] + s
    else
      TailNonIncreasing(s);
      var t := InsertByLikes(x, s[1..]);
      InsertBehindHead(x, s, t);
      [s[0]] + t
  }

  /** `x` in front of a list whose head it is at least as popular as. */
  lemma InsertInFront(x: Restaurant, s: seq<Restaurant>)
    requires NonIncreasingLikes(s) && s != [] && x.likesCount >= s[0].likesCount
    ensures NonIncreasingLikes([x] + s)
    ensures multiset([x] + s) == multiset(s) + multiset{x}
    ensures forall k :: 0 <= k < |[x] + s| ==> ([x] + s)[k] == x || ([x] + s)[k] in s
  {
    ConsNonIncreasing(x, s);
    forall k | 0 <= k < |[x] + s|
      ensures ([x] + s)[k] == x || ([x] + s)[k] in s
    {
      if k > 0 {
        assert ([x] + s)[k] == s[k - 1];
      }
    }
  }

  /** The head of `s` kept in front of `t`, the insertion of `x` into the tail of `s`. */
  lemma InsertBehindHead(x: Restaurant, s: seq<Restaurant>, t: seq<Restaurant>)
    requires NonIncreasingLikes(s) && s != [] && x.likesCount < s[0].likesCount
    requires NonIncreasingLikes(t) && multiset(t) == multiset(s[1..]) + multiset{x}
    requires forall k :: 0 <= k < |t| ==> t[k] == x || t[k] in s[1..]
    ensures NonIncreasingLikes([s[0]] + t)
    ensures multiset([s[0]] + t) == multiset(s) + multiset{x}
    ensures forall k :: 0 <= k < |[s[0]] + t| ==> ([s[0]] + t)[k] == x || ([s[0]] + t)[k] in s
  {
    TailNonIncreasing(s);
    BoundedByHead(s[0], x, s[1..], t);
    ConsNonIncreasing(s[0], t);
    HeadKeepsMultiset(x, s, t);
    HeadKeepsMembers(x, s, t);
  }

  /** Putting the head back in front restores its place in the multiset. */
  lemma HeadKeepsMultiset(x: Restaurant, s: seq<Restaurant>, t: seq<Restaurant>)
    requires s != [] && multiset(t) == multiset(s[1..]) + multiset{x}
    ensures multiset([s[0]] + t) == multiset(s) + multiset{x}
  {
    assert s == [s[0]] + s[1..];
  }

  /** Every element of `t`, and the head in front of it, is `x` or from `s`. */
  lemma HeadKeepsMembers(x: Restaurant, s: seq<Restaurant>, t: seq<Restaurant>)
    requires s != []
    requires forall k :: 0 <= k < |t| ==> t[k] == x || t[k] in s[1..]
    ensures forall k :: 0 <= k < |[s[0]] + t| ==> ([s[0]] + t)[k] == x || ([s[0]] + t)[k] in s
  {
    forall k | 0 <= k < |[s[0]] + t|
      ensures ([s[0]] + t)[k] == x || ([s[0]] + t)[k] in s
    {
      if k > 0 {
        assert ([s[0]] + t)[k] == t[k - 1];
      }
    }
  }

  /** A restaurant at least as popular as the head of a sorted list can go in front of it. */
  lemma ConsNonIncreasing(h: Restaurant, t: seq<Restaurant>)
    requires NonIncreasingLikes(t)
    requires t != [] ==> t[0].likesCount <= h.likesCount
    ensures NonIncreasingLikes([h] + t)
  {
    forall i, j | 0 <= i < j < |[h] + t|
      ensures ([h] + t)[i].likesCount >= ([h] + t)[j].likesCount
    {
      assert ([h] + t)[j] == t[j - 1];
      if i > 0 {
        assert ([h] + t)[i] == t[i - 1];
      } else {
        assert t[0].likesCount >= t[j - 1].likesCount;
      }
    }
  }

  /** The tail of a sorted list is sorted and no more popular than its head. */
  lemma TailNonIncreasing(s: seq<Restaurant>)
    requires s != [] && NonIncreasingLikes(s)
    ensures NonIncreasingLikes(s[1..])
    ensures s[1..] != [] ==> s[1..][0].likesCount <= s[0].likesCount
  {
    forall i, j | 0 <= i < j < |s[1..]|
      ensures s[1..][i].likesCount >= s[1..][j].likesCount
    {
      assert s[1..][i] == s[i + 1] && s[1..][j] == s[j + 1];
    }
  }

  /** What is built from `x` and the elements of `u` is no more popular than `h`. */
  lemma BoundedByHead(h: Restaurant, x: Restaurant, u: seq<Restaurant>, t: seq<Restaurant>)
    requires NonIncreasingLikes(u) && (u != [] ==> u[0].likesCount <= h.likesCount)
    requires x.likesCount < h.likesCount
    requires forall k :: 0 <= k < |t| ==> t[k] == x || t[k] in u
    ensures t != [] ==> t[0].likesCount <= h.likesCount
  {
    if t != [] && t[0] != x {
      var j :| 0 <= j < |u| && u[j] == t[0];
      assert u[0].likesCount >= u[j].likesCount || j == 0;
    }
  }

  /** `sorted { $0.likesCount > $1.likesCount }`: most liked first. */
  function SortByLikes(s: seq<Restaurant>): (r: seq<Restaurant>)
    ensures NonIncreasingLikes(r)
    ensures multiset(r) == multiset(s)
  {
    if s == [] then []
    else
      assert s == [s[0]] + s[1..];
      InsertByLikes(s[0], SortByLikes(s[1..]))
  }

  /** The restaurants of `s` with exactly `likes` likes, in their order in `s`. */
  function WithLikes(s: seq<Restaurant>, likes: int): seq<Restaurant> {
    Seqs.Filter(s, (y: Restaurant) => y.likesCount == likes)
  }

  /** Inserting `x` puts it ahead of every restaurant with as many likes. */
  lemma {:induction false} InsertByLikesStable(x: Restaurant, s: seq<Restaurant>, likes: int)
    requires NonIncreasingLikes(s)
    ensures WithLikes(InsertByLikes(x, s), likes) == WithLikes([x], likes) + WithLikes(s, likes)
  {
    if s == [] || x.likesCount >= s[0].likesCount {
      assert InsertByLikes(x, s) == [x] + s;
      WithLikesConcat([x], s, likes);
    } else {
      InsertByLikesStep(x, s);
      var t := InsertByLikes(x, s[1..]);
      InsertByLikesStable(x, s[1..], likes);
      WithLikesConcat([s[0]], t, likes);
      assert s == [s[0]] + s[1..];
      WithLikesConcat([s[0]], s[1..], likes);
      // x and s[0] have different counts, so at most one of them has `likes`.
      WithLikesSingle(x, likes);
      WithLikesSingle(s[0], likes);
      SwapWhenOneEmpty(WithLikes([s[0]], likes), WithLikes([x], likes), WithLikes(s[1..], likes));
    }
  }

  /** One step of the insertion past a more popular head. */
  lemma InsertByLikesStep(x: Restaurant, s: seq<Restaurant>)
    requires NonIncreasingLikes(s) && s != [] && x.likesCount < s[0].likesCount
    ensures NonIncreasingLikes(s[1..])
    ensures InsertByLikes(x, s) == [s[0]] + InsertByLikes(x, s[1..])
  {
    TailNonIncreasing(s);
  }

  /** Selecting by like count distributes over concatenation. */
  lemma WithLikesConcat(a: seq<Restaurant>, b: seq<Restaurant>, likes: int)
    ensures WithLikes(a + b, likes) == WithLikes(a, likes) + WithLikes(b, likes)
  {
    Seqs.FilterConcat(a, b, (y: Restaurant) => y.likesCount == likes);
  }

  /** A one-element list is kept whole or dropped, by its like count. */
  lemma WithLikesSingle(y: Restaurant, likes: int)
    ensures y.likesCount == likes ==> WithLikes([y], likes) == [y]
    ensures y.likesCount != likes ==> WithLikes([y], likes) == []
  {
  }

  /** Two pieces of which one is empty may be swapped. */
  lemma SwapWhenOneEmpty(a: seq<Restaurant>, b: seq<Restaurant>, c: seq<Restaurant>)
    requires a == [] || b == []
    ensures a + (b + c) == b + (a + c)
  {
  }

  /**
   * The sort is stable: restaurants with the same number of likes keep
   * their relative order from the fetched list.
   */
  lemma {:induction false} SortByLikesStable(s: seq<Restaurant>, likes: int)
    ensures WithLikes(SortByLikes(s), likes) == WithLikes(s, likes)
  {
    if s != [] {
      var keep := (y: Restaurant) => y.likesCount == likes;
      assert s == [s[0]] + s[1..];
      SortByLikesStable(s[1..], likes);
      InsertByLikesStable(s[0], SortByLikes(s[1..]), likes);
      Seqs.FilterConcat([s[0]], s[1..], keep);
    }
  }

  /** Sorting keeps the catalog's length and its set of restaurants. */
  lemma SortKeepsRestaurants(s: seq<Restaurant>, x: Restaurant)
    ensures |SortByLikes(s)| == |s|
    ensures x in SortByLikes(s) <==> x in s
  {
    assert |multiset(SortByLikes(s))| == |multiset(s)|;
    assert x in SortByLikes(s) <==> x in multiset(SortByLikes(s));
  }

  // ---------------------------------------------------------------- search

  /** Whether a restaurant's name matches the query, ignoring case. */
  predicate NameMatches(r: Restaurant, query: string) {
    ContainsIgnoringCase(r.name, query)
  }

  /**
   * `filteredRestaurants` for a given list and search text. An empty search
   * text returns the list as it is. In this model every name contains the
   * empty query, so the membership clauses hold for that case too.
   */
  function FilterByName(restaurants: seq<Restaurant>, searchText: string): (r: seq<Restaurant>)
    ensures searchText == [] ==> r == restaurants
    ensures forall i :: 0 <= i < |r| ==> r[i] in restaurants && NameMatches(r[i], searchText)
    ensures forall i :: 0 <= i < |restaurants| && NameMatches(restaurants[i], searchText) ==> restaurants[i] in r
  {
    if searchText == [] then
      assert forall i :: 0 <= i < |restaurants| ==> NameMatches(restaurants[i], searchText) by {
        forall i | 0 <= i < |restaurants| {
          EmptyQueryMatches(restaurants[i].name);
        }
      }
      restaurants
    else Seqs.Filter(restaurants, (x: Restaurant) => NameMatches(x, searchText))
  }

  /** Filtering keeps relative order: it distributes over concatenation. */
  lemma FilterByNameKeepsOrder(a: seq<Restaurant>, b: seq<Restaurant>, searchText: string)
    ensures FilterByName(a + b, searchText) == FilterByName(a, searchText) + FilterByName(b, searchText)
  {
    if searchText != [] {
      Seqs.FilterConcat(a, b, (x: Restaurant) => NameMatches(x, searchText));
    }
  }

  /** A query that every name matches returns the list unchanged. */
  lemma FilterByNameAllMatch(restaurants: seq<Restaurant>, searchText: string)
    requires forall i :: 0 <= i < |restaurants| ==> NameMatches(restaurants[i], searchText)
    ensures FilterByName(restaurants, searchText) == restaurants
  {
    if searchText != [] {
      Seqs.FilterKeepsAll(restaurants, (x: Restaurant) => NameMatches(x, searchText));
    }
  }

  // ---------------------------------------------------------------- the view-model

  class TargetViewModel {
    var restaurants: seq<Restaurant>
    var likedRestaurantIDs: set<string>
    var bookedRestaurantIDs: set<string>
    var isLoading: bool
    var errorMessage: Option<string>
    var selectedRestaurantForSheet: Option<Restaurant>
    var searchText: string
    const coordinator: Coordinator.MainCoordinator?

    constructor(coordinator: Coordinator.MainCoordinator?)
      ensures restaurants == [] && likedRestaurantIDs == {} && bookedRestaurantIDs == {}
      ensures !isLoading && errorMessage == None && selectedRestaurantForSheet == None && searchText == []
      ensures this.coordinator == coordinator
    {
      restaurants, likedRestaurantIDs, bookedRestaurantIDs := [], {}, {};
      isLoading, errorMessage, selectedRestaurantForSheet, searchText := false, None, None, [];
      this.coordinator := coordinator;
    }

    /** The `filteredRestaurants` computed property. */
    function FilteredRestaurants(): (r: seq<Restaurant>)
      reads this
      ensures searchText == [] ==> r == restaurants
      ensures forall i :: 0 <= i < |r| ==> r[i] in restaurants && NameMatches(r[i], searchText)
      ensures forall i :: 0 <= i < |restaurants| && NameMatches(restaurants[i], searchText) ==> restaurants[i] in r
    {
      FilterByName(restaurants, searchText)
    }

    /** The synchronous start of `loadInitialData`, before the first `await`. */
    method StartLoading()
      modifies this`isLoading, this`errorMessage
      ensures isLoading && errorMessage == None
    {
      isLoading := true;
      errorMessage := None;
    }

    /**
     * The rest of `loadInitialData`, joining the three fetches in the order
     * they are awaited: `catalog` and `liked` are the outcomes of the catalog
     * and like fetches, `user` and `bookingsRead` feed the booked-id fetch.
     * A catalog error wins over a likes error; on either, the data fields
     * keep their values.
     */
    method FinishLoading(
      catalog: Result<seq<Restaurant>, RestaurantService.RestaurantServiceError>,
      liked: Result<set<string>, LikesService.UserLikesServiceError>,
      user: Option<string>,
      bookingsRead: Result<Raw, string>)
      modifies this`restaurants, this`likedRestaurantIDs, this`bookedRestaurantIDs, this`isLoading, this`errorMessage
      ensures !isLoading
      ensures catalog.Failure? ==> errorMessage == Some(catalog.error.Description())
      ensures catalog.Success? && liked.Failure? ==> errorMessage == Some(liked.error.Description())
      ensures catalog.Failure? || liked.Failure? ==>
        && restaurants == old(restaurants)
        && likedRestaurantIDs == old(likedRestaurantIDs)
        && bookedRestaurantIDs == old(bookedRestaurantIDs)
      ensures catalog.Success? && liked.Success? ==>
        && restaurants == SortByLikes(catalog.value)
        && likedRestaurantIDs == liked.value
        && bookedRestaurantIDs == Bookings.BookedIDs(user, bookingsRead)
        && errorMessage == old(errorMessage)
    {
      if catalog.Failure? {
        errorMessage := Some(catalog.error.Description());
      } else if liked.Failure? {
        errorMessage := Some(liked.error.Description());
      } else {
        var fetchedBookedIDs := Bookings.FetchBookedRestaurantIDs(user, bookingsRead);
        restaurants := SortByLikes(catalog.value);
        likedRestaurantIDs := liked.value;
        bookedRestaurantIDs := fetchedBookedIDs;
      }
      isLoading := false;
    }

    /** `loadInitialData` as a whole. */
    method LoadInitialData(
      catalog: Result<seq<Restaurant>, RestaurantService.RestaurantServiceError>,
      liked: Result<set<string>, LikesService.UserLikesServiceError>,
      user: Option<string>,
      bookingsRead: Result<Raw, string>)
      modifies this`restaurants, this`likedRestaurantIDs, this`bookedRestaurantIDs, this`isLoading, this`errorMessage
      ensures !isLoading
      ensures errorMessage.Some? <==> catalog.Failure? || liked.Failure?
      ensures catalog.Failure? || liked.Failure? ==>
        && restaurants == old(restaurants)
        && likedRestaurantIDs == old(likedRestaurantIDs)
        && bookedRestaurantIDs == old(bookedRestaurantIDs)
      ensures catalog.Success? && liked.Success? ==>
        && NonIncreasingLikes(restaurants)
        && multiset(restaurants) == multiset(catalog.value)
        && likedRestaurantIDs == liked.value
        && bookedRestaurantIDs == Bookings.BookedIDs(user, bookingsRead)
    {
      StartLoading();
      FinishLoading(catalog, liked, user, bookingsRead);
    }

    /** `markRestaurantAsBooked`: a local, idempotent insert. */
    method MarkRestaurantAsBooked(restaurantId: string)
      modifies this`bookedRestaurantIDs
      ensures bookedRestaurantIDs == old(bookedRestaurantIDs) + {restaurantId}
      ensures restaurantId in old(bookedRestaurantIDs) ==> bookedRestaurantIDs == old(bookedRestaurantIDs)
    {
      if restaurantId !in bookedRestaurantIDs {
        bookedRestaurantIDs := bookedRestaurantIDs + {restaurantId};
      }
    }

    /** `requestAuthentication`: sends the app to the authorization screen. */
    method RequestAuthentication()
      modifies coordinator
      ensures coordinator != null ==> coordinator.currentScreen == Coordinator.AuthorizationScreen
    {
      if coordinator != null {
        coordinator.Navigate(Coordinator.AuthorizationScreen);
      }
    }
  }
}
