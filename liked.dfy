/**
 * The liked-restaurants screen: the catalog narrowed to the user's liked
 * ids, in catalog order, plus the booked ids.
 */
module Liked {
  import opened Wrappers
  import opened RawData
  import opened Restaurants
  import Seqs
  import RestaurantService
  import LikesService
  import Bookings
  import Coordinator

  /** `allRestaurants.filter { likedIDs.contains($0.id) }`. */
  function LikedOnly(catalog: seq<Restaurant>, likedIDs: set<string>): (r: seq<Restaurant>)
    ensures forall i :: 0 <= i < |r| ==> r[i] in catalog && r[i].id in likedIDs
    ensures forall i :: 0 <= i < |catalog| && catalog[i].id in likedIDs ==> catalog[i] in r
  {
    Seqs.Filter(catalog, (x: Restaurant) => x.id in likedIDs)
  }

  /** The liked list keeps catalog order: it distributes over concatenation. */
  lemma LikedOnlyKeepsOrder(a: seq<Restaurant>, b: seq<Restaurant>, likedIDs: set<string>)
    ensures LikedOnly(a + b, likedIDs) == LikedOnly(a, likedIDs) + LikedOnly(b, likedIDs)
  {
    Seqs.FilterConcat(a, b, (x: Restaurant) => x.id in likedIDs);
  }

  /** Liked ids that name no catalog entry produce nothing: only the ids the catalog shares matter. */
  lemma {:induction false} DanglingLikesIgnored(catalog: seq<Restaurant>, likedIDs: set<string>, extra: set<string>)
    requires forall i :: 0 <= i < |catalog| ==> catalog[i].id !in extra
    ensures LikedOnly(catalog, likedIDs + extra) == LikedOnly(catalog, likedIDs)
  {
    if catalog != [] {
      DanglingLikesIgnored(catalog[1..], likedIDs, extra);
    }
  }

  class LikedViewModel {
    var likedRestaurants: seq<Restaurant>
    var bookedRestaurantIDs: set<string>
    var selectedRestaurantForSheet: Option<Restaurant>
    var isLoading: bool
    var errorMessage: Option<string>
    const coordinator: Coordinator.MainCoordinator?

    constructor(coordinator: Coordinator.MainCoordinator?)
      ensures likedRestaurants == [] && bookedRestaurantIDs == {} && selectedRestaurantForSheet == None
      ensures !isLoading && errorMessage == None
      ensures this.coordinator == coordinator
    {
      likedRestaurants, bookedRestaurantIDs, selectedRestaurantForSheet := [], {}, None;
      isLoading, errorMessage := false, None;
      this.coordinator := coordinator;
    }

    /** The synchronous start of `loadLikedRestaurants`, before the first `await`. */
    method StartLoading()
      modifies this`isLoading, this`errorMessage
      ensures isLoading && errorMessage == None
    {
      isLoading := true;
      errorMessage := None;
    }

    /**
     * The rest of `loadLikedRestaurants`, joining the fetches in the order
     * they are awaited; a catalog error wins over a likes error, and on
     * either the data fields keep their values.
     */
    method FinishLoading(
      catalog: Result<seq<Restaurant>, RestaurantService.RestaurantServiceError>,
      liked: Result<set<string>, LikesService.UserLikesServiceError>,
      user: Option<string>,
      bookingsRead: Result<Raw, string>)
      modifies this`likedRestaurants, this`bookedRestaurantIDs, this`isLoading, this`errorMessage
      ensures !isLoading
      ensures catalog.Failure? ==> errorMessage == Some(catalog.error.Description())
      ensures catalog.Success? && liked.Failure? ==> errorMessage == Some(liked.error.Description())
      ensures catalog.Failure? || liked.Failure? ==>
        likedRestaurants == old(likedRestaurants) && bookedRestaurantIDs == old(bookedRestaurantIDs)
      ensures catalog.Success? && liked.Success? ==>
        && likedRestaurants == LikedOnly(catalog.value, liked.value)
        && bookedRestaurantIDs == Bookings.BookedIDs(user, bookingsRead)
        && errorMessage == old(errorMessage)
    {
      if catalog.Failure? {
        errorMessage := Some(catalog.error.Description());
      } else if liked.Failure? {
        errorMessage := Some(liked.error.Description());
      } else {
        var bookedIDs := Bookings.FetchBookedRestaurantIDs(user, bookingsRead);
        likedRestaurants := LikedOnly(catalog.value, liked.value);
        bookedRestaurantIDs := bookedIDs;
      }
      isLoading := false;
    }

    /** `loadLikedRestaurants` as a whole. */
    method LoadLikedRestaurants(
      catalog: Result<seq<Restaurant>, RestaurantService.RestaurantServiceError>,
      liked: Result<set<string>, LikesService.UserLikesServiceError>,
      user: Option<string>,
      bookingsRead: Result<Raw, string>)
      modifies this`likedRestaurants, this`bookedRestaurantIDs, this`isLoading, this`errorMessage
      ensures !isLoading
      ensures errorMessage.Some? <==> catalog.Failure? || liked.Failure?
      ensures catalog.Failure? || liked.Failure? ==>
        likedRestaurants == old(likedRestaurants) && bookedRestaurantIDs == old(bookedRestaurantIDs)
      ensures catalog.Success? && liked.Success? ==>
        && likedRestaurants == LikedOnly(catalog.value, liked.value)
        && bookedRestaurantIDs == Bookings.BookedIDs(user, bookingsRead)
    {
      StartLoading();
      FinishLoading(catalog, liked, user, bookingsRead);
    }

    /** `markRestaurantAsBooked`: a local, idempotent insert. */
    method MarkRestaurantAsBooked(restaurantId: string)
      modifies this`bookedRestaurantIDs
      ensures bookedRestaurantIDs == old(bookedRestaurantIDs) + {restaurantId}
      ensures restaurantId in old(bookedRestaurantIDs) ==> bookedRestaurantIDs == old(bookedRestaurantIDs)
    {
      if restaurantId !in bookedRestaurantIDs {
        bookedRestaurantIDs := bookedRestaurantIDs + {restaurantId};
      }
    }

    /** `requestAuthentication`: sends the app to the authorization screen. */
    method RequestAuthentication()
      modifies coordinator
      ensures coordinator != null ==> coordinator.currentScreen == Coordinator.AuthorizationScreen
    {
      if coordinator != null {
        coordinator.Navigate(Coordinator.AuthorizationScreen);
      }
    }
  }
}
