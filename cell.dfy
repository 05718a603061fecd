/**
 * One restaurant card: its display model and the like toggle, a
 * single-flight state machine around the like registry.
 */
module Cell {
  import opened Wrappers
  import opened Restaurants
  import opened Text
  import LikesService

  /** What a card displays. */
  datatype RestourantCellModel = RestourantCellModel(imageURL: string, title: string, timeRange: string, likesCount: int)

  /** `init(from:)`: the card shows the restaurant's name as its title. */
  function FromRestaurant(r: Restaurant): (m: RestourantCellModel)
    ensures m.title == r.name
    ensures m.imageURL == r.imageURL && m.timeRange == r.timeRange && m.likesCount == r.likesCount
  {
    RestourantCellModel(r.imageURL, r.name, r.timeRange, r.likesCount)
  }

  /** The card model forgets exactly the id: two restaurants give the same card iff they differ at most in id. */
  lemma FromRestaurantForgetsOnlyId(a: Restaurant, b: Restaurant)
    ensures FromRestaurant(a) == FromRestaurant(b) <==> a.(id := b.id) == b
  {
  }

  class RestourantCellViewModel {
    const model: RestourantCellModel
    const restaurantId: string
    const userLikesService: LikesService.UserLikesService
    /** Whether an `onAuthRequired` callback was supplied. */
    const hasAuthHandler: bool
    const isBookedByUser: bool
    var isLiked: bool
    var isUpdatingLike: bool
    /** The `targetState` captured by the running like task. */
    var pendingTarget: bool
    /** How many times `onAuthRequired` has been called. */
    var authRequests: nat

    constructor(model: RestourantCellModel, restaurantId: string, initialIsLiked: bool, isBooked: bool,
                userLikesService: LikesService.UserLikesService, hasAuthHandler: bool)
      ensures isLiked == initialIsLiked && isBookedByUser == isBooked && !isUpdatingLike
      ensures this.model == model && this.restaurantId == restaurantId
      ensures this.userLikesService == userLikesService && this.hasAuthHandler == hasAuthHandler
      ensures authRequests == 0
    {
      this.model := model;
      this.restaurantId := restaurantId;
      this.userLikesService := userLikesService;
      this.hasAuthHandler := hasAuthHandler;
      isBookedByUser := isBooked;
      isLiked := initialIsLiked;
      isUpdatingLike := false;
      pendingTarget := !initialIsLiked;
      authRequests := 0;
    }

    /** The like count as the card renders it (`String(model.likesCount)`); it reads back as the count. */
    function LikesCountText(): (r: string)
      ensures ParseDecimal(r) == Some(model.likesCount)
    {
      DecimalRoundTrip(model.likesCount);
      DecimalString(model.likesCount)
    }

    /**
     * The synchronous part of `toggleLike`: refused while an update is in
     * flight; otherwise raises the guard and records the target state.
     */
    method ToggleLike() returns (started: bool)
      modifies this`isUpdatingLike, this`pendingTarget
      ensures started == !old(isUpdatingLike)
      ensures !started ==> unchanged(this)
      ensures started ==> isUpdatingLike && pendingTarget == !isLiked
    {
      if isUpdatingLike {
        return false;
      }
      isUpdatingLike := true;
      pendingTarget := !isLiked;
      started := true;
    }

    /**
     * The task `toggleLike` starts: adds the like when the target is
     * "liked" and removes it otherwise, then applies the three-way outcome
     * and always lowers the guard. `user` is the signed-in user's id;
     * `fault` the description of the error the store write threw, if any.
     */
    method CompleteLikeUpdate(user: Option<string>, fault: Option<string>)
      requires isUpdatingLike
      modifies this`isLiked, this`isUpdatingLike, this`authRequests, userLikesService
      ensures !isUpdatingLike
      ensures pendingTarget && user.Some? && fault.None? ==>
        userLikesService.store == LikesService.StoreWithLike(old(userLikesService.store), user.value, restaurantId)
      ensures !pendingTarget && user.Some? && fault.None? ==>
        userLikesService.store == LikesService.StoreWithoutLike(old(userLikesService.store), user.value, restaurantId)
      ensures user.None? || fault.Some? ==> userLikesService.store == old(userLikesService.store)
      ensures user.Some? && fault.None? ==> isLiked == pendingTarget && authRequests == old(authRequests)
      ensures user.None? ==>
        isLiked == old(isLiked) && authRequests == old(authRequests) + (if hasAuthHandler then 1 else 0)
      ensures user.Some? && fault.Some? ==> isLiked == old(isLiked) && authRequests == old(authRequests)
    {
      var outcome;
      if pendingTarget {
        outcome := userLikesService.AddLike(user, restaurantId, fault);
      } else {
        outcome := userLikesService.RemoveLike(user, restaurantId, fault);
      }
      if outcome.Pass? {
        isLiked := pendingTarget;
      } else if outcome.error.UserNotAuthenticated? {
        if hasAuthHandler {
          authRequests := authRequests + 1;
        }
      }
      isUpdatingLike := false;
    }
  }
}
