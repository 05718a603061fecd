/**
 * The like registry: one flag per (user, restaurant) under
 * `user_likes/{uid}/{restaurantId}`.
 */
module LikesService {
  import opened Wrappers

  /** The service's errors; `underlying` is the wrapped error's description. */
  datatype UserLikesServiceError =
    | UserNotAuthenticated
    | FirebaseError(underlying: string)
    | FailedToGetUserID
    | DataParsingError
    | UnknownError
  {
    /**
     * The `errorDescription` the screens show: a fixed text per error, and
     * for a Firebase error a fixed lead-in followed by its description.
     */
    function Description(): (r: string)
      ensures UserNotAuthenticated? ==> r == "User is not currently authenticated."
      ensures FailedToGetUserID? ==> r == "Failed to retrieve the current user ID."
      ensures DataParsingError? ==> r == "Failed to parse the liked restaurants data."
      ensures UnknownError? ==> r == "An unknown error occurred."
      ensures FirebaseError? ==> |r| > |underlying| && r[|r| - |underlying|..] == underlying
    {
      match this
      case UserNotAuthenticated => "User is not currently authenticated."
      case FirebaseError(u) => "A Firebase error occurred: " + u
      case FailedToGetUserID => "Failed to retrieve the current user ID."
      case DataParsingError => "Failed to parse the liked restaurants data."
      case UnknownError => "An unknown error occurred."
    }
  }

  /** The `user_likes` node: user id to (restaurant id to flag). */
  type LikesStore = map<string, map<string, bool>>

  /** `getCurrentUserID`: the signed-in user's id, or `userNotAuthenticated`. */
  function CurrentUserID(user: Option<string>): (r: Result<string, UserLikesServiceError>)
    ensures r.Success? <==> user.Some?
    ensures r.Success? ==> r.value == user.value
    ensures r.Failure? ==> r.error == UserNotAuthenticated
  {
    match user
    case Some(uid) => Success(uid)
    case None => Failure(UserNotAuthenticated)
  }

  /** The node `user_likes/{uid}`; a missing node reads as no flags. */
  function LikesOf(store: LikesStore, uid: string): map<string, bool> {
    if uid in store then store[uid] else map[]
  }

  /** The flag at `user_likes/{uid}/{rid}`, if any. */
  function FlagAt(store: LikesStore, uid: string, rid: string): Option<bool> {
    if rid in LikesOf(store, uid) then Some(LikesOf(store, uid)[rid]) else None
  }

  /**
   * What `fetchLikedRestaurantIDs` returns for this store: `fault` is the
   * description of the error the read threw, if it threw.
   */
  function LikedIDs(store: LikesStore, user: Option<string>, fault: Option<string>): Result<set<string>, UserLikesServiceError> {
    match user
    case None => Success({})
    case Some(uid) =>
      if fault.Some? then Failure(FirebaseError(fault.value)) else Success(LikesOf(store, uid).Keys)
  }

  /** The store after `setValue(true)` at `user_likes/{uid}/{rid}`. */
  function StoreWithLike(store: LikesStore, uid: string, rid: string): LikesStore {
    store[uid := LikesOf(store, uid)[rid := true]]
  }

  /** The store after `removeValue()` at `user_likes/{uid}/{rid}`. */
  function StoreWithoutLike(store: LikesStore, uid: string, rid: string): LikesStore {
    if uid in store then store[uid := store[uid] - {rid}] else store
  }

  // ---------------------------------------------------------------- properties

  /** Without a user the read degrades to "no likes"; with one it never reports `userNotAuthenticated`. */
  lemma LikedIDsErrors(store: LikesStore, user: Option<string>, fault: Option<string>)
    ensures user.None? ==> LikedIDs(store, user, fault) == Success({})
    ensures LikedIDs(store, user, fault).Failure? ==> LikedIDs(store, user, fault).error.FirebaseError?
  {
  }

  /** Every flag key counts as liked, whatever its value. */
  lemma LikedIDsAreKeys(store: LikesStore, uid: string, rid: string)
    ensures FlagAt(store, uid, rid).Some? <==> rid in LikedIDs(store, Some(uid), None).value
  {
  }

  /** Adding a like sets only its own flag. */
  lemma AddLikeTouchesOneKey(store: LikesStore, uid: string, rid: string, u: string, k: string)
    ensures FlagAt(StoreWithLike(store, uid, rid), uid, rid) == Some(true)
    ensures (u, k) != (uid, rid) ==> FlagAt(StoreWithLike(store, uid, rid), u, k) == FlagAt(store, u, k)
  {
  }

  /** Removing a like clears only its own flag. */
  lemma RemoveLikeTouchesOneKey(store: LikesStore, uid: string, rid: string, u: string, k: string)
    ensures FlagAt(StoreWithoutLike(store, uid, rid), uid, rid) == None
    ensures (u, k) != (uid, rid) ==> FlagAt(StoreWithoutLike(store, uid, rid), u, k) == FlagAt(store, u, k)
  {
  }

  /** Liking twice is liking once. */
  lemma AddLikeIdempotent(store: LikesStore, uid: string, rid: string)
    ensures StoreWithLike(StoreWithLike(store, uid, rid), uid, rid) == StoreWithLike(store, uid, rid)
  {
    var once := StoreWithLike(store, uid, rid);
    assert LikesOf(once, uid)[rid := true] == LikesOf(once, uid);
  }

  /** Removing a like that is not there changes nothing. */
  lemma RemoveAbsentLike(store: LikesStore, uid: string, rid: string)
    requires FlagAt(store, uid, rid).None?
    ensures StoreWithoutLike(store, uid, rid) == store
  {
    if uid in store {
      assert store[uid] - {rid} == store[uid];
    }
  }

  /** A fetch after a like contains it; a fetch after an unlike does not. */
  lemma FetchAfterWrite(store: LikesStore, uid: string, rid: string)
    ensures rid in LikedIDs(StoreWithLike(store, uid, rid), Some(uid), None).value
    ensures rid !in LikedIDs(StoreWithoutLike(store, uid, rid), Some(uid), None).value
  {
  }

  /** Liking then unliking a restaurant that was not liked restores the fetched set. */
  lemma LikeThenUnlike(store: LikesStore, uid: string, rid: string)
    requires FlagAt(store, uid, rid).None?
    ensures LikedIDs(StoreWithoutLike(StoreWithLike(store, uid, rid), uid, rid), Some(uid), None)
         == LikedIDs(store, Some(uid), None)
  {
    assert LikesOf(store, uid)[rid := true] - {rid} == LikesOf(store, uid);
  }

  // ---------------------------------------------------------------- the service

  /** `UserLikesService` over the `user_likes` node it reads and writes. */
  class UserLikesService {
    var store: LikesStore

    constructor(store: LikesStore)
      ensures this.store == store
    {
      this.store := store;
    }

    /** `fetchLikedRestaurantIDs`; reading changes nothing. */
    method FetchLikedRestaurantIDs(user: Option<string>, fault: Option<string>)
      returns (r: Result<set<string>, UserLikesServiceError>)
      ensures r == LikedIDs(store, user, fault)
    {
      var uid := CurrentUserID(user);
      if uid.Failure? {
        return Success({});
      }
      if fault.Some? {
        return Failure(FirebaseError(fault.value));
      }
      r := Success(LikesOf(store, uid.value).Keys);
    }

    /**
     * `addLike`: `fault` is the description of the error `setValue` threw,
     * if it threw; a failed write leaves the store as it was.
     */
    method AddLike(user: Option<string>, restaurantId: string, fault: Option<string>)
      returns (r: Outcome<UserLikesServiceError>)
      modifies this
      ensures user.None? ==> r == Fail(UserNotAuthenticated) && store == old(store)
      ensures user.Some? && fault.Some? ==> r == Fail(FirebaseError(fault.value)) && store == old(store)
      ensures user.Some? && fault.None? ==> r == Pass && store == StoreWithLike(old(store), user.value, restaurantId)
    {
      var uid := CurrentUserID(user);
      if uid.Failure? {
        return Fail(uid.error);
      }
      if fault.Some? {
        return Fail(FirebaseError(fault.value));
      }
      store := StoreWithLike(store, uid.value, restaurantId);
      r := Pass;
    }

    /** `removeLike`, with the same error contract as `AddLike`. */
    method RemoveLike(user: Option<string>, restaurantId: string, fault: Option<string>)
      returns (r: Outcome<UserLikesServiceError>)
      modifies this
      ensures user.None? ==> r == Fail(UserNotAuthenticated) && store == old(store)
      ensures user.Some? && fault.Some? ==> r == Fail(FirebaseError(fault.value)) && store == old(store)
      ensures user.Some? && fault.None? ==> r == Pass && store == StoreWithoutLike(old(store), user.value, restaurantId)
    {
      var uid := CurrentUserID(user);
      if uid.Failure? {
        return Fail(uid.error);
      }
      if fault.Some? {
        return Fail(FirebaseError(fault.value));
      }
      store := StoreWithoutLike(store, uid.value, restaurantId);
      r := Pass;
    }
  }
}
