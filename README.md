# MealMission core in Dafny

MealMission is a SwiftUI client for a restaurant and charity-booking app. Users sign in or register. They then browse a restaurant table ordered by popularity and searchable by name. They can like restaurants, see their liked restaurants on a second tab, and book a table or take a free meal from a booking sheet. A profile tab shows their name and email and lets them delete their account.

This project models the logic under those screens:

- **Catalog client** (`RestaurantService`). It reads the `restaurants` node and decodes each entry on its own. Entries that do not decode are skipped.
- **Like registry** (`LikesService`). It holds the per-user `user_likes/{uid}/{restaurantId}` flags.
- **Booking registry** (`Bookings`). It writes records under `bookings/{uid}` and projects them to the set of booked restaurant ids.
- **Listing view-models** (`Target`, `Liked`). Each joins the three fetches. The table sorts by likes and filters by a case-insensitive name search; the liked tab keeps catalog order.
- **Restaurant card** (`Cell`). Its like toggle is a single-flight state machine.
- **Booking sheet** (`BookingSheet`). It has a party-size counter, texts that depend on the mode, and a primary button.
- **Navigation** (`Coordinator`). It switches between the authorization screen and the tabs.
- **Auth form and profile** (`Authorization`, `Profile`).

Shared modules:

- `Wrappers`: `Option`, `Result` and `Outcome`.
- `RawData`: a database snapshot value.
- `Restaurants`: the `Restaurant` and `TargetMode` values.
- `Text`: case-insensitive search, `split(separator:)`, `String(Int)`.
- `Seqs`: order-preserving filter.

Objects whose fields the app updates in place are classes. Examples are the view-models, the coordinator, the like service over its store, and the booking store. Their methods carry `modifies` clauses and state the whole new state.

The Firebase Database and Auth SDKs are outside the model. The model takes what they would report as inputs:

- the signed-in user, as an optional uid or an optional `AuthUser`;
- the outcome of a read, as `Result<Raw, string>`, where `Failure` carries the thrown error's description;
- the outcome of a write or an auth call, as an optional fault or an `Outcome`.

Each async `Task` or `async let` join is a sequential step in the source's `await` order. Where a method changes fields before its task starts, the method is split in two: the synchronous start and the task's completion. This applies to `StartLoading`/`FinishLoading`, `ToggleLike`/`CompleteLikeUpdate`, `PrimaryAction`/`RunAuthentication` and `DeleteAccount`/`CompleteDeletion`. The booking sheet's `primaryAction` changes no field before its write completes, so it is one step.

The two listing screens have identical private `fetchBookedRestaurantIDs` helpers. Both are modelled by the one method `Bookings.FetchBookedRestaurantIDs`.

## Model

| member | source | states |
|---|---|---|
| RestaurantService.FetchRestaurants | MealMission/Data/Services/FirebaseRestaurantService.swift:43-83 | A failed read gives `firebaseError` with the read's description. A read that is not a dictionary gives `dataNotFound`. Otherwise the result is a success listing every decodable entry exactly once, as the restaurant whose id is the entry's key. Ids are distinct and undecodable entries are skipped. No other error, in particular not `invalidDataStructure`, is produced. |
| RestaurantService.CatalogSize | MealMission/Data/Services/FirebaseRestaurantService.swift:52-75 | The decoded catalog is never longer than the node. It has one restaurant per entry when every entry decodes. |
| RestaurantService.DecodeEncoded | MealMission/Data/Services/FirebaseRestaurantService.swift:29-34 | An entry stored with the four fields `name`, `timeRange`, `likesCount` and `imageURL` decodes back to those fields. |
| RestaurantService.DecodeNeedsAllFields | MealMission/Data/Services/FirebaseRestaurantService.swift:29-34 | An entry missing any of the four fields does not decode. |
| RestaurantService.RestaurantServiceError.Description | MealMission/Data/Services/FirebaseRestaurantService.swift:12-25 | `dataNotFound`, `unknownError` and `invalidDataStructure` show their fixed texts. `decodingError` and `firebaseError` show a lead-in that ends with the wrapped error's description. |
| LikesService.UserLikesServiceError.Description | MealMission/Data/Services/UserLikesService.swift:12-25 | The four plain errors show their fixed texts. `firebaseError` shows a lead-in that ends with the wrapped error's description. |
| LikesService.CurrentUserID | MealMission/Data/Services/UserLikesService.swift:36-41 | Succeeds with the uid exactly when a user is signed in; otherwise fails with `userNotAuthenticated`. |
| LikesService.LikedIDsErrors | MealMission/Data/Services/UserLikesService.swift:44-72 | A fetch with no user yields the empty set and does not throw. A fetch fails only with `firebaseError`. |
| LikesService.LikedIDsAreKeys | MealMission/Data/Services/UserLikesService.swift:59-66 | The fetched set is exactly the key set of the user's flags, including keys whose flag is false. |
| LikesService.AddLikeTouchesOneKey | MealMission/Data/Services/UserLikesService.swift:78-81 | Adding a like sets `user_likes/uid/rid` to true and leaves every other (user, restaurant) flag as it was. |
| LikesService.RemoveLikeTouchesOneKey | MealMission/Data/Services/UserLikesService.swift:93-96 | Removing a like deletes `user_likes/uid/rid` and leaves every other flag as it was. |
| LikesService.AddLikeIdempotent | MealMission/Data/Services/UserLikesService.swift:78-81 | Liking twice leaves the same store as liking once. |
| LikesService.RemoveAbsentLike | MealMission/Data/Services/UserLikesService.swift:93-96 | Removing a like that is not there leaves the store unchanged. |
| LikesService.FetchAfterWrite | MealMission/Data/Services/UserLikesService.swift:64-96 | After an add, a fetch contains the restaurant. After a remove, it does not. |
| LikesService.LikeThenUnlike | MealMission/Data/Services/UserLikesService.swift:74-102 | Liking and then unliking a restaurant that was not liked restores the fetched set. |
| LikesService.UserLikesService.FetchLikedRestaurantIDs | MealMission/Data/Services/UserLikesService.swift:44-72 | Returns the fetch result for the current store: empty with no user, `firebaseError` when the read throws, otherwise the user's key set. The store is unchanged. |
| LikesService.UserLikesService.AddLike | MealMission/Data/Services/UserLikesService.swift:74-87 | No user: `userNotAuthenticated` and the store unchanged. Write fault: `firebaseError` and the store unchanged. Otherwise: success, and the store gains the flag. |
| LikesService.UserLikesService.RemoveLike | MealMission/Data/Services/UserLikesService.swift:89-102 | The same three cases as adding a like; on success the flag is deleted. |
| Bookings.FetchBookedRestaurantIDs | MealMission/Main/Screens/TabBarGroup/Target/TargetViewModel.swift:97-126 | Never fails. Yields the empty set with no user, when the read throws, or when the node is not a dictionary. Otherwise the loop collects exactly the booked-id set of the records. |
| Bookings.BookedIDSetMembership | MealMission/Main/Screens/TabBarGroup/Target/TargetViewModel.swift:115-119 | An id is booked exactly when some record is a dictionary whose `restaurantId` is that string. |
| Bookings.MalformedRecordSkipped | MealMission/Main/Screens/TabBarGroup/Liked/LikedViewModel.swift:99-103 | A record that is not a dictionary, or lacks a string `restaurantId`, adds nothing to the booked set. |
| Bookings.WrittenBookingIsBooked | MealMission/Main/Screens/Sheet/BookingSheetViewModel.swift:95-107 | A booking record written under a fresh key adds exactly its restaurant to the booked set. |
| Bookings.BookingStore.Write | MealMission/Main/Screens/Sheet/BookingSheetViewModel.swift:103-107 | The record is stored under `bookings/{uid}/{key}`, and every other node and record is kept. |
| Target.InsertByLikes | MealMission/Main/Screens/TabBarGroup/Target/TargetViewModel.swift:47 | Inserting into a list with non-increasing likes keeps it non-increasing and adds exactly the new element. |
| Target.SortByLikes | MealMission/Main/Screens/TabBarGroup/Target/TargetViewModel.swift:47 | The result is a permutation of the input with non-increasing `likesCount`. |
| Target.InsertByLikesStable | MealMission/Main/Screens/TabBarGroup/Target/TargetViewModel.swift:47 | An inserted restaurant goes ahead of every restaurant with the same like count; the others keep their order. |
| Target.SortByLikesStable | MealMission/Main/Screens/TabBarGroup/Target/TargetViewModel.swift:47 | The sort is stable: restaurants with the same like count keep their order from the fetched list. |
| Target.SortKeepsRestaurants | MealMission/Main/Screens/TabBarGroup/Target/TargetViewModel.swift:47 | Sorting keeps the length and exactly the same restaurants. |
| Target.FilterByName | MealMission/Main/Screens/TabBarGroup/Target/TargetViewModel.swift:75-82 | With an empty query, the list comes back unchanged. With a non-empty query it holds exactly the restaurants whose name contains the query, ignoring case. The model's membership clauses also hold for the empty query, because the model's `ContainsIgnoringCase` counts the empty needle as contained. |
| Target.FilterByNameKeepsOrder | MealMission/Main/Screens/TabBarGroup/Target/TargetViewModel.swift:79-81 | The filter distributes over concatenation, so the relative order is kept. |
| Target.FilterByNameAllMatch | MealMission/Main/Screens/TabBarGroup/Target/TargetViewModel.swift:79-81 | When every name matches, the list comes back unchanged. |
| Target.TargetViewModel.constructor | MealMission/Main/Screens/TabBarGroup/Target/TargetViewModel.swift:10-30 | The screen starts with no restaurants, no liked or booked ids, no spinner, no error, no selection, an empty query, and the given coordinator. |
| Target.TargetViewModel.FilteredRestaurants | MealMission/Main/Screens/TabBarGroup/Target/TargetViewModel.swift:75-82 | The shown list is `restaurants` itself when the query is empty. It holds exactly the restaurants whose name matches the current query. |
| Target.TargetViewModel.StartLoading | MealMission/Main/Screens/TabBarGroup/Target/TargetViewModel.swift:34-35 | A load starts with `isLoading` set and `errorMessage` cleared. |
| Target.TargetViewModel.FinishLoading | MealMission/Main/Screens/TabBarGroup/Target/TargetViewModel.swift:42-65 | A catalog error wins over a likes error, and its description becomes `errorMessage`. On any error the three data fields keep their values. On success the fields hold the sorted catalog, the liked set and the booked set. `isLoading` ends false. |
| Target.TargetViewModel.LoadInitialData | MealMission/Main/Screens/TabBarGroup/Target/TargetViewModel.swift:33-66 | `errorMessage` is set iff a fetch failed, and then the data fields are kept. On success `restaurants` is a non-increasing permutation of the catalog. `isLoading` is false on return. |
| Target.TargetViewModel.MarkRestaurantAsBooked | MealMission/Main/Screens/TabBarGroup/Target/TargetViewModel.swift:86-93 | The booked set becomes old ∪ {id}. An id already present leaves it unchanged. No other field changes. |
| Target.TargetViewModel.RequestAuthentication | MealMission/Main/Screens/TabBarGroup/Target/TargetViewModel.swift:69-72 | The coordinator, when present, shows the authorization screen. |
| Liked.LikedOnly | MealMission/Main/Screens/TabBarGroup/Liked/LikedViewModel.swift:44 | Holds exactly the catalog restaurants whose id is liked. |
| Liked.LikedOnlyKeepsOrder | MealMission/Main/Screens/TabBarGroup/Liked/LikedViewModel.swift:44 | The liked list distributes over concatenation of the catalog, so catalog order is kept and there is no re-sort. |
| Liked.DanglingLikesIgnored | MealMission/Main/Screens/TabBarGroup/Liked/LikedViewModel.swift:44 | Liked ids that name no catalog entry change nothing. |
| Liked.LikedViewModel.constructor | MealMission/Main/Screens/TabBarGroup/Liked/LikedViewModel.swift:9-27 | The screen starts with no liked restaurants, no booked ids, no selection, no spinner, no error, and the given coordinator. |
| Liked.LikedViewModel.StartLoading | MealMission/Main/Screens/TabBarGroup/Liked/LikedViewModel.swift:31-32 | A load starts with `isLoading` set and `errorMessage` cleared. |
| Liked.LikedViewModel.FinishLoading | MealMission/Main/Screens/TabBarGroup/Liked/LikedViewModel.swift:39-61 | A catalog error wins over a likes error. On either, `likedRestaurants` and `bookedRestaurantIDs` keep their values. On success they hold the liked subsequence and the booked set. `isLoading` ends false. |
| Liked.LikedViewModel.LoadLikedRestaurants | MealMission/Main/Screens/TabBarGroup/Liked/LikedViewModel.swift:30-62 | `errorMessage` is set iff a fetch failed, and then the data fields are kept. On success the liked subsequence and booked set are stored. `isLoading` is false on return. |
| Liked.LikedViewModel.MarkRestaurantAsBooked | MealMission/Main/Screens/TabBarGroup/Liked/LikedViewModel.swift:71-78 | An idempotent insert into the booked set. No other field changes. |
| Liked.LikedViewModel.RequestAuthentication | MealMission/Main/Screens/TabBarGroup/Liked/LikedViewModel.swift:65-68 | The coordinator, when present, shows the authorization screen. |
| Cell.FromRestaurant | MealMission/Main/Components/RestourantCell/RestourantCellModel.swift:12-17 | The title is the restaurant's name. Image URL, time range and likes count are copied unchanged. |
| Cell.FromRestaurantForgetsOnlyId | MealMission/Main/Components/RestourantCell/RestourantCellModel.swift:12-17 | Two restaurants give the same card iff they differ at most in their id. |
| Cell.RestourantCellViewModel.constructor | MealMission/Main/Components/RestourantCell/RestourantCellViewModel.swift:20-32 | `isLiked` starts at `initialIsLiked`, `isBookedByUser` is fixed, and no update is in flight. |
| Cell.RestourantCellViewModel.LikesCountText | MealMission/Main/Components/RestourantCell/RestourantCellViewModel.swift:38 | The card's like-count text reads back as the model's count. |
| Cell.RestourantCellViewModel.ToggleLike | MealMission/Main/Components/RestourantCell/RestourantCellViewModel.swift:41-45 | While an update is in flight, the call is a no-op. Otherwise it raises the guard and targets the negation of `isLiked`. |
| Cell.RestourantCellViewModel.CompleteLikeUpdate | MealMission/Main/Components/RestourantCell/RestourantCellViewModel.swift:47-70 | Adds the like iff the target is liked, removes it otherwise. Success sets `isLiked` to the target. `userNotAuthenticated` leaves `isLiked` alone and fires the auth callback if one was supplied. Any other error changes nothing. The guard is always cleared. |
| BookingSheet.Incremented | MealMission/Main/Screens/Sheet/BookingSheetViewModel.swift:70-72 | Incrementing adds exactly one, with no ceiling. |
| BookingSheet.Decremented | MealMission/Main/Screens/Sheet/BookingSheetViewModel.swift:74-78 | A count above 1 goes down by one. A count of 1 or less stays as it is, so the count never drops below 1. |
| BookingSheet.IncrementThenDecrement | MealMission/Main/Screens/Sheet/BookingSheetViewModel.swift:70-78 | Incrementing then decrementing restores the count. |
| BookingSheet.ModeTextsAgree | MealMission/Main/Screens/Sheet/BookingSheetViewModel.swift:57-67 | The booking controls show iff the mode is `.can`, which is also iff the title is "Booking" and iff the button reads "BOOK NOW". The two modes' texts differ. |
| BookingSheet.Rating | MealMission/Main/Screens/Sheet/BookingSheetViewModel.swift:53 | The rating text reads back as the like count. |
| BookingSheet.BookingSheetViewModel.constructor | MealMission/Main/Screens/Sheet/BookingSheetViewModel.swift:21-32 | The counter starts at 1 and no callback has fired. |
| BookingSheet.BookingSheetViewModel.IncrementPlaces | MealMission/Main/Screens/Sheet/BookingSheetViewModel.swift:70-72 | The count is incremented, and the floor of 1 is preserved. |
| BookingSheet.BookingSheetViewModel.DecrementPlaces | MealMission/Main/Screens/Sheet/BookingSheetViewModel.swift:74-78 | The count is decremented only above 1, and the floor of 1 is preserved. |
| BookingSheet.BookingSheetViewModel.PrimaryAction | MealMission/Main/Screens/Sheet/BookingSheetViewModel.swift:80-122 | In `.cant` mode, nothing is written and only `onDismiss` fires. In `.can` mode with no user or a failed write, nothing is written and nothing fires. Otherwise the record is stored with `restaurant.id` and the party size, which is at least 1. The restaurant becomes booked, and `onBookingSuccess` fires before `onDismiss`. |
| Coordinator.LaunchRoute | MealMission/Main/MainCoordinator.swift:43-47 | Launch goes to the tabs iff a user is signed in. |
| Coordinator.AuthChangeRoute | MealMission/Main/MainCoordinator.swift:66-76 | The listener always lands on the screen launch routing would pick, and keeps a screen that already matches. |
| Coordinator.AuthChangeIdempotent | MealMission/Main/MainCoordinator.swift:66-76 | Replaying the same auth event changes nothing more. |
| Coordinator.MainCoordinator.constructor | MealMission/Main/MainCoordinator.swift:14-23 | The app starts on the authorization screen. |
| Coordinator.MainCoordinator.Navigate | MealMission/Main/MainCoordinator.swift:33-37 | Afterwards the target screen is shown, and navigating to the current screen changes nothing. |
| Coordinator.MainCoordinator.HandleLaunchScreenCompletion | MealMission/Main/MainCoordinator.swift:39-51 | The screen becomes the launch route for the current user. |
| Coordinator.MainCoordinator.NavigateToMainTabs | MealMission/Main/MainCoordinator.swift:53-57 | The tabs are shown. |
| Coordinator.MainCoordinator.AuthStateChanged | MealMission/Main/MainCoordinator.swift:60-80 | The screen follows the listener's transition table. |
| Authorization.SubmitCredentials | MealMission/Main/Screens/Authorization/AuthorizationViewModel.swift:72-84 | An empty email or password fails with `emptyCredentials` before the provider is consulted. Otherwise the provider's outcome is returned. |
| Authorization.MapFirebaseError | MealMission/Main/Screens/Authorization/AuthorizationViewModel.swift:87-107 | An error without a provider code, or with a code outside the five recognised ones, is shown with its own description. |
| Authorization.MapFirebaseErrorFixedTexts | MealMission/Main/Screens/Authorization/AuthorizationViewModel.swift:93-103 | The five recognised codes map to their fixed texts, whatever the description. |
| Authorization.MappedMessagesDistinct | MealMission/Main/Screens/Authorization/AuthorizationViewModel.swift:87-107 | The five recognised codes map to five different fixed messages, independent of the error's description. |
| Authorization.EmptyCredentialsMessage | MealMission/Main/Screens/Authorization/AuthorizationViewModel.swift:116-128 | An empty-credentials failure is shown with its own description. |
| Authorization.AuthorizationViewModel.constructor | MealMission/Main/Screens/Authorization/AuthorizationViewModel.swift:9-26 | The form starts in login mode with empty fields, no error and no spinner. |
| Authorization.AuthorizationViewModel.PrimaryAction | MealMission/Main/Screens/Authorization/AuthorizationViewModel.swift:29-35 | The error is cleared, the spinner is set, and the email and password are captured. |
| Authorization.AuthorizationViewModel.RunAuthentication | MealMission/Main/Screens/Authorization/AuthorizationViewModel.swift:37-68 | In registration, a confirmation mismatch gives "Passwords do not match." and no navigation. Login never consults the confirmation. Otherwise success navigates to the tabs and failure shows the mapped message. `isLoading` ends false on every path. |
| Profile.EmailText | MealMission/Main/Screens/TabBarGroup/Profile/ProfileViewModel.swift:33 | The user's email, or "No Email Provided" when there is none. |
| Profile.DisplayNameFor | MealMission/Main/Screens/TabBarGroup/Profile/ProfileViewModel.swift:32-36 | A display name other than "No Name" is used verbatim. Without one and without a real email, the name is "No Name". Without one but with a real email, it is "User" when the email is all `@`. Otherwise it is the first piece of the email's `@`-split: non-empty, `@`-free, after only `@`s, and running to an `@` or the end. |
| Profile.DisplayNameFromEmail | MealMission/Main/Screens/TabBarGroup/Profile/ProfileViewModel.swift:34-36 | A user without a display name and with email `local@domain` is shown as `local`. |
| Profile.ProfileViewModel.constructor | MealMission/Main/Screens/TabBarGroup/Profile/ProfileViewModel.swift:22-26 | The constructor leaves the state `loadUserData` gives for the current user. |
| Profile.ProfileViewModel.LoadUserData | MealMission/Main/Screens/TabBarGroup/Profile/ProfileViewModel.swift:29-44 | With a user: signed in, the derived name, and the email or "No Email Provided"; spinner and deletion error untouched. Without one: not signed in, "Anonymous", "-", no deletion error, no spinner. |
| Profile.DeletionMessage | MealMission/Main/Screens/TabBarGroup/Profile/ProfileViewModel.swift:71-76 | The recent-login text for `requiresRecentLogin`, and "Failed to delete account: " followed by the description for every other failure. |
| Profile.ProfileViewModel.DeleteAccount | MealMission/Main/Screens/TabBarGroup/Profile/ProfileViewModel.swift:56-64 | No user: "No user logged in to delete.", the spinner untouched, and no deletion started. With a user: the spinner is raised and the error cleared before the deletion starts. |
| Profile.ProfileViewModel.CompleteDeletion | MealMission/Main/Screens/TabBarGroup/Profile/ProfileViewModel.swift:65-79 | Success changes nothing, so the spinner stays up. Failure shows the deletion message and lowers the spinner. |
| Text.FirstPiece | MealMission/Main/Screens/TabBarGroup/Profile/ProfileViewModel.swift:35 | The first piece of a split is absent iff the string is all separators. Otherwise it is non-empty and separator-free, and it sits after nothing but separators and runs to a separator or the end. |
| Text.FirstPieceUnique | MealMission/Main/Screens/TabBarGroup/Profile/ProfileViewModel.swift:35 | Conversely, any non-empty separator-free piece placed that way is the first piece. |
| Text.FirstPieceOfJoined | MealMission/Main/Screens/TabBarGroup/Profile/ProfileViewModel.swift:35 | Splitting `a + sep + b` yields `a` first. |
| Text.ExactMatchIgnoringCase | MealMission/Main/Screens/TabBarGroup/Target/TargetViewModel.swift:80 | An exact substring is also a case-insensitive match. |
| Text.EmptyQueryMatches | MealMission/Main/Screens/TabBarGroup/Target/TargetViewModel.swift:76-78 | A fact about the model's predicate, not Foundation's: `ContainsIgnoringCase` holds for every name and the empty needle. The guard on an empty search text returns the whole list before any search, so the difference is never visible. |
| Text.MatchIgnoresCase | MealMission/Main/Screens/TabBarGroup/Target/TargetViewModel.swift:80 | The search gives the same answer whatever the case of either side. |
| Text.DecimalRoundTrip | MealMission/Main/Components/RestourantCell/RestourantCellViewModel.swift:38 | `String(n)` reads back as `n`, for negative numbers too. |
| Seqs.FilterConcat | MealMission/Main/Screens/TabBarGroup/Liked/LikedViewModel.swift:44 | `filter` distributes over concatenation. |
| Seqs.FilterKeepsAll | MealMission/Main/Screens/TabBarGroup/Liked/LikedViewModel.swift:44 | Filtering with a predicate that accepts every element returns the sequence unchanged. |

## Left out

- The Firebase Database and Auth SDKs are not modelled: `getData`, `setValue`, `removeValue`, `signIn`, `createUser`, `delete`, `signOut` and the state listener. What they report is an input to the model.
- Concurrency is not modelled: `async let` fan-out, `Task`, `MainActor` and `DispatchQueue` hops, and `withAnimation`. Each join is sequential in the source's `await` order, so a catalog error wins over a likes error.
- The third `catch` in both loads ("An unexpected error occurred: …") is not modelled. The fetches throw only the two service error types, so that branch is never reached.
- The booking write's completion handler runs later, and the sheet stays usable meanwhile. That interleaving is not modelled; `PrimaryAction` applies the write's outcome at once.
- Date and time formatting in the booking sheet is not modelled. The formatted strings are opaque parameters of `PrimaryAction`.
- Some generated values are parameters rather than modelled: the key `childByAutoId` makes (`autoId`) and the server timestamp (`serverTime`).
- Optional callbacks are modelled as `has…` flags. The calls they receive are modelled as an event log (`events`) or a counter (`authRequests`).
- LikesService.UserLikesService.AddLike: a failed write is assumed to leave the store as it was. The SDK does not promise this for a partial failure.
- LikesService.UserLikesService.RemoveLike: the same assumption about failed writes as for `AddLike`.
- BookingSheet.BookingSheetViewModel.PrimaryAction: a failed booking write is assumed to leave `bookings/{uid}` as it was. The SDK does not promise this for a partial failure.
- The likes store cannot hold a `user_likes/{uid}` node that is not a string-to-bool dictionary. The source reads such a node as the empty set, which the model does not represent.
- Snapshot numbers are integers only (`RawData.Number`), so a fractional `likesCount` is not represented.
- RestaurantService.DecodeRestaurantData: accepts any integer `likesCount`. In the source `likesCount` is a 64-bit `Int`, so `JSONDecoder` rejects a larger value and the entry is skipped.
- A scalar catalog entry makes `JSONSerialization` raise an Objective-C exception in the source. That crash is not modelled; such entries are treated as undecodable and skipped.
- BookingSheet.Incremented: integers are unbounded, so Swift's overflow trap on `customerPlaces += 1` at `Int.max` is not modelled.
- Text.ContainsIgnoringCase: folds ASCII letters only. Foundation's locale-aware case-insensitive comparison, including non-ASCII folding, is not modelled. It also counts an empty needle as contained, whereas Foundation's `localizedCaseInsensitiveContains("")` is false. The guard on an empty search text in `filteredRestaurants` (MealMission/Main/Screens/TabBarGroup/Target/TargetViewModel.swift:76-78) hides that difference.
- Plain field-forwarding properties are not modelled: the card's `imageURL`, `title` and `timeRange`, and the sheet's `placeImageName`, `placeName` and `workingHours`.
- The memberwise `init` of `RestourantCellModel` is the datatype constructor `Cell.RestourantCellModel`, which has no contract of its own.
- Profile image handling is not modelled: `updateImage`, `loadImage` and file I/O. Neither are `signOut` or `navigateToAuthorization`, which only call the SDK or the coordinator.
- `AuthorizationViewModel.navigateToTabs` is not modelled. It only forwards to `Coordinator.MainCoordinator.NavigateToMainTabs`.
- Screen layout is not modelled: the SwiftUI views, `MainMeal`, `TabItem` and fonts. Neither is `print` logging.
