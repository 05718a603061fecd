/**
 * The booking sheet: a party-size counter, mode-dependent texts and the
 * primary button, which either writes a booking or just dismisses.
 */
module BookingSheet {
  import opened Wrappers
  import opened Restaurants
  import opened Text
  import Bookings

  /** A callback the sheet invokes. */
  datatype SheetEvent = BookingSucceeded(restaurantId: string) | Dismissed

  /** The party size after `incrementPlaces`: one more, without a ceiling. */
  function Incremented(places: int): (r: int)
    ensures r == places + 1
  {
    places + 1
  }

  /** The party size after `decrementPlaces`: one less, but never below 1. */
  function Decremented(places: int): (r: int)
    ensures places > 1 ==> r == places - 1
    ensures places <= 1 ==> r == places
    ensures places >= 1 ==> r >= 1
  {
    if places > 1 then places - 1 else places
  }

  /** Adding a guest and removing one again restores the count. */
  lemma IncrementThenDecrement(places: int)
    requires places >= 1
    ensures Decremented(Incremented(places)) == places
  {
  }

  /** The callbacks a successful booking fires: success first, then dismissal. */
  function SuccessEvents(restaurantId: string, hasOnBookingSuccess: bool, hasOnDismiss: bool): seq<SheetEvent> {
    (if hasOnBookingSuccess then [BookingSucceeded(restaurantId)] else [])
    + (if hasOnDismiss then [Dismissed] else [])
  }

  /** `showBookingControls`: date, time and party-size controls appear only when booking. */
  function ShowBookingControls(mode: TargetMode): bool {
    mode == Can
  }

  function TitleText(mode: TargetMode): string {
    if mode == Can then "Booking" else "You can come in a restaurant's working time and get food for free"
  }

  function ActionButtonTitle(mode: TargetMode): string {
    if mode == Can then "BOOK NOW" else "THANK YOU!"
  }

  /** The sheet's three mode-derived values always agree on which mode it is in. */
  lemma ModeTextsAgree(mode: TargetMode)
    ensures ShowBookingControls(mode) <==> mode == Can
    ensures ShowBookingControls(mode) <==> TitleText(mode) == "Booking"
    ensures ShowBookingControls(mode) <==> ActionButtonTitle(mode) == "BOOK NOW"
    ensures TitleText(Can) != TitleText(Cant) && ActionButtonTitle(Can) != ActionButtonTitle(Cant)
  {
  }

  /** `rating`: the like count as text, which reads back as the count. */
  function Rating(restaurant: Restaurant): (r: string)
    ensures ParseDecimal(r) == Some(restaurant.likesCount)
  {
    DecimalRoundTrip(restaurant.likesCount);
    DecimalString(restaurant.likesCount)
  }

  class BookingSheetViewModel {
    const restaurant: Restaurant
    const mode: TargetMode
    /** Whether the `onDismiss` and `onBookingSuccess` callbacks were supplied. */
    const hasOnDismiss: bool
    const hasOnBookingSuccess: bool
    var customerPlaces: int
    /** The callbacks invoked so far, in order. */
    var events: seq<SheetEvent>

    /** The counter never drops below one guest. */
    ghost predicate Valid()
      reads this
    {
      customerPlaces >= 1
    }

    constructor(restaurant: Restaurant, mode: TargetMode, hasOnDismiss: bool, hasOnBookingSuccess: bool)
      ensures Valid() && customerPlaces == 1 && events == []
      ensures this.restaurant == restaurant && this.mode == mode
      ensures this.hasOnDismiss == hasOnDismiss && this.hasOnBookingSuccess == hasOnBookingSuccess
    {
      this.restaurant := restaurant;
      this.mode := mode;
      this.hasOnDismiss := hasOnDismiss;
      this.hasOnBookingSuccess := hasOnBookingSuccess;
      customerPlaces := 1;
      events := [];
    }

    method IncrementPlaces()
      modifies this`customerPlaces
      ensures customerPlaces == Incremented(old(customerPlaces))
      ensures old(Valid()) ==> Valid()
    {
      customerPlaces := customerPlaces + 1;
    }

    method DecrementPlaces()
      modifies this`customerPlaces
      ensures customerPlaces == Decremented(old(customerPlaces))
      ensures old(Valid()) ==> Valid()
    {
      if customerPlaces > 1 {
        customerPlaces := customerPlaces - 1;
      }
    }

    /**
     * `primaryAction`. `user` is the signed-in user's id; `date` and `time`
     * the formatted selections; `autoId` the key `childByAutoId` generates;
     * `serverTime` the timestamp the server stores for `createdAt`; `fault`
     * the error the write reported, if any.
     */
    method PrimaryAction(user: Option<string>, date: string, time: string,
                         store: Bookings.BookingStore, autoId: string, serverTime: int, fault: Option<string>)
      requires Valid()
      modifies this`events, store
      ensures mode == Cant ==>
        store.nodes == old(store.nodes) && events == old(events) + (if hasOnDismiss then [Dismissed] else [])
      ensures mode == Can && (user.None? || fault.Some?) ==>
        store.nodes == old(store.nodes) && events == old(events)
      ensures mode == Can && user.Some? && fault.None? ==>
        var record := Bookings.BookingRecord(restaurant.id, date, time, customerPlaces, serverTime);
        var uid := user.value;
        && store.nodes == old(store.nodes)[uid := (if uid in old(store.nodes) then old(store.nodes)[uid] else map[])[autoId := Bookings.EncodeBooking(record)]]
        && restaurant.id in Bookings.BookedIDSet(store.nodes[uid])
        && record.numberOfPeople >= 1
        && events == old(events) + SuccessEvents(restaurant.id, hasOnBookingSuccess, hasOnDismiss)
    {
      if mode == Can {
        if user.None? {
          return;
        }
        if fault.Some? {
          return;
        }
        var record := Bookings.BookingRecord(restaurant.id, date, time, customerPlaces, serverTime);
        store.Write(user.value, autoId, record);
        assert Bookings.RestaurantIdOf(store.nodes[user.value][autoId]) == Some(restaurant.id);
        Bookings.BookedIDSetMembership(store.nodes[user.value], restaurant.id);
        if hasOnBookingSuccess {
          events := events + [BookingSucceeded(restaurant.id)];
        }
        if hasOnDismiss {
          events := events + [Dismissed];
        }
      } else {
        if hasOnDismiss {
          events := events + [Dismissed];
        }
      }
    }
  }
}
