/**
 * The booking registry: records under `bookings/{uid}/{autoId}`, written by
 * the booking sheet and projected to the set of booked restaurant ids by
 * both listing screens.
 */
module Bookings {
  import opened Wrappers
  import opened RawData

  /** A stored booking; `createdAt` is the timestamp the server substitutes. */
  datatype BookingRecord = BookingRecord(
    restaurantId: string,
    date: string,
    time: string,
    numberOfPeople: int,
    createdAt: int)

  /** How a booking record is stored. */
  function EncodeBooking(b: BookingRecord): Raw {
    Dict(map["restaurantId" := Text(b.restaurantId), "date" := Text(b.date), "time" := Text(b.time),
             "numberOfPeople" := Number(b.numberOfPeople), "createdAt" := Number(b.createdAt)])
  }

  /** The `restaurantId` string of a record that is a dictionary, if it has one. */
  function RestaurantIdOf(v: Raw): Option<string> {
    match v
    case Dict(e) => if "restaurantId" in e && e["restaurantId"].Text? then Some(e["restaurantId"].s) else None
    case _ => None
  }

  /** The restaurant ids of the well-formed records stored under `keys`. */
  function BookedIDsIn(entries: map<string, Raw>, keys: set<string>): set<string> {
    set k | k in keys && k in entries && RestaurantIdOf(entries[k]).Some? :: RestaurantIdOf(entries[k]).value
  }

  function BookedIDSet(entries: map<string, Raw>): set<string> {
    BookedIDsIn(entries, entries.Keys)
  }

  /**
   * What `fetchBookedRestaurantIDs` yields: `read` is the outcome of reading
   * `bookings/{uid}` (`Failure` when the read threw).
   */
  function BookedIDs(user: Option<string>, read: Result<Raw, string>): set<string> {
    if user.Some? && read.Success? && read.value.Dict? then BookedIDSet(read.value.entries) else {}
  }

  // ---------------------------------------------------------------- properties

  /** An id is booked exactly when some record that is a dictionary names it. */
  lemma BookedIDSetMembership(entries: map<string, Raw>, rid: string)
    ensures rid in BookedIDSet(entries) <==> exists k :: k in entries && RestaurantIdOf(entries[k]) == Some(rid)
  {
    if rid in BookedIDSet(entries) {
      var k :| k in entries && RestaurantIdOf(entries[k]).Some? && RestaurantIdOf(entries[k]).value == rid;
      assert RestaurantIdOf(entries[k]) == Some(rid);
    }
  }

  /** Records that are not dictionaries, or lack a string `restaurantId`, add nothing. */
  lemma MalformedRecordSkipped(entries: map<string, Raw>, key: string, v: Raw)
    requires key !in entries
    requires RestaurantIdOf(v).None?
    ensures BookedIDSet(entries[key := v]) == BookedIDSet(entries)
  {
    var after := entries[key := v];
    forall rid | rid in BookedIDSet(after)
      ensures rid in BookedIDSet(entries)
    {
      BookedIDSetMembership(after, rid);
      var k :| k in after && RestaurantIdOf(after[k]) == Some(rid);
      assert k != key && after[k] == entries[k];
      BookedIDSetMembership(entries, rid);
    }
    forall rid | rid in BookedIDSet(entries)
      ensures rid in BookedIDSet(after)
    {
      BookedIDSetMembership(entries, rid);
      var k :| k in entries && RestaurantIdOf(entries[k]) == Some(rid);
      assert k in after && after[k] == entries[k];
      BookedIDSetMembership(after, rid);
    }
  }

  /** Writing a booking under a fresh key adds exactly its restaurant to the booked set. */
  lemma WrittenBookingIsBooked(entries: map<string, Raw>, key: string, b: BookingRecord)
    requires key !in entries
    ensures BookedIDSet(entries[key := EncodeBooking(b)]) == BookedIDSet(entries) + {b.restaurantId}
  {
    var after := entries[key := EncodeBooking(b)];
    assert RestaurantIdOf(after[key]) == Some(b.restaurantId);
    BookedIDSetMembership(after, b.restaurantId);
    forall rid | rid in BookedIDSet(after) && rid != b.restaurantId
      ensures rid in BookedIDSet(entries)
    {
      BookedIDSetMembership(after, rid);
      var k :| k in after && RestaurantIdOf(after[k]) == Some(rid);
      assert k != key && after[k] == entries[k];
      BookedIDSetMembership(entries, rid);
    }
    forall rid | rid in BookedIDSet(entries)
      ensures rid in BookedIDSet(after)
    {
      BookedIDSetMembership(entries, rid);
      var k :| k in entries && RestaurantIdOf(entries[k]) == Some(rid);
      assert k in after && after[k] == entries[k];
      BookedIDSetMembership(after, rid);
    }
  }

  // ---------------------------------------------------------------- the fetch

  /** `fetchBookedRestaurantIDs`: never fails, degrades to the empty set. */
  method FetchBookedRestaurantIDs(user: Option<string>, read: Result<Raw, string>) returns (ids: set<string>)
    ensures ids == BookedIDs(user, read)
  {
    if user.None? || read.Failure? || !read.value.Dict? {
      return {};
    }
    var entries := read.value.entries;
    ids := {};
    var remaining := entries.Keys;
    while remaining != {}
      invariant remaining <= entries.Keys
      invariant ids == BookedIDsIn(entries, entries.Keys - remaining)
      decreases remaining
    {
      var key :| key in remaining;
      ghost var done := entries.Keys - remaining;
      match RestaurantIdOf(entries[key]) {
        case Some(rid) =>
          ids := ids + {rid};
          assert BookedIDsIn(entries, done + {key}) == BookedIDsIn(entries, done) + {rid};
        case None =>
          assert BookedIDsIn(entries, done + {key}) == BookedIDsIn(entries, done);
      }
      remaining := remaining - {key};
      assert entries.Keys - remaining == done + {key};
    }
    assert entries.Keys - remaining == entries.Keys;
  }

  // ---------------------------------------------------------------- the store

  /** The `bookings` node: user id to (record key to record). */
  class BookingStore {
    var nodes: map<string, map<string, Raw>>

    constructor(nodes: map<string, map<string, Raw>>)
      ensures this.nodes == nodes
    {
      this.nodes := nodes;
    }

    /** `childByAutoId().setValue(record)` under `bookings/{uid}`. */
    method Write(uid: string, key: string, b: BookingRecord)
      modifies this
      ensures nodes == old(nodes)[uid := (if uid in old(nodes) then old(nodes)[uid] else map[])[key := EncodeBooking(b)]]
    {
      var records := if uid in nodes then nodes[uid] else map[];
      nodes := nodes[uid := records[key := EncodeBooking(b)]];
    }
  }
}
