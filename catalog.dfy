/**
 * The catalog client: reads the `restaurants` node and decodes each entry on
 * its own, skipping the ones that do not decode.
 */
module RestaurantService {
  import opened Wrappers
  import opened RawData
  import opened Restaurants

  /** The service's errors; `underlying` is the wrapped error's description. */
  datatype RestaurantServiceError =
    | DataNotFound
    | DecodingError(underlying: string)
    | FirebaseError(underlying: string)
    | UnknownError
    | InvalidDataStructure
  {
    /**
     * The `errorDescription` the screens show: a fixed text per error, and
     * for a wrapped error a fixed lead-in followed by its description.
     */
    function Description(): (r: string)
      ensures DataNotFound? ==> r == "Could not find restaurant data in the database."
      ensures UnknownError? ==> r == "An unknown error occurred."
      ensures InvalidDataStructure? ==> r == "Data at the specified path is not in the expected structure."
      ensures (DecodingError? || FirebaseError?) ==>
        |r| > |underlying| && r[|r| - |underlying|..] == underlying
    {
      match this
      case DataNotFound => "Could not find restaurant data in the database."
      case DecodingError(u) => "Failed to decode restaurant data: " + u
      case FirebaseError(u) => "An error occurred while fetching data from Firebase: " + u
      case UnknownError => "An unknown error occurred."
      case InvalidDataStructure => "Data at the specified path is not in the expected structure."
    }
  }

  /** The four stored fields of an entry; the entry's key supplies the id. */
  datatype RestaurantData = RestaurantData(name: string, timeRange: string, likesCount: int, imageURL: string)

  function WithId(key: string, d: RestaurantData): Restaurant {
    Restaurant(key, d.name, d.timeRange, d.likesCount, d.imageURL)
  }

  function DataOf(r: Restaurant): RestaurantData {
    RestaurantData(r.name, r.timeRange, r.likesCount, r.imageURL)
  }

  // ---------------------------------------------------------------- the entry decoder

  /**
   * The JSON decoding of one entry into the four fields: an object with a
   * string `name`, `timeRange` and `imageURL` and an integer `likesCount`;
   * other keys are ignored.
   */
  function DecodeRestaurantData(v: Raw): Option<RestaurantData> {
    match v
    case Dict(e) =>
      if && "name" in e && e["name"].Text?
         && "timeRange" in e && e["timeRange"].Text?
         && "likesCount" in e && e["likesCount"].Number?
         && "imageURL" in e && e["imageURL"].Text?
      then Some(RestaurantData(e["name"].s, e["timeRange"].s, e["likesCount"].n, e["imageURL"].s))
      else None
    case _ => None
  }

  /** How an entry with these fields is stored. */
  function EncodeRestaurantData(d: RestaurantData): Raw {
    Dict(map["name" := Text(d.name), "timeRange" := Text(d.timeRange),
             "likesCount" := Number(d.likesCount), "imageURL" := Text(d.imageURL)])
  }

  /** A stored entry decodes back to the fields it was written with. */
  lemma DecodeEncoded(d: RestaurantData)
    ensures DecodeRestaurantData(EncodeRestaurantData(d)) == Some(d)
  {
  }

  /** An entry missing any of the four fields is skipped. */
  lemma DecodeNeedsAllFields(e: map<string, Raw>, field: string)
    requires field in {"name", "timeRange", "likesCount", "imageURL"}
    requires field !in e
    ensures DecodeRestaurantData(Dict(e)) == None
  {
  }

  // ---------------------------------------------------------------- the fetch

  /** The keys among `keys` whose entry decodes. */
  function DecodableKeysIn(entries: map<string, Raw>, decode: Raw -> Option<RestaurantData>, keys: set<string>): set<string> {
    set k | k in keys && k in entries && decode(entries[k]).Some?
  }

  function DecodableKeys(entries: map<string, Raw>, decode: Raw -> Option<RestaurantData>): set<string> {
    DecodableKeysIn(entries, decode, entries.Keys)
  }

  /**
   * `out` lists every decodable entry exactly once, as the restaurant whose
   * id is the entry's key and whose other fields are the decoded ones.
   */
  predicate DecodedCatalog(entries: map<string, Raw>, decode: Raw -> Option<RestaurantData>, out: seq<Restaurant>) {
    && (forall i :: 0 <= i < |out| ==>
          out[i].id in entries && decode(entries[out[i].id]) == Some(DataOf(out[i])))
    && (forall k :: k in entries && decode(entries[k]).Some? ==> WithId(k, decode(entries[k]).value) in out)
    && (forall i, j :: 0 <= i < j < |out| ==> out[i].id != out[j].id)
    && |out| == |DecodableKeys(entries, decode)|
  }

  /**
   * `fetchRestaurants`: `read` is the outcome of reading the `restaurants`
   * node (`Failure` carries the description of the error the read threw),
   * `decode` the per-entry decoding step.
   */
  method FetchRestaurants(read: Result<Raw, string>, decode: Raw -> Option<RestaurantData>)
    returns (r: Result<seq<Restaurant>, RestaurantServiceError>)
    ensures read.Failure? ==> r == Failure(FirebaseError(read.error))
    ensures read.Success? && !read.value.Dict? ==> r == Failure(DataNotFound)
    ensures read.Success? && read.value.Dict? ==> r.Success? && DecodedCatalog(read.value.entries, decode, r.value)
    ensures r.Failure? ==> r.error == DataNotFound || r.error.FirebaseError?
  {
    if read.Failure? {
      return Failure(FirebaseError(read.error));
    }
    if !read.value.Dict? {
      return Failure(DataNotFound);
    }
    var entries := read.value.entries;
    var restaurants: seq<Restaurant> := [];
    var remaining := entries.Keys;
    while remaining != {}
      invariant remaining <= entries.Keys
      invariant forall i :: 0 <= i < |restaurants| ==>
        restaurants[i].id in entries.Keys - remaining
        && decode(entries[restaurants[i].id]) == Some(DataOf(restaurants[i]))
      invariant forall k :: k in entries.Keys - remaining && decode(entries[k]).Some? ==>
        WithId(k, decode(entries[k]).value) in restaurants
      invariant forall i, j :: 0 <= i < j < |restaurants| ==> restaurants[i].id != restaurants[j].id
      invariant |restaurants| == |DecodableKeysIn(entries, decode, entries.Keys - remaining)|
      decreases remaining
    {
      var key :| key in remaining;
      ghost var before := DecodableKeysIn(entries, decode, entries.Keys - remaining);
      match decode(entries[key]) {
        case Some(d) =>
          restaurants := restaurants + [WithId(key, d)];
          assert DecodableKeysIn(entries, decode, entries.Keys - (remaining - {key})) == before + {key};
        case None =>
          assert DecodableKeysIn(entries, decode, entries.Keys - (remaining - {key})) == before;
      }
      remaining := remaining - {key};
    }
    assert entries.Keys - remaining == entries.Keys;
    return Success(restaurants);
  }

  lemma SubsetSize(a: set<string>, b: set<string>)
    requires a <= b
    ensures |a| <= |b|
  {
    assert b == a + (b - a);
  }

  /**
   * The result is never longer than the node, and has one restaurant per
   * entry when every entry decodes.
   */
  lemma CatalogSize(entries: map<string, Raw>, decode: Raw -> Option<RestaurantData>, out: seq<Restaurant>)
    requires DecodedCatalog(entries, decode, out)
    ensures |out| <= |entries|
    ensures (forall k :: k in entries ==> decode(entries[k]).Some?) ==> |out| == |entries|
  {
    SubsetSize(DecodableKeys(entries, decode), entries.Keys);
    if forall k :: k in entries ==> decode(entries[k]).Some? {
      assert DecodableKeys(entries, decode) == entries.Keys;
    }
  }
}
