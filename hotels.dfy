/** The hotel handlers of Backend/controllers/hotelController.js: the
    `safeJSONParse` rule for the `amenities` and `location` fields, the
    rating-filtered paginated listing, creation, update and image deletion.
    The handlers themselves check no rules. */
module Hotels {
  import opened Common
  import opened Store
  import opened Validation
  import opened Paging
  import opened JsonDocs

  // ---- safeJSONParse ----

  /** `safeJSONParse(value, defaultValue)`. `parse` is `JSON.parse` (None: it throws). */
  function SafeJsonParse(v: Option<Json>, default: Json, parse: string -> Option<Json>): Json {
    if v.Some? && v.value.JString? then parse(v.value.s).GetOr(default)
    else if v.Some? && Truthy(v.value) then v.value
    else default
  }

  /** The four cases: a string that parses gives the parse, one that does not
      gives the default, a truthy non-string is kept, anything else (absent,
      `null`, `false`, `0`) gives the default. */
  lemma SafeJsonParseCases(v: Option<Json>, default: Json, parse: string -> Option<Json>)
    ensures v.Some? && v.value.JString? && parse(v.value.s).Some? ==>
      SafeJsonParse(v, default, parse) == parse(v.value.s).value
    ensures v.Some? && v.value.JString? && parse(v.value.s).None? ==>
      SafeJsonParse(v, default, parse) == default
    ensures v.Some? && !v.value.JString? && Truthy(v.value) ==> SafeJsonParse(v, default, parse) == v.value
    ensures (v.None? || (!v.value.JString? && !Truthy(v.value))) ==> SafeJsonParse(v, default, parse) == default
  {
  }

  /** A value that is already parsed is left as it is: parsing is idempotent
      on everything but strings. */
  lemma SafeJsonParseIdempotent(v: Option<Json>, default: Json, parse: string -> Option<Json>)
    requires !default.JString? && Truthy(default)
    requires v.None? || !v.value.JString?
    ensures SafeJsonParse(Some(SafeJsonParse(v, default, parse)), default, parse) == SafeJsonParse(v, default, parse)
  {
  }

  const HotelJsonFields: seq<string> := ["amenities", "location"]

  /** The default each JSON field falls back to: `[]` for amenities, `{}` otherwise. */
  function HotelDefault(field: string): (d: Json)
    ensures field == "amenities" ==> d == JArray([])
    ensures field != "amenities" ==> d == JObject([])
  {
    if field == "amenities" then JArray([]) else JObject([])
  }

  /** The two JSON fields of the body as the document the loop rewrites. */
  function JsonDoc(b: HotelBody): (d: Doc)
    ensures Lookup(d, "amenities") == b.amenities && Lookup(d, "location") == b.location
  {
    var withAmenities: Doc := if b.amenities.Some? then map["amenities" := b.amenities.value] else map[];
    if b.location.Some? then withAmenities["location" := b.location.value] else withAmenities
  }

  /** The `jsonFields.forEach` loop of `createHotel` and `updateHotel`:
      both fields end up defined, each from its own value and default. */
  method ParseJsonFields(b: HotelBody, parse: string -> Option<Json>) returns (location: Json, amenities: Json)
    ensures location == SafeJsonParse(b.location, JObject([]), parse)
    ensures amenities == SafeJsonParse(b.amenities, JArray([]), parse)
  {
    var body := JsonDoc(b);
    var rewrite := (f, v) => Some(SafeJsonParse(v, HotelDefault(f), parse));
    assert HotelJsonFields[0] == "amenities" && HotelJsonFields[1] == "location";
    var doc := RewriteFields(body, HotelJsonFields, rewrite);
    assert HotelDefault("location") == JObject([]);
    assert rewrite("location", b.location) == Some(SafeJsonParse(b.location, JObject([]), parse));
    assert rewrite("amenities", b.amenities) == Some(SafeJsonParse(b.amenities, JArray([]), parse));
    assert Lookup(doc, "location") == Some(SafeJsonParse(b.location, JObject([]), parse));
    assert Lookup(doc, "amenities") == Some(SafeJsonParse(b.amenities, JArray([]), parse));
    location, amenities := doc["location"], doc["amenities"];
  }

  // ---- listing ----

  /** The `minRating` filter and the `status` filter; an empty status query
      string is falsy and filters nothing. */
  predicate HotelMatches(h: Hotel, minRating: Option<real>, status: Option<string>) {
    && (minRating.None? || h.averageRating >= minRating.value)
    && (status.None? || status.value == "" || h.status == status.value)
  }

  /** `Hotel.find(query)` with the `minRating` and `status` filters, in listing order. */
  function MatchingHotels(listing: seq<Hotel>, minRating: Option<real>, status: Option<string>): seq<Hotel> {
    Filter(listing, h => HotelMatches(h, minRating, status))
  }

  /** `getAllHotels` with its `minRating` and `status` filters, over the
      collection listed in the requested sort order; the defaults are page 1
      and limit 10. */
  function AllHotels(listing: seq<Hotel>, minRating: Option<real>, status: Option<string>, page: int, limit: nat): Option<Page<Hotel>> {
    Paginate(MatchingHotels(listing, minRating, status), page, limit)
  }

  /** Every listed hotel is rated at least `minRating` and has the queried
      status; a page holds at most `limit` of them; the page count is the
      ceiling of the total over `limit`; no hotel that qualifies is missing
      from the matches. */
  lemma AllHotelsPage(listing: seq<Hotel>, minRating: Option<real>, status: Option<string>, page: int, limit: nat)
    requires AllHotels(listing, minRating, status, page, limit).Some?
    ensures var p := AllHotels(listing, minRating, status, page, limit).value;
      && p.total == |MatchingHotels(listing, minRating, status)|
      && (forall i :: 0 <= i < |p.items| ==> HotelMatches(p.items[i], minRating, status))
      && (limit > 0 ==> |p.items| <= limit && p.totalPages == Some(CeilDiv(p.total, limit)))
      && (forall h :: h in listing && HotelMatches(h, minRating, status) ==> h in MatchingHotels(listing, minRating, status))
  {
    forall h | h in listing && HotelMatches(h, minRating, status)
      ensures h in MatchingHotels(listing, minRating, status)
    {
      FilterKeepsMatches(listing, h => HotelMatches(h, minRating, status), h);
    }
    PageShape(MatchingHotels(listing, minRating, status), page, limit);
  }

  // ---- create and update ----

  /** Backend/models/Hotel.js requires a non-empty `name` and `description`. */
  predicate RequiredPresent(b: HotelBody) {
    b.name.Some? && b.name.value != "" && b.description.Some? && b.description.value != ""
  }

  /** The schema's `status` enum, and the default it fills in for a missing
      status, which lies outside that enum. */
  const HotelStatuses: seq<string> := ["available", "unavailable"]
  const DefaultHotelStatus: string := "pending"

  /** The status `Hotel.create` validates: the sent one, or the default. */
  function CreatedStatus(b: HotelBody): (s: string)
    ensures b.status.Some? ==> s == b.status.value
  {
    b.status.GetOr(DefaultHotelStatus)
  }

  /** What `Hotel.create` validates: the required strings, and the status
      (defaulted when absent) within the enum. */
  predicate CreateAccepted(b: HotelBody) {
    RequiredPresent(b) && CreatedStatus(b) in HotelStatuses
  }

  /** A hotel is created exactly when the required strings are present and
      the body sends `available` or `unavailable`: the default lies outside
      its own enum, so a body without a status is refused, and so is the
      `unactive` that the hotel route's own rule admits. */
  lemma CreateAcceptedIff(b: HotelBody)
    ensures CreateAccepted(b) <==>
      RequiredPresent(b) && (b.status == Some("available") || b.status == Some("unavailable"))
    ensures b.status.None? ==> !CreateAccepted(b)
    ensures b.status == Some("unactive") ==> !CreateAccepted(b)
  {
    assert DefaultHotelStatus !in HotelStatuses;
  }

  /** The hotel `createHotel` stores: the body's fields with both JSON fields
      parsed, `averageRating` as `parseFloat(...) || 0`, the requester as owner. */
  function NewHotel(who: Principal, b: HotelBody, uploads: seq<Image>, parse: string -> Option<Json>): (h: Hotel)
    requires CreateAccepted(b)
    ensures h.owner == who.id && h.images == uploads
    ensures h.name == b.name.value && h.description == b.description.value
    ensures h.status == b.status.value && h.status in HotelStatuses
  {
    Hotel(who.id, b.name.value, b.description.value, SafeJsonParse(b.location, JObject([]), parse),
          SafeJsonParse(b.amenities, JArray([]), parse), uploads, b.averageRating.GetOr(0.0),
          CreatedStatus(b))
  }

  /** The owner is the requester whatever the body names; the rating is the
      sent one or 0; both JSON fields are set, absent ones to their defaults. */
  lemma NewHotelFields(who: Principal, b: HotelBody, uploads: seq<Image>, parse: string -> Option<Json>)
    requires CreateAccepted(b)
    ensures b.owner.Some? ==> NewHotel(who, b, uploads, parse).owner == who.id
    ensures b.averageRating.None? ==> NewHotel(who, b, uploads, parse).averageRating == 0.0
    ensures b.averageRating.Some? ==> NewHotel(who, b, uploads, parse).averageRating == b.averageRating.value
    ensures b.location.None? ==> NewHotel(who, b, uploads, parse).location == JObject([])
    ensures b.amenities.None? ==> NewHotel(who, b, uploads, parse).amenities == JArray([])
  {
  }

  /** `createHotel`; a body the schema rejects, a missing status included, is
      answered 500. */
  method CreateHotel(db: Database, who: Principal, body: HotelBody, uploads: seq<Image>, parse: string -> Option<Json>)
    returns (status: Status, hotel: Option<Id>, listing: seq<ImageRef>)
    requires db.Valid()
    modifies db`hotels, db`nextId
    ensures db.Valid()
    ensures !CreateAccepted(body) ==> status == ServerError && hotel.None? && db.hotels == old(db.hotels)
    ensures CreateAccepted(body) ==>
      && status == Created && hotel.Some? && hotel.value !in old(db.hotels)
      && db.hotels == old(db.hotels)[hotel.value := NewHotel(who, body, uploads, parse)]
      && listing == Listing(uploads)
  {
    var location, amenities := ParseJsonFields(body, parse);
    var rating := body.averageRating.GetOr(0.0);
    if !CreateAccepted(body) {
      return ServerError, None, [];
    }
    var id := db.NewId();
    var h := Hotel(who.id, body.name.value, body.description.value, location, amenities, uploads, rating,
                   body.status.value);
    db.hotels := db.hotels[id := h];
    status, hotel, listing := Created, Some(id), Listing(h.images);
  }

  /** The update validators reject a required string sent empty, and a sent
      status outside the enum; an absent status is not validated. */
  predicate UpdateAccepted(b: HotelBody) {
    b.name != Some("") && b.description != Some("") && (b.status.None? || b.status.value in HotelStatuses)
  }

  /** The hotel after `updateHotel`: sent fields overwrite (the owner too),
      absent ones stay, except that both JSON fields and `averageRating` are
      always written and the images are the upload or the stored list. */
  function UpdatedHotel(h: Hotel, b: HotelBody, uploads: seq<Image>, parse: string -> Option<Json>): Hotel {
    h.(owner := b.owner.GetOr(h.owner),
       name := b.name.GetOr(h.name),
       description := b.description.GetOr(h.description),
       location := SafeJsonParse(b.location, JObject([]), parse),
       amenities := SafeJsonParse(b.amenities, JArray([]), parse),
       images := if |uploads| > 0 then uploads else h.images,
       averageRating := b.averageRating.GetOr(0.0),
       status := b.status.GetOr(h.status))
  }

  /** An update that sends no rating resets the aggregate the reviews wrote to
      0, and one that sends no location or amenities resets those to their
      defaults; uploads replace the images and no upload keeps them. */
  lemma UpdateResets(h: Hotel, b: HotelBody, uploads: seq<Image>, parse: string -> Option<Json>)
    ensures b.averageRating.None? ==> UpdatedHotel(h, b, uploads, parse).averageRating == 0.0
    ensures b.location.None? ==> UpdatedHotel(h, b, uploads, parse).location == JObject([])
    ensures b.amenities.None? ==> UpdatedHotel(h, b, uploads, parse).amenities == JArray([])
    ensures |uploads| > 0 ==> UpdatedHotel(h, b, uploads, parse).images == uploads
    ensures |uploads| == 0 ==> UpdatedHotel(h, b, uploads, parse).images == h.images
    ensures b.name.None? && b.owner.None? ==>
      UpdatedHotel(h, b, uploads, parse).name == h.name && UpdatedHotel(h, b, uploads, parse).owner == h.owner
    ensures b.status.None? ==> UpdatedHotel(h, b, uploads, parse).status == h.status
    ensures UpdateAccepted(b) && h.status in HotelStatuses ==> UpdatedHotel(h, b, uploads, parse).status in HotelStatuses
  {
  }

  /** `updateHotel`: 404 for a missing hotel, 500 for a patch the update
      validators reject (an empty required string or a status outside the
      enum), otherwise the patched hotel. No ownership check. */
  method UpdateHotel(db: Database, id: Id, body: HotelBody, uploads: seq<Image>, parse: string -> Option<Json>)
    returns (status: Status, listing: seq<ImageRef>)
    requires db.Valid()
    modifies db`hotels
    ensures db.Valid()
    ensures id !in old(db.hotels) ==> status == NotFound && db.hotels == old(db.hotels)
    ensures id in old(db.hotels) && !UpdateAccepted(body) ==> status == ServerError && db.hotels == old(db.hotels)
    ensures id in old(db.hotels) && UpdateAccepted(body) ==>
      && status == Ok
      && db.hotels == old(db.hotels)[id := UpdatedHotel(old(db.hotels)[id], body, uploads, parse)]
      && listing == Listing(db.hotels[id].images)
  {
    if id !in db.hotels {
      return NotFound, [];
    }
    var existing := db.hotels[id];
    var images := if |uploads| > 0 then uploads else existing.images;
    var location, amenities := ParseJsonFields(body, parse);
    var rating := body.averageRating.GetOr(0.0);
    if !UpdateAccepted(body) {
      return ServerError, [];
    }
    var h := existing.(owner := body.owner.GetOr(existing.owner),
                       name := body.name.GetOr(existing.name),
                       description := body.description.GetOr(existing.description),
                       location := location, amenities := amenities,
                       images := images, averageRating := rating,
                       status := body.status.GetOr(existing.status));
    db.hotels := db.hotels[id := h];
    status, listing := Ok, Listing(images);
  }

  // ---- images ----

  /** `deleteImage`: 404 for a missing hotel or one without images, 400 for an
      index that is not an integer in range, otherwise exactly that image is
      spliced out and the rest are listed, re-indexed from 0. */
  method DeleteHotelImage(db: Database, id: Id, index: Option<int>) returns (status: Status, listing: seq<ImageRef>)
    requires db.Valid()
    modifies db`hotels
    ensures db.Valid()
    ensures id !in old(db.hotels) || old(db.hotels)[id].images == [] ==>
      status == NotFound && db.hotels == old(db.hotels)
    ensures id in old(db.hotels) && old(db.hotels)[id].images != [] && !IndexIn(index, |old(db.hotels)[id].images|) ==>
      status == BadRequest && db.hotels == old(db.hotels)
    ensures id in old(db.hotels) && IndexIn(index, |old(db.hotels)[id].images|) ==>
      && status == Ok
      && db.hotels == old(db.hotels)[id := old(db.hotels)[id].(images := RemoveAt(old(db.hotels)[id].images, index.value))]
      && listing == Listing(db.hotels[id].images)
  {
    if id !in db.hotels || db.hotels[id].images == [] {
      return NotFound, [];
    }
    var h := db.hotels[id];
    if !IndexIn(index, |h.images|) {
      return BadRequest, [];
    }
    var images := RemoveAt(h.images, index.value);
    db.hotels := db.hotels[id := h.(images := images)];
    status, listing := Ok, Listing(images);
  }
}
