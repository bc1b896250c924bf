/** The trip handlers of Backend/controllers/tripController.js: the filtered,
    paginated listing, creation and update with their image and JSON-field
    rules, and reading or deleting one stored image by index. */
module Trips {
  import opened Common
  import opened Store
  import opened Validation
  import opened Paging
  import opened JsonDocs

  // ---- listing ----

  /** The `price` condition `getAllTrips` builds: `$gte` from `minPrice`, then
      `$lte` from `maxPrice` spread over it. */
  datatype PriceRange = PriceRange(gte: Option<real>, lte: Option<real>)

  /** `minPrice`, `maxPrice` are `parseFloat` of a truthy query string; None: absent or empty. */
  function PriceQuery(minPrice: Option<real>, maxPrice: Option<real>): Option<PriceRange> {
    var afterMin := if minPrice.Some? then Some(PriceRange(minPrice, None)) else None;
    if maxPrice.Some? then Some(PriceRange(if afterMin.Some? then afterMin.value.gte else None, maxPrice))
    else afterMin
  }

  predicate PriceMatches(q: Option<PriceRange>, price: real) {
    q.None? ||
    ((q.value.gte.None? || price >= q.value.gte.value) && (q.value.lte.None? || price <= q.value.lte.value))
  }

  /** min only: at least min; max only: at most max; both: both bounds; neither: no condition. */
  lemma PriceFilter(minPrice: Option<real>, maxPrice: Option<real>, price: real)
    ensures PriceMatches(PriceQuery(minPrice, maxPrice), price) <==>
      (minPrice.Some? ==> price >= minPrice.value) && (maxPrice.Some? ==> price <= maxPrice.value)
    ensures PriceQuery(minPrice, maxPrice).None? <==> minPrice.None? && maxPrice.None?
  {
  }

  /** The query filters modelled; `tripType` is "" when absent. */
  datatype TripQuery = TripQuery(minPrice: Option<real>, maxPrice: Option<real>, tripType: string)

  predicate TripMatches(t: Trip, q: TripQuery) {
    PriceMatches(PriceQuery(q.minPrice, q.maxPrice), t.price) && (q.tripType == "" || t.tripType == q.tripType)
  }

  function Matching(listing: seq<Trip>, q: TripQuery): seq<Trip> {
    Filter(listing, t => TripMatches(t, q))
  }

  /** `getAllTrips` over the collection `listing`, in the requested sort
      order; the query's defaults are page 1 and limit 10. */
  function AllTrips(listing: seq<Trip>, q: TripQuery, page: int, limit: nat): Option<Page<Trip>> {
    Paginate(Matching(listing, q), page, limit)
  }

  /** The listing returns matching trips only, at most `limit` of them, with
      the count of all matches and the ceiling of its quotient by `limit`. */
  lemma AllTripsPage(listing: seq<Trip>, q: TripQuery, page: int, limit: nat)
    requires AllTrips(listing, q, page, limit).Some?
    ensures var p := AllTrips(listing, q, page, limit).value;
      && p.total == |Matching(listing, q)|
      && (forall i :: 0 <= i < |p.items| ==> TripMatches(p.items[i], q))
      && (limit > 0 ==> |p.items| <= limit && p.totalPages == Some(CeilDiv(p.total, limit)))
      && (forall t :: t in listing && TripMatches(t, q) ==> t in Matching(listing, q))
  {
    forall t | t in listing && TripMatches(t, q)
      ensures t in Matching(listing, q)
    {
      FilterKeepsMatches(listing, t => TripMatches(t, q), t);
    }
    PageShape(Matching(listing, q), page, limit);
  }

  // ---- create and update ----

  const TripJsonFields: seq<string> := ["itinerary", "includes", "excludes"]

  /** One step of the JSON-field loop: a non-empty string is replaced by what
      it parses to (None: leave it); a failed parse is logged and leaves it too. */
  function ParseIfString(parse: string -> Option<Json>, field: string, v: Option<Json>): Option<Json> {
    if v.Some? && v.value.JString? && v.value.s != "" then parse(v.value.s) else None
  }

  /** A field that fails to parse, or is not a non-empty string, keeps its
      original value; one that parses is replaced by the parsed value. */
  lemma JsonFieldRule(parse: string -> Option<Json>, field: string, v: Option<Json>)
    ensures v.Some? && v.value.JString? && v.value.s != "" && parse(v.value.s).Some? ==>
      Overlay(ParseIfString(parse, field, v), v) == parse(v.value.s)
    ensures v.None? || !v.value.JString? || v.value.s == "" || parse(v.value.s).None? ==>
      Overlay(ParseIfString(parse, field, v), v) == v
  {
  }

  /** The trip `createTrip` stores for a body that names no counter: the
      validated fields, the counters at their schema defaults, and one image
      per uploaded file in upload order (the schema default `[]` when none was
      uploaded). */
  function NewTrip(b: TripBody, uploads: seq<Image>): (t: Trip)
    requires TripValid(b)
    ensures t.currentParticipants == 0 && t.averageRating == 0.0 && t.images == uploads
    ensures b.price.Some? && t.title == b.title && t.price == b.price.value && t.tripType == b.tripType
  {
    TripValidIff(b);
    Trip(b.title, b.description, b.destination, b.duration.value, b.price.value, b.tripType,
         b.startDate.value, b.endDate.value, b.maxParticipants.value, 0, uploads, 0.0)
  }

  /** The trip after `updateTrip`: the validated fields as sent; uploaded
      images replace the list, otherwise the stored images stay. */
  function UpdatedTrip(t: Trip, b: TripBody, uploads: seq<Image>): (u: Trip)
    requires TripValid(b)
  {
    TripValidIff(b);
    t.(title := b.title, description := b.description, destination := b.destination,
       duration := b.duration.value, price := b.price.value, tripType := b.tripType,
       startDate := b.startDate.value, endDate := b.endDate.value,
       maxParticipants := b.maxParticipants.value,
       images := if |uploads| > 0 then uploads else t.images)
  }

  /** Replace-or-retain: uploads win, no upload keeps the stored list; for a
      body that names no counter, the participant counter and the rating
      aggregate survive an update. */
  lemma UpdatedTripKeeps(t: Trip, b: TripBody, uploads: seq<Image>)
    requires TripValid(b)
    ensures |uploads| > 0 ==> UpdatedTrip(t, b, uploads).images == uploads
    ensures |uploads| == 0 ==> UpdatedTrip(t, b, uploads).images == t.images
    ensures UpdatedTrip(t, b, uploads).currentParticipants == t.currentParticipants
    ensures UpdatedTrip(t, b, uploads).averageRating == t.averageRating
    ensures b.price.Some? && UpdatedTrip(t, b, uploads).title == b.title && UpdatedTrip(t, b, uploads).price == b.price.value
  {
    TripValidIff(b);
  }

  lemma TripJsonFieldsDistinct()
    ensures Distinct(TripJsonFields)
  {
  }

  /** `createTrip`. `parse` is `JSON.parse`. The JSON fields are parsed as
      the handler does, but Trip.js has no paths for them and `Trip.create`
      keeps only schema paths, so the parsed values are not stored. */
  method CreateTrip(db: Database, body: TripBody, uploads: seq<Image>, parse: string -> Option<Json>)
    returns (status: Status, trip: Option<Id>, listing: seq<ImageRef>)
    requires db.Valid()
    modifies db`trips, db`nextId
    ensures db.Valid()
    ensures !TripValid(body) ==> status == BadRequest && trip.None? && db.trips == old(db.trips)
    ensures TripValid(body) ==>
      && status == Created && trip.Some? && trip.value !in old(db.trips)
      && db.trips == old(db.trips)[trip.value := NewTrip(body, uploads)]
      && listing == Listing(uploads)
  {
    if !TripValid(body) {
      return BadRequest, None, [];
    }
    TripJsonFieldsDistinct();
    var tripData := RewriteFields(body.json, TripJsonFields, (f, v) => ParseIfString(parse, f, v));
    var id := db.NewId();
    var t := NewTrip(body, uploads);
    db.trips := db.trips[id := t];
    status, trip, listing := Created, Some(id), Listing(t.images);
  }

  /** `updateTrip`: the rules are checked before the trip is looked up. */
  method UpdateTrip(db: Database, id: Id, body: TripBody, uploads: seq<Image>, parse: string -> Option<Json>)
    returns (status: Status, listing: seq<ImageRef>)
    requires db.Valid()
    modifies db`trips
    ensures db.Valid()
    ensures !TripValid(body) ==> status == BadRequest && db.trips == old(db.trips)
    ensures TripValid(body) && id !in old(db.trips) ==> status == NotFound && db.trips == old(db.trips)
    ensures TripValid(body) && id in old(db.trips) ==>
      && status == Ok
      && db.trips == old(db.trips)[id := UpdatedTrip(old(db.trips)[id], body, uploads)]
      && listing == Listing(db.trips[id].images)
  {
    if !TripValid(body) {
      return BadRequest, [];
    }
    if id !in db.trips {
      return NotFound, [];
    }
    TripJsonFieldsDistinct();
    var updateData := RewriteFields(body.json, TripJsonFields, (f, v) => ParseIfString(parse, f, v));
    var t := UpdatedTrip(db.trips[id], body, uploads);
    db.trips := db.trips[id := t];
    status, listing := Ok, Listing(t.images);
  }

  // ---- images ----

  /** `getTripImage`: 404 for a missing trip or one without images, 400 for an
      index that is not an integer in range, otherwise that image. */
  method GetTripImage(db: Database, id: Id, index: Option<int>) returns (status: Status, image: Option<Image>)
    ensures id !in db.trips || db.trips[id].images == [] ==> status == NotFound && image.None?
    ensures id in db.trips && db.trips[id].images != [] && !IndexIn(index, |db.trips[id].images|) ==>
      status == BadRequest && image.None?
    ensures id in db.trips && IndexIn(index, |db.trips[id].images|) ==>
      status == Ok && image == Some(db.trips[id].images[index.value])
  {
    if id !in db.trips || db.trips[id].images == [] {
      return NotFound, None;
    }
    var images := db.trips[id].images;
    if !IndexIn(index, |images|) {
      return BadRequest, None;
    }
    status, image := Ok, Some(images[index.value]);
  }

  /** `deleteImage`: the same 404 and 400 guards; otherwise exactly the image
      at the index is spliced out and the rest are listed, re-indexed from 0. */
  method DeleteTripImage(db: Database, id: Id, index: Option<int>) returns (status: Status, listing: seq<ImageRef>)
    requires db.Valid()
    modifies db`trips
    ensures db.Valid()
    ensures id !in old(db.trips) || old(db.trips)[id].images == [] ==>
      status == NotFound && db.trips == old(db.trips)
    ensures id in old(db.trips) && old(db.trips)[id].images != [] && !IndexIn(index, |old(db.trips)[id].images|) ==>
      status == BadRequest && db.trips == old(db.trips)
    ensures id in old(db.trips) && IndexIn(index, |old(db.trips)[id].images|) ==>
      && status == Ok
      && db.trips == old(db.trips)[id := old(db.trips)[id].(images := RemoveAt(old(db.trips)[id].images, index.value))]
      && listing == Listing(db.trips[id].images)
  {
    if id !in db.trips || db.trips[id].images == [] {
      return NotFound, [];
    }
    var t := db.trips[id];
    if !IndexIn(index, |t.images|) {
      return BadRequest, [];
    }
    var images := RemoveAt(t.images, index.value);
    db.trips := db.trips[id := t.(images := images)];
    status, listing := Ok, Listing(images);
  }

  /** After a deletion the listing has one entry fewer, indexed 0..n-2, and
      carries the remaining images' types in their old order. */
  lemma DeletionListing(images: seq<Image>, i: nat)
    requires i < |images|
    ensures var l := Listing(RemoveAt(images, i));
      && |l| == |images| - 1
      && (forall j :: 0 <= j < |l| ==> l[j].index == j)
      && (forall j :: 0 <= j < i ==> l[j].contentType == images[j].contentType)
      && (forall j :: i <= j < |l| ==> l[j].contentType == images[j + 1].contentType)
  {
  }
}
