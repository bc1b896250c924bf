/** The express-validator rule lists of Backend/utils/validation.js (and the
    blog rules declared in the blog routes) as predicates over typed request
    bodies. A field whose check needs a parser (`isNumeric`, `isInt`,
    `isISO8601`, `isArray`) carries that parser's result: `None` is a value
    the parser rejects or a missing field. A string field that `notEmpty`
    checks is "" when it is missing. */
module Validation {
  import opened Common
  import opened Store
  import opened Strings

  /** The outcome of one validator of a chain on one field. */
  datatype Check = Check(field: string, passed: bool)

  /** `validationResult(req).array()`: the fields of the failed checks, in rule order. */
  function Failures(checks: seq<Check>): (r: seq<string>)
    ensures |r| <= |checks|
  {
    if checks == [] then []
    else (if checks[0].passed then [] else [checks[0].field]) + Failures(checks[1..])
  }

  /** `errors.isEmpty()` holds exactly when every check of the list passed. */
  lemma {:induction false} NoFailuresIffAllPass(checks: seq<Check>)
    ensures Failures(checks) == [] <==> forall c :: c in checks ==> c.passed
  {
    if checks != [] {
      NoFailuresIffAllPass(checks[1..]);
      assert checks == [checks[0]] + checks[1..];
    }
  }

  /** The same, position by position. */
  lemma NoFailuresIffAllPassAt(checks: seq<Check>)
    ensures Failures(checks) == [] <==> forall i :: 0 <= i < |checks| ==> checks[i].passed
  {
    NoFailuresIffAllPass(checks);
    if forall i :: 0 <= i < |checks| ==> checks[i].passed {
      forall c | c in checks
        ensures c.passed
      {
        var i :| 0 <= i < |checks| && checks[i] == c;
      }
    }
  }

  /** Checking two rule lists one after the other reports the failures of both, in order. */
  lemma {:induction false} FailuresAppend(a: seq<Check>, b: seq<Check>)
    ensures Failures(a + b) == Failures(a) + Failures(b)
  {
    if a == [] {
      assert a + b == b;
    } else {
      var head := if a[0].passed then [] else [a[0].field];
      assert (a + b)[0] == a[0];
      assert (a + b)[1..] == a[1..] + b;
      calc {
        Failures(a + b);
        head + Failures(a[1..] + b);
        { FailuresAppend(a[1..], b); }
        head + (Failures(a[1..]) + Failures(b));
        (head + Failures(a[1..])) + Failures(b);
        Failures(a) + Failures(b);
      }
    }
  }

  /** A failing check is reported: a rule list with a failed check has a non-empty error list. */
  lemma {:induction false} FailedCheckIsReported(checks: seq<Check>, i: nat)
    requires i < |checks| && !checks[i].passed
    ensures checks[i].field in Failures(checks)
  {
    if i > 0 {
      FailedCheckIsReported(checks[1..], i - 1);
    }
  }

  const ItemTypeNames: seq<string> := ["trip", "hotel", "car"]
  const VehicleTypes: seq<string> := ["sedan", "suv", "van", "luxury"]
  const TripTypes: seq<string> := ["weekly", "customized", "corporate"]

  function ItemTypeName(t: ItemType): string {
    match t
    case TripItem => "trip"
    case HotelItem => "hotel"
    case CarItem => "car"
  }

  /** The `{trip: Trip, hotel: Hotel, car: Vehicle}[itemType]` dispatch: which collection a tag names. */
  function ParseItemType(s: string): (r: Option<ItemType>)
    ensures r.Some? <==> s in ItemTypeNames
    ensures r.Some? ==> ItemTypeName(r.value) == s
  {
    if s == "trip" then Some(TripItem)
    else if s == "hotel" then Some(HotelItem)
    else if s == "car" then Some(CarItem)
    else None
  }

  lemma ItemTypeRoundTrip(t: ItemType)
    ensures ParseItemType(ItemTypeName(t)) == Some(t)
  {
  }

  /** A chain's `trim()` sanitizer, which runs after its `notEmpty()` and
      writes the trimmed value back into the body; an absent field stays absent. */
  function TrimField(v: Option<string>): Option<string> {
    if v.Some? then Some(Trim(v.value)) else None
  }

  predicate IsIntIn(v: Option<int>, lo: int, hi: int) {
    v.Some? && lo <= v.value <= hi
  }

  // ---- review rules ----

  /** `itemType` and `item` name the reviewed item; `user` is whatever the body sent. */
  datatype ReviewBody = ReviewBody(
    itemType: string,
    item: Id,
    rating: Option<int>,
    comment: string,
    user: Option<Id>)

  function ReviewChecks(b: ReviewBody): seq<Check> {
    [ Check("itemType", b.itemType in ItemTypeNames),
      Check("rating", IsIntIn(b.rating, 1, 5)),
      Check("comment", b.comment != "") ]
  }

  predicate ReviewValid(b: ReviewBody) {
    Failures(ReviewChecks(b)) == []
  }

  lemma ReviewValidIff(b: ReviewBody)
    ensures ReviewValid(b) <==>
      b.itemType in ItemTypeNames && b.rating.Some? && 1 <= b.rating.value <= 5 && b.comment != ""
  {
    NoFailuresIffAllPass(ReviewChecks(b));
  }

  // ---- booking rules ----

  datatype BookingBody = BookingBody(
    bookingType: string,
    item: Id,
    startDate: Option<int>,
    endDate: Option<int>,
    totalPrice: Option<real>,
    status: Option<string>,
    user: Option<Id>)

  function BookingChecks(b: BookingBody): seq<Check> {
    [ Check("bookingType", b.bookingType in ItemTypeNames),
      Check("startDate", b.startDate.Some?),
      Check("endDate", b.endDate.Some?),
      Check("totalPrice", b.totalPrice.Some?) ]
  }

  predicate BookingValid(b: BookingBody) {
    Failures(BookingChecks(b)) == []
  }

  lemma BookingValidIff(b: BookingBody)
    ensures BookingValid(b) <==>
      b.bookingType in ItemTypeNames && b.startDate.Some? && b.endDate.Some? && b.totalPrice.Some?
  {
    NoFailuresIffAllPass(BookingChecks(b));
  }

  // ---- vehicle rules ----

  /** The string fields are None when absent; the vehicle handlers also use
      this body as an update patch, where absent and empty differ. */
  datatype VehicleBody = VehicleBody(
    make: Option<string>,
    model: Option<string>,
    year: Option<real>,
    vehicleType: Option<string>,
    seats: Option<real>,
    pricePerDay: Option<real>,
    features: Option<seq<string>>,
    status: Option<string>,
    owner: Option<Id>)

  /** The rule list, as its two halves: the names, then the specification. */
  function VehicleChecks(b: VehicleBody): seq<Check> {
    VehicleNameChecks(b) + VehicleSpecChecks(b)
  }

  function VehicleNameChecks(b: VehicleBody): seq<Check> {
    [ Check("make", b.make.Some? && b.make.value != ""),
      Check("model", b.model.Some? && b.model.value != ""),
      Check("year", b.year.Some?) ]
  }

  function VehicleSpecChecks(b: VehicleBody): seq<Check> {
    [ Check("type", b.vehicleType.Some? && b.vehicleType.value in VehicleTypes),
      Check("seats", b.seats.Some?),
      Check("pricePerDay", b.pricePerDay.Some?),
      Check("features", b.features.Some?) ]
  }

  predicate VehicleValid(b: VehicleBody) {
    Failures(VehicleChecks(b)) == []
  }

  lemma VehicleValidIff(b: VehicleBody)
    ensures VehicleValid(b) <==>
      && b.make.Some? && b.make.value != "" && b.model.Some? && b.model.value != ""
      && b.year.Some? && b.vehicleType.Some? && b.vehicleType.value in VehicleTypes
      && b.seats.Some? && b.pricePerDay.Some? && b.features.Some?
  {
    var front, back := VehicleNameChecks(b), VehicleSpecChecks(b);
    FailuresAppend(front, back);
    NoFailuresIffAllPassAt(front);
    NoFailuresIffAllPassAt(back);
    assert (forall i :: 0 <= i < |front| ==> front[i].passed) <==>
      front[0].passed && front[1].passed && front[2].passed;
    assert (forall i :: 0 <= i < |back| ==> back[i].passed) <==>
      back[0].passed && back[1].passed && back[2].passed && back[3].passed;
  }

  // ---- trip rules ----

  /** `json` holds the body's remaining fields by name (`itinerary`,
      `includes`, `excludes`, ...), as sent. */
  datatype TripBody = TripBody(
    title: string,
    description: string,
    destination: string,
    duration: Option<real>,
    price: Option<real>,
    tripType: string,
    startDate: Option<int>,
    endDate: Option<int>,
    maxParticipants: Option<real>,
    json: map<string, Json>)

  /** The rule list, as its two halves: the descriptive fields, then the schedule. */
  function TripChecks(b: TripBody): seq<Check> {
    TripTextChecks(b) + TripScheduleChecks(b)
  }

  function TripTextChecks(b: TripBody): seq<Check> {
    [ Check("title", b.title != ""),
      Check("description", b.description != ""),
      Check("destination", b.destination != ""),
      Check("duration", b.duration.Some?),
      Check("price", b.price.Some?) ]
  }

  function TripScheduleChecks(b: TripBody): seq<Check> {
    [ Check("tripType", b.tripType in TripTypes),
      Check("startDate", b.startDate.Some?),
      Check("endDate", b.endDate.Some?),
      Check("maxParticipants", b.maxParticipants.Some?) ]
  }

  predicate TripValid(b: TripBody) {
    Failures(TripChecks(b)) == []
  }

  lemma TripValidIff(b: TripBody)
    ensures TripValid(b) <==>
      && b.title != "" && b.description != "" && b.destination != ""
      && b.duration.Some? && b.price.Some? && b.tripType in TripTypes
      && b.startDate.Some? && b.endDate.Some? && b.maxParticipants.Some?
  {
    var front, back := TripTextChecks(b), TripScheduleChecks(b);
    FailuresAppend(front, back);
    NoFailuresIffAllPassAt(front);
    NoFailuresIffAllPassAt(back);
    assert (forall i :: 0 <= i < |front| ==> front[i].passed) <==>
      front[0].passed && front[1].passed && front[2].passed && front[3].passed && front[4].passed;
    assert (forall i :: 0 <= i < |back| ==> back[i].passed) <==>
      back[0].passed && back[1].passed && back[2].passed && back[3].passed;
  }

  // ---- hotel rules ----

  /** `averageRating` is `parseFloat` of the sent value (None: missing or NaN). */
  datatype HotelBody = HotelBody(
    name: Option<string>,
    description: Option<string>,
    location: Option<Json>,
    amenities: Option<Json>,
    averageRating: Option<real>,
    owner: Option<Id>,
    status: Option<string>)

  /** express-validator's `notEmpty` on a JSON value: present and not the empty string. */
  predicate JsonNotEmpty(v: Option<Json>) {
    v.Some? && v.value != JString("") && v.value != JNull
  }

  /** `hotelValidation`. No route mounts this list: the hotel routes define
      their own rules. */
  function HotelChecks(b: HotelBody): seq<Check> {
    [ Check("name", b.name.Some? && b.name.value != ""),
      Check("description", b.description.Some? && b.description.value != ""),
      Check("location", JsonNotEmpty(b.location)),
      Check("amenities", b.amenities.Some? && b.amenities.value.JArray?) ]
  }

  predicate HotelValid(b: HotelBody) {
    Failures(HotelChecks(b)) == []
  }

  lemma HotelValidIff(b: HotelBody)
    ensures HotelValid(b) <==>
      && b.name.Some? && b.name.value != ""
      && b.description.Some? && b.description.value != ""
      && JsonNotEmpty(b.location)
      && b.amenities.Some? && b.amenities.value.JArray?
  {
    NoFailuresIffAllPass(HotelChecks(b));
  }

  // ---- blog rules ----

  /** The string fields are None when absent; `updateBlog` uses the body as a patch. */
  datatype BlogBody = BlogBody(
    title: Option<string>,
    content: Option<string>,
    featuredImage: Option<string>,
    tags: Option<seq<string>>,
    author: Option<Id>)

  /** `isUrl` is validator.js's URL recogniser, not modelled. */
  function BlogChecks(b: BlogBody, isUrl: string -> bool): seq<Check> {
    [ Check("title", b.title.Some? && b.title.value != ""),
      Check("content", b.content.Some? && b.content.value != ""),
      Check("featuredImage", b.featuredImage.Some? && b.featuredImage.value != ""),
      Check("featuredImage", b.featuredImage.Some? && isUrl(b.featuredImage.value)),
      Check("tags", b.tags.Some?) ]
  }

  predicate BlogValid(b: BlogBody, isUrl: string -> bool) {
    Failures(BlogChecks(b, isUrl)) == []
  }

  lemma BlogValidIff(b: BlogBody, isUrl: string -> bool)
    ensures BlogValid(b, isUrl) <==>
      && b.title.Some? && b.title.value != "" && b.content.Some? && b.content.value != ""
      && b.featuredImage.Some? && b.featuredImage.value != "" && isUrl(b.featuredImage.value) && b.tags.Some?
  {
    NoFailuresIffAllPass(BlogChecks(b, isUrl));
  }
}
