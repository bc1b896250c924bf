/** The document collections the controllers read and write. Each Mongoose
    model (User, Review, Booking, Trip, Hotel, Room, Blog, Vehicle) is a map
    from identifier to record inside one `Database` object; `nextId` stands
    for the store's generation of fresh ObjectIds. */
module Store {
  import opened Common

  datatype User = User(
    name: string,
    email: string,
    password: Option<string>,
    role: string,
    authType: Option<string>,
    verified: bool,
    googleId: Option<string>,
    profilePicture: Option<string>)

  /** The polymorphic item reference of reviews and bookings: `'trip' | 'hotel' | 'car'`. */
  datatype ItemType = TripItem | HotelItem | CarItem

  datatype Review = Review(user: Id, itemType: ItemType, item: Id, rating: int, comment: string)

  /** `status` is None while the schema default applies (Booking.js is not part of this model). */
  datatype Booking = Booking(
    user: Id,
    bookingType: ItemType,
    item: Id,
    status: Option<string>,
    startDate: int,
    endDate: int,
    totalPrice: real)

  /** Dates are instants in milliseconds; numeric fields are exact reals.
      Trip.js declares no `itinerary`, `includes` or `excludes` path, so a trip
      document never holds them. */
  datatype Trip = Trip(
    title: string,
    description: string,
    destination: string,
    duration: real,
    price: real,
    tripType: string,
    startDate: int,
    endDate: int,
    maxParticipants: real,
    currentParticipants: int,
    images: seq<Image>,
    averageRating: real)

  datatype Hotel = Hotel(
    owner: Id,
    name: string,
    description: string,
    location: Json,
    amenities: Json,
    images: seq<Image>,
    averageRating: real,
    status: string)

  datatype Room = Room(
    hotel: Id,
    roomType: string,
    pricePerNight: real,
    maxOccupancy: real,
    availability: bool,
    amenities: seq<string>,
    images: seq<Image>)

  datatype Comment = Comment(user: Id, content: string)

  datatype Blog = Blog(
    author: Id,
    title: string,
    content: string,
    featuredImage: string,
    tags: seq<string>,
    comments: seq<Comment>,
    updatedAt: Option<int>)

  datatype Vehicle = Vehicle(
    owner: Id,
    make: string,
    model: string,
    year: real,
    vehicleType: string,
    seats: real,
    pricePerDay: real,
    features: seq<string>,
    status: string,
    averageRating: real)

  predicate EmailTaken(users: map<Id, User>, email: string) {
    exists id :: id in users && users[id].email == email
  }

  ghost predicate UniqueEmails(users: map<Id, User>) {
    forall a, b :: a in users && b in users && users[a].email == users[b].email ==> a == b
  }

  ghost predicate RatingsInRange(reviews: map<Id, Review>) {
    forall k :: k in reviews ==> 1 <= reviews[k].rating <= 5
  }

  /** The reviews of one `(itemType, item)` pair: what `Review.find({itemType, item})` selects. */
  function ReviewsOf(reviews: map<Id, Review>, t: ItemType, item: Id): set<Id> {
    set k | k in reviews && reviews[k].itemType == t && reviews[k].item == item
  }

  /** Storing a new review adds exactly its id to its own pair's reviews and
      leaves every other pair's reviews as they were. */
  lemma ReviewsOfInsert(reviews: map<Id, Review>, id: Id, r: Review)
    requires id !in reviews
    ensures ReviewsOf(reviews[id := r], r.itemType, r.item) == ReviewsOf(reviews, r.itemType, r.item) + {id}
    ensures forall t: ItemType, item: Id :: (t, item) != (r.itemType, r.item) ==>
      ReviewsOf(reviews[id := r], t, item) == ReviewsOf(reviews, t, item)
  {
  }

  /** The `status` enum of Backend/models/Vehicle.js. */
  const VehicleStatuses: seq<string> := ["active", "inactive", "maintenance"]

  /** The schema rejects any save or validated update that leaves a vehicle's
      status outside its enum. */
  ghost predicate StatusesInEnum(vehicles: map<Id, Vehicle>) {
    forall k :: k in vehicles ==> vehicles[k].status in VehicleStatuses
  }

  class Database {
    var users: map<Id, User>
    var reviews: map<Id, Review>
    var bookings: map<Id, Booking>
    var trips: map<Id, Trip>
    var hotels: map<Id, Hotel>
    var rooms: map<Id, Room>
    var blogs: map<Id, Blog>
    var vehicles: map<Id, Vehicle>
    var nextId: nat

    /** Every identifier in use was issued before `nextId`; e-mail addresses
        identify users; stored ratings lie in 1..5; vehicle statuses are in
        their enum. */
    ghost predicate Valid()
      reads this
    {
      && (forall k :: k in users ==> k < nextId)
      && (forall k :: k in reviews ==> k < nextId)
      && (forall k :: k in bookings ==> k < nextId)
      && (forall k :: k in trips ==> k < nextId)
      && (forall k :: k in hotels ==> k < nextId)
      && (forall k :: k in rooms ==> k < nextId)
      && (forall k :: k in blogs ==> k < nextId)
      && (forall k :: k in vehicles ==> k < nextId)
      && UniqueEmails(users)
      && RatingsInRange(reviews)
      && StatusesInEnum(vehicles)
    }

    constructor ()
      ensures Valid()
      ensures users == map[] && reviews == map[] && bookings == map[] && trips == map[]
      ensures hotels == map[] && rooms == map[] && blogs == map[] && vehicles == map[]
    {
      users, reviews, bookings, trips := map[], map[], map[], map[];
      hotels, rooms, blogs, vehicles := map[], map[], map[], map[];
      nextId := 0;
    }

    /** A fresh ObjectId: one no collection uses yet. */
    method NewId() returns (id: Id)
      requires Valid()
      modifies this`nextId
      ensures Valid()
      ensures id == old(nextId) && nextId == id + 1
      ensures id !in users && id !in reviews && id !in bookings && id !in trips
      ensures id !in hotels && id !in rooms && id !in blogs && id !in vehicles
    {
      id := nextId;
      nextId := nextId + 1;
    }

    /** `User.findOne({ email })`; e-mails are unique, so the match is the only one. */
    method FindUserByEmail(email: string) returns (found: Option<Id>)
      requires Valid()
      ensures found.Some? ==> found.value in users && users[found.value].email == email
      ensures found.None? <==> !EmailTaken(users, email)
    {
      if id :| id in users && users[id].email == email {
        found := Some(id);
      } else {
        found := None;
      }
    }

    /** `Review.find({ itemType, item })`: every matching review exactly once,
        in an order the store chooses. */
    method FindReviews(t: ItemType, item: Id) returns (found: seq<Id>)
      ensures forall i :: 0 <= i < |found| ==> found[i] in reviews
      ensures multiset(found) == multiset(ReviewsOf(reviews, t, item))
    {
      found := [];
      var rest := reviews.Keys;
      ghost var matching := ReviewsOf(reviews, t, item);
      while rest != {}
        invariant rest <= reviews.Keys
        invariant forall i :: 0 <= i < |found| ==> found[i] in reviews
        invariant multiset(found) == multiset(matching - rest)
        decreases rest
      {
        var k :| k in rest;
        if reviews[k].itemType == t && reviews[k].item == item {
          assert matching - (rest - {k}) == (matching - rest) + {k};
          found := found + [k];
        } else {
          assert matching - (rest - {k}) == matching - rest;
        }
        rest := rest - {k};
      }
      assert matching - rest == matching;
    }
  }
}
