/** The booking handlers of Backend/controllers/bookingController.js. A trip
    booking moves the trip's `currentParticipants` counter up on creation and
    down on cancellation, with no bound and no check of the booking's
    previous status. */
module Bookings {
  import opened Common
  import opened Store
  import opened Validation

  /** `Booking.find({ user })`: the requester's bookings. */
  function BookingsOf(bookings: map<Id, Booking>, user: Id): map<Id, Booking> {
    map k | k in bookings && bookings[k].user == user :: bookings[k]
  }

  /** A new booking shows up in its owner's list, under its id, and in no one else's. */
  lemma BookingsOfInsert(bookings: map<Id, Booking>, id: Id, b: Booking)
    requires id !in bookings
    ensures BookingsOf(bookings[id := b], b.user) == BookingsOf(bookings, b.user)[id := b]
    ensures forall user: Id :: user != b.user ==> BookingsOf(bookings[id := b], user) == BookingsOf(bookings, user)
  {
  }

  method GetBookings(db: Database, who: Principal) returns (r: map<Id, Booking>)
    ensures forall k :: k in r <==> k in db.bookings && db.bookings[k].user == who.id
    ensures forall k :: k in r ==> r[k] == db.bookings[k]
  {
    r := BookingsOf(db.bookings, who.id);
  }

  /** `Trip.findByIdAndUpdate(item, { $inc: { currentParticipants: delta } })`:
      a missing trip is left missing. */
  function AdjustParticipants(trips: map<Id, Trip>, item: Id, delta: int): (r: map<Id, Trip>)
    ensures r.Keys == trips.Keys
    ensures item in trips ==> r[item] == trips[item].(currentParticipants := trips[item].currentParticipants + delta)
    ensures forall k :: k in trips && k != item ==> r[k] == trips[k]
  {
    if item in trips then trips[item := trips[item].(currentParticipants := trips[item].currentParticipants + delta)]
    else trips
  }

  /** A booking followed by its cancellation leaves the counter where it was. */
  lemma AdjustInverse(trips: map<Id, Trip>, item: Id, delta: int)
    ensures AdjustParticipants(AdjustParticipants(trips, item, delta), item, -delta) == trips
  {
  }

  /** Two adjustments add up. */
  lemma AdjustCompose(trips: map<Id, Trip>, item: Id, d1: int, d2: int)
    ensures AdjustParticipants(AdjustParticipants(trips, item, d1), item, d2) == AdjustParticipants(trips, item, d1 + d2)
  {
  }

  /** The record `createBooking` stores: the body's fields, with `user` forced to the requester. */
  function NewBooking(who: Principal, body: BookingBody): (b: Booking)
    requires BookingValid(body)
    ensures b.user == who.id && b.item == body.item && b.status == body.status
    ensures ItemTypeName(b.bookingType) == body.bookingType
  {
    BookingValidIff(body);
    Booking(who.id, ParseItemType(body.bookingType).value, body.item, body.status,
            body.startDate.value, body.endDate.value, body.totalPrice.value)
  }

  /** `createBooking`: 400 on a rule failure; otherwise the booking is stored
      and, for a trip, the trip's counter goes up by one, even past `maxParticipants`. */
  method CreateBooking(db: Database, who: Principal, body: BookingBody) returns (status: Status, booking: Option<Id>)
    requires db.Valid()
    modifies db`bookings, db`trips, db`nextId
    ensures db.Valid()
    ensures !BookingValid(body) ==>
      status == BadRequest && booking.None? && db.bookings == old(db.bookings) && db.trips == old(db.trips)
    ensures BookingValid(body) ==>
      && status == Created && booking.Some? && booking.value !in old(db.bookings)
      && db.bookings == old(db.bookings)[booking.value := NewBooking(who, body)]
      && db.trips == (if body.bookingType == "trip" then AdjustParticipants(old(db.trips), body.item, 1)
                      else old(db.trips))
  {
    if !BookingValid(body) {
      return BadRequest, None;
    }
    var id := db.NewId();
    db.bookings := db.bookings[id := NewBooking(who, body)];
    if body.bookingType == "trip" {
      db.trips := AdjustParticipants(db.trips, body.item, 1);
    }
    status, booking := Created, Some(id);
  }

  /** `updateBookingStatus`: the status as sent (an absent one is stripped
      from the update), nothing else; 404 for a missing booking. No ownership
      check is made here. */
  method UpdateBookingStatus(db: Database, id: Id, newStatus: Option<string>) returns (status: Status)
    requires db.Valid()
    modifies db`bookings
    ensures db.Valid()
    ensures id !in old(db.bookings) ==> status == NotFound && db.bookings == old(db.bookings)
    ensures id in old(db.bookings) ==>
      && status == Ok
      && db.bookings == old(db.bookings)[id := old(db.bookings)[id].(status := if newStatus.Some? then newStatus else old(db.bookings)[id].status)]
  {
    if id !in db.bookings {
      return NotFound;
    }
    if newStatus.Some? {
      db.bookings := db.bookings[id := db.bookings[id].(status := newStatus)];
    }
    status := Ok;
  }

  const Cancelled := "cancelled"

  /** The state `cancelBooking` leaves behind, with its answer. */
  datatype CancelOutcome = CancelOutcome(status: Status, bookings: map<Id, Booking>, trips: map<Id, Trip>)

  function Cancel(bookings: map<Id, Booking>, trips: map<Id, Trip>, who: Principal, id: Id): (o: CancelOutcome)
    ensures o.status != Ok ==> o.bookings == bookings && o.trips == trips
    ensures o.status == Ok <==> id in bookings && MayModify(bookings[id].user, who)
    ensures o.bookings.Keys == bookings.Keys && o.trips.Keys == trips.Keys
  {
    if id !in bookings then CancelOutcome(NotFound, bookings, trips)
    else if !MayModify(bookings[id].user, who) then CancelOutcome(Forbidden, bookings, trips)
    else
      var b := bookings[id];
      CancelOutcome(
        Ok,
        bookings[id := b.(status := Some(Cancelled))],
        if b.bookingType == TripItem then AdjustParticipants(trips, b.item, -1) else trips)
  }

  /** `cancelBooking`: 404 or 403 with nothing changed; otherwise the status
      becomes `cancelled` and, for a trip booking, the counter goes down by
      one, whatever the booking's status was. */
  method CancelBooking(db: Database, who: Principal, id: Id) returns (status: Status)
    requires db.Valid()
    modifies db`bookings, db`trips
    ensures db.Valid()
    ensures var o := Cancel(old(db.bookings), old(db.trips), who, id);
      status == o.status && db.bookings == o.bookings && db.trips == o.trips
  {
    if id !in db.bookings {
      return NotFound;
    }
    var b := db.bookings[id];
    if !MayModify(b.user, who) {
      return Forbidden;
    }
    db.bookings := db.bookings[id := b.(status := Some(Cancelled))];
    if b.bookingType == TripItem {
      db.trips := AdjustParticipants(db.trips, b.item, -1);
    }
    status := Ok;
  }

  /** A rejected cancellation changes nothing: 404 for a missing booking,
      403 for a stranger who is not an admin. */
  lemma CancelRejections(bookings: map<Id, Booking>, trips: map<Id, Trip>, who: Principal, id: Id)
    ensures id !in bookings ==> Cancel(bookings, trips, who, id) == CancelOutcome(NotFound, bookings, trips)
    ensures id in bookings && !MayModify(bookings[id].user, who) ==>
      Cancel(bookings, trips, who, id) == CancelOutcome(Forbidden, bookings, trips)
  {
  }

  /** An accepted cancellation marks the booking cancelled and moves only its trip's counter. */
  lemma CancelAccepted(bookings: map<Id, Booking>, trips: map<Id, Trip>, who: Principal, id: Id)
    requires id in bookings && MayModify(bookings[id].user, who)
    ensures var o := Cancel(bookings, trips, who, id);
      && o.bookings == bookings[id := bookings[id].(status := Some(Cancelled))]
      && o.trips == (if bookings[id].bookingType == TripItem then AdjustParticipants(trips, bookings[id].item, -1) else trips)
  {
  }

  /** Cancelling the same trip booking twice succeeds twice and takes two
      participants off the trip: the status is not consulted. */
  lemma {:induction false} CancelTwice(bookings: map<Id, Booking>, trips: map<Id, Trip>, who: Principal, id: Id)
    requires id in bookings && MayModify(bookings[id].user, who)
    requires bookings[id].bookingType == TripItem && bookings[id].item in trips
    ensures var once := Cancel(bookings, trips, who, id);
      var twice := Cancel(once.bookings, once.trips, who, id);
      && once.status == Ok && twice.status == Ok
      && twice.bookings == once.bookings
      && twice.trips[bookings[id].item].currentParticipants == trips[bookings[id].item].currentParticipants - 2
  {
    var b := bookings[id];
    var once := Cancel(bookings, trips, who, id);
    assert once.bookings[id] == b.(status := Some(Cancelled));
    assert once.trips == AdjustParticipants(trips, b.item, -1);
    AdjustCompose(trips, b.item, -1, -1);
  }

  /** A trip booking's creation and its cancellation cancel out on the counter. */
  lemma BookThenCancel(trips: map<Id, Trip>, bookings: map<Id, Booking>, who: Principal, id: Id)
    requires id in bookings && MayModify(bookings[id].user, who) && bookings[id].bookingType == TripItem
    ensures Cancel(bookings, AdjustParticipants(trips, bookings[id].item, 1), who, id).trips == trips
  {
    AdjustInverse(trips, bookings[id].item, 1);
  }
}
