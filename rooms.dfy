/** The room handlers of Backend/controllers/roomController.js: the per-hotel
    listing, creation, the five-field update, and appending or removing images. */
module Rooms {
  import opened Common
  import opened Store

  /** The request body; absent fields are None. */
  datatype RoomBody = RoomBody(
    hotel: Option<Id>,
    roomType: Option<string>,
    pricePerNight: Option<real>,
    maxOccupancy: Option<real>,
    availability: Option<bool>,
    amenities: Option<seq<string>>)

  /** `Room.find({ hotel })`. */
  function RoomsOf(rooms: map<Id, Room>, hotel: Id): map<Id, Room> {
    map k | k in rooms && rooms[k].hotel == hotel :: rooms[k]
  }

  /** `getRoomsByHotel`: 404 exactly when no room references the hotel, which
      need not exist. */
  method GetRoomsByHotel(db: Database, hotel: Id) returns (status: Status, found: map<Id, Room>)
    ensures forall k :: k in found <==> k in db.rooms && db.rooms[k].hotel == hotel
    ensures forall k :: k in found ==> found[k] == db.rooms[k]
    ensures status == NotFound <==> !exists k :: k in db.rooms && db.rooms[k].hotel == hotel
    ensures status != NotFound ==> status == Ok
  {
    found := RoomsOf(db.rooms, hotel);
    if found == map[] {
      status := NotFound;
    } else {
      assert exists k :: k in found;
      status := Ok;
    }
  }

  /** Backend/models/Room.js requires these paths (a room type, not empty). */
  predicate RequiredPresent(b: RoomBody) {
    b.hotel.Some? && b.roomType.Some? && b.roomType.value != "" && b.pricePerNight.Some? && b.maxOccupancy.Some?
  }

  /** The room `createRoom` saves: `availability || true` is always true,
      missing amenities are `[]`, and the images are the uploads in order. */
  function NewRoom(b: RoomBody, uploads: seq<Image>): (r: Room)
    requires RequiredPresent(b)
    ensures r.availability
    ensures r.amenities == (if b.amenities.Some? then b.amenities.value else [])
    ensures r.images == uploads && r.hotel == b.hotel.value && r.roomType == b.roomType.value
  {
    Room(b.hotel.value, b.roomType.value, b.pricePerNight.value, b.maxOccupancy.value, true,
         b.amenities.GetOr([]), uploads)
  }

  /** A room sent as unavailable is stored as available. */
  lemma UnavailableStoredAvailable(b: RoomBody, uploads: seq<Image>)
    requires RequiredPresent(b) && b.availability == Some(false)
    ensures NewRoom(b, uploads).availability != b.availability.value
  {
  }

  /** `createRoom`; a body the schema rejects is answered 500. */
  method CreateRoom(db: Database, body: RoomBody, uploads: seq<Image>) returns (status: Status, room: Option<Id>)
    requires db.Valid()
    modifies db`rooms, db`nextId
    ensures db.Valid()
    ensures !RequiredPresent(body) ==> status == ServerError && room.None? && db.rooms == old(db.rooms)
    ensures RequiredPresent(body) ==>
      && status == Created && room.Some? && room.value !in old(db.rooms)
      && db.rooms == old(db.rooms)[room.value := NewRoom(body, uploads)]
  {
    if !RequiredPresent(body) {
      return ServerError, None;
    }
    var id := db.NewId();
    db.rooms := db.rooms[id := NewRoom(body, uploads)];
    status, room := Created, Some(id);
  }

  /** The room after `updateRoom`: the five fields the handler picks out of
      the body, each only when sent. */
  function UpdatedRoom(r: Room, b: RoomBody): Room {
    r.(roomType := b.roomType.GetOr(r.roomType),
       pricePerNight := b.pricePerNight.GetOr(r.pricePerNight),
       maxOccupancy := b.maxOccupancy.GetOr(r.maxOccupancy),
       availability := b.availability.GetOr(r.availability),
       amenities := b.amenities.GetOr(r.amenities))
  }

  /** The hotel reference and the images never change, even when the body
      names another hotel; sent fields are written as sent. */
  lemma UpdatedRoomKeeps(r: Room, b: RoomBody)
    ensures UpdatedRoom(r, b).hotel == r.hotel && UpdatedRoom(r, b).images == r.images
    ensures b.availability.Some? ==> UpdatedRoom(r, b).availability == b.availability.value
    ensures b == RoomBody(b.hotel, None, None, None, None, None) ==> UpdatedRoom(r, b) == r
  {
  }

  /** `updateRoom`: 404 for a missing room. */
  method UpdateRoom(db: Database, id: Id, body: RoomBody) returns (status: Status)
    requires db.Valid()
    modifies db`rooms
    ensures db.Valid()
    ensures id !in old(db.rooms) ==> status == NotFound && db.rooms == old(db.rooms)
    ensures id in old(db.rooms) ==>
      status == Ok && db.rooms == old(db.rooms)[id := UpdatedRoom(old(db.rooms)[id], body)]
  {
    if id !in db.rooms {
      return NotFound;
    }
    db.rooms := db.rooms[id := UpdatedRoom(db.rooms[id], body)];
    status := Ok;
  }

  /** `addRoomImages`: the uploads are pushed after the stored images. */
  method AddRoomImages(db: Database, id: Id, uploads: seq<Image>) returns (status: Status)
    requires db.Valid()
    modifies db`rooms
    ensures db.Valid()
    ensures id !in old(db.rooms) ==> status == NotFound && db.rooms == old(db.rooms)
    ensures id in old(db.rooms) ==>
      && status == Ok
      && db.rooms == old(db.rooms)[id := old(db.rooms)[id].(images := old(db.rooms)[id].images + uploads)]
  {
    if id !in db.rooms {
      return NotFound;
    }
    var r := db.rooms[id];
    db.rooms := db.rooms[id := r.(images := r.images + uploads)];
    status := Ok;
  }

  /** `removeRoomImage`: `imageId` is taken from the body; no image at that
      index (absent, negative, fractional or too large) is answered 404 and
      nothing changes. Otherwise exactly that image is spliced out. */
  method RemoveRoomImage(db: Database, id: Id, imageId: Option<int>) returns (status: Status)
    requires db.Valid()
    modifies db`rooms
    ensures db.Valid()
    ensures id !in old(db.rooms) ==> status == NotFound && db.rooms == old(db.rooms)
    ensures id in old(db.rooms) && !IndexIn(imageId, |old(db.rooms)[id].images|) ==>
      status == NotFound && db.rooms == old(db.rooms)
    ensures id in old(db.rooms) && IndexIn(imageId, |old(db.rooms)[id].images|) ==>
      && status == Ok
      && db.rooms == old(db.rooms)[id := old(db.rooms)[id].(images := RemoveAt(old(db.rooms)[id].images, imageId.value))]
  {
    if id !in db.rooms {
      return NotFound;
    }
    var r := db.rooms[id];
    if !IndexIn(imageId, |r.images|) {
      return NotFound;
    }
    db.rooms := db.rooms[id := r.(images := RemoveAt(r.images, imageId.value))];
    status := Ok;
  }
}
