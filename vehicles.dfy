/** The vehicle handlers of Backend/controllers/vehicleController.js:
    creation with the owner forced to the requester, the owner-or-admin rule
    of update and delete, and administrator verification. The store keeps
    every vehicle's status in the schema's enum. */
module Vehicles {
  import opened Common
  import opened Store
  import opened Strings
  import opened Validation

  /** The schema accepts an absent status (defaulting to `active`) or one of its enum. */
  predicate StatusAccepted(s: Option<string>) {
    s.None? || s.value in VehicleStatuses
  }

  const Active := "active"

  /** What Backend/models/Vehicle.js accepts of the fields a body sends,
      after the route's `trim()` on `make` and `model`: those two not blank,
      `type` and `status` within their enums. `Vehicle.create` and the
      `runValidators` update both apply it. */
  predicate SchemaAccepts(b: VehicleBody) {
    && TrimField(b.make) != Some("") && TrimField(b.model) != Some("")
    && (b.vehicleType.None? || b.vehicleType.value in VehicleTypes)
    && StatusAccepted(b.status)
  }

  /** A make of spaces only passes the rules and fails the schema. */
  lemma BlankMakeRefused(b: VehicleBody)
    requires VehicleValid(b) && b.make == Some("   ")
    ensures !SchemaAccepts(b)
  {
    TrimExamples();
  }

  /** The vehicle `createVehicle` stores: the validated fields with `make`
      and `model` trimmed, the requester as owner whatever the body names,
      the status sent or `active`. */
  function NewVehicle(who: Principal, b: VehicleBody): (v: Vehicle)
    requires VehicleValid(b) && SchemaAccepts(b)
    ensures v.owner == who.id && v.averageRating == 0.0
    ensures b.make.Some? && v.make == Trim(b.make.value) && v.make != ""
    ensures b.model.Some? && v.model == Trim(b.model.value) && v.model != ""
    ensures v.status == (if b.status.Some? then b.status.value else Active)
    ensures v.status in VehicleStatuses
    ensures b.vehicleType.Some? && v.vehicleType == b.vehicleType.value && v.vehicleType in VehicleTypes
  {
    VehicleValidIff(b);
    Vehicle(who.id, Trim(b.make.value), Trim(b.model.value), b.year.value, b.vehicleType.value, b.seats.value,
            b.pricePerDay.value, b.features.value, b.status.GetOr(Active), 0.0)
  }

  /** `createVehicle`: 400 on a rule failure; 500 when the schema rejects the
      trimmed body; nothing is stored in either case. */
  method CreateVehicle(db: Database, who: Principal, body: VehicleBody) returns (status: Status, vehicle: Option<Id>)
    requires db.Valid()
    modifies db`vehicles, db`nextId
    ensures db.Valid()
    ensures !VehicleValid(body) ==> status == BadRequest && vehicle.None? && db.vehicles == old(db.vehicles)
    ensures VehicleValid(body) && !SchemaAccepts(body) ==>
      status == ServerError && vehicle.None? && db.vehicles == old(db.vehicles)
    ensures VehicleValid(body) && SchemaAccepts(body) ==>
      && status == Created && vehicle.Some? && vehicle.value !in old(db.vehicles)
      && db.vehicles == old(db.vehicles)[vehicle.value := NewVehicle(who, body)]
  {
    if !VehicleValid(body) {
      return BadRequest, None;
    }
    if !SchemaAccepts(body) {
      return ServerError, None;
    }
    var id := StoreVehicle(db, NewVehicle(who, body));
    status, vehicle := Created, Some(id);
  }

  /** `Vehicle.create` once the schema accepts: the record is stored under a fresh id. */
  method StoreVehicle(db: Database, v: Vehicle) returns (id: Id)
    requires db.Valid() && v.status in VehicleStatuses
    modifies db`vehicles, db`nextId
    ensures db.Valid()
    ensures id !in old(db.vehicles) && db.vehicles == old(db.vehicles)[id := v]
  {
    id := db.NewId();
    db.vehicles := db.vehicles[id := v];
  }

  /** The vehicle after `updateVehicle`: every sent field is written, `owner`
      included, `make` and `model` as trimmed by the route. The rules' verdict
      is never consulted by this handler. */
  function PatchedVehicle(v: Vehicle, b: VehicleBody): Vehicle {
    v.(owner := b.owner.GetOr(v.owner),
       make := TrimField(b.make).GetOr(v.make),
       model := TrimField(b.model).GetOr(v.model),
       year := b.year.GetOr(v.year),
       vehicleType := b.vehicleType.GetOr(v.vehicleType),
       seats := b.seats.GetOr(v.seats),
       pricePerDay := b.pricePerDay.GetOr(v.pricePerDay),
       features := b.features.GetOr(v.features),
       status := b.status.GetOr(v.status))
  }

  /** An accepted patch keeps the status in its enum and, among the fields a
      body can name here, the rating aggregate; a sent make or model is stored
      trimmed and not blank; one that sends an owner hands the vehicle over. */
  lemma PatchedVehicleFields(v: Vehicle, b: VehicleBody)
    requires SchemaAccepts(b) && v.status in VehicleStatuses
    ensures PatchedVehicle(v, b).status in VehicleStatuses
    ensures PatchedVehicle(v, b).averageRating == v.averageRating
    ensures b.make.Some? ==> PatchedVehicle(v, b).make == Trim(b.make.value) != ""
    ensures b.model.Some? ==> PatchedVehicle(v, b).model == Trim(b.model.value) != ""
    ensures b.owner.Some? ==> PatchedVehicle(v, b).owner == b.owner.value
    ensures b.owner.None? ==> PatchedVehicle(v, b).owner == v.owner
  {
  }

  /** `updateVehicle`: 404 for a missing vehicle; 403 unless the requester
      owns it or is an administrator; 500 for a patch the schema rejects. */
  method UpdateVehicle(db: Database, who: Principal, id: Id, body: VehicleBody) returns (status: Status)
    requires db.Valid()
    modifies db`vehicles
    ensures db.Valid()
    ensures id !in old(db.vehicles) ==> status == NotFound && db.vehicles == old(db.vehicles)
    ensures id in old(db.vehicles) && !MayModify(old(db.vehicles)[id].owner, who) ==>
      status == Forbidden && db.vehicles == old(db.vehicles)
    ensures id in old(db.vehicles) && MayModify(old(db.vehicles)[id].owner, who) && !SchemaAccepts(body) ==>
      status == ServerError && db.vehicles == old(db.vehicles)
    ensures id in old(db.vehicles) && MayModify(old(db.vehicles)[id].owner, who) && SchemaAccepts(body) ==>
      status == Ok && db.vehicles == old(db.vehicles)[id := PatchedVehicle(old(db.vehicles)[id], body)]
  {
    if id !in db.vehicles {
      return NotFound;
    }
    var v := db.vehicles[id];
    if !MayModify(v.owner, who) {
      return Forbidden;
    }
    if !SchemaAccepts(body) {
      return ServerError;
    }
    PatchedVehicleFields(v, body);
    db.vehicles := db.vehicles[id := PatchedVehicle(v, body)];
    status := Ok;
  }

  /** `deleteVehicle`: the same 404 and 403 rule; otherwise only that vehicle goes. */
  method DeleteVehicle(db: Database, who: Principal, id: Id) returns (status: Status)
    requires db.Valid()
    modifies db`vehicles
    ensures db.Valid()
    ensures id !in old(db.vehicles) ==> status == NotFound && db.vehicles == old(db.vehicles)
    ensures id in old(db.vehicles) && !MayModify(old(db.vehicles)[id].owner, who) ==>
      status == Forbidden && db.vehicles == old(db.vehicles)
    ensures id in old(db.vehicles) && MayModify(old(db.vehicles)[id].owner, who) ==>
      status == Ok && db.vehicles == old(db.vehicles) - {id}
  {
    if id !in db.vehicles {
      return NotFound;
    }
    if !MayModify(db.vehicles[id].owner, who) {
      return Forbidden;
    }
    db.vehicles := db.vehicles - {id};
    status := Ok;
  }

  /** The vehicle collection after `verifyVehicle(id)`. */
  function MarkActive(vehicles: map<Id, Vehicle>, id: Id): (r: map<Id, Vehicle>)
    ensures r.Keys == vehicles.Keys
    ensures id in vehicles ==> r[id].status == Active
    ensures forall k :: k in vehicles ==> r[k].(status := vehicles[k].status) == vehicles[k]
    ensures forall k :: k in vehicles && k != id ==> r[k] == vehicles[k]
  {
    if id in vehicles then vehicles[id := vehicles[id].(status := Active)] else vehicles
  }

  /** Verifying twice is verifying once. */
  lemma MarkActiveIdempotent(vehicles: map<Id, Vehicle>, id: Id)
    ensures MarkActive(MarkActive(vehicles, id), id) == MarkActive(vehicles, id)
  {
  }

  /** `verifyVehicle`: 404 for a missing vehicle; no ownership check (the
      route admits administrators only). */
  method VerifyVehicle(db: Database, id: Id) returns (status: Status)
    requires db.Valid()
    modifies db`vehicles
    ensures db.Valid()
    ensures status == (if id in old(db.vehicles) then Ok else NotFound)
    ensures db.vehicles == MarkActive(old(db.vehicles), id)
  {
    if id !in db.vehicles {
      return NotFound;
    }
    db.vehicles := db.vehicles[id := db.vehicles[id].(status := Active)];
    status := Ok;
  }
}
