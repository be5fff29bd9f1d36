/** The `cars` table (models/Car.js). */
module CarModel {
  import opened Js

  /** A row of `cars`, its columns in the order of the INSERT. */
  datatype CarRow = CarRow(
    name: Value, model: Value, year: Value, pricePerDay: Value, fuelType: Value,
    transmission: Value, location: Value, seats: Value, availability: Value, imageUrl: Value)

  /** The row as `SELECT *` hands it to a controller: one property per column. */
  function AsObject(id: int, row: CarRow): (o: Object)
    ensures o.Keys == {"id", "name", "model", "year", "price_per_day", "fuel_type",
                       "transmission", "location", "seats", "availability", "image_url"}
    ensures o["id"] == Num(id) && o["image_url"] == row.imageUrl && o["availability"] == row.availability
    ensures o["name"] == row.name && o["model"] == row.model && o["year"] == row.year
    ensures o["price_per_day"] == row.pricePerDay && o["fuel_type"] == row.fuelType
    ensures o["transmission"] == row.transmission && o["location"] == row.location && o["seats"] == row.seats
  {
    map["id" := Num(id), "name" := row.name, "model" := row.model, "year" := row.year,
        "price_per_day" := row.pricePerDay, "fuel_type" := row.fuelType,
        "transmission" := row.transmission, "location" := row.location,
        "seats" := row.seats, "availability" := row.availability, "image_url" := row.imageUrl]
  }

  /** The row as the driver stores it: every `undefined` bound as NULL. */
  function Bound(r: CarRow): CarRow
  {
    CarRow(Bind(r.name), Bind(r.model), Bind(r.year), Bind(r.pricePerDay), Bind(r.fuelType),
           Bind(r.transmission), Bind(r.location), Bind(r.seats), Bind(r.availability), Bind(r.imageUrl))
  }

  /** The ten values updateById destructures from its object: it reads the
      properties `price`, `fuel` and `image_url`, and a missing one is undefined. */
  function Columns(o: Object): (row: CarRow)
    ensures row.imageUrl == Get(o, "image_url")
    ensures row.pricePerDay == Get(o, "price") && row.fuelType == Get(o, "fuel")
    ensures "image_url" !in o ==> row.imageUrl == Undefined
  {
    CarRow(Get(o, "name"), Get(o, "model"), Get(o, "year"), Get(o, "price"), Get(o, "fuel"),
           Get(o, "transmission"), Get(o, "location"), Get(o, "seats"), Get(o, "availability"), Get(o, "image_url"))
  }

  class CarTable {
    var rows: map<int, CarRow>
    var nextId: int

    ghost predicate Valid()
      reads this
    {
      forall id :: id in rows ==> id < nextId
    }

    constructor ()
      ensures Valid() && rows == map[]
    {
      rows := map[];
      nextId := 1;
    }

    /** create: the ten arguments in column order (`price` to price_per_day,
        `fuel` to fuel_type, the image path to image_url). */
    method Create(args: CarRow) returns (id: int)
      requires Valid()
      modifies this
      ensures Valid()
      ensures id !in old(rows)
      ensures rows == old(rows)[id := Bound(args)]
    {
      id := nextId;
      rows := rows[id := Bound(args)];
      nextId := nextId + 1;
    }

    /** getAll: `SELECT * FROM cars`. */
    function GetAll(): (r: map<int, Object>)
      reads this
      ensures r.Keys == rows.Keys
      ensures forall id :: id in r ==> r[id] == AsObject(id, rows[id])
    {
      map id | id in rows :: AsObject(id, rows[id])
    }

    /** getById: at most the one row with that id. */
    function GetById(id: int): (r: seq<Object>)
      reads this
      ensures |r| <= 1
      ensures |r| == 1 <==> id in rows
      ensures |r| == 1 ==> r[0] == AsObject(id, rows[id])
    {
      if id in rows then [AsObject(id, rows[id])] else []
    }

    /** updateById: overwrites all ten columns from the object, missing
        properties included. */
    method UpdateById(id: int, updatedCar: Object) returns (affected: nat)
      requires Valid()
      modifies this
      ensures Valid() && nextId == old(nextId)
      ensures rows == if id in old(rows) then old(rows)[id := Bound(Columns(updatedCar))] else old(rows)
      ensures affected == if id in old(rows) then 1 else 0
    {
      affected := if id in rows then 1 else 0;
      if id in rows {
        rows := rows[id := Bound(Columns(updatedCar))];
      }
    }

    /** updateAvailability: that row's availability and nothing else. */
    method UpdateAvailability(id: int, availability: Value) returns (affected: nat)
      requires Valid()
      modifies this
      ensures Valid() && nextId == old(nextId)
      ensures rows.Keys == old(rows).Keys
      ensures forall k :: k in rows && k != id ==> rows[k] == old(rows)[k]
      ensures id in rows ==> rows[id] == old(rows)[id].(availability := Bind(availability))
      ensures affected == if id in old(rows) then 1 else 0
    {
      affected := if id in rows then 1 else 0;
      if id in rows {
        rows := rows[id := rows[id].(availability := Bind(availability))];
      }
    }

    /** deleteById: removes that row and nothing else. */
    method DeleteById(id: int) returns (affected: nat)
      requires Valid()
      modifies this
      ensures Valid() && nextId == old(nextId)
      ensures rows == old(rows) - {id}
      ensures affected == if id in old(rows) then 1 else 0
    {
      affected := if id in rows then 1 else 0;
      rows := rows - {id};
    }
  }
}
