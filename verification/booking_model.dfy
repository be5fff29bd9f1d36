/** The `bookings` table (models/Booking.js). */
module BookingModel {
  import opened Js
  import opened Dates
  import UserModel
  import CarModel

  /** A row of `bookings`. The DATE columns hold a day or NULL (None); an
      update may also write NULL into price and status. */
  datatype BookingRow = BookingRow(userId: int, carId: int, startDate: Option<Day>, endDate: Option<Day>,
                                   totalPrice: Option<int>, status: Option<string>)

  /** A row of `SELECT b.*, u.name AS user_name, c.name AS car_name`. */
  datatype Joined = Joined(id: int, booking: BookingRow, userName: Value, carName: Value)

  /** The values `updateById` takes from its object; an absent property is None. */
  datatype Update = Update(startDate: Option<Day>, endDate: Option<Day>, totalPrice: Option<int>, status: Option<string>)

  /** The row updateById leaves: all four columns taken from the update,
      user and car kept. */
  function Applied(row: BookingRow, u: Update): (r: BookingRow)
    ensures r.userId == row.userId && r.carId == row.carId
    ensures r.startDate == u.startDate && r.endDate == u.endDate
    ensures r.totalPrice == u.totalPrice && r.status == u.status
  {
    row.(startDate := u.startDate, endDate := u.endDate, totalPrice := u.totalPrice, status := u.status)
  }

  class BookingTable {
    var rows: map<int, BookingRow>
    var nextId: int

    ghost predicate Valid()
      reads this
    {
      forall id :: id in rows ==> id < nextId
    }

    constructor ()
      ensures Valid() && rows == map[]
    {
      rows := map[];
      nextId := 1;
    }

    /** Both inner joins find their row. */
    predicate Joins(id: int, users: UserModel.UserTable, cars: CarModel.CarTable)
      reads this, users, cars
    {
      id in rows && rows[id].userId in users.rows && rows[id].carId in cars.rows
    }

    function JoinRow(id: int, users: UserModel.UserTable, cars: CarModel.CarTable): Joined
      reads this, users, cars
      requires Joins(id, users, cars)
    {
      Joined(id, rows[id], users.rows[rows[id].userId].name, cars.rows[rows[id].carId].name)
    }

    /** create: inserts one row holding exactly the given values. */
    method Create(userId: int, carId: int, startDate: Option<Day>, endDate: Option<Day>,
                  totalPrice: int, status: string) returns (id: int)
      requires Valid()
      modifies this
      ensures Valid()
      ensures id !in old(rows)
      ensures rows == old(rows)[id := BookingRow(userId, carId, startDate, endDate, Some(totalPrice), Some(status))]
    {
      id := nextId;
      rows := rows[id := BookingRow(userId, carId, startDate, endDate, Some(totalPrice), Some(status))];
      nextId := nextId + 1;
    }

    /** getAll: the bookings whose user and car both exist, with their names. */
    function GetAll(users: UserModel.UserTable, cars: CarModel.CarTable): (r: map<int, Joined>)
      reads this, users, cars
      ensures forall id :: id in r <==> Joins(id, users, cars)
      ensures forall id :: id in r ==> (Joins(id, users, cars) && r[id].id == id && r[id].booking == rows[id]
                                       && r[id].userName == users.rows[rows[id].userId].name
                                       && r[id].carName == cars.rows[rows[id].carId].name)
    {
      map id | id in rows && Joins(id, users, cars) :: JoinRow(id, users, cars)
    }

    /** getById: the joined row with that id, if both joins succeed. */
    function GetById(id: int, users: UserModel.UserTable, cars: CarModel.CarTable): (r: seq<Joined>)
      reads this, users, cars
      ensures |r| <= 1
      ensures |r| == 1 <==> id in GetAll(users, cars)
      ensures |r| == 1 ==> r[0] == GetAll(users, cars)[id]
    {
      if Joins(id, users, cars) then [JoinRow(id, users, cars)] else []
    }

    /** getByUserId: exactly the joined rows of that user. */
    function GetByUserId(userId: int, users: UserModel.UserTable, cars: CarModel.CarTable): (r: map<int, Joined>)
      reads this, users, cars
      ensures forall id :: id in r <==> id in GetAll(users, cars) && GetAll(users, cars)[id].booking.userId == userId
      ensures forall id :: id in r ==> r[id] == GetAll(users, cars)[id]
    {
      map id | id in rows && Joins(id, users, cars) && rows[id].userId == userId :: JoinRow(id, users, cars)
    }

    /** updateById: writes all four columns, absent values as NULL; user and
        car are kept. */
    method UpdateById(id: int, u: Update) returns (affected: nat)
      requires Valid()
      modifies this
      ensures Valid() && nextId == old(nextId)
      ensures rows.Keys == old(rows).Keys
      ensures forall k :: k in rows && k != id ==> rows[k] == old(rows)[k]
      ensures id in rows ==> rows[id] == BookingRow(old(rows)[id].userId, old(rows)[id].carId,
                                                    u.startDate, u.endDate, u.totalPrice, u.status)
      ensures affected == if id in old(rows) then 1 else 0
      ensures id in rows ==> rows[id] == Applied(old(rows)[id], u)
    {
      affected := if id in rows then 1 else 0;
      if id in rows {
        rows := rows[id := Applied(rows[id], u)];
      }
    }

    /** updateStatus: that row's status and nothing else. */
    method UpdateStatus(id: int, status: string) returns (affected: nat)
      requires Valid()
      modifies this
      ensures Valid() && nextId == old(nextId)
      ensures rows.Keys == old(rows).Keys
      ensures forall k :: k in rows && k != id ==> rows[k] == old(rows)[k]
      ensures id in rows ==> rows[id] == old(rows)[id].(status := Some(status))
      ensures affected == if id in old(rows) then 1 else 0
    {
      affected := if id in rows then 1 else 0;
      if id in rows {
        rows := rows[id := rows[id].(status := Some(status))];
      }
    }

    /** deleteById: removes that row and nothing else. */
    method DeleteById(id: int) returns (affected: nat)
      requires Valid()
      modifies this
      ensures Valid() && nextId == old(nextId)
      ensures rows == old(rows) - {id}
      ensures affected == if id in old(rows) then 1 else 0
    {
      affected := if id in rows then 1 else 0;
      rows := rows - {id};
    }
  }
}
