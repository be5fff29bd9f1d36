/** The `reviews` table (models/Review.js). */
module ReviewModel {
  import opened Js
  import UserModel
  import CarModel

  /** A row of `reviews`. `status` is None until `approve` writes it: the
      INSERT leaves it to the column's default. */
  datatype ReviewRow = ReviewRow(userId: int, carId: int, rating: int, comment: Value, status: Option<string>)

  /** A row of `SELECT r.*, u.name AS user_name, c.name AS car_name`. */
  datatype Joined = Joined(id: int, review: ReviewRow, userName: Value, carName: Value)

  const Approved: string := "approved"

  /** The table after `UPDATE reviews SET status = 'approved' WHERE id = ?`. */
  function ApprovedIn(rows: map<int, ReviewRow>, id: int): (r: map<int, ReviewRow>)
    ensures r.Keys == rows.Keys
    ensures forall k :: k in r ==> r[k] == if k == id then rows[k].(status := Some(Approved)) else rows[k]
  {
    if id in rows then rows[id := rows[id].(status := Some(Approved))] else rows
  }

  /** Approving twice leaves the table as approving once. */
  lemma ApproveIdempotent(rows: map<int, ReviewRow>, id: int)
    ensures ApprovedIn(ApprovedIn(rows, id), id) == ApprovedIn(rows, id)
  {
    var once := ApprovedIn(rows, id);
    assert ApprovedIn(once, id).Keys == once.Keys;
  }

  class ReviewTable {
    var rows: map<int, ReviewRow>
    var nextId: int

    ghost predicate Valid()
      reads this
    {
      forall id :: id in rows ==> id < nextId
    }

    constructor ()
      ensures Valid() && rows == map[]
    {
      rows := map[];
      nextId := 1;
    }

    /** create: user, car, rating and comment; the status is not written. */
    method Create(userId: int, carId: int, rating: int, comment: Value) returns (id: int)
      requires Valid()
      modifies this
      ensures Valid()
      ensures id !in old(rows)
      ensures rows == old(rows)[id := ReviewRow(userId, carId, rating, Bind(comment), None)]
    {
      id := nextId;
      rows := rows[id := ReviewRow(userId, carId, rating, Bind(comment), None)];
      nextId := nextId + 1;
    }

    /** getAllApproved: the approved reviews whose user and car exist. */
    function GetAllApproved(users: UserModel.UserTable, cars: CarModel.CarTable): (r: map<int, Joined>)
      reads this, users, cars
      ensures forall id :: id in r <==> (id in rows && rows[id].status == Some(Approved)
                                        && rows[id].userId in users.rows && rows[id].carId in cars.rows)
      ensures forall id :: id in r ==> (r[id].review == rows[id] && r[id].id == id
                                       && r[id].userName == users.rows[rows[id].userId].name
                                       && r[id].carName == cars.rows[rows[id].carId].name)
    {
      map id | id in rows && rows[id].status == Some(Approved)
                          && rows[id].userId in users.rows && rows[id].carId in cars.rows
        :: Joined(id, rows[id], users.rows[rows[id].userId].name, cars.rows[rows[id].carId].name)
    }

    /** approve: that row becomes approved, nothing else changes. */
    method Approve(id: int) returns (affected: nat)
      requires Valid()
      modifies this
      ensures Valid() && nextId == old(nextId)
      ensures rows == ApprovedIn(old(rows), id)
      ensures affected == if id in old(rows) then 1 else 0
    {
      affected := if id in rows then 1 else 0;
      rows := ApprovedIn(rows, id);
    }

    /** deleteById: removes that row and nothing else. */
    method DeleteById(id: int) returns (affected: nat)
      requires Valid()
      modifies this
      ensures Valid() && nextId == old(nextId)
      ensures rows == old(rows) - {id}
      ensures affected == if id in old(rows) then 1 else 0
    {
      affected := if id in rows then 1 else 0;
      rows := rows - {id};
    }
  }
}
