/** The `users` table (models/User.js), and the effect of the UPDATE statements
    the user controller sends to it. */
module UserModel {
  import opened Js
  import opened Bcrypt

  /** A row of `users`. `status` is None while no statement has written it:
      the row then holds the column's default. */
  datatype UserRow = UserRow(name: Value, email: Value, phoneNumber: Value, password: Digest, role: Value, status: Option<string>)

  /** A row of `SELECT id, name, email, phone_number, role, created_at`. */
  datatype PublicUser = PublicUser(id: int, name: Value, email: Value, phoneNumber: Value, role: Value)

  /** The SET clauses the user controller can build. */
  const NameClause: string := "name = ?"
  const EmailClause: string := "email = ?"
  const PhoneClause: string := "phone_number = ?"

  /** One clause `column = ?` with its placeholder bound to `v`. */
  function Assign(row: UserRow, clause: string, v: Value): UserRow
  {
    if clause == NameClause then row.(name := Bind(v))
    else if clause == EmailClause then row.(email := Bind(v))
    else if clause == PhoneClause then row.(phoneNumber := Bind(v))
    else row
  }

  /** `SET c0, c1, ...`: the clauses in order, placeholders bound positionally. */
  function ApplySet(row: UserRow, clauses: seq<string>, values: seq<Value>): UserRow
    requires |values| >= |clauses|
    decreases |clauses|
  {
    if clauses == [] then row else ApplySet(Assign(row, clauses[0], values[0]), clauses[1..], values[1..])
  }

  /** Appending one clause and one value applies that clause last. */
  lemma {:induction false} ApplySetAppend(row: UserRow, clauses: seq<string>, values: seq<Value>, c: string, v: Value)
    requires |values| == |clauses|
    ensures ApplySet(row, clauses + [c], values + [v]) == Assign(ApplySet(row, clauses, values), c, v)
    decreases |clauses|
  {
    if clauses != [] {
      assert (clauses + [c])[1..] == clauses[1..] + [c];
      assert (values + [v])[1..] == values[1..] + [v];
      ApplySetAppend(Assign(row, clauses[0], values[0]), clauses[1..], values[1..], c, v);
    }
  }

  class UserTable {
    var rows: map<int, UserRow>
    var nextId: int

    /** Ids are handed out by an auto-increment counter. */
    ghost predicate Valid()
      reads this
    {
      forall id :: id in rows ==> id < nextId
    }

    constructor ()
      ensures Valid() && rows == map[]
    {
      rows := map[];
      nextId := 1;
    }

    /** create: INSERT one row; role and status are not defaulted here. */
    method Create(name: Value, email: Value, phone: Value, password: Digest, role: Value) returns (id: int)
      requires Valid()
      modifies this
      ensures Valid()
      ensures id !in old(rows)
      ensures rows == old(rows)[id := UserRow(Bind(name), Bind(email), Bind(phone), password, Bind(role), None)]
    {
      id := nextId;
      rows := rows[id := UserRow(Bind(name), Bind(email), Bind(phone), password, Bind(role), None)];
      nextId := nextId + 1;
    }

    /** findByEmail: every row with that email. Nothing here keeps emails unique. */
    function FindByEmail(email: string): (r: map<int, UserRow>)
      reads this
      ensures forall id :: id in r <==> id in rows && rows[id].email == Str(email)
      ensures forall id :: id in r ==> r[id] == rows[id]
    {
      map id | id in rows && rows[id].email == Str(email) :: rows[id]
    }

    /** getAll: every user, projected without the password (and without status). */
    function GetAll(): (r: map<int, PublicUser>)
      reads this
      ensures r.Keys == rows.Keys
      ensures forall id :: id in r ==>
        var u := rows[id];
        r[id] == PublicUser(id, u.name, u.email, u.phoneNumber, u.role)
    {
      map id | id in rows :: PublicUser(id, rows[id].name, rows[id].email, rows[id].phoneNumber, rows[id].role)
    }

    /** deleteById: removes that row and nothing else. */
    method DeleteById(id: int) returns (affected: nat)
      requires Valid()
      modifies this
      ensures Valid() && nextId == old(nextId)
      ensures rows == old(rows) - {id}
      ensures affected == if id in old(rows) then 1 else 0
    {
      affected := if id in rows then 1 else 0;
      rows := rows - {id};
    }

    /** `UPDATE users SET <clauses> WHERE id = ?`. */
    method UpdateColumns(id: int, clauses: seq<string>, values: seq<Value>) returns (affected: nat)
      requires Valid() && |values| >= |clauses|
      modifies this
      ensures Valid() && nextId == old(nextId)
      ensures rows == if id in old(rows) then old(rows)[id := ApplySet(old(rows)[id], clauses, values)] else old(rows)
      ensures affected == if id in old(rows) then 1 else 0
    {
      affected := if id in rows then 1 else 0;
      if id in rows {
        rows := rows[id := ApplySet(rows[id], clauses, values)];
      }
    }

    /** `UPDATE users SET status = ? WHERE id = ?`. */
    method UpdateStatus(id: int, status: string) returns (affected: nat)
      requires Valid()
      modifies this
      ensures Valid() && nextId == old(nextId)
      ensures rows == if id in old(rows) then old(rows)[id := old(rows)[id].(status := Some(status))] else old(rows)
      ensures affected == if id in old(rows) then 1 else 0
    {
      affected := if id in rows then 1 else 0;
      if id in rows {
        rows := rows[id := rows[id].(status := Some(status))];
      }
    }
  }
}
