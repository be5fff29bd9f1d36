/** The user controller (controllers/userController.js): raw SQL against the
    users table, with store errors, empty results and zero affected rows
    mapped to status codes. Its responses carry no `success` flag. */
module UserController {
  import opened Js
  import opened Http
  import opened Seqs
  import opened UserModel

  /** The statements the controller sends, with their bound values. */
  datatype Query =
    | SelectAll
    | SelectById(id: string)
    | UpdateSet(clauses: seq<string>, values: seq<Value>)
    | UpdateStatus(status: Value, statusId: string)
    | DeleteById(deleteId: string)

  /** The candidate assignments of updateUser, in the order it tests them. */
  function Candidates(name: Value, email: Value, phone: Value): seq<(string, Value)>
  {
    [(NameClause, name), (EmailClause, email), (PhoneClause, phone)]
  }

  /** The assignments updateUser makes: the candidates with a truthy value. */
  function Chosen(name: Value, email: Value, phone: Value): seq<(string, Value)>
  {
    Filter(Candidates(name, email, phone), HasTruthyValue)
  }

  predicate HasTruthyValue(a: (string, Value))
  {
    Truthy(a.1)
  }

  /** A user row with each truthy field of the request written into it. */
  function Patched(row: UserRow, name: Value, email: Value, phone: Value): UserRow
  {
    row.(name := if Truthy(name) then name else row.name,
         email := if Truthy(email) then email else row.email,
         phoneNumber := if Truthy(phone) then phone else row.phoneNumber)
  }

  /** The SET-clause builder of updateUser: one clause and one value per
      truthy field, in the order name, email, phone_number, then the id as
      the last value. Clauses and values stay aligned, so the statement writes
      exactly the truthy fields. */
  method BuildSetClause(id: string, name: Value, email: Value, phone: Value)
    returns (clauses: seq<string>, values: seq<Value>)
    ensures |values| == |clauses| + 1 && values[|clauses|] == Str(id)
    ensures |clauses| == |Chosen(name, email, phone)|
    ensures forall i :: 0 <= i < |clauses| ==>
              clauses[i] == Chosen(name, email, phone)[i].0 && values[i] == Chosen(name, email, phone)[i].1
    ensures clauses == [] <==> !Truthy(name) && !Truthy(email) && !Truthy(phone)
    ensures forall row :: ApplySet(row, clauses, values) == Patched(row, name, email, phone)
  {
    clauses, values := [], [];
    clauses, values := PushIfTruthy(clauses, values, NameClause, name);
    clauses, values := PushIfTruthy(clauses, values, EmailClause, email);
    clauses, values := PushIfTruthy(clauses, values, PhoneClause, phone);
    ghost var chosen := Chosen(name, email, phone);
    ChosenSteps(name, email, phone);
    assert |clauses| == |chosen| && |values| == |chosen|;
    assert forall i :: 0 <= i < |clauses| ==> clauses[i] == chosen[i].0 && values[i] == chosen[i].1;
    forall row: UserRow ensures ApplySet(row, clauses, values) == Patched(row, name, email, phone) {
      SetClauseEffect(row, clauses, values, name, email, phone);
    }
    ApplySetIgnoresExtra(clauses, values, Str(id));
    values := values + [Str(id)];
  }

  /** One `if (field) { fieldsToUpdate.push(clause); values.push(field); }`. */
  method PushIfTruthy(clauses: seq<string>, values: seq<Value>, clause: string, v: Value)
    returns (clauses': seq<string>, values': seq<Value>)
    ensures clauses' == clauses + (if Truthy(v) then [clause] else [])
    ensures values' == values + (if Truthy(v) then [v] else [])
  {
    clauses', values' := clauses, values;
    if Truthy(v) {
      clauses', values' := clauses + [clause], values + [v];
    }
  }

  /** The filter over the three candidates, spelled out. */
  lemma ChosenSteps(name: Value, email: Value, phone: Value)
    ensures Chosen(name, email, phone) == (if Truthy(name) then [(NameClause, name)] else [])
                                          + (if Truthy(email) then [(EmailClause, email)] else [])
                                          + (if Truthy(phone) then [(PhoneClause, phone)] else [])
  {
    var s := Candidates(name, email, phone);
    assert s[1..] == [(EmailClause, email), (PhoneClause, phone)];
    assert s[1..][1..] == [(PhoneClause, phone)];
    assert s[1..][1..][1..] == [];
    assert Filter(s[1..][1..], HasTruthyValue) == (if Truthy(phone) then [(PhoneClause, phone)] else []);
    assert Filter(s[1..], HasTruthyValue) == (if Truthy(email) then [(EmailClause, email)] else [])
                                             + Filter(s[1..][1..], HasTruthyValue);
    assert Filter(s, HasTruthyValue) == (if Truthy(name) then [(NameClause, name)] else [])
                                        + Filter(s[1..], HasTruthyValue);
  }

  /** The three assignments, whichever are chosen, write the truthy fields. */
  lemma SetClauseEffect(row: UserRow, clauses: seq<string>, values: seq<Value>, name: Value, email: Value, phone: Value)
    requires clauses == (if Truthy(name) then [NameClause] else []) + (if Truthy(email) then [EmailClause] else [])
                        + (if Truthy(phone) then [PhoneClause] else [])
    requires values == (if Truthy(name) then [name] else []) + (if Truthy(email) then [email] else [])
                       + (if Truthy(phone) then [phone] else [])
    ensures ApplySet(row, clauses, values) == Patched(row, name, email, phone)
  {
    var c1: seq<string> := if Truthy(name) then [NameClause] else [];
    var v1: seq<Value> := if Truthy(name) then [name] else [];
    var c2 := c1 + (if Truthy(email) then [EmailClause] else []);
    var v2 := v1 + (if Truthy(email) then [email] else []);
    if Truthy(name) {
      assert c1[1..] == [] && v1[1..] == [];
      assert ApplySet(row, c1, v1) == Assign(row, NameClause, name);
    }
    if Truthy(email) {
      ApplySetAppend(row, c1, v1, EmailClause, email);
    } else {
      assert c2 == c1 && v2 == v1;
    }
    if Truthy(phone) {
      ApplySetAppend(row, c2, v2, PhoneClause, phone);
    } else {
      assert clauses == c2 && values == v2;
    }
  }

  /** A trailing value without a clause (the id of the WHERE) changes nothing. */
  lemma {:induction false} ApplySetIgnoresExtra(clauses: seq<string>, values: seq<Value>, extra: Value)
    requires |values| == |clauses|
    ensures forall row :: ApplySet(row, clauses, values + [extra]) == ApplySet(row, clauses, values)
    decreases |clauses|
  {
    if clauses != [] {
      assert (values + [extra])[1..] == values[1..] + [extra];
      ApplySetIgnoresExtra(clauses[1..], values[1..], extra);
    }
  }

  /** updateUser: nothing to write answers 400 without a query; otherwise the
      built statement runs: 500 on a store error, 404 when no row has the id. */
  method UpdateUser(id: string, name: Value, email: Value, phone: Value, dbFails: bool, affected: nat)
    returns (o: Outcome<Query>)
    ensures o.call.None? <==> !Truthy(name) && !Truthy(email) && !Truthy(phone)
    ensures o.call.None? ==> o.response == Bare(400)
    ensures o.call.Some? ==> o.call.value.UpdateSet? && |o.call.value.clauses| > 0
                             && |o.call.value.values| == |o.call.value.clauses| + 1
                             && Last(o.call.value.values) == Str(id)
                             && forall row :: ApplySet(row, o.call.value.clauses, o.call.value.values) == Patched(row, name, email, phone)
    ensures o.call.Some? ==> o.response == Bare(if dbFails then 500 else if affected == 0 then 404 else 200)
  {
    if !Truthy(name) && !Truthy(email) && !Truthy(phone) {
      return Outcome(None, Bare(400));
    }
    var clauses, values := BuildSetClause(id, name, email, phone);
    o := Outcome(Some(UpdateSet(clauses, values)), Bare(if dbFails then 500 else if affected == 0 then 404 else 200));
  }

  function Last(s: seq<Value>): Value
  {
    if s == [] then Undefined else s[|s| - 1]
  }

  const ValidStatuses: seq<string> := ["approved", "pending"]

  /** updateUserStatus: a falsy status, or one outside the two allowed,
      answers 400 without a query. */
  function UpdateUserStatus(id: string, status: Value, dbFails: bool, affected: nat): (o: Outcome<Query>)
    ensures o.call.Some? <==> status == Str("approved") || status == Str("pending")
    ensures o.call.None? ==> o.response == Bare(400)
    ensures o.call.Some? ==> o.call.value == UpdateStatus(status, id)
    ensures o.call.Some? ==> o.response == Bare(if dbFails then 500 else if affected == 0 then 404 else 200)
  {
    if !Truthy(status) then Outcome(None, Bare(400))
    else if !(status.Str? && status.s in ValidStatuses) then Outcome(None, Bare(400))
    else Outcome(Some(UpdateStatus(status, id)), Bare(if dbFails then 500 else if affected == 0 then 404 else 200))
  }

  /** getUsers: an empty table answers 404; otherwise every row is listed. */
  function GetUsers(dbFails: bool, results: seq<Object>): (o: Outcome<Query>)
    ensures o.call == Some(SelectAll)
    ensures o.response.status == 404 <==> !dbFails && results == []
    ensures o.response.status == 200 <==> !dbFails && results != []
    ensures o.response.status == 200 ==> o.response.data == results
    ensures dbFails ==> o.response.status == 500
  {
    Outcome(Some(SelectAll),
      if dbFails then Bare(500)
      else if |results| == 0 then Bare(404)
      else Response(200, None, [], results))
  }

  /** getUserById: no row answers 404; otherwise the first row. */
  function GetUserById(id: string, dbFails: bool, results: seq<Object>): (o: Outcome<Query>)
    ensures o.call == Some(SelectById(id))
    ensures o.response.status == 404 <==> !dbFails && results == []
    ensures o.response.status == 200 ==> results != [] && o.response.data == [results[0]]
    ensures !dbFails && results != [] ==> o.response.status == 200
    ensures dbFails ==> o.response.status == 500
  {
    Outcome(Some(SelectById(id)),
      if dbFails then Bare(500)
      else if |results| == 0 then Bare(404)
      else Response(200, None, [], [results[0]]))
  }

  /** deleteUser: zero affected rows answers 404. */
  function DeleteUser(id: string, dbFails: bool, affected: nat): (o: Outcome<Query>)
    ensures o.call == Some(DeleteById(id))
    ensures o.response.status == 404 <==> !dbFails && affected == 0
    ensures o.response.status == 200 <==> !dbFails && affected > 0
    ensures dbFails ==> o.response.status == 500
  {
    Outcome(Some(DeleteById(id)), Bare(if dbFails then 500 else if affected == 0 then 404 else 200))
  }
}
