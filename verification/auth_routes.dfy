/** The authentication routes (routes/authRoutes.js): register, log in and log
    out, over the users table and the request's session slot. */
module AuthRoutes {
  import opened Js
  import opened Bcrypt
  import opened Http
  import opened UserModel

  /** What the session keeps about the logged-in user. */
  datatype SessionUser = SessionUser(id: int, role: Value, email: Value)

  /** The steps of registration that can fail apart from validation: the
      lookup, the hashing, the insert and the lookup after it. */
  datatype RegisterFaults = RegisterFaults(lookup: bool, hash: bool, create: bool, refetch: bool)

  /** The roles the validator admits when a role is sent. */
  predicate RoleValidated(role: Value)
  {
    role == Undefined || role == Str("customer") || role == Str("admin")
  }

  /** A non-empty result has a first row. */
  lemma SomeKey(m: map<int, UserRow>) returns (k: int)
    requires |m| > 0
    ensures k in m
  {
    if forall x :: x !in m {
      assert false;
    }
    k :| k in m;
  }

  class AuthRouter {
    const users: UserTable
    var session: Option<SessionUser>

    ghost predicate Valid()
      reads this, users
    {
      users.Valid()
    }

    /** The ids of the rows registered under `email`, in no particular order. */
    ghost function MatchingRows(email: string): (r: set<int>)
      reads this, users
      ensures forall id :: id in r <==> id in users.rows && users.rows[id].email == Str(email)
    {
      set id | id in users.rows && users.rows[id].email == Str(email)
    }

    constructor (users: UserTable)
      requires users.Valid()
      ensures Valid() && this.users == users && session == None
    {
      this.users := users;
      session := None;
    }

    /** POST `/register`. An email already registered answers 400 before any
        hashing or insert. Otherwise the password is hashed, the user inserted
        with role `role || "customer"`, looked up again by email and put in the
        session: 201. */
    method Register(errors: seq<FieldError>, name: Value, email: string, password: string, phone: Value,
                    role: Value, salt: int, faults: RegisterFaults) returns (status: int, hashed: bool)
      requires Valid()
      requires errors == [] ==> |password| >= 6 && RoleValidated(role)
      modifies this, users
      ensures Valid()
      ensures errors != [] ==> status == 400 && !hashed
      ensures errors == [] && !faults.lookup && old(users.FindByEmail(email)) != map[] ==> status == 400 && !hashed
      ensures hashed <==> errors == [] && !faults.lookup && old(users.FindByEmail(email)) == map[]
      ensures status == 201 ==> hashed && !faults.hash && !faults.create && !faults.refetch
      ensures status != 201 ==> session == old(session)
      ensures hashed && !faults.hash && !faults.create ==>
                exists id :: id !in old(users.rows) && users.rows == old(users.rows)[id := UserRow(Bind(name), Str(email), Bind(phone), Hash(password, salt), Or(role, Str("customer")), None)]
      ensures !(hashed && !faults.hash && !faults.create) ==> users.rows == old(users.rows)
      ensures status == 201 ==> session.Some? && session.value.id in users.rows && session.value.id !in old(users.rows)
                                && session.value.email == Str(email)
                                && session.value.role == users.rows[session.value.id].role == Or(role, Str("customer"))
                                && Compare(password, users.rows[session.value.id].password)
      ensures errors == [] && faults == RegisterFaults(false, false, false, false) && old(users.FindByEmail(email)) == map[] ==> status == 201
      ensures errors == [] && faults.lookup ==> status == 500
      ensures hashed && faults.hash ==> status == 500
      ensures hashed && faults.create ==> status == 500
      ensures hashed && faults.refetch ==> status == 500
    {
      hashed := false;
      if errors != [] {
        return 400, false;
      }
      if faults.lookup {
        return 500, false;
      }
      if users.FindByEmail(email) != map[] {
        return 400, false;
      }
      hashed := true;
      if faults.hash {
        return 500, true;
      }
      if faults.create {
        return 500, true;
      }
      var digest := Hash(password, salt);
      CompareHash(password, password, salt);
      var id := users.Create(name, Str(email), phone, digest, Or(role, Str("customer")));
      if faults.refetch {
        return 500, true;
      }
      var found := users.FindByEmail(email);
      assert id in found;
      var newId :| newId in found;
      assert newId == id;
      var newUser := found[newId];
      session := Some(SessionUser(newId, newUser.role, newUser.email));
      status := 201;
    }

    /** POST `/login`. No user with the email answers 404 and a wrong password
        401, both leaving the session as it was; a match puts the user found
        first in the session: 200. */
    method Login(errors: seq<FieldError>, email: string, password: string, lookupFails: bool, compareFails: bool)
      returns (status: int)
      requires Valid()
      modifies this
      ensures Valid() && users.rows == old(users.rows)
      ensures errors != [] ==> status == 400
      ensures errors == [] && !lookupFails ==> (status == 404 <==> !exists id :: id in users.rows && users.rows[id].email == Str(email))
      ensures status != 200 ==> session == old(session)
      ensures status == 200 ==> errors == [] && session.Some? && session.value.id in users.rows
                                && users.rows[session.value.id].email == Str(email)
                                && session.value.email == Str(email)
                                && session.value.role == users.rows[session.value.id].role
                                && Compare(password, users.rows[session.value.id].password)
      ensures errors == [] && lookupFails ==> status == 500
      ensures errors == [] && !lookupFails && MatchingRows(email) != {} && compareFails ==> status == 500
      ensures (errors == [] && !lookupFails && !compareFails && MatchingRows(email) != {}
               && forall id :: id in MatchingRows(email) ==> !Compare(password, users.rows[id].password))
              ==> status == 401
      ensures (errors == [] && !lookupFails && !compareFails && MatchingRows(email) != {}
               && forall id :: id in MatchingRows(email) ==> Compare(password, users.rows[id].password))
              ==> status == 200
    {
      if errors != [] {
        return 400;
      }
      if lookupFails {
        return 500;
      }
      var results := users.FindByEmail(email);
      if |results| == 0 {
        return 404;
      }
      ghost var first := SomeKey(results);
      var id :| id in results;
      var user := results[id];
      if compareFails {
        return 500;
      }
      if !Compare(password, user.password) {
        return 401;
      }
      session := Some(SessionUser(id, user.role, user.email));
      status := 200;
    }

    /** POST `/logout`. Without a session user 400; otherwise the session is
        destroyed: 200, or 500 when destroying fails. */
    method Logout(destroyFails: bool) returns (status: int)
      requires Valid()
      modifies this
      ensures Valid()
      ensures old(session).None? ==> status == 400 && session == None
      ensures old(session).Some? && destroyFails ==> status == 500 && session == old(session)
      ensures old(session).Some? && !destroyFails ==> status == 200 && session == None
    {
      if session.None? {
        return 400;
      }
      if destroyFails {
        return 500;
      }
      session := None;
      status := 200;
    }
  }
}
