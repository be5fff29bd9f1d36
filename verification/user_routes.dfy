/** The user router (routes/userRoutes.js): which handler a request reaches,
    and the id check in front of every route with an `:id`. */
module UserRoutes {
  import opened Js
  import opened Text

  /** validateUserId: the id must match `/^\d+$/`. */
  predicate ValidUserId(id: string)
  {
    DigitString(id)
  }

  datatype Verb = GET | POST | PUT | DELETE

  datatype Handler = GetUsers | GetUserById | UpdateUser | UpdateUserStatus | DeleteUser

  /** Where a request ends: no route matches, the id check answers 400, or a
      controller handler runs with the id it was given. */
  datatype Routed = NoRoute | Rejected | Reached(handler: Handler, id: string)

  /** The segments of the path below the router's mount point; Express never
      hands a route an empty segment. */
  predicate Segments(path: seq<string>)
  {
    forall i :: 0 <= i < |path| ==> path[i] != ""
  }

  /** The route table: GET `/`, then GET, PUT and DELETE on `/:id` and PUT on
      `/:id/status`, the last four behind the id check. */
  function Route(verb: Verb, path: seq<string>): (r: Routed)
    requires Segments(path)
    ensures r.Reached? && r.handler != GetUsers ==> |path| >= 1 && r.id == path[0] && ValidUserId(r.id)
    ensures r.Rejected? ==> |path| >= 1 && !ValidUserId(path[0])
    ensures r == Reached(GetUsers, "") <==> verb == GET && path == []
  {
    if path == [] then (if verb == GET then Reached(GetUsers, "") else NoRoute)
    else
      var id := path[0];
      var handler :=
        if |path| == 1 && verb == GET then Some(GetUserById)
        else if |path| == 1 && verb == PUT then Some(UpdateUser)
        else if |path| == 1 && verb == DELETE then Some(DeleteUser)
        else if |path| == 2 && path[1] == "status" && verb == PUT then Some(UpdateUserStatus)
        else None;
      match handler
      case None => NoRoute
      case Some(h) => if ValidUserId(id) then Reached(h, id) else Rejected
  }

  /** Every route with an `:id` is guarded: a request for any of them with a
      bad id is rejected, with a good id it reaches its handler. */
  lemma IdRoutesAreGuarded(verb: Verb, id: string, tail: seq<string>)
    requires id != "" && Segments(tail)
    requires (verb in {GET, PUT, DELETE} && tail == []) || (verb == PUT && tail == ["status"])
    ensures Route(verb, [id] + tail).Rejected? <==> !ValidUserId(id)
    ensures Route(verb, [id] + tail).Reached? <==> ValidUserId(id)
  {
    assert ([id] + tail)[0] == id;
    assert |[id] + tail| == 1 + |tail|;
    assert tail == ["status"] ==> ([id] + tail)[1] == "status";
  }

  /** The ids the source's comments worry about. */
  lemma IdExamples()
    ensures !ValidUserId("") && !ValidUserId("-1") && !ValidUserId("1.5") && !ValidUserId("12a")
    ensures ValidUserId("007")
    ensures Route(GET, ["12a"]) == Rejected && Route(DELETE, ["-1"]) == Rejected
    ensures Route(PUT, ["007", "status"]) == Reached(UpdateUserStatus, "007")
  {
    assert !IsDigit("-1"[0]);
    assert !IsDigit("1.5"[1]);
    assert !IsDigit("12a"[2]);
    assert IsDigit("007"[0]) && IsDigit("007"[1]) && IsDigit("007"[2]);
  }
}
