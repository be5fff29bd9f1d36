/** The admin user management page (pages/AdminUserManagementPage.js): the
    search filter, the approve/revoke toggle, and the local list updates after
    the server calls. */
module AdminUsers {
  import opened Js
  import opened Seqs
  import opened Text

  /** A user as the admin list holds it; `status` is whatever the server sent. */
  datatype AdminUser = AdminUser(id: int, name: string, email: string, status: Value)

  /** The user's lower-cased name or email contains the lower-cased query. */
  predicate Matches(query: string, user: AdminUser)
  {
    Includes(Lower(user.name), Lower(query)) || Includes(Lower(user.email), Lower(query))
  }

  /** filteredUsers. */
  function FilteredUsers(users: seq<AdminUser>, query: string): seq<AdminUser>
  {
    Filter(users, u => Matches(query, u))
  }

  /** The search keeps exactly the matching users (in list order, as
      `Filter` does); it ignores the case of the query; and an empty query
      keeps every user. */
  lemma SearchKeepsMatches(users: seq<AdminUser>, query: string)
    ensures forall u :: u in FilteredUsers(users, query) <==> u in users && Matches(query, u)
    ensures FilteredUsers(users, Lower(query)) == FilteredUsers(users, query)
    ensures query == "" ==> FilteredUsers(users, query) == users
  {
    FilterMembership(users, u => Matches(query, u));
    LowerIdempotent(query);
    FilterSameTest(users, u => Matches(Lower(query), u), u => Matches(query, u));
    if query == "" {
      forall i | 0 <= i < |users|
        ensures Matches(query, users[i])
      {
        IncludesEmpty(Lower(users[i].name));
      }
      FilterKeepsAll(users, u => Matches(query, u));
    }
  }

  const Approved: string := "approved"
  const Pending: string := "pending"

  /** The Approve/Revoke button: an approved user is sent back to "pending",
      anyone else is approved. */
  function ToggledStatus(status: Value): (r: string)
    ensures r == Approved <==> status != Str(Approved)
    ensures r == Pending <==> status == Str(Approved)
  {
    if status == Str(Approved) then Pending else Approved
  }

  /** `users.map(u => u.id === id ? { ...u, status } : u)`. */
  function WithStatus(users: seq<AdminUser>, id: int, status: string): (r: seq<AdminUser>)
    ensures |r| == |users|
    ensures forall i :: 0 <= i < |r| ==>
              if users[i].id == id then r[i] == users[i].(status := Str(status)) else r[i] == users[i]
  {
    seq(|users|, i requires 0 <= i < |users| =>
      if users[i].id == id then users[i].(status := Str(status)) else users[i])
  }

  predicate OtherThan(id: int, u: AdminUser)
  {
    u.id != id
  }

  /** `users.filter(u => u.id !== id)`. */
  function WithoutUser(users: seq<AdminUser>, id: int): (r: seq<AdminUser>)
    ensures forall u :: u in r <==> u in users && u.id != id
  {
    FilterMembership(users, u => OtherThan(id, u));
    Filter(users, u => OtherThan(id, u))
  }

  const StatusFailed: string := "Failed to update user status. Please try again."
  const DeleteFailed: string := "Failed to delete user. Please try again."
  const Deleted: string := "User deleted successfully."

  class UsersPage {
    var users: seq<AdminUser>
    var actionError: string
    var successMessage: string

    constructor (fetched: seq<AdminUser>)
      ensures users == fetched && actionError == "" && successMessage == ""
    {
      users, actionError, successMessage := fetched, "", "";
    }

    /** updateUserStatus: on success only the matching user's status changes
        and a confirmation shows; on failure the list is left as it was and
        the action error shows. */
    method UpdateUserStatus(id: int, newStatus: string, serverOk: bool)
      modifies this
      ensures serverOk ==> users == WithStatus(old(users), id, newStatus) && actionError == ""
                           && successMessage == "User status updated to " + newStatus + "."
      ensures !serverOk ==> users == old(users) && actionError == StatusFailed && successMessage == ""
    {
      actionError, successMessage := "", "";
      if serverOk {
        users := WithStatus(users, id, newStatus);
        successMessage := "User status updated to " + newStatus + ".";
      } else {
        actionError := StatusFailed;
      }
    }

    /** deleteUser: on success only the matching user leaves the list; on
        failure the list is left as it was and the action error shows. */
    method DeleteUser(id: int, serverOk: bool)
      modifies this
      ensures serverOk ==> users == WithoutUser(old(users), id) && actionError == "" && successMessage == Deleted
      ensures !serverOk ==> users == old(users) && actionError == DeleteFailed && successMessage == ""
    {
      actionError, successMessage := "", "";
      if serverOk {
        users := WithoutUser(users, id);
        successMessage := Deleted;
      } else {
        actionError := DeleteFailed;
      }
    }
  }
}
