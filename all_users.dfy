/** The admin's user registry: role and status changes, refused for the admin's
    own account, and the list kept consistent with the status filter. */
module AllUsers {
  import opened Js
  import opened Records
  import opened Lists

  /** `userEmail === currentUser?.email` */
  predicate IsSelf(userEmail: string, currentEmail: Option<string>) {
    currentEmail == Some(userEmail)
  }

  /** `users.map(u => u._id === id ? { ...u, role } : u)` */
  function WithRole(users: seq<UserRecord>, id: string, role: string): (r: seq<UserRecord>)
    ensures |r| == |users|
    ensures forall i :: 0 <= i < |users| && users[i].id != id ==> r[i] == users[i]
    ensures forall i :: 0 <= i < |users| && users[i].id == id ==> r[i] == users[i].(role := role)
  {
    UpdateWhere(users, UserId, id, (u: UserRecord) => u.(role := role))
  }

  /** `users.map(u => u._id === id ? { ...u, status } : u)`: the status twin of
      `WithRole`, which the status handler writes out on its own. */
  function WithStatus(users: seq<UserRecord>, id: string, status: string): (r: seq<UserRecord>)
    ensures |r| == |users|
    ensures forall i :: 0 <= i < |users| && users[i].id != id ==> r[i] == users[i]
    ensures forall i :: 0 <= i < |users| && users[i].id == id ==> r[i] == users[i].(status := status)
  {
    UpdateWhere(users, UserId, id, (u: UserRecord) => u.(status := status))
  }

  /** `users.filter(u => u._id !== id)` */
  function WithoutUser(users: seq<UserRecord>, id: string): (r: seq<UserRecord>)
    ensures forall u :: u in r <==> u in users && u.id != id
  {
    RemoveWhere(users, UserId, id)
  }

  /** The list after a status change the service applied: under a status filter
      that the new status no longer matches the user leaves the list, otherwise
      only that user's status changes. */
  function AfterStatusChange(users: seq<UserRecord>, filter: string, id: string, status: string): (r: seq<UserRecord>)
    ensures filter != "all" && status != filter ==> forall u :: u in r <==> u in users && u.id != id
    ensures filter == "all" || status == filter ==> r == WithStatus(users, id, status)
  {
    if filter != "all" && status != filter then WithoutUser(users, id) else WithStatus(users, id, status)
  }

  /** Every listed user matches the status filter. */
  predicate MatchesFilter(users: seq<UserRecord>, filter: string) {
    forall u :: u in users ==> filter == "all" || u.status == filter
  }

  /** A status change keeps the list consistent with the filter. */
  lemma StatusChangeKeepsFilter(users: seq<UserRecord>, filter: string, id: string, status: string)
    requires MatchesFilter(users, filter)
    ensures MatchesFilter(AfterStatusChange(users, filter, id, status), filter)
  {
    var r := AfterStatusChange(users, filter, id, status);
    if filter == "all" || status == filter {
      forall u | u in r
        ensures filter == "all" || u.status == filter
      {
        var i :| 0 <= i < |r| && r[i] == u;
        assert users[i] in users;
      }
    }
  }

  /** So does a role change. */
  lemma RoleChangeKeepsFilter(users: seq<UserRecord>, filter: string, id: string, role: string)
    requires MatchesFilter(users, filter)
    ensures MatchesFilter(WithRole(users, id, role), filter)
  {
    var r := WithRole(users, id, role);
    forall u | u in r
      ensures filter == "all" || u.status == filter
    {
      var i :| 0 <= i < |r| && r[i] == u;
      assert users[i] in users;
    }
  }

  /** The role buttons: Admin is disabled for admins and for oneself, Volunteer
      for volunteers and for oneself. */
  function RoleButtonDisabled(u: UserRecord, role: string, currentEmail: Option<string>): (b: bool)
    ensures !b <==> u.role != role && !IsSelf(u.email, currentEmail)
  {
    u.role == role || IsSelf(u.email, currentEmail)
  }

  /** The status button: Block for active users, Unblock otherwise, disabled for oneself. */
  datatype StatusButton = StatusButton(caption: string, newStatus: string, disabled: bool)

  function StatusButtonFor(u: UserRecord, currentEmail: Option<string>): (b: StatusButton)
    ensures b.caption == "Block" <==> u.status == Active
    ensures b.caption == "Block" || b.caption == "Unblock"
    ensures b.newStatus == (if u.status == Active then Blocked else Active)
    ensures b.disabled <==> IsSelf(u.email, currentEmail)
  {
    if u.status == Active then StatusButton("Block", Blocked, IsSelf(u.email, currentEmail))
    else StatusButton("Unblock", Active, IsSelf(u.email, currentEmail))
  }

  class AllUsersPage {
    const currentEmail: Option<string>
    var users: seq<UserRecord>
    var filter: string

    constructor (currentEmail: Option<string>)
      ensures this.currentEmail == currentEmail && users == [] && filter == "all"
    {
      this.currentEmail := currentEmail;
      users, filter := [], "all";
    }

    /** The filter select, followed by the response of `GET /users?status=<filter>`. */
    method FilterLoaded(f: string, list: seq<UserRecord>)
      modifies this
      ensures filter == f && users == list
    {
      filter, users := f, list;
    }

    /** `handleRoleChange`: refused for one's own account, in which case nothing
        is sent; `modifiedCount` is the service's answer otherwise. */
    method RoleChange(id: string, role: string, userEmail: string, modifiedCount: int) returns (sent: bool)
      modifies this
      ensures sent <==> !IsSelf(userEmail, currentEmail)
      ensures filter == old(filter)
      ensures users == if sent && modifiedCount > 0 then WithRole(old(users), id, role) else old(users)
    {
      if IsSelf(userEmail, currentEmail) {
        return false;
      }
      sent := true;
      if modifiedCount > 0 {
        users := WithRole(users, id, role);
      }
    }

    /** `handleStatusChange` */
    method StatusChange(id: string, status: string, userEmail: string, modifiedCount: int) returns (sent: bool)
      modifies this
      ensures sent <==> !IsSelf(userEmail, currentEmail)
      ensures filter == old(filter)
      ensures users == if sent && modifiedCount > 0 then AfterStatusChange(old(users), filter, id, status)
                       else old(users)
    {
      if IsSelf(userEmail, currentEmail) {
        return false;
      }
      sent := true;
      if modifiedCount > 0 {
        if filter != "all" && status != filter {
          users := WithoutUser(users, id);
        } else {
          users := WithStatus(users, id, status);
        }
      }
    }
  }

  /** A click on an enabled button of a row always reaches the service: the
      buttons are disabled exactly where the handlers would refuse. */
  lemma EnabledButtonsAreSent(u: UserRecord, role: string, currentEmail: Option<string>)
    ensures !RoleButtonDisabled(u, role, currentEmail) ==> !IsSelf(u.email, currentEmail)
    ensures !StatusButtonFor(u, currentEmail).disabled <==> !IsSelf(u.email, currentEmail)
  {
  }
}
