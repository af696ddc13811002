/** UserRolesController: the (user, role) table. A role is assigned only to
    a user with no role yet, so every user keeps at most one role row. */
module UserRoles {
  import opened Query
  import opened Text
  import opened Http
  import opened Store

  const MsgInvalidAssignment := "Invalid role assignment data."
  const MsgUserNotFound := "User not found."
  const MsgRoleAlreadyAssigned := "Role already assigned to this user."
  const MsgHasRoles := "User already has the following roles assigned: "
  const MsgRoleAssigned := "Role assigned successfully."
  const MsgInvalidUpdate := "Invalid role update data."
  const MsgRoleNotFound := "User role not found."
  const MsgRoleUpdated := "Role updated successfully."
  const MsgRoleUnchanged := "Role is already set to the specified value."
  const MsgInvalidUserId := "Invalid user ID."
  const MsgNoRolesForUser := "No roles found for the specified user ID."
  const MsgRolesRemovedForUser := "Roles removed successfully for the specified user ID."
  const MsgInvalidDeletion := "Invalid role deletion data."
  const MsgNoRolesNamed := "No roles found with the specified role name."
  const MsgRolesRemovedNamed := "Roles removed successfully for the specified role name."

  /** Where(ur => ur.UserId == userId).Select(ur => ur.Role), in table order. */
  function RolesOf(rows: seq<UserRole>, userId: int): (r: seq<string>)
    ensures |r| <= |rows|
    ensures r == [] <==> forall i :: 0 <= i < |rows| ==> rows[i].userId != userId
    ensures forall role :: role in r <==> UserRole(userId, role) in rows
  {
    if |rows| == 0 then []
    else
      assert rows == [rows[0]] + rows[1..];
      var rest := RolesOf(rows[1..], userId);
      if rows[0].userId == userId then [rows[0].role] + rest else rest
  }

  /** A user with one role row at most has one role at most. */
  lemma {:induction false} OneRoleEach(rows: seq<UserRole>, userId: int)
    requires OneRolePerUser(rows)
    ensures |RolesOf(rows, userId)| <= 1
  {
    if |rows| > 0 {
      OneRoleEach(rows[1..], userId);
      forall j | 0 <= j < |rows[1..]| ensures rows[1..][j].userId != rows[0].userId {
        assert rows[1..][j] == rows[j + 1];
      }
    }
  }

  /** A row for a user no other row names can lead the table. */
  lemma ConsKeepsOneRole(row: UserRole, rows: seq<UserRole>)
    requires OneRolePerUser(rows)
    requires forall other :: other in rows ==> other.userId != row.userId
    ensures OneRolePerUser([row] + rows)
  {
  }

  /** Deleting rows cannot give a user a second role. */
  lemma {:induction false} FilterKeepsOneRole(rows: seq<UserRole>, p: UserRole -> bool)
    requires OneRolePerUser(rows)
    ensures OneRolePerUser(Filter(rows, p))
  {
    if |rows| > 0 {
      assert rows == [rows[0]] + rows[1..];
      var rest := Filter(rows[1..], p);
      FilterKeepsOneRole(rows[1..], p);
      if p(rows[0]) {
        forall other | other in rest ensures other.userId != rows[0].userId {
          var m :| 0 <= m < |rows[1..]| && rows[1..][m] == other;
          assert rows[m + 1] == other;
        }
        ConsKeepsOneRole(rows[0], rest);
        assert Filter(rows, p) == [rows[0]] + rest;
      }
    }
  }

  /** Deleting rows keeps every remaining row's user id below the counter. */
  lemma FilterKeepsBound(rows: seq<UserRole>, p: UserRole -> bool, bound: int)
    requires forall i :: 0 <= i < |rows| ==> rows[i].userId < bound
    ensures forall i :: 0 <= i < |Filter(rows, p)| ==> Filter(rows, p)[i].userId < bound
  {
  }

  class UserRolesController {
    const db: Database

    constructor (db: Database)
      ensures this.db == db
    {
      this.db := db;
    }

    /** AssignRole: adds (userId, roleName) for an existing user who has no role yet. */
    method AssignRole(userId: int, roleName: string) returns (r: Reply<string>)
      requires db.AccountsValid()
      modifies db`roles
      ensures db.AccountsValid()
      ensures IsNullOrWhiteSpace(roleName) || roleName == Placeholder || userId <= 0 ==>
                r == BadRequest(MsgInvalidAssignment) && unchanged(db)
      ensures !IsNullOrWhiteSpace(roleName) && roleName != Placeholder && userId > 0 ==>
        && (First(db.users, IdIs(userId)).None? ==> r == NotFound(MsgUserNotFound) && unchanged(db))
        && (First(db.users, IdIs(userId)).Some? ==>
              && (UserRole(userId, roleName) in old(db.roles) ==>
                    r == BadRequest(MsgRoleAlreadyAssigned) && unchanged(db))
              && (UserRole(userId, roleName) !in old(db.roles) && RolesOf(old(db.roles), userId) != [] ==>
                    && r == BadRequest(MsgHasRoles + Join(", ", RolesOf(old(db.roles), userId)))
                    && unchanged(db))
              && (RolesOf(old(db.roles), userId) == [] ==>
                    r == Ok(MsgRoleAssigned) && db.roles == old(db.roles) + [UserRole(userId, roleName)]))
      // Never a second role: a user who already has one is refused.
      ensures (exists row :: row in old(db.roles) && row.userId == userId) ==> db.roles == old(db.roles)
    {
      if IsNullOrWhiteSpace(roleName) || roleName == Placeholder || userId <= 0 {
        return BadRequest(MsgInvalidAssignment);
      }
      var k := First(db.users, IdIs(userId));
      if k.None? {
        return NotFound(MsgUserNotFound);
      }
      if UserRole(userId, roleName) in db.roles {
        return BadRequest(MsgRoleAlreadyAssigned);
      }
      var existing := RolesOf(db.roles, userId);
      if |existing| > 0 {
        return BadRequest(MsgHasRoles + Join(", ", existing));
      }
      assert db.users[k.value].id == userId;
      db.roles := db.roles + [UserRole(userId, roleName)];
      r := Ok(MsgRoleAssigned);
    }

    /** UpdateRole: renames the first role row of the user to the trimmed
        name, unless it already equals it ignoring case. */
    method UpdateRole(userId: int, roleName: string) returns (r: Reply<string>)
      requires db.AccountsValid()
      modifies db`roles
      ensures db.AccountsValid()
      ensures IsNullOrWhiteSpace(roleName) ==> r == BadRequest(MsgInvalidUpdate) && unchanged(db)
      ensures !IsNullOrWhiteSpace(roleName) ==>
        var k := First(old(db.roles), RoleOf(userId));
        && (k.None? ==> r == NotFound(MsgRoleNotFound) && unchanged(db))
        && (k.Some? && EqualsIgnoreCase(old(db.roles)[k.value].role, Trim(roleName)) ==>
              r == BadRequest(MsgRoleUnchanged) && unchanged(db))
        && (k.Some? && !EqualsIgnoreCase(old(db.roles)[k.value].role, Trim(roleName)) ==>
              && r == Ok(MsgRoleUpdated)
              && db.roles == old(db.roles)[k.value := UserRole(userId, Trim(roleName))])
    {
      if IsNullOrWhiteSpace(roleName) {
        return BadRequest(MsgInvalidUpdate);
      }
      var name := Trim(roleName);
      var k := First(db.roles, RoleOf(userId));
      if k.None? {
        return NotFound(MsgRoleNotFound);
      }
      if !EqualsIgnoreCase(db.roles[k.value].role, name) {
        ghost var roles0 := db.roles;
        db.roles := db.roles[k.value := db.roles[k.value].(role := name)];
        assert forall i :: 0 <= i < |db.roles| ==> db.roles[i].userId == roles0[i].userId;
        return Ok(MsgRoleUpdated);
      }
      r := BadRequest(MsgRoleUnchanged);
    }

    /** DeleteRoleByUserId: removes every row of the user, and only those. */
    method DeleteRoleByUserId(userId: int) returns (r: Reply<string>)
      requires db.AccountsValid()
      modifies db`roles
      ensures db.AccountsValid()
      ensures userId <= 0 ==> r == BadRequest(MsgInvalidUserId) && unchanged(db)
      ensures userId > 0 && (forall row :: row in old(db.roles) ==> row.userId != userId) ==>
                r == NotFound(MsgNoRolesForUser) && unchanged(db)
      ensures userId > 0 && (exists row :: row in old(db.roles) && row.userId == userId) ==>
                && r == Ok(MsgRolesRemovedForUser)
                && db.roles == Filter(old(db.roles), Not(RoleOf(userId)))
                && (forall row :: row in db.roles ==> row.userId != userId)
                && (forall row: UserRole :: row.userId != userId ==> multiset(db.roles)[row] == multiset(old(db.roles))[row])
    {
      if userId <= 0 {
        return BadRequest(MsgInvalidUserId);
      }
      var owned := Filter(db.roles, RoleOf(userId));
      if |owned| == 0 {
        return NotFound(MsgNoRolesForUser);
      }
      assert owned[0] in owned;
      FilterKeepsOneRole(db.roles, Not(RoleOf(userId)));
      FilterCounts(db.roles, Not(RoleOf(userId)));
      FilterKeepsBound(db.roles, Not(RoleOf(userId)), db.nextUserId);
      db.roles := Filter(db.roles, Not(RoleOf(userId)));
      r := Ok(MsgRolesRemovedForUser);
    }

    /** DeleteRoleByRoleName: removes every row whose role is exactly this
        name (case-sensitive), and only those. */
    method DeleteRoleByRoleName(roleName: string) returns (r: Reply<string>)
      requires db.AccountsValid()
      modifies db`roles
      ensures db.AccountsValid()
      ensures IsNullOrWhiteSpace(roleName) ==> r == BadRequest(MsgInvalidDeletion) && unchanged(db)
      ensures !IsNullOrWhiteSpace(roleName) && (forall row :: row in old(db.roles) ==> row.role != roleName) ==>
                r == NotFound(MsgNoRolesNamed) && unchanged(db)
      ensures !IsNullOrWhiteSpace(roleName) && (exists row :: row in old(db.roles) && row.role == roleName) ==>
                && r == Ok(MsgRolesRemovedNamed)
                && db.roles == Filter(old(db.roles), Not(RoleNamed(roleName)))
                && (forall row :: row in db.roles ==> row.role != roleName)
                && (forall row: UserRole :: row.role != roleName ==> multiset(db.roles)[row] == multiset(old(db.roles))[row])
    {
      if IsNullOrWhiteSpace(roleName) {
        return BadRequest(MsgInvalidDeletion);
      }
      var named := Filter(db.roles, RoleNamed(roleName));
      if |named| == 0 {
        return NotFound(MsgNoRolesNamed);
      }
      assert named[0] in named;
      FilterKeepsOneRole(db.roles, Not(RoleNamed(roleName)));
      FilterCounts(db.roles, Not(RoleNamed(roleName)));
      FilterKeepsBound(db.roles, Not(RoleNamed(roleName)), db.nextUserId);
      db.roles := Filter(db.roles, Not(RoleNamed(roleName)));
      r := Ok(MsgRolesRemovedNamed);
    }

    /** GetRoles: the roles of an existing user, which are one at most. */
    method GetRoles(userId: int) returns (r: Reply<seq<string>>)
      requires db.AccountsValid()
      ensures First(db.users, IdIs(userId)).None? ==> r == NotFound(MsgUserNotFound)
      ensures First(db.users, IdIs(userId)).Some? ==> r.Ok?
      ensures r.Ok? ==> forall role :: role in r.value <==> UserRole(userId, role) in db.roles
      ensures r.Ok? ==> |r.value| <= 1
    {
      var k := First(db.users, IdIs(userId));
      if k.None? {
        return NotFound(MsgUserNotFound);
      }
      OneRoleEach(db.roles, userId);
      r := Ok(RolesOf(db.roles, userId));
    }
  }
}
