/**
 * The identity store behind `UserManager` and `RoleManager`: users by
 * name, each with an e-mail, a credential and the roles it was added to,
 * and the set of role names that exist. Password hashing is abstracted
 * away: the stored credential is compared for equality.
 */
module Identity {
  import opened Common

  const AdminRole := "Admin"
  const UserRole := "User"

  datatype User = User(userName: string, email: string, password: string, roles: seq<string>)

  /**
   * What sign-up maintains: each user is stored under its own name; the
   * first user to sign up (`admin`) holds exactly "Admin" and every other
   * user exactly "User"; "Admin" exists once someone signed up and "User"
   * once there are two users.
   */
  ghost predicate Registry(users: map<string, User>, roles: set<string>, admin: Option<string>)
  {
    && (forall u :: u in users ==>
          users[u].userName == u && users[u].roles == [if admin == Some(u) then AdminRole else UserRole])
    && (admin.None? <==> users == map[])
    && (admin.Some? ==> admin.value in users)
    && roles <= {AdminRole, UserRole}
    && (AdminRole in roles <==> admin.Some?)
    && (UserRole in roles <==> |users| >= 2)
  }

  /** The role a new user gets: "Admin" while that role does not exist yet, "User" after. */
  function AssignedRole(roles: set<string>): (role: string)
    ensures role == AdminRole || role == UserRole
    ensures role == AdminRole <==> AdminRole !in roles
    ensures AdminRole in roles + {role}
  {
    if AdminRole in roles then UserRole else AdminRole
  }

  /** Registering a new name with the role `AssignedRole` picks keeps the registry invariant. */
  lemma RegisterNewUser(users: map<string, User>, roles: set<string>, admin: Option<string>, user: User)
    requires Registry(users, roles, admin)
    requires user.userName !in users
    requires user.roles == [AssignedRole(roles)]
    ensures Registry(users[user.userName := user], roles + {AssignedRole(roles)},
                     if admin.None? then Some(user.userName) else admin)
  {
  }

  /** Storing a user twice under one name keeps only the second. */
  lemma OverwriteUser(users: map<string, User>, name: string, first: User, second: User)
    ensures users[name := first][name := second] == users[name := second]
  {
  }

  class IdentityStore {
    var users: map<string, User>
    var roles: set<string>
    /** The name of the first user whose sign-up succeeded, if any. */
    ghost var admin: Option<string>

    ghost predicate Valid()
      reads this
    {
      Registry(users, roles, admin)
    }

    constructor ()
      ensures Valid() && users == map[] && roles == {} && admin == None
    {
      users := map[];
      roles := {};
      admin := None;
    }
  }

  /**
   * After any sequence of successful sign-ups, every user holds exactly one
   * role, and a user holds "Admin" exactly when it was the first to sign up.
   */
  lemma SoleAdminIsFirstUser(ids: IdentityStore)
    requires ids.Valid()
    ensures forall u :: u in ids.users ==>
      && ids.admin.Some?
      && |ids.users[u].roles| == 1
      && (AdminRole in ids.users[u].roles <==> u == ids.admin.value)
  {
  }
}
