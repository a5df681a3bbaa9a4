/**
 * `AuthenticationController`: sign-up with first-user-is-Admin role
 * assignment, and login issuing a one-hour token of claims. Token signing,
 * issuer and audience are not modelled: a token is its claims and expiry.
 */
module AuthenticationController {
  import opened Common
  import opened Identity

  /** Token lifetime in seconds (`DateTime.Now.AddHours(1)`). */
  const TokenLifetime := 3600

  datatype SignUpModel = SignUpModel(userName: string, email: string, password: string)

  datatype LoginModel = LoginModel(userName: string, password: string)

  /** The `Response` body with its HTTP status. */
  datatype AuthResponse = AuthResponse(statusCode: int, status: string, message: string)

  const UserExists := AuthResponse(404, "Error Message", "Username already exists")
  const CreateFailed := AuthResponse(500, "Error Message", "User Created Failed")
  const SignUpSucceeded := AuthResponse(200, "Success", "User Created Successfully")

  datatype ClaimType = Name | Jti | Role

  datatype Claim = Claim(kind: ClaimType, value: string)

  datatype LoginResult = Token(claims: seq<Claim>, expires: int) | Unauthorized

  /** The role names carried by a claim list, in order. */
  function RolesOf(claims: seq<Claim>): seq<string>
  {
    if claims == [] then []
    else
      var last := claims[|claims| - 1];
      RolesOf(claims[..|claims| - 1]) + (if last.kind == Role then [last.value] else [])
  }

  /**
   * POST api/Authentication/SignUp. `creationSucceeds` is the outcome of
   * `UserManager.CreateAsync` (password policy and storage are not
   * modelled).
   */
  method SignUp(ids: IdentityStore, model: SignUpModel, creationSucceeds: bool) returns (r: AuthResponse)
    requires ids.Valid()
    modifies ids
    ensures ids.Valid()
    ensures model.userName in old(ids.users) ==>
      r == UserExists && ids.users == old(ids.users) && ids.roles == old(ids.roles)
    ensures model.userName !in old(ids.users) && !creationSucceeds ==>
      r == CreateFailed && ids.users == old(ids.users) && ids.roles == old(ids.roles)
    ensures model.userName !in old(ids.users) && creationSucceeds ==>
      var role := AssignedRole(old(ids.roles));
      && r == SignUpSucceeded
      && ids.users == old(ids.users)[model.userName := User(model.userName, model.email, model.password, [role])]
      && ids.roles == old(ids.roles) + {role}
      && ids.admin == (if old(ids.admin).None? then Some(model.userName) else old(ids.admin))
  {
    if model.userName in ids.users {
      return UserExists;
    }
    if !creationSucceeds {
      return CreateFailed;
    }
    var name := model.userName;
    var created := User(name, model.email, model.password, []);
    ids.users := ids.users[name := created];
    var role;
    if AdminRole !in ids.roles {
      ids.roles := ids.roles + {AdminRole};
      role := AdminRole;
    } else {
      if UserRole !in ids.roles {
        ids.roles := ids.roles + {UserRole};
      }
      role := UserRole;
    }
    assert role == AssignedRole(old(ids.roles)) && ids.roles == old(ids.roles) + {role};
    var user := created.(roles := created.roles + [role]);
    ids.users := ids.users[name := user];
    OverwriteUser(old(ids.users), name, created, user);
    RegisterNewUser(old(ids.users), old(ids.roles), old(ids.admin), user);
    if ids.admin.None? {
      ids.admin := Some(name);
    }
    return SignUpSucceeded;
  }

  /**
   * POST api/Authentication/login. `now` is the issuing time in seconds and
   * `jti` the fresh GUID of the token id claim. An unknown user and a wrong
   * password give the same answer.
   */
  method Login(ids: IdentityStore, model: LoginModel, now: int, jti: string) returns (r: LoginResult)
    ensures r.Token? <==> model.userName in ids.users && ids.users[model.userName].password == model.password
    ensures r.Token? ==>
      var user := ids.users[model.userName];
      && |r.claims| == 2 + |user.roles|
      && r.claims[0] == Claim(Name, user.userName)
      && r.claims[1] == Claim(Jti, jti)
      && (forall j :: 0 <= j < |user.roles| ==> r.claims[2 + j] == Claim(Role, user.roles[j]))
      && RolesOf(r.claims) == user.roles
      && r.expires == now + TokenLifetime
  {
    if model.userName !in ids.users || ids.users[model.userName].password != model.password {
      return Unauthorized;
    }
    var user := ids.users[model.userName];
    var userRoles := user.roles;
    var authClaims := [Claim(Name, user.userName), Claim(Jti, jti)];
    assert RolesOf(authClaims) == [] by {
      assert authClaims[..1] == [Claim(Name, user.userName)];
      assert [Claim(Name, user.userName)][..0] == [];
      assert RolesOf([Claim(Name, user.userName)]) == [];
    }
    for i := 0 to |userRoles|
      invariant |authClaims| == 2 + i
      invariant authClaims[0] == Claim(Name, user.userName) && authClaims[1] == Claim(Jti, jti)
      invariant forall j :: 0 <= j < i ==> authClaims[2 + j] == Claim(Role, userRoles[j])
      invariant RolesOf(authClaims) == userRoles[..i]
    {
      var next := authClaims + [Claim(Role, userRoles[i])];
      assert next[..|next| - 1] == authClaims;
      assert userRoles[..i + 1] == userRoles[..i] + [userRoles[i]];
      authClaims := next;
    }
    assert userRoles[..|userRoles|] == userRoles;
    return Token(authClaims, now + TokenLifetime);
  }

  /**
   * The scenarios of the first two users: "alice" signs up first and gets
   * "Admin", "bob" next gets "User", "alice" again is refused, a wrong
   * password is refused, and alice's token carries exactly the role "Admin".
   */
  method SignUpScenario() returns (first: AuthResponse, second: AuthResponse, again: AuthResponse,
                                   aliceRoles: seq<string>, bobRoles: seq<string>,
                                   wrong: LoginResult, alice: LoginResult)
    ensures first == SignUpSucceeded && aliceRoles == [AdminRole]
    ensures second == SignUpSucceeded && bobRoles == [UserRole]
    ensures again == UserExists
    ensures wrong == Unauthorized
    ensures alice.Token? && RolesOf(alice.claims) == [AdminRole]
  {
    var ids := new IdentityStore();
    first := SignUp(ids, SignUpModel("alice", "alice@example.com", "pw1"), true);
    second := SignUp(ids, SignUpModel("bob", "bob@example.com", "pw2"), true);
    again := SignUp(ids, SignUpModel("alice", "other@example.com", "pw3"), true);
    aliceRoles, bobRoles := ids.users["alice"].roles, ids.users["bob"].roles;
    wrong := Login(ids, LoginModel("alice", "pw2"), 0, "jti-0");
    alice := Login(ids, LoginModel("alice", "pw1"), 0, "jti-1");
  }
}
