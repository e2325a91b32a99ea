/** User accounts (`UserServiceImpl`): registration with the USER role and a
    fresh cart, the administrator's role update, and the profile update.  The
    password encoder is a parameter: the model only records that what is
    stored is its output. */
module UserService {
  import opened Common
  import opened Roles
  import opened Records
  import opened Store
  import CartService

  /** The registration and profile request (`UserRegisterRequestDto`). */
  datatype RegisterRequest = RegisterRequest(
    username: string,
    password: string,
    repeatPassword: string,
    email: string,
    firstName: string,
    lastName: string)

  /** What the service hands back for a user (`UserResponseDto`). */
  datatype UserResponseDto = UserResponseDto(
    id: Id,
    username: string,
    email: string,
    firstName: string,
    lastName: string,
    roles: set<string>)

  /** `userMapper.toDto`: the roles become their names. */
  function ToResponse(id: Id, user: User): (dto: UserResponseDto)
    ensures dto.id == id && dto.username == user.username && dto.email == user.email
    ensures dto.firstName == user.firstName && dto.lastName == user.lastName
    ensures dto.roles == MapRolesToStrings(user.roles)
  {
    UserResponseDto(id, user.username, user.email, user.firstName, user.lastName, MapRolesToStrings(user.roles))
  }

  function UpperChar(c: char): (u: char)
    ensures 'a' <= c <= 'z' ==> u as int == c as int - 32
    ensures !('a' <= c <= 'z') ==> u == c
  {
    if 'a' <= c <= 'z' then (c as int - 32) as char else c
  }

  /** `String.toUpperCase` on the ASCII letters; other characters are kept. */
  function UpperCase(s: string): (u: string)
    ensures |u| == |s|
    ensures forall i :: 0 <= i < |s| ==> u[i] == UpperChar(s[i])
  {
    if s == [] then [] else [UpperChar(s[0])] + UpperCase(s[1..])
  }

  /** Upper-casing twice is upper-casing once. */
  lemma UpperCaseIdempotent(s: string)
    ensures UpperCase(UpperCase(s)) == UpperCase(s)
  {
    assert forall i :: 0 <= i < |s| ==> UpperChar(UpperChar(s[i])) == UpperChar(s[i]);
  }

  /** Whether `name`, upper-cased, is the name of a role. */
  predicate NamesRole(name: string)
  {
    ValueOf(UpperCase(name)).Ok?
  }

  /** The role-name stream of `updateUserRoles`: each name is upper-cased and
      looked up with `valueOf`, in list order; the first name that is no role
      name throws. */
  function ResolveRoleNames(names: seq<string>): Result<set<RoleName>>
  {
    if names == [] then Ok({})
    else match ValueOf(UpperCase(names[0]))
      case Err(f) => Err(f)
      case Ok(n) =>
        match ResolveRoleNames(names[1..])
        case Err(f) => Err(f)
        case Ok(rest) => Ok({n} + rest)
  }

  /** The names resolve exactly when each of them, upper-cased, is a role
      name. */
  lemma {:induction false} ResolveRoleNamesOk(names: seq<string>)
    ensures ResolveRoleNames(names).Ok? <==> forall i :: 0 <= i < |names| ==> NamesRole(names[i])
  {
    if names != [] {
      ResolveRoleNamesOk(names[1..]);
      assert forall j :: 1 <= j < |names| ==> names[j] == names[1..][j - 1];
    }
  }

  /** Resolved names give exactly the roles the names denote. */
  lemma {:induction false} ResolveRoleNamesValue(names: seq<string>)
    requires ResolveRoleNames(names).Ok?
    ensures forall n :: n in ResolveRoleNames(names).value <==>
      exists i :: 0 <= i < |names| && ValueOf(UpperCase(names[i])) == Ok(n)
  {
    if names != [] {
      var tail := names[1..];
      ResolveRoleNamesValue(tail);
      var n0 := ValueOf(UpperCase(names[0])).value;
      var rest := ResolveRoleNames(tail).value;
      forall n
        ensures n in ResolveRoleNames(names).value <==>
          exists i :: 0 <= i < |names| && ValueOf(UpperCase(names[i])) == Ok(n)
      {
        if n in rest {
          var k :| 0 <= k < |tail| && ValueOf(UpperCase(tail[k])) == Ok(n);
          assert names[k + 1] == tail[k];
        }
        if exists i :: 0 <= i < |names| && ValueOf(UpperCase(names[i])) == Ok(n) {
          var i :| 0 <= i < |names| && ValueOf(UpperCase(names[i])) == Ok(n);
          if i > 0 {
            assert names[i] == tail[i - 1];
          }
        }
      }
    }
  }

  /** A name that does not resolve fails the whole list with `valueOf`'s
      failure for the first such name. */
  lemma {:induction false} ResolveRoleNamesError(names: seq<string>)
    requires ResolveRoleNames(names).Err?
    ensures exists i :: 0 <= i < |names| && !NamesRole(names[i]) &&
                        (forall j :: 0 <= j < i ==> NamesRole(names[j])) &&
                        ResolveRoleNames(names).failure == ValueOf(UpperCase(names[i])).failure
  {
    if NamesRole(names[0]) {
      var tail := names[1..];
      ResolveRoleNamesError(tail);
      var k :| 0 <= k < |tail| && !NamesRole(tail[k]) &&
               (forall j :: 0 <= j < k ==> NamesRole(tail[j])) &&
               ResolveRoleNames(tail).failure == ValueOf(UpperCase(tail[k])).failure;
      assert forall j :: 1 <= j < |names| ==> names[j] == tail[j - 1];
      assert names[k + 1] == tail[k];
    } else {
      assert ResolveRoleNames(names).failure == ValueOf(UpperCase(names[0])).failure;
    }
  }

  /** `findAllByNameContaining`: the live role rows whose name is one of
      `names`, as the roles a user holds. */
  function RolesNamed(roleTable: map<Id, RoleRow>, names: set<RoleName>): (roles: set<Role>)
    ensures forall r :: r in roles <==>
      r.id in roleTable && !roleTable[r.id].deleted && roleTable[r.id].name == r.name && r.name in names
  {
    set id | id in roleTable && !roleTable[id].deleted && roleTable[id].name in names :: Role(id, roleTable[id].name)
  }

  /** Whether some stored user has this username (`findByUsername`). */
  predicate UsernameTaken(users: map<Id, User>, username: string)
  {
    exists id :: id in users && users[id].username == username
  }

  /** `getUser`: a stored user, or not-found. */
  function GetUser(users: map<Id, User>, userId: Id): (r: Result<User>)
    ensures r.Ok? <==> userId in users
    ensures r.Ok? ==> r.value == users[userId]
    ensures r.Err? ==> r.failure == Failure(EntityNotFound, "User not found with ID: " + IdToString(userId))
  {
    if userId in users then Ok(users[userId])
    else Err(Failure(EntityNotFound, "User not found with ID: " + IdToString(userId)))
  }

  /** `register`: a taken username is refused and nothing is stored.  Otherwise
      the user is stored under the next key with the encoded password and the
      live USER role rows, and gets an empty cart under the same key. */
  method Register(db: Database, req: RegisterRequest, encode: string -> string) returns (r: Result<UserResponseDto>)
    requires db.Valid()
    modifies db`users, db`nextUserId, db`carts
    ensures db.Valid()
    ensures r.Ok? <==> !UsernameTaken(old(db.users), req.username)
    ensures r.Err? ==>
      && r.failure == Failure(Registration, "User with username " + req.username + " already exists")
      && db.users == old(db.users) && db.carts == old(db.carts)
    ensures r.Ok? ==>
      var id := old(db.nextUserId);
      var user := Records.User(req.username, encode(req.password), req.email, req.firstName, req.lastName,
                       RolesNamed(db.roles, {RoleName.User}));
      && id !in old(db.users) && id !in old(db.carts)
      && db.users == old(db.users)[id := user]
      && db.carts == old(db.carts)[id := ShoppingCart(id)]
      && CartItemsOf(db.cartItems, id) == []
      && r.value == ToResponse(id, user)
  {
    if UsernameTaken(db.users, req.username) {
      return Err(Failure(Registration, "User with username " + req.username + " already exists"));
    }
    var user := Records.User(req.username, encode(req.password), req.email, req.firstName, req.lastName,
                     RolesNamed(db.roles, {RoleName.User}));
    var id := db.nextUserId;
    db.users := db.users[id := user];
    db.nextUserId := id + 1;
    var cart := CartService.CreateShoppingCart(db, id);
    r := Ok(ToResponse(id, user));
  }

  /** `updateUserRoles`: the user must exist; every name must upper-case to a
      role name; the resolved names must match at least one live role row.
      The user's roles are then replaced by exactly those rows. */
  method UpdateUserRoles(db: Database, userId: Id, roleNames: seq<string>) returns (r: Result<UserResponseDto>)
    requires db.Valid()
    modifies db`users
    ensures db.Valid()
    ensures r.Ok? <==>
      && userId in old(db.users)
      && ResolveRoleNames(roleNames).Ok?
      && RolesNamed(db.roles, ResolveRoleNames(roleNames).value) != {}
    ensures userId !in old(db.users) ==> r == Err(GetUser(old(db.users), userId).failure)
    ensures userId in old(db.users) && ResolveRoleNames(roleNames).Err? ==>
      r == Err(ResolveRoleNames(roleNames).failure) && r.failure.kind == IllegalArgument
    ensures (userId in old(db.users) && ResolveRoleNames(roleNames).Ok? &&
             RolesNamed(db.roles, ResolveRoleNames(roleNames).value) == {}) ==>
      r == Err(Failure(EntityNotFound, "No matching roles found for the provided names."))
    ensures r.Err? ==> db.users == old(db.users)
    ensures r.Ok? ==>
      var user := old(db.users)[userId].(roles := RolesNamed(db.roles, ResolveRoleNames(roleNames).value));
      && db.users == old(db.users)[userId := user]
      && r.value == ToResponse(userId, user)
  {
    var found := GetUser(db.users, userId);
    if found.Err? {
      return Err(found.failure);
    }
    var roleEnums := ResolveRoleNames(roleNames);
    if roleEnums.Err? {
      ResolveRoleNamesError(roleNames);
      return Err(roleEnums.failure);
    }
    var roles := RolesNamed(db.roles, roleEnums.value);
    if roles == {} {
      return Err(Failure(EntityNotFound, "No matching roles found for the provided names."));
    }
    var user := found.value.(roles := roles);
    db.users := db.users[userId := user];
    r := Ok(ToResponse(userId, user));
  }

  /** `updateProfile`: the caller must still be stored.  The caller's record
      takes the request's username, email and names and the encoded new
      password, keeps its roles, and is saved under the caller's id. */
  method UpdateProfile(db: Database, principalId: Id, principal: User, req: RegisterRequest, encode: string -> string)
    returns (r: Result<UserResponseDto>)
    requires db.Valid()
    modifies db`users
    ensures db.Valid()
    ensures r.Ok? <==> principalId in old(db.users)
    ensures r.Err? ==> r == Err(GetUser(old(db.users), principalId).failure) && db.users == old(db.users)
    ensures r.Ok? ==>
      var user := Records.User(req.username, encode(req.password), req.email, req.firstName, req.lastName, principal.roles);
      && db.users == old(db.users)[principalId := user]
      && r.value == ToResponse(principalId, user)
  {
    var found := GetUser(db.users, principalId);
    if found.Err? {
      return Err(found.failure);
    }
    var user := principal.(username := req.username, password := req.password, email := req.email,
                           firstName := req.firstName, lastName := req.lastName);
    user := user.(password := encode(req.password));
    user := user.(roles := user.roles);
    db.users := db.users[principalId := user];
    r := Ok(ToResponse(principalId, user));
  }

  // ---------------------------------------------------------------------
  // Properties of the account rules

  /** Role names are matched without regard to ASCII case: "admin", "Admin"
      and "ADMIN" all resolve to ADMIN. */
  lemma LowerCaseAdminResolves()
    ensures ResolveRoleNames(["admin"]) == Ok({Admin})
    ensures ResolveRoleNames(["Admin", "ADMIN"]) == Ok({Admin})
    ensures ResolveRoleNames(["user", "admin"]) == Ok({RoleName.User, Admin})
  {
    ResolvesTo("admin", Admin);
    ResolvesTo("Admin", Admin);
    ResolvesTo("ADMIN", Admin);
    ResolvesTo("user", RoleName.User);
    assert ResolveRoleNames([]) == Ok({});
    assert {Admin} + {} == {Admin};
    ResolveCons("admin", Admin, [], {});
    ResolveCons("ADMIN", Admin, [], {});
    assert ["admin"] == ["admin"] + [];
    assert ["ADMIN"] == ["ADMIN"] + [];
    ResolveCons("Admin", Admin, ["ADMIN"], {Admin});
    ResolveCons("user", RoleName.User, ["admin"], {Admin});
    assert ["Admin", "ADMIN"] == ["Admin"] + ["ADMIN"];
    assert ["user", "admin"] == ["user"] + ["admin"];
    assert {RoleName.User} + {Admin} == {RoleName.User, Admin};
  }

  /** Resolving a list is resolving its head and then its tail. */
  lemma ResolveCons(name: string, n: RoleName, rest: seq<string>, s: set<RoleName>)
    requires ValueOf(UpperCase(name)) == Ok(n) && ResolveRoleNames(rest) == Ok(s)
    ensures ResolveRoleNames([name] + rest) == Ok({n} + s)
  {
    assert ([name] + rest)[0] == name && ([name] + rest)[1..] == rest;
  }

  /** One name, upper-cased, denotes the role `n`. */
  lemma ResolvesTo(name: string, n: RoleName)
    requires UpperCase(name) == Name(n)
    ensures ValueOf(UpperCase(name)) == Ok(n)
  {
    ValueOfName(n);
  }

  /** A name that is no role name, in any case, is refused with the JDK's
      message for the upper-cased name. */
  lemma UnknownRoleRefused()
    ensures ResolveRoleNames(["guest"]) ==
      Err(Failure(IllegalArgument, "No enum constant com.example.winehood.model.Role.RoleName.GUEST"))
  {
    assert UpperCase("guest") == "GUEST";
    assert ValueOf("GUEST").Err?;
  }

  /** A registered user holds nothing but USER roles, and holds exactly the
      USER role when the role table has a live USER row. */
  lemma RegisteredUserRoles(roleTable: map<Id, RoleRow>)
    requires RoleNamesUnique(roleTable)
    ensures MapRolesToStrings(RolesNamed(roleTable, {RoleName.User})) <= {"USER"}
    ensures (exists id :: id in roleTable && roleTable[id] == RoleRow(RoleName.User, false)) ==>
      MapRolesToStrings(RolesNamed(roleTable, {RoleName.User})) == {"USER"}
  {
    var roles := RolesNamed(roleTable, {RoleName.User});
    if exists id :: id in roleTable && roleTable[id] == RoleRow(RoleName.User, false) {
      var id :| id in roleTable && roleTable[id] == RoleRow(RoleName.User, false);
      assert Role(id, RoleName.User) in roles;
      assert Name(RoleName.User) == "USER";
    }
  }

  /** With unique role names, each resolved name contributes one role row. */
  lemma {:induction false} RolesNamedSize(roleTable: map<Id, RoleRow>, names: set<RoleName>)
    requires RoleNamesUnique(roleTable)
    ensures |RolesNamed(roleTable, names)| <= |names|
  {
    if names != {} {
      var n :| n in names;
      RolesNamedSize(roleTable, names - {n});
      var rest := RolesNamed(roleTable, names - {n});
      var mine := RolesNamed(roleTable, {n});
      assert RolesNamed(roleTable, names) == rest + mine;
      if mine != {} {
        var r :| r in mine;
        assert forall x :: x in mine ==> x == r;
        assert mine == {r};
      }
    } else {
      assert RolesNamed(roleTable, names) == {};
    }
  }
}
