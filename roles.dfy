/** The role entity: the two role names, the authority string Spring Security
    sees, the enum's `valueOf`, and the mapper that turns a user's roles into
    their names. */
module Roles {
  import opened Common

  datatype RoleName = Admin | User

  /** A role row as a user holds it: its id and its name. */
  datatype Role = Role(id: Id, name: RoleName)

  /** `Enum.name()`: the constant's identifier. */
  function Name(r: RoleName): string
  {
    match r
    case Admin => "ADMIN"
    case User => "USER"
  }

  const RolePrefix: string := "ROLE_"

  /** `getAuthority`: the prefix followed by the role's name. */
  function Authority(r: RoleName): (a: string)
    ensures |a| > |RolePrefix|
    ensures a[..|RolePrefix|] == RolePrefix
    ensures a[|RolePrefix|..] == Name(r)
  {
    RolePrefix + Name(r)
  }

  lemma AuthorityValues()
    ensures Authority(Admin) == "ROLE_ADMIN"
    ensures Authority(User) == "ROLE_USER"
  {
  }

  /** Distinct role names never share an authority. */
  lemma AuthorityInjective(r1: RoleName, r2: RoleName)
    ensures Authority(r1) == Authority(r2) ==> r1 == r2
  {
    if Authority(r1) == Authority(r2) {
      assert Name(r1) == Authority(r1)[|RolePrefix|..] == Name(r2);
    }
  }

  /** `RoleName.valueOf`: the constant whose name is exactly `s`, or the
      `IllegalArgumentException` the JDK throws for any other string. */
  function ValueOf(s: string): (r: Result<RoleName>)
    ensures r.Ok? <==> exists n: RoleName :: Name(n) == s
    ensures r.Ok? ==> Name(r.value) == s
    ensures r.Err? ==>
      r.failure == Failure(IllegalArgument, "No enum constant com.example.winehood.model.Role.RoleName." + s)
  {
    if s == "ADMIN" then assert Name(Admin) == s; Ok(Admin)
    else if s == "USER" then assert Name(User) == s; Ok(User)
    else
      assert forall n: RoleName :: Name(n) != s;
      Err(Failure(IllegalArgument, "No enum constant com.example.winehood.model.Role.RoleName." + s))
  }

  lemma ValueOfName(n: RoleName)
    ensures ValueOf(Name(n)) == Ok(n)
  {
  }

  /** `UserMapper.mapRolesToStrings`: the set of the roles' enum names. */
  function MapRolesToStrings(roles: set<Role>): (names: set<string>)
    ensures forall s :: s in names <==> exists r :: r in roles && Name(r.name) == s
    ensures forall s :: s in names ==> s == "ADMIN" || s == "USER"
    ensures roles == {} ==> names == {}
    ensures |names| <= |roles|
  {
    var names := set r | r in roles :: Name(r.name);
    ImageNoLarger(roles, names);
    names
  }

  /** Mapping a set of roles to their names never produces more names than roles. */
  lemma {:induction false} ImageNoLarger(roles: set<Role>, names: set<string>)
    requires names == set r | r in roles :: Name(r.name)
    ensures |names| <= |roles|
  {
    if roles != {} {
      var r :| r in roles;
      var rest := roles - {r};
      var restNames := set x | x in rest :: Name(x.name);
      ImageNoLarger(rest, restNames);
      assert names == restNames + {Name(r.name)};
    } else {
      assert names == {};
    }
  }
}
