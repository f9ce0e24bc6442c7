/** Permissions, roles and their assignment to players.

    A player holds a permission through a role assigned to them in a scope
    (global, one team or one tournament).  `get_player_permissions` joins the
    assignments with the roles and their permissions into a list of grants
    `(name, scope_type, scope_id)`; `verify_permissions` checks a list of
    required names against such a list.  The tables are sequences of rows in
    table order.  The player-role table's key is (player, role), so the
    database never holds two assignments of one role to one player, not
    even in different scopes; the model's assignment table does not enforce
    that key. */
module Access {
  import opened Common

  datatype ScopeType = GlobalScope | TeamScope | TournamentScope

  /** `PermissionScope`: a scope type and an optional scope id.  Being a
      datatype, two scopes are equal exactly when both parts are, which is
      what its `__eq__` compares. */
  datatype PermissionScope = PermissionScope(scopeType: ScopeType, scopeId: Option<Id>)

  /** One row of `get_player_permissions`. */
  datatype Grant = Grant(name: string, scopeType: ScopeType, scopeId: Option<Id>)

  /** A grant meets a required permission: the names agree and the grant is
      global, or a scope was asked for, the scope types agree and the scope
      id was left open or is the grant's. */
  predicate Covers(g: Grant, required: string, scope: Option<PermissionScope>)
  {
    && g.name == required
    && (|| g.scopeType == GlobalScope
        || (&& scope.Some?
            && g.scopeType == scope.value.scopeType
            && (scope.value.scopeId.None? || g.scopeId == scope.value.scopeId)))
  }

  /** Some grant of the list meets `required`. */
  predicate Held(grants: seq<Grant>, required: string, scope: Option<PermissionScope>)
  {
    exists i :: 0 <= i < |grants| && Covers(grants[i], required, scope)
  }

  /** Every required permission is held. */
  predicate Verified(grants: seq<Grant>, required: seq<string>, scope: Option<PermissionScope>)
  {
    forall j :: 0 <= j < |required| ==> Held(grants, required[j], scope)
  }

  /** `verify_permissions`: for each required name, scan the grants for one
      that meets it; the first name no grant meets makes the answer false. */
  method VerifyPermissions(grants: seq<Grant>, required: seq<string>, scope: Option<PermissionScope>) returns (ok: bool)
    ensures ok <==> Verified(grants, required, scope)
  {
    var j := 0;
    while j < |required|
      invariant 0 <= j <= |required|
      invariant forall k :: 0 <= k < j ==> Held(grants, required[k], scope)
    {
      var has := false;
      var i := 0;
      while i < |grants|
        invariant 0 <= i <= |grants|
        invariant !has ==> forall m :: 0 <= m < i ==> !Covers(grants[m], required[j], scope)
        invariant has ==> Held(grants, required[j], scope)
      {
        var g := grants[i];
        if g.name == required[j] {
          if g.scopeType == GlobalScope {
            has := true;
            break;
          }
          if scope.Some? && g.scopeType == scope.value.scopeType {
            if scope.value.scopeId.None? || g.scopeId == scope.value.scopeId {
              has := true;
              break;
            }
          }
        }
        i := i + 1;
      }
      if !has {
        assert !Held(grants, required[j], scope);
        return false;
      }
      j := j + 1;
    }
    return true;
  }

  /** More grants never make a verification fail: every grant of `fewer`
      also in `more` keeps each requirement held. */
  lemma {:induction false} VerifiedMonotone(fewer: seq<Grant>, more: seq<Grant>, required: seq<string>, scope: Option<PermissionScope>)
    requires forall g :: g in fewer ==> g in more
    requires Verified(fewer, required, scope)
    ensures Verified(more, required, scope)
  {
    forall j | 0 <= j < |required|
      ensures Held(more, required[j], scope)
    {
      assert Held(fewer, required[j], scope);
      var i :| 0 <= i < |fewer| && Covers(fewer[i], required[j], scope);
      assert fewer[i] in more;
      var m :| 0 <= m < |more| && more[m] == fewer[i];
    }
  }

  /** A global grant of a permission meets that requirement in every scope. */
  lemma GlobalGrantAnywhere(grants: seq<Grant>, name: string, scopeId: Option<Id>, scope: Option<PermissionScope>)
    requires Grant(name, GlobalScope, scopeId) in grants
    ensures Verified(grants, [name], scope)
  {
    var i :| 0 <= i < |grants| && grants[i] == Grant(name, GlobalScope, scopeId);
    assert Covers(grants[i], [name][0], scope);
  }

  /** The global grants of a list, in order. */
  function GlobalGrants(grants: seq<Grant>): (r: seq<Grant>)
    ensures forall g :: g in r <==> g in grants && g.scopeType == GlobalScope
  {
    Filter(grants, (g: Grant) => g.scopeType == GlobalScope)
  }

  /** Without a scope only global grants count: the verification is the
      same once the scoped grants are dropped. */
  lemma UnscopedNeedsGlobal(grants: seq<Grant>, required: seq<string>)
    ensures Verified(grants, required, None) <==> Verified(GlobalGrants(grants), required, None)
  {
    var globals := GlobalGrants(grants);
    if Verified(grants, required, None) {
      forall j | 0 <= j < |required|
        ensures Held(globals, required[j], None)
      {
        var i :| 0 <= i < |grants| && Covers(grants[i], required[j], None);
        assert grants[i] in globals;
        var m :| 0 <= m < |globals| && globals[m] == grants[i];
      }
    }
    if Verified(globals, required, None) {
      VerifiedMonotone(globals, grants, required, None);
    }
  }

  datatype Permission = Permission(id: Id, name: string, description: string, createdAt: Time)

  /** A role and the ids of its permissions, in the order of its link rows. */
  datatype Role = Role(id: Id, name: string, permissions: seq<Id>, createdAt: Time)

  /** A role assigned to a player in a scope. */
  datatype PlayerRole = PlayerRole(player: Id, role: Id, scopeType: ScopeType, scopeId: Option<Id>)

  /** The grants one assigned role gives: the permissions of `permissions`
      linked to the role, in permission-table order, in the assignment's
      scope. */
  function RowGrants(permissions: seq<Permission>, linked: seq<Id>, row: PlayerRole): (r: seq<Grant>)
    ensures forall g :: g in r <==>
      exists k :: 0 <= k < |permissions| && permissions[k].id in linked
                  && g == Grant(permissions[k].name, row.scopeType, row.scopeId)
  {
    if permissions == [] then []
    else
      var rest := RowGrants(permissions[1..], linked, row);
      assert forall k :: 1 <= k < |permissions| ==> permissions[k] == permissions[1..][k - 1];
      if permissions[0].id in linked then [Grant(permissions[0].name, row.scopeType, row.scopeId)] + rest
      else rest
  }

  /** The ids of the permissions linked to role `roleId` (no link when the
      role does not exist). */
  function LinkedTo(roles: seq<Role>, roleId: Id): seq<Id>
  {
    if roles == [] then []
    else if roles[0].id == roleId then roles[0].permissions
    else LinkedTo(roles[1..], roleId)
  }

  /** `get_player_permissions`: one grant per assignment of the player and
      permission of the assigned role. */
  function PlayerGrants(permissions: seq<Permission>, roles: seq<Role>, rows: seq<PlayerRole>, player: Id): seq<Grant>
  {
    if rows == [] then []
    else
      (if rows[0].player == player then RowGrants(permissions, LinkedTo(roles, rows[0].role), rows[0]) else [])
      + PlayerGrants(permissions, roles, rows[1..], player)
  }

  /** A grant of the player comes from one of their assignments. */
  lemma {:induction false} PlayerGrantsFrom(permissions: seq<Permission>, roles: seq<Role>, rows: seq<PlayerRole>, player: Id, g: Grant)
    requires g in PlayerGrants(permissions, roles, rows, player)
    ensures exists i :: 0 <= i < |rows| && rows[i].player == player
                        && g in RowGrants(permissions, LinkedTo(roles, rows[i].role), rows[i])
  {
    if rows[0].player == player && g in RowGrants(permissions, LinkedTo(roles, rows[0].role), rows[0]) {
    } else {
      PlayerGrantsFrom(permissions, roles, rows[1..], player, g);
      var i :| 0 <= i < |rows[1..]| && rows[1..][i].player == player
               && g in RowGrants(permissions, LinkedTo(roles, rows[1..][i].role), rows[1..][i]);
      assert rows[i + 1] == rows[1..][i];
    }
  }

  /** Each assignment of the player contributes its grants. */
  lemma {:induction false} PlayerGrantsHas(permissions: seq<Permission>, roles: seq<Role>, rows: seq<PlayerRole>, player: Id, i: nat, g: Grant)
    requires i < |rows| && rows[i].player == player
    requires g in RowGrants(permissions, LinkedTo(roles, rows[i].role), rows[i])
    ensures g in PlayerGrants(permissions, roles, rows, player)
  {
    if i > 0 {
      assert rows[1..][i - 1] == rows[i];
      PlayerGrantsHas(permissions, roles, rows[1..], player, i - 1, g);
    }
  }

  /** Names are unique in the permissions table. */
  predicate UniquePermissionNames(permissions: seq<Permission>)
  {
    forall i, j :: 0 <= i < j < |permissions| ==> permissions[i].name != permissions[j].name
  }

  /** A list without repeated entries. */
  predicate NoRepeats<T(==)>(s: seq<T>)
  {
    forall i, j :: 0 <= i < j < |s| ==> s[i] != s[j]
  }

  function PermissionIds(permissions: seq<Permission>): set<Id>
  {
    set p | p in permissions :: p.id
  }

  function PermissionNames(permissions: seq<Permission>): set<string>
  {
    set p | p in permissions :: p.name
  }

  /** `select(Permission).where(Permission.name.in_(names))`, in table
      order. */
  function Named(permissions: seq<Permission>, names: seq<string>): (r: seq<Permission>)
    ensures forall p :: p in r <==> p in permissions && p.name in names
  {
    if permissions == [] then []
    else (if permissions[0].name in names then [permissions[0]] else []) + Named(permissions[1..], names)
  }

  /** The set of the entries of a list. */
  function Elements<T>(s: seq<T>): set<T>
  {
    set x | x in s
  }

  /** A list has as many distinct entries as its length exactly when it
      repeats nothing. */
  lemma {:induction false} ElementsCard<T>(s: seq<T>)
    ensures |Elements(s)| <= |s|
    ensures |Elements(s)| == |s| <==> NoRepeats(s)
  {
    if s != [] {
      ElementsCard(s[1..]);
      assert Elements(s) == {s[0]} + Elements(s[1..]);
      if s[0] in s[1..] {
        assert Elements(s) == Elements(s[1..]);
        var k :| 0 <= k < |s[1..]| && s[1..][k] == s[0];
        assert s[0] == s[k + 1];
      } else {
        assert NoRepeats(s) <==> NoRepeats(s[1..]) by {
          if NoRepeats(s[1..]) {
            forall i, j | 0 <= i < j < |s|
              ensures s[i] != s[j]
            {
              if i == 0 {
                assert s[j] == s[1..][j - 1];
              } else {
                assert s[i] == s[1..][i - 1] && s[j] == s[1..][j - 1];
              }
            }
          }
          if NoRepeats(s) {
            forall i, j | 0 <= i < j < |s[1..]|
              ensures s[1..][i] != s[1..][j]
            {
              assert s[1..][i] == s[i + 1] && s[1..][j] == s[j + 1];
            }
          }
        }
      }
    }
  }

  /** The rows after the first keep their names unique, and none of them
      has the first row's name. */
  lemma UniqueTail(permissions: seq<Permission>)
    requires UniquePermissionNames(permissions) && permissions != []
    ensures UniquePermissionNames(permissions[1..])
    ensures permissions[0].name !in PermissionNames(permissions[1..])
  {
    var rest := permissions[1..];
    forall i, j | 0 <= i < j < |rest|
      ensures rest[i].name != rest[j].name
    {
      assert rest[i] == permissions[i + 1] && rest[j] == permissions[j + 1];
    }
    forall p | p in rest
      ensures p.name != permissions[0].name
    {
      var k :| 0 <= k < |rest| && rest[k] == p;
      assert permissions[k + 1] == p;
    }
  }

  /** With unique names, the permissions found by name are as many as the
      names of the table that were asked for. */
  lemma {:induction false} NamedCard(permissions: seq<Permission>, names: seq<string>)
    requires UniquePermissionNames(permissions)
    ensures |Named(permissions, names)| == |PermissionNames(permissions) * Elements(names)|
  {
    if permissions != [] {
      UniqueTail(permissions);
      NamedCard(permissions[1..], names);
      IntersectionSplit(permissions, Elements(names));
      assert permissions[0].name in names <==> permissions[0].name in Elements(names);
    }
  }

  /** One step of `NamedCard` on the set side: the first name counts once
      in the intersection when it is asked for, and the rest are distinct
      from it. */
  lemma IntersectionSplit(permissions: seq<Permission>, asked: set<string>)
    requires permissions != [] && permissions[0].name !in PermissionNames(permissions[1..])
    ensures |PermissionNames(permissions) * asked|
      == (if permissions[0].name in asked then 1 else 0) + |PermissionNames(permissions[1..]) * asked|
  {
    assert permissions == [permissions[0]] + permissions[1..];
    assert PermissionNames(permissions) == {permissions[0].name} + PermissionNames(permissions[1..]);
    AddedCard(PermissionNames(permissions[1..]), permissions[0].name, asked);
  }

  lemma AddedCard<T>(a: set<T>, x: T, asked: set<T>)
    requires x !in a
    ensures |({x} + a) * asked| == (if x in asked then 1 else 0) + |a * asked|
  {
    if x in asked {
      assert ({x} + a) * asked == (a * asked) + {x};
    } else {
      assert ({x} + a) * asked == a * asked;
    }
  }

  /** The count check of `roles/service.py`: the permissions found by name
      are as many as the names given. With unique names in the table it
      passes exactly when every name exists and none is repeated. */
  lemma CountCheckPasses(permissions: seq<Permission>, names: seq<string>)
    requires UniquePermissionNames(permissions)
    ensures |Named(permissions, names)| == |names| <==>
      (forall i :: 0 <= i < |names| ==> names[i] in PermissionNames(permissions)) && NoRepeats(names)
  {
    NamedCard(permissions, names);
    ElementsCard(names);
    var both := PermissionNames(permissions) * Elements(names);
    assert |both| <= |Elements(names)| by {
      SubsetCard(both, Elements(names));
    }
    if |Named(permissions, names)| == |names| {
      assert |both| == |Elements(names)|;
      if both != Elements(names) {
        ProperSubsetCard(both, Elements(names));
      }
      forall i | 0 <= i < |names|
        ensures names[i] in PermissionNames(permissions)
      {
        assert names[i] in Elements(names);
      }
    }
    if (forall i :: 0 <= i < |names| ==> names[i] in PermissionNames(permissions)) && NoRepeats(names) {
      assert both == Elements(names) by {
        forall n | n in Elements(names)
          ensures n in both
        {
          var i :| 0 <= i < |names| && names[i] == n;
        }
      }
    }
  }

  /** The permissions other than `id`, in order. */
  function PermissionsWithout(permissions: seq<Permission>, id: Id): (r: seq<Permission>)
    ensures forall p :: p in r <==> p in permissions && p.id != id
  {
    if permissions == [] then []
    else (if permissions[0].id != id then [permissions[0]] else []) + PermissionsWithout(permissions[1..], id)
  }

  /** The assignments `remove_role_from_player`'s query selects, and the
      others, in order; together they are as many as the table's rows. */
  function Matching(rows: seq<PlayerRole>, player: Id, role: Id, scopeType: ScopeType, scopeId: Option<Id>): (r: seq<PlayerRole>)
    ensures forall pr :: pr in r <==> pr in rows && MatchesAssignment(pr, player, role, scopeType, scopeId)
    ensures |r| + |Unmatched(rows, player, role, scopeType, scopeId)| == |rows|
  {
    if rows == [] then []
    else (if MatchesAssignment(rows[0], player, role, scopeType, scopeId) then [rows[0]] else [])
         + Matching(rows[1..], player, role, scopeType, scopeId)
  }

  function Unmatched(rows: seq<PlayerRole>, player: Id, role: Id, scopeType: ScopeType, scopeId: Option<Id>): (r: seq<PlayerRole>)
    ensures forall pr :: pr in r <==> pr in rows && !MatchesAssignment(pr, player, role, scopeType, scopeId)
  {
    if rows == [] then []
    else (if MatchesAssignment(rows[0], player, role, scopeType, scopeId) then [] else [rows[0]])
         + Unmatched(rows[1..], player, role, scopeType, scopeId)
  }

  /** The roles other than `id`, in order. */
  function RolesWithout(roles: seq<Role>, id: Id): (r: seq<Role>)
    ensures forall q :: q in r <==> q in roles && q.id != id
  {
    if roles == [] then []
    else (if roles[0].id != id then [roles[0]] else []) + RolesWithout(roles[1..], id)
  }

  /** The assignments of roles other than `id`, in order. */
  function AssignmentsWithout(rows: seq<PlayerRole>, id: Id): (r: seq<PlayerRole>)
    ensures forall pr :: pr in r <==> pr in rows && pr.role != id
  {
    if rows == [] then []
    else (if rows[0].role != id then [rows[0]] else []) + AssignmentsWithout(rows[1..], id)
  }

  /** The errors of the permission and role services. */
  datatype AccessError =
    | PermissionExists
    | PermissionNotFound
    | RoleExists
    | RoleNotFound
    | UnknownPermission
    | InvalidPermissions
    | ScopeIdRequired
    | AmbiguousRemoval
    | NoSuchAssignment

  /** An assignment matching `remove_role_from_player`'s query. */
  predicate MatchesAssignment(row: PlayerRole, player: Id, role: Id, scopeType: ScopeType, scopeId: Option<Id>)
  {
    row.player == player && row.role == role && row.scopeType == scopeType
    && (scopeId.None? || row.scopeId == scopeId)
  }

  /** The permission with id `id`, if any. */
  function PermissionWithId(permissions: seq<Permission>, id: Id): (r: Option<Permission>)
    ensures r.None? <==> id !in PermissionIds(permissions)
    ensures r.Some? ==> r.value in permissions && r.value.id == id
  {
    if permissions == [] then None
    else if permissions[0].id == id then Some(permissions[0])
    else PermissionWithId(permissions[1..], id)
  }

  /** The place of the role with id `id`, if any. */
  function RoleIndex(roles: seq<Role>, id: Id): (r: Option<nat>)
    ensures r.Some? <==> exists i :: 0 <= i < |roles| && roles[i].id == id
    ensures r.Some? ==> r.value < |roles| && roles[r.value].id == id
  {
    if roles == [] then None
    else if roles[0].id == id then Some(0)
    else match RoleIndex(roles[1..], id)
      case None => None
      case Some(i) => Some(i + 1)
  }

  /** The role named `name`, if any. */
  function RoleNamed(roles: seq<Role>, name: string): (r: Option<Role>)
    ensures r.Some? <==> exists i :: 0 <= i < |roles| && roles[i].name == name
    ensures r.Some? ==> r.value in roles && r.value.name == name
  {
    if roles == [] then None
    else if roles[0].name == name then Some(roles[0])
    else RoleNamed(roles[1..], name)
  }

  /** A role's links without the permission `pid`. */
  function Unlinked(r: Role, pid: Id): (u: Role)
    ensures u.(permissions := r.permissions) == r
    ensures forall q :: q in u.permissions <==> q in r.permissions && q != pid
  {
    r.(permissions := Filter(r.permissions, (q: Id) => q != pid))
  }

  /** `verify_role`: some role of the player has one of the allowed names. */
  predicate HasAllowedRole(roles: seq<Role>, rows: seq<PlayerRole>, player: Id, allowed: seq<string>)
  {
    exists i, j :: 0 <= i < |rows| && 0 <= j < |roles|
      && rows[i].player == player && roles[j].id == rows[i].role && roles[j].name in allowed
  }

  /** The permission, role and assignment tables. */
  class AccessStore {
    var permissions: seq<Permission>
    var roles: seq<Role>
    var playerRoles: seq<PlayerRole>

    constructor ()
      ensures permissions == [] && roles == [] && playerRoles == []
    {
      permissions := [];
      roles := [];
      playerRoles := [];
    }

    /** `create_permission`: a name already used is refused; otherwise the
        permission is added. `id` is the fresh key. */
    method CreatePermission(id: Id, name: string, description: string, now: Time) returns (r: Result<Permission, AccessError>)
      requires id !in PermissionIds(permissions)
      modifies this`permissions
      ensures name in PermissionNames(old(permissions)) ==> r == Err(PermissionExists) && permissions == old(permissions)
      ensures name !in PermissionNames(old(permissions)) ==>
        r == Ok(Permission(id, name, description, now)) && permissions == old(permissions) + [r.value]
      ensures UniquePermissionNames(old(permissions)) ==> UniquePermissionNames(permissions)
    {
      if name in PermissionNames(permissions) {
        return Err(PermissionExists);
      }
      var p := Permission(id, name, description, now);
      permissions := permissions + [p];
      return Ok(p);
    }

    /** `delete_permission`: a missing id is refused; otherwise every link of
        a role to the permission goes, then the permission. */
    method DeletePermission(id: Id) returns (r: Result<Permission, AccessError>)
      modifies this`permissions, this`roles
      ensures id !in PermissionIds(old(permissions)) ==>
        r == Err(PermissionNotFound) && permissions == old(permissions) && roles == old(roles)
      ensures id in PermissionIds(old(permissions)) ==>
        && r.Ok? && r.value in old(permissions) && r.value.id == id
        && permissions == PermissionsWithout(old(permissions), id)
        && |roles| == |old(roles)|
        && forall i :: 0 <= i < |roles| ==> roles[i] == Unlinked(old(roles)[i], id)
      ensures forall i :: 0 <= i < |roles| ==> id !in roles[i].permissions || r.Err?
    {
      var found := PermissionWithId(permissions, id);
      if found.None? {
        return Err(PermissionNotFound);
      }
      roles := seq(|roles|, k requires 0 <= k < |roles| reads this => Unlinked(roles[k], id));
      permissions := PermissionsWithout(permissions, id);
      return Ok(found.value);
    }

    /** Every id of `ids` is a permission of the table, checked in order as
        `get_permission` does. */
    method AllKnown(ids: seq<Id>) returns (ok: bool)
      ensures ok <==> forall k :: 0 <= k < |ids| ==> ids[k] in PermissionIds(permissions)
    {
      var known := PermissionIds(permissions);
      var k := 0;
      while k < |ids|
        invariant 0 <= k <= |ids|
        invariant forall m :: 0 <= m < k ==> ids[m] in known
      {
        if ids[k] !in known {
          return false;
        }
        k := k + 1;
      }
      return true;
    }

    /** `create_role` of the role service: an existing name, then an unknown
        permission id, is refused; otherwise the role is added linked to the
        given permissions. `id` is the fresh key. */
    method CreateRole(id: Id, name: string, permissionIds: seq<Id>, now: Time) returns (r: Result<Role, AccessError>)
      modifies this`roles
      ensures RoleNamed(old(roles), name).Some? ==> r == Err(RoleExists) && roles == old(roles)
      ensures RoleNamed(old(roles), name).None? && (exists k :: 0 <= k < |permissionIds| && permissionIds[k] !in PermissionIds(permissions)) ==>
        r == Err(UnknownPermission) && roles == old(roles)
      ensures r.Ok? <==> RoleNamed(old(roles), name).None? && forall k :: 0 <= k < |permissionIds| ==> permissionIds[k] in PermissionIds(permissions)
      ensures r.Ok? ==> r.value == Role(id, name, permissionIds, now) && roles == old(roles) + [r.value]
    {
      if RoleNamed(roles, name).Some? {
        return Err(RoleExists);
      }
      var ok := AllKnown(permissionIds);
      if !ok {
        return Err(UnknownPermission);
      }
      var role := Role(id, name, permissionIds, now);
      roles := roles + [role];
      return Ok(role);
    }

    /** `update_role`: a missing role, then an unknown permission id, is
        refused; otherwise the role's permission list is replaced. */
    method UpdateRole(id: Id, permissionIds: seq<Id>) returns (r: Result<Role, AccessError>)
      modifies this`roles
      ensures RoleIndex(old(roles), id).None? ==> r == Err(RoleNotFound) && roles == old(roles)
      ensures r.Ok? <==> RoleIndex(old(roles), id).Some? && forall k :: 0 <= k < |permissionIds| ==> permissionIds[k] in PermissionIds(permissions)
      ensures r.Err? ==> roles == old(roles)
      ensures r.Ok? ==>
        && r.value == old(roles)[RoleIndex(old(roles), id).value].(permissions := permissionIds)
        && roles == old(roles)[RoleIndex(old(roles), id).value := r.value]
    {
      var i := RoleIndex(roles, id);
      if i.None? {
        return Err(RoleNotFound);
      }
      var ok := AllKnown(permissionIds);
      if !ok {
        return Err(UnknownPermission);
      }
      var role := roles[i.value].(permissions := permissionIds);
      roles := roles[i.value := role];
      return Ok(role);
    }

    /** `delete_role` (both role services): a missing role is refused;
        otherwise every assignment of the role goes, then the role. */
    method DeleteRole(id: Id) returns (r: Outcome<AccessError>)
      modifies this`roles, this`playerRoles
      ensures RoleIndex(old(roles), id).None? ==> r == Fail(RoleNotFound) && roles == old(roles) && playerRoles == old(playerRoles)
      ensures RoleIndex(old(roles), id).Some? ==>
        && r == Pass
        && playerRoles == AssignmentsWithout(old(playerRoles), id)
        && roles == RolesWithout(old(roles), id)
    {
      var i := RoleIndex(roles, id);
      if i.None? {
        return Fail(RoleNotFound);
      }
      playerRoles := AssignmentsWithout(playerRoles, id);
      roles := RolesWithout(roles, id);
      return Pass;
    }

    /** `assign_role` (auth service and role service): a non-global scope
        without a scope id is refused; otherwise the assignment is added. */
    method AssignRole(player: Id, role: Id, scopeType: ScopeType, scopeId: Option<Id>) returns (r: Result<PlayerRole, AccessError>)
      modifies this`playerRoles
      ensures scopeType != GlobalScope && scopeId.None? ==> r == Err(ScopeIdRequired) && playerRoles == old(playerRoles)
      ensures !(scopeType != GlobalScope && scopeId.None?) ==>
        r == Ok(PlayerRole(player, role, scopeType, scopeId)) && playerRoles == old(playerRoles) + [r.value]
    {
      if scopeType != GlobalScope && scopeId.None? {
        return Err(ScopeIdRequired);
      }
      var row := PlayerRole(player, role, scopeType, scopeId);
      playerRoles := playerRoles + [row];
      return Ok(row);
    }

    /** `remove_role_from_player`: a non-global scope without a scope id is
        refused; the assignments matching player, role, scope type and (when
        given) scope id are looked up; more than one is refused, none fails
        on the empty result, and a single one is deleted. */
    method RemoveRoleFromPlayer(player: Id, role: Id, scopeType: ScopeType, scopeId: Option<Id>) returns (r: Outcome<AccessError>)
      modifies this`playerRoles
      ensures scopeType != GlobalScope && scopeId.None? ==> r == Fail(ScopeIdRequired)
      ensures r.Fail? ==> playerRoles == old(playerRoles)
      ensures !(scopeType != GlobalScope && scopeId.None?) ==>
        && (|Matching(old(playerRoles), player, role, scopeType, scopeId)| > 1 ==> r == Fail(AmbiguousRemoval))
        && (|Matching(old(playerRoles), player, role, scopeType, scopeId)| == 0 ==> r == Fail(NoSuchAssignment))
        && (|Matching(old(playerRoles), player, role, scopeType, scopeId)| == 1 ==> r == Pass)
      ensures r == Pass ==>
        && |playerRoles| == |old(playerRoles)| - 1
        && playerRoles == Unmatched(old(playerRoles), player, role, scopeType, scopeId)
    {
      if scopeType != GlobalScope && scopeId.None? {
        return Fail(ScopeIdRequired);
      }
      var found := Matching(playerRoles, player, role, scopeType, scopeId);
      if |found| > 1 {
        return Fail(AmbiguousRemoval);
      }
      if |found| == 0 {
        return Fail(NoSuchAssignment);
      }
      playerRoles := Unmatched(playerRoles, player, role, scopeType, scopeId);
      return Pass;
    }

    /** `create_role` of `roles/service.py`: an existing name is refused;
        the permissions are looked up by name, and fewer found than names
        given (an unknown or a repeated name) is refused; otherwise the role
        is added with the permissions found. */
    method CreateNamedRole(id: Id, name: string, names: seq<string>, now: Time) returns (r: Result<Role, AccessError>)
      modifies this`roles
      ensures RoleNamed(old(roles), name).Some? ==> r == Err(RoleExists) && roles == old(roles)
      ensures RoleNamed(old(roles), name).None? && |Named(permissions, names)| != |names| ==>
        r == Err(InvalidPermissions) && roles == old(roles)
      ensures RoleNamed(old(roles), name).None? && |Named(permissions, names)| == |names| ==>
        && r.Ok? && r.value.id == id && r.value.name == name && r.value.createdAt == now
        && (forall q :: q in r.value.permissions <==> exists p :: p in permissions && p.name in names && p.id == q)
        && roles == old(roles) + [r.value]
    {
      if RoleNamed(roles, name).Some? {
        return Err(RoleExists);
      }
      var found := Named(permissions, names);
      if |found| != |names| {
        return Err(InvalidPermissions);
      }
      var role := Role(id, name, IdsOf(found), now);
      roles := roles + [role];
      return Ok(role);
    }

    /** `edit_role`: a missing role is refused, then the same count check;
        otherwise the role's permissions are replaced by those found. */
    method EditRole(id: Id, names: seq<string>) returns (r: Result<Role, AccessError>)
      modifies this`roles
      ensures RoleIndex(old(roles), id).None? ==> r == Err(RoleNotFound) && roles == old(roles)
      ensures RoleIndex(old(roles), id).Some? && |Named(permissions, names)| != |names| ==>
        r == Err(InvalidPermissions) && roles == old(roles)
      ensures RoleIndex(old(roles), id).Some? && |Named(permissions, names)| == |names| ==>
        && r == Ok(old(roles)[RoleIndex(old(roles), id).value].(permissions := IdsOf(Named(permissions, names))))
        && roles == old(roles)[RoleIndex(old(roles), id).value := r.value]
    {
      var i := RoleIndex(roles, id);
      if i.None? {
        return Err(RoleNotFound);
      }
      var found := Named(permissions, names);
      if |found| != |names| {
        return Err(InvalidPermissions);
      }
      var role := roles[i.value].(permissions := IdsOf(found));
      roles := roles[i.value := role];
      return Ok(role);
    }

    /** `get_or_create_role`: an existing role comes back unchanged;
        otherwise the role is created as `create_role` does. */
    method GetOrCreateRole(id: Id, name: string, names: seq<string>, now: Time) returns (r: Result<Role, AccessError>)
      modifies this`roles
      ensures RoleNamed(old(roles), name).Some? ==> r == Ok(RoleNamed(old(roles), name).value) && roles == old(roles)
      ensures RoleNamed(old(roles), name).None? && |Named(permissions, names)| != |names| ==>
        r == Err(InvalidPermissions) && roles == old(roles)
      ensures RoleNamed(old(roles), name).None? && |Named(permissions, names)| == |names| ==>
        && r.Ok? && r.value.id == id && r.value.name == name && r.value.createdAt == now
        && (forall q :: q in r.value.permissions <==> exists p :: p in permissions && p.name in names && p.id == q)
        && roles == old(roles) + [r.value]
    {
      var existing := RoleNamed(roles, name);
      if existing.Some? {
        return Ok(existing.value);
      }
      r := CreateNamedRole(id, name, names, now);
    }

    /** `get_or_create_admin_role`: an existing "admin" role comes back
        unchanged; otherwise it is created linked to every permission. */
    method GetOrCreateAdminRole(id: Id, now: Time) returns (role: Role)
      modifies this`roles
      ensures RoleNamed(old(roles), "admin").Some? ==> role == RoleNamed(old(roles), "admin").value && roles == old(roles)
      ensures RoleNamed(old(roles), "admin").None? ==>
        && role == Role(id, "admin", IdsOf(permissions), now)
        && (forall p :: p in permissions ==> p.id in role.permissions)
        && roles == old(roles) + [role]
    {
      var existing := RoleNamed(roles, "admin");
      if existing.Some? {
        return existing.value;
      }
      role := Role(id, "admin", IdsOf(permissions), now);
      roles := roles + [role];
    }
  }

  /** The ids of a list of permissions, in order. */
  function IdsOf(ps: seq<Permission>): (r: seq<Id>)
    ensures |r| == |ps| && forall k :: 0 <= k < |ps| ==> r[k] == ps[k].id
  {
    seq(|ps|, k requires 0 <= k < |ps| => ps[k].id)
  }

  /** A removed role grants nothing afterwards: every grant of a player
      once role `id` is deleted was already a grant before. */
  lemma {:induction false} DeleteRoleGrantsNothingNew(permissions: seq<Permission>, roles: seq<Role>, rows: seq<PlayerRole>, id: Id, player: Id, g: Grant)
    requires g in PlayerGrants(permissions, RolesWithout(roles, id), AssignmentsWithout(rows, id), player)
    ensures g in PlayerGrants(permissions, roles, rows, player)
  {
    var roles' := RolesWithout(roles, id);
    var rows' := AssignmentsWithout(rows, id);
    PlayerGrantsFrom(permissions, roles', rows', player, g);
    var i :| 0 <= i < |rows'| && rows'[i].player == player && g in RowGrants(permissions, LinkedTo(roles', rows'[i].role), rows'[i]);
    var row := rows'[i];
    assert row in rows;
    var k :| 0 <= k < |rows| && rows[k] == row;
    LinkedToKept(roles, id, row.role);
    PlayerGrantsHas(permissions, roles, rows, player, k, g);
  }

  /** Dropping another role leaves the links of a role as they were. */
  lemma {:induction false} LinkedToKept(roles: seq<Role>, id: Id, other: Id)
    requires other != id
    ensures LinkedTo(RolesWithout(roles, id), other) == LinkedTo(roles, other)
  {
    if roles != [] {
      LinkedToKept(roles[1..], id, other);
      if roles[0].id != id {
        assert RolesWithout(roles, id) == [roles[0]] + RolesWithout(roles[1..], id);
        assert ([roles[0]] + RolesWithout(roles[1..], id))[1..] == RolesWithout(roles[1..], id);
      } else {
        assert RolesWithout(roles, id) == RolesWithout(roles[1..], id);
      }
    }
  }

  /** Deleting a role never makes a verification succeed that failed
      before. */
  lemma DeleteRoleNeverGrants(permissions: seq<Permission>, roles: seq<Role>, rows: seq<PlayerRole>, id: Id, player: Id,
                              required: seq<string>, scope: Option<PermissionScope>)
    requires Verified(PlayerGrants(permissions, RolesWithout(roles, id), AssignmentsWithout(rows, id), player), required, scope)
    ensures Verified(PlayerGrants(permissions, roles, rows, player), required, scope)
  {
    var after := PlayerGrants(permissions, RolesWithout(roles, id), AssignmentsWithout(rows, id), player);
    forall g | g in after
      ensures g in PlayerGrants(permissions, roles, rows, player)
    {
      DeleteRoleGrantsNothingNew(permissions, roles, rows, id, player, g);
    }
    VerifiedMonotone(after, PlayerGrants(permissions, roles, rows, player), required, scope);
  }

  /** The names of the roles assigned to the player. */
  function RoleNamesOf(roles: seq<Role>, rows: seq<PlayerRole>, player: Id): set<string>
  {
    set a, b | 0 <= a < |rows| && 0 <= b < |roles| && rows[a].player == player && roles[b].id == rows[a].role :: roles[b].name
  }

  /** `verify_role`: the player's role names meet the allowed names. */
  function VerifyRole(roles: seq<Role>, rows: seq<PlayerRole>, player: Id, allowed: seq<string>): (ok: bool)
    ensures ok <==> HasAllowedRole(roles, rows, player, allowed)
  {
    var common := RoleNamesOf(roles, rows, player) * Elements(allowed);
    assert HasAllowedRole(roles, rows, player, allowed) ==> common != {} by {
      if HasAllowedRole(roles, rows, player, allowed) {
        var a, b :| 0 <= a < |rows| && 0 <= b < |roles| && rows[a].player == player && roles[b].id == rows[a].role && roles[b].name in allowed;
        assert roles[b].name in common;
      }
    }
    common != {}
  }
}
