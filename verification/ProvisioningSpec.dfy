/** What granting and revoking a role should do to the directory. */
module ProvisioningSpec {
  import opened Base
  import opened Domain
  import opened OktaApi
  import opened EntitlementIDs

  /** What governs provisioning: the application's settings, the connector's conversion flag, and
      what Okta puts into a new group assignment. */
  datatype Policy = Policy(settings: Settings, allowConversion: bool, freshAssignment: string -> Option<Profile>)

  datatype Outcome = Updated | AlreadyExists | AlreadyRevoked | NothingToRevoke

  predicate CanDirectAssign(s: Settings) {
    s.joinAllRoles || s.samlRolesUnionEnabled
  }

  /** Whether the roles of an existing application user may be changed directly. */
  predicate MayChange(policy: Policy, u: AppUser) {
    && u.id.Some? && u.scope.Some?
    && (u.scope.value == GROUP_SCOPE ==> policy.allowConversion && CanDirectAssign(policy.settings))
    && GetSamlRoles(u.profile).Ok?
  }

  /** A user record with a new role list; writing it makes the assignment a direct one. */
  function DirectWith(u: AppUser, roles: seq<string>): AppUser {
    u.(scope := Some(USER_SCOPE), profile := Some(WithSamlRoles(u.profile, roles)))
  }

  function GroupWith(g: AppGroup, roles: seq<string>): AppGroup {
    g.(profile := Some(WithSamlRoles(g.profile, roles)))
  }

  /** The directory once a group is assigned to the application; nothing changes if it already is. */
  function Assigned(dir: Directory, policy: Policy, p: Principal): Directory {
    if p.Group? && p.id !in dir.groups
    then dir.(groups := dir.groups[p.id := AppGroup(Some(p.id), policy.freshAssignment(p.id))])
    else dir
  }

  /** The effect of an undisturbed grant; an error leaves at most the group assignment behind. */
  function Granted(dir: Directory, policy: Policy, p: Principal, role: string): Result<(Directory, Outcome)> {
    match p
    case User(u) =>
      if u !in dir.users then
        Ok((dir.(users := dir.users[u := AppUser(Some(u), Some(USER_SCOPE), Some(Profile(Roles([role]), map[])))]), Updated))
      else if !MayChange(policy, dir.users[u]) then Err
      else if role in RoleList(dir.users[u].profile) then Ok((dir, AlreadyExists))
      else
        var roles := RoleList(dir.users[u].profile) + [role];
        Ok((dir.(users := dir.users[u := DirectWith(dir.users[u], roles)]), Updated))
    case Group(g) =>
      var enrolled := Assigned(dir, policy, p);
      if GetSamlRoles(enrolled.groups[g].profile).Err? then Err
      else if role in RoleList(enrolled.groups[g].profile) then Ok((enrolled, AlreadyExists))
      else
        var roles := RoleList(enrolled.groups[g].profile) + [role];
        Ok((enrolled.(groups := enrolled.groups[g := GroupWith(enrolled.groups[g], roles)]), Updated))
  }

  /** A role list without any occurrence of one role. */
  function Without(roles: seq<string>, role: string): seq<string> {
    if roles == [] then []
    else
      var front, last := Without(roles[..|roles| - 1], role), roles[|roles| - 1];
      if last == role then front else front + [last]
  }

  function Revoked(dir: Directory, policy: Policy, p: Principal, role: string): Result<(Directory, Outcome)> {
    match p
    case User(u) =>
      if u !in dir.users then Ok((dir, NothingToRevoke))
      else if !MayChange(policy, dir.users[u]) then Err
      else if role !in RoleList(dir.users[u].profile) then Ok((dir, AlreadyRevoked))
      else Ok((dir.(users := dir.users[u := DirectWith(dir.users[u], Without(RoleList(dir.users[u].profile), role))]), Updated))
    case Group(g) =>
      if g !in dir.groups then Ok((dir, NothingToRevoke))
      else if GetSamlRoles(dir.groups[g].profile).Err? then Err
      else if role !in RoleList(dir.groups[g].profile) then Ok((dir, AlreadyRevoked))
      else Ok((dir.(groups := dir.groups[g := GroupWith(dir.groups[g], Without(RoleList(dir.groups[g].profile), role))]), Updated))
  }

  function PrincipalOf(resourceType: string, id: string): Option<Principal> {
    if resourceType == USER_TYPE then Some(User(id))
    else if resourceType == GROUP_TYPE then Some(Group(id))
    else None
  }

  /** The principal and role a request is about, when it is one provisioning accepts at all. */
  function Request(policy: Policy, resourceType: string, id: string, entitlementID: string): Result<(Principal, string)> {
    var p := PrincipalOf(resourceType, id);
    if p.None? || policy.settings.useGroupMapping then Err
    else
      var role := ParseSAMLRole(entitlementID);
      if role.Err? then Err else Ok((p.value, role.value))
  }

  function GrantRequest(dir: Directory, policy: Policy, resourceType: string, id: string, entitlementID: string)
    : Result<(Directory, Outcome)>
  {
    var q := Request(policy, resourceType, id, entitlementID);
    if q.Err? then Err else Granted(dir, policy, q.value.0, q.value.1)
  }

  function RevokeRequest(dir: Directory, policy: Policy, resourceType: string, id: string, entitlementID: string)
    : Result<(Directory, Outcome)>
  {
    var q := Request(policy, resourceType, id, entitlementID);
    if q.Err? then Err else Revoked(dir, policy, q.value.0, q.value.1)
  }

  /** How a call may leave the directory: an answered call has the full effect; an error leaves it
      untouched, or with the group assigned, or with the effect in place. */
  ghost predicate Ends(before: Directory, after: Directory, enrolled: Directory, effect: Result<(Directory, Outcome)>,
                       r: Result<Outcome>) {
    if r.Ok? then effect == Ok((after, r.value))
    else after == before || after == enrolled || (effect.Ok? && after == effect.value.0)
  }
}
