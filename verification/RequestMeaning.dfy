/** What granting and revoking mean, request by request, in terms of the records Okta holds. */
module RequestMeaning {
  import opened Base
  import opened Domain
  import opened OktaApi
  import opened EntitlementIDs
  import opened ProvisioningSpec
  import opened ProvisioningLaws

  // ---- Which requests can be met ----

  /** A user's roles can be changed when the user is unassigned, or its record has an identifier, a
      scope and a readable role list and, if it is group-scoped, conversion is allowed and roles are
      joined or united. */
  predicate UserOpen(dir: Directory, policy: Policy, u: string) {
    u in dir.users ==>
      && dir.users[u].id.Some? && dir.users[u].scope.Some? && !Garbled(dir.users[u].profile)
      && (dir.users[u].scope == Some("GROUP") ==>
            policy.allowConversion && (policy.settings.joinAllRoles || policy.settings.samlRolesUnionEnabled))
  }

  lemma GrantedIff(dir: Directory, policy: Policy, p: Principal, role: string)
    ensures Granted(dir, policy, p, role).Ok? <==>
            match p
            case User(u) => UserOpen(dir, policy, u)
            case Group(g) => !Garbled(if g in dir.groups then dir.groups[g].profile else policy.freshAssignment(g))
  {
  }

  lemma RevokedIff(dir: Directory, policy: Policy, p: Principal, role: string)
    ensures Revoked(dir, policy, p, role).Ok? <==>
            match p
            case User(u) => UserOpen(dir, policy, u)
            case Group(g) => g in dir.groups ==> !Garbled(dir.groups[g].profile)
  {
  }

  /** The identifier names a role, and the principal's roles can be read and changed. */
  ghost predicate GrantOpen(dir: Directory, policy: Policy, resourceType: string, id: string, entitlementID: string) {
    && !policy.settings.useGroupMapping
    && (exists role :: Names(entitlementID, role))
    && (resourceType == "user" || resourceType == "group")
    && (resourceType == "user" ==> UserOpen(dir, policy, id))
    && (resourceType == "group" ==> !Garbled(if id in dir.groups then dir.groups[id].profile else policy.freshAssignment(id)))
  }

  ghost predicate RevokeOpen(dir: Directory, policy: Policy, resourceType: string, id: string, entitlementID: string) {
    && !policy.settings.useGroupMapping
    && (exists role :: Names(entitlementID, role))
    && (resourceType == "user" || resourceType == "group")
    && (resourceType == "user" ==> UserOpen(dir, policy, id))
    && (resourceType == "group" && id in dir.groups ==> !Garbled(dir.groups[id].profile))
  }

  lemma OpenIff(dir: Directory, policy: Policy, resourceType: string, id: string, entitlementID: string)
    ensures GrantRequest(dir, policy, resourceType, id, entitlementID).Ok? <==>
            GrantOpen(dir, policy, resourceType, id, entitlementID)
    ensures RevokeRequest(dir, policy, resourceType, id, entitlementID).Ok? <==>
            RevokeOpen(dir, policy, resourceType, id, entitlementID)
  {
    RequestIff(policy, resourceType, id, entitlementID);
    var q := Request(policy, resourceType, id, entitlementID);
    if q.Ok? {
      GrantedIff(dir, policy, q.value.0, q.value.1);
      RevokedIff(dir, policy, q.value.0, q.value.1);
    }
  }

  /** A request is about the user or the group of the given key and the role the identifier names. */
  lemma RequestIff(policy: Policy, resourceType: string, id: string, entitlementID: string)
    ensures var q := Request(policy, resourceType, id, entitlementID);
            && (q.Ok? <==> && !policy.settings.useGroupMapping && (resourceType == "user" || resourceType == "group")
                           && exists role :: Names(entitlementID, role))
            && (q.Ok? ==> && q.value.0 == (if resourceType == "user" then User(id) else Group(id))
                          && forall role :: Names(entitlementID, role) <==> role == q.value.1)
  {
    forall role ensures Names(entitlementID, role) <==> ParseSAMLRole(entitlementID) == Ok(role) {
      NamesIffParses(entitlementID, role);
    }
    if ParseSAMLRole(entitlementID).Ok? {
      assert Names(entitlementID, ParseSAMLRole(entitlementID).value);
    }
  }

  // ---- What an answered request leaves behind ----

  /** Apart from the one user, the directory is as it was. */
  ghost predicate OnlyUser(before: Directory, after: Directory, u: string) {
    && after.users - {u} == before.users - {u} && after.groups == before.groups
    && after.members == before.members && after.orgGroups == before.orgGroups
  }

  ghost predicate OnlyGroup(before: Directory, after: Directory, g: string) {
    && after.groups - {g} == before.groups - {g} && after.users == before.users
    && after.members == before.members && after.orgGroups == before.orgGroups
  }

  /** The user's record lists the role, and what it listed before; "already exists" is answered if it
      did before. A user whose record was written is a direct one, with its other keys kept. */
  ghost predicate UserGranted(before: Directory, after: Directory, u: string, role: string, outcome: Outcome) {
    && OnlyUser(before, after, u) && u in after.users
    && (forall q :: Lists(after.users[u].profile, q) <==>
          q == role || (u in before.users && Lists(before.users[u].profile, q)))
    && if u in before.users && Lists(before.users[u].profile, role) then outcome == AlreadyExists && after == before
       else
         && outcome == Updated && after.users[u].id == Some(u) && after.users[u].scope == Some("USER")
         && OtherKeys(after.users[u].profile) == if u in before.users then OtherKeys(before.users[u].profile) else map[]
  }

  /** The same of a group; one that was not assigned starts with the roles its assignment brings. */
  ghost predicate GroupGranted(before: Directory, after: Directory, policy: Policy, g: string, role: string, outcome: Outcome) {
    && OnlyGroup(before, after, g) && g in after.groups
    && var was := if g in before.groups then before.groups[g] else AppGroup(Some(g), policy.freshAssignment(g));
    && after.groups[g].id == was.id
    && (forall q :: Lists(after.groups[g].profile, q) <==> q == role || Lists(was.profile, q))
    && OtherKeys(after.groups[g].profile) == OtherKeys(was.profile)
    && if Lists(was.profile, role) then outcome == AlreadyExists && after.groups[g] == was
       else outcome == Updated
  }

  /** The user's record no longer lists the role, but what else it listed; "already revoked" is
      answered if it did not before. A user whose record was written is a direct one. */
  ghost predicate UserRevoked(before: Directory, after: Directory, u: string, role: string, outcome: Outcome) {
    if u !in before.users then outcome == NothingToRevoke && after == before
    else
      && OnlyUser(before, after, u) && u in after.users
      && (forall q :: Lists(after.users[u].profile, q) <==> q != role && Lists(before.users[u].profile, q))
      && if !Lists(before.users[u].profile, role) then outcome == AlreadyRevoked && after == before
         else
           && outcome == Updated && after.users[u].id == Some(u) && after.users[u].scope == Some("USER")
           && OtherKeys(after.users[u].profile) == OtherKeys(before.users[u].profile)
  }

  ghost predicate GroupRevoked(before: Directory, after: Directory, g: string, role: string, outcome: Outcome) {
    if g !in before.groups then outcome == NothingToRevoke && after == before
    else
      && OnlyGroup(before, after, g) && g in after.groups && after.groups[g].id == before.groups[g].id
      && (forall q :: Lists(after.groups[g].profile, q) <==> q != role && Lists(before.groups[g].profile, q))
      && OtherKeys(after.groups[g].profile) == OtherKeys(before.groups[g].profile)
      && if !Lists(before.groups[g].profile, role) then outcome == AlreadyRevoked && after == before
         else outcome == Updated
  }

  lemma UserGrantMeans(before: Directory, after: Directory, policy: Policy, u: string, role: string, outcome: Outcome)
    requires ValidDirectory(before) && Granted(before, policy, User(u), role) == Ok((after, outcome))
    ensures UserGranted(before, after, u, role, outcome)
  {
  }

  lemma GroupGrantMeans(before: Directory, after: Directory, policy: Policy, g: string, role: string, outcome: Outcome)
    requires Granted(before, policy, Group(g), role) == Ok((after, outcome))
    ensures GroupGranted(before, after, policy, g, role, outcome)
  {
  }

  lemma UserRevokeMeans(before: Directory, after: Directory, policy: Policy, u: string, role: string, outcome: Outcome)
    requires ValidDirectory(before) && Revoked(before, policy, User(u), role) == Ok((after, outcome))
    ensures UserRevoked(before, after, u, role, outcome)
  {
    if u in before.users {
      var listed := RoleList(before.users[u].profile);
      WithoutMembers(listed, role);
      assert forall q :: q in Without(listed, role) <==> q in ToSet(Without(listed, role));
    }
  }

  lemma GroupRevokeMeans(before: Directory, after: Directory, policy: Policy, g: string, role: string, outcome: Outcome)
    requires Revoked(before, policy, Group(g), role) == Ok((after, outcome))
    ensures GroupRevoked(before, after, g, role, outcome)
  {
    if g in before.groups {
      var listed := RoleList(before.groups[g].profile);
      WithoutMembers(listed, role);
      assert forall q :: q in Without(listed, role) <==> q in ToSet(Without(listed, role));
    }
  }

  /** A request with this outcome: the type says whether a user or a group is meant, the identifier
      which role. */
  ghost predicate GrantAnswer(before: Directory, after: Directory, policy: Policy, resourceType: string, id: string,
                              entitlementID: string, outcome: Outcome) {
    && GrantOpen(before, policy, resourceType, id, entitlementID)
    && forall role :: Names(entitlementID, role) ==>
         if resourceType == "user" then UserGranted(before, after, id, role, outcome)
         else GroupGranted(before, after, policy, id, role, outcome)
  }

  ghost predicate RevokeAnswer(before: Directory, after: Directory, policy: Policy, resourceType: string, id: string,
                               entitlementID: string, outcome: Outcome) {
    && RevokeOpen(before, policy, resourceType, id, entitlementID)
    && forall role :: Names(entitlementID, role) ==>
         if resourceType == "user" then UserRevoked(before, after, id, role, outcome)
         else GroupRevoked(before, after, id, role, outcome)
  }

  /** The group was assigned to the application, with whatever roles that brings. */
  ghost predicate OnlyAssigned(before: Directory, after: Directory, policy: Policy, resourceType: string, id: string) {
    && resourceType == "group" && id !in before.groups
    && after == before.(groups := before.groups[id := AppGroup(Some(id), policy.freshAssignment(id))])
  }

  /** How a grant may leave the directory: an answer tells what it did; an error did nothing, assigned
      the group, or did what an answer would have told. */
  ghost predicate GrantLeaves(before: Directory, after: Directory, policy: Policy, resourceType: string, id: string,
                              entitlementID: string, r: Result<Outcome>) {
    if r.Ok? then GrantAnswer(before, after, policy, resourceType, id, entitlementID, r.value)
    else
      || after == before || OnlyAssigned(before, after, policy, resourceType, id)
      || exists outcome :: GrantAnswer(before, after, policy, resourceType, id, entitlementID, outcome)
  }

  ghost predicate RevokeLeaves(before: Directory, after: Directory, policy: Policy, resourceType: string, id: string,
                               entitlementID: string, r: Result<Outcome>) {
    if r.Ok? then RevokeAnswer(before, after, policy, resourceType, id, entitlementID, r.value)
    else
      || after == before
      || exists outcome :: RevokeAnswer(before, after, policy, resourceType, id, entitlementID, outcome)
  }

  lemma GrantMeans(before: Directory, after: Directory, policy: Policy, resourceType: string, id: string,
                   entitlementID: string, r: Result<Outcome>)
    requires ValidDirectory(before)
    requires var q := Request(policy, resourceType, id, entitlementID);
             Ends(before, after, if q.Ok? then Assigned(before, policy, q.value.0) else before,
                  GrantRequest(before, policy, resourceType, id, entitlementID), r)
    ensures GrantLeaves(before, after, policy, resourceType, id, entitlementID, r)
  {
    OpenIff(before, policy, resourceType, id, entitlementID);
    RequestIff(policy, resourceType, id, entitlementID);
    var effect := GrantRequest(before, policy, resourceType, id, entitlementID);
    if effect.Ok? && after == effect.value.0 {
      var (p, role) := Request(policy, resourceType, id, entitlementID).value;
      if p.User? {
        UserGrantMeans(before, after, policy, id, role, effect.value.1);
      } else {
        GroupGrantMeans(before, after, policy, id, role, effect.value.1);
      }
      assert GrantAnswer(before, after, policy, resourceType, id, entitlementID, effect.value.1);
    }
  }

  lemma RevokeMeans(before: Directory, after: Directory, policy: Policy, resourceType: string, id: string,
                    entitlementID: string, r: Result<Outcome>)
    requires ValidDirectory(before)
    requires Ends(before, after, before, RevokeRequest(before, policy, resourceType, id, entitlementID), r)
    ensures RevokeLeaves(before, after, policy, resourceType, id, entitlementID, r)
  {
    OpenIff(before, policy, resourceType, id, entitlementID);
    RequestIff(policy, resourceType, id, entitlementID);
    var effect := RevokeRequest(before, policy, resourceType, id, entitlementID);
    if effect.Ok? && after == effect.value.0 {
      var (p, role) := Request(policy, resourceType, id, entitlementID).value;
      if p.User? {
        UserRevokeMeans(before, after, policy, id, role, effect.value.1);
      } else {
        GroupRevokeMeans(before, after, policy, id, role, effect.value.1);
      }
      assert RevokeAnswer(before, after, policy, resourceType, id, entitlementID, effect.value.1);
    }
  }
}
