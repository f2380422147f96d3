/** Grant and Revoke, step by step against a directory whose writes may fail, or succeed without
    the caller learning of it. */
module Provisioning {
  import opened Base
  import opened Domain
  import opened OktaApi
  import opened EntitlementIDs
  import opened ProvisioningSpec
  import opened RequestMeaning

  class Provisioner {
    const okta: Okta
    const settings: Settings
    const allowConversion: bool

    constructor (okta: Okta, settings: Settings, allowConversion: bool)
      ensures this.okta == okta && this.settings == settings && this.allowConversion == allowConversion
    {
      this.okta, this.settings, this.allowConversion := okta, settings, allowConversion;
    }

    function Policy(): ProvisioningSpec.Policy {
      ProvisioningSpec.Policy(settings, allowConversion, okta.freshAssignment)
    }

    method Grant(resourceType: string, id: string, entitlementID: string) returns (r: Result<Outcome>)
      requires ValidDirectory(okta.dir)
      modifies okta`dir, okta`requests
      ensures var q := Request(Policy(), resourceType, id, entitlementID);
              Ends(old(okta.dir), okta.dir,
                   if q.Ok? then Assigned(old(okta.dir), Policy(), q.value.0) else old(okta.dir),
                   GrantRequest(old(okta.dir), Policy(), resourceType, id, entitlementID), r)
      ensures GrantLeaves(old(okta.dir), okta.dir, Policy(), resourceType, id, entitlementID, r)
      ensures !okta.flaky && GrantOpen(old(okta.dir), Policy(), resourceType, id, entitlementID) ==> r.Ok?
    {
      ghost var before := okta.dir;
      OpenIff(before, Policy(), resourceType, id, entitlementID);
      if resourceType != USER_TYPE && resourceType != GROUP_TYPE {
        return Err;
      }
      var up := okta.Reach();
      if !up || settings.useGroupMapping {
        return Err;
      }
      var newSamlRole := ParseSAMLRole(entitlementID);
      if newSamlRole.Err? {
        return Err;
      }
      if resourceType == USER_TYPE {
        r := GrantToUser(id, newSamlRole.value);
      } else {
        r := GrantToGroup(id, newSamlRole.value);
      }
      GrantMeans(before, okta.dir, Policy(), resourceType, id, entitlementID, r);
    }

    method GrantToUser(userID: string, newSamlRole: string) returns (r: Result<Outcome>)
      requires ValidDirectory(okta.dir)
      modifies okta`dir
      ensures Ends(old(okta.dir), okta.dir, old(okta.dir), Granted(old(okta.dir), Policy(), User(userID), newSamlRole), r)
      ensures !okta.flaky && Granted(old(okta.dir), Policy(), User(userID), newSamlRole).Ok? ==> r.Ok?
    {
      var reply := okta.GetApplicationUser(userID);
      if reply.Failed? {
        return Err;
      }
      if reply.NotFound? {
        var profile := Profile(Roles([newSamlRole]), map[]);
        var stored := okta.AssignUserToApplication(userID, USER_SCOPE, profile);
        return if stored.Ok? then Ok(Updated) else Err;
      }
      var appUser := reply.value;
      if appUser.id.None? || appUser.scope.None? {
        return Err;
      }
      var canDirectAssign := settings.joinAllRoles || settings.samlRolesUnionEnabled;
      if appUser.scope.value == GROUP_SCOPE && (!allowConversion || !canDirectAssign) {
        return Err;
      }
      var appUserProfile := if appUser.profile.Some? then appUser.profile.value else Profile(Absent, map[]);
      var samlRoles := GetSamlRoles(Some(appUserProfile));
      if samlRoles.Err? {
        return Err;
      }
      if newSamlRole in samlRoles.value {
        return Ok(AlreadyExists);
      }
      appUserProfile := appUserProfile.(samlRoles := Roles(samlRoles.value + [newSamlRole]));
      var stored := okta.UpdateApplicationUser(appUser.id.value, appUserProfile, USER_SCOPE);
      return if stored.Ok? then Ok(Updated) else Err;
    }

    method GrantToGroup(groupID: string, newSamlRole: string) returns (r: Result<Outcome>)
      modifies okta`dir, okta`requests
      ensures Ends(old(okta.dir), okta.dir, Assigned(old(okta.dir), Policy(), Group(groupID)),
                   Granted(old(okta.dir), Policy(), Group(groupID), newSamlRole), r)
      ensures !okta.flaky && Granted(old(okta.dir), Policy(), Group(groupID), newSamlRole).Ok? ==> r.Ok?
    {
      var reply := okta.GetApplicationGroupAssignment(groupID);
      if reply.Failed? {
        return Err;
      }
      if reply.Found? {
        r := AddSamlRoleToAppGroup(groupID, newSamlRole, reply.value);
        return;
      }
      // An assignment cannot carry the new role, so it is made first and read back for the roles
      // it brings along.
      var enrolled := okta.AssignGroupToApplication(groupID);
      if enrolled.Err? {
        return Err;
      }
      reply := okta.GetApplicationGroupAssignment(groupID);
      if !reply.Found? {
        return Err;
      }
      r := AddSamlRoleToAppGroup(groupID, newSamlRole, reply.value);
    }

    method AddSamlRoleToAppGroup(groupID: string, newSamlRole: string, appGroup: AppGroup) returns (r: Result<Outcome>)
      requires groupID in okta.dir.groups && okta.dir.groups[groupID] == appGroup
      modifies okta`dir
      ensures Ends(old(okta.dir), okta.dir, old(okta.dir), Granted(old(okta.dir), Policy(), Group(groupID), newSamlRole), r)
      ensures !okta.flaky && Granted(old(okta.dir), Policy(), Group(groupID), newSamlRole).Ok? ==> r.Ok?
    {
      var samlRoles := GetSamlRoles(appGroup.profile);
      if samlRoles.Err? {
        return Err;
      }
      if newSamlRole in samlRoles.value {
        return Ok(AlreadyExists);
      }
      var stored := okta.PatchGroupSamlRoles(groupID, samlRoles.value + [newSamlRole]);
      return if stored.Ok? then Ok(Updated) else Err;
    }

    method Revoke(resourceType: string, id: string, entitlementID: string) returns (r: Result<Outcome>)
      requires ValidDirectory(okta.dir)
      modifies okta`dir, okta`requests
      ensures Ends(old(okta.dir), okta.dir, old(okta.dir),
                   RevokeRequest(old(okta.dir), Policy(), resourceType, id, entitlementID), r)
      ensures RevokeLeaves(old(okta.dir), okta.dir, Policy(), resourceType, id, entitlementID, r)
      ensures !okta.flaky && RevokeOpen(old(okta.dir), Policy(), resourceType, id, entitlementID) ==> r.Ok?
    {
      ghost var before := okta.dir;
      OpenIff(before, Policy(), resourceType, id, entitlementID);
      if resourceType != USER_TYPE && resourceType != GROUP_TYPE {
        return Err;
      }
      var up := okta.Reach();
      if !up || settings.useGroupMapping {
        return Err;
      }
      var samlRoleToRemove := ParseSAMLRole(entitlementID);
      if samlRoleToRemove.Err? {
        return Err;
      }
      if resourceType == USER_TYPE {
        r := RevokeFromUser(id, samlRoleToRemove.value);
      } else {
        r := RevokeFromGroup(id, samlRoleToRemove.value);
      }
      RevokeMeans(before, okta.dir, Policy(), resourceType, id, entitlementID, r);
    }

    method RevokeFromUser(userID: string, samlRoleToRemove: string) returns (r: Result<Outcome>)
      requires ValidDirectory(okta.dir)
      modifies okta`dir
      ensures Ends(old(okta.dir), okta.dir, old(okta.dir), Revoked(old(okta.dir), Policy(), User(userID), samlRoleToRemove), r)
      ensures !okta.flaky && Revoked(old(okta.dir), Policy(), User(userID), samlRoleToRemove).Ok? ==> r.Ok?
    {
      var reply := okta.GetApplicationUser(userID);
      if reply.Failed? {
        return Err;
      }
      if reply.NotFound? {
        return Ok(NothingToRevoke);
      }
      var appUser := reply.value;
      if appUser.id.None? || appUser.scope.None? {
        return Err;
      }
      var canDirectAssign := settings.joinAllRoles || settings.samlRolesUnionEnabled;
      if appUser.scope.value == GROUP_SCOPE && (!allowConversion || !canDirectAssign) {
        return Err;
      }
      var samlRoles := GetSamlRoles(appUser.profile);
      if samlRoles.Err? {
        return Err;
      }
      if samlRoleToRemove !in samlRoles.value {
        return Ok(AlreadyRevoked);
      }
      // A profile that lists the role is there to be updated.
      var newSamlRoles := RemoveSamlRole(samlRoles.value, samlRoleToRemove);
      var appUserProfile := appUser.profile.value.(samlRoles := Roles(newSamlRoles));
      var stored := okta.UpdateApplicationUser(appUser.id.value, appUserProfile, USER_SCOPE);
      return if stored.Ok? then Ok(Updated) else Err;
    }

    method RevokeFromGroup(groupID: string, samlRoleToRemove: string) returns (r: Result<Outcome>)
      modifies okta`dir, okta`requests
      ensures Ends(old(okta.dir), okta.dir, old(okta.dir), Revoked(old(okta.dir), Policy(), Group(groupID), samlRoleToRemove), r)
      ensures !okta.flaky && Revoked(old(okta.dir), Policy(), Group(groupID), samlRoleToRemove).Ok? ==> r.Ok?
    {
      var reply := okta.GetApplicationGroupAssignment(groupID);
      if reply.Failed? {
        return Err;
      }
      if reply.NotFound? {
        return Ok(NothingToRevoke);
      }
      var samlRoles := GetSamlRoles(reply.value.profile);
      if samlRoles.Err? {
        return Err;
      }
      if samlRoleToRemove !in samlRoles.value {
        return Ok(AlreadyRevoked);
      }
      var newSamlRoles := RemoveSamlRole(samlRoles.value, samlRoleToRemove);
      var stored := okta.PatchGroupSamlRoles(groupID, newSamlRoles);
      return if stored.Ok? then Ok(Updated) else Err;
    }
  }

  method RemoveSamlRole(samlRoles: seq<string>, samlRoleToRemove: string) returns (newSamlRoles: seq<string>)
    ensures newSamlRoles == Without(samlRoles, samlRoleToRemove)
  {
    newSamlRoles := [];
    for i := 0 to |samlRoles|
      invariant newSamlRoles == Without(samlRoles[..i], samlRoleToRemove)
    {
      assert samlRoles[..i + 1][..i] == samlRoles[..i];
      if samlRoles[i] == samlRoleToRemove {
        continue;
      }
      newSamlRoles := newSamlRoles + [samlRoles[i]];
    }
    assert samlRoles[..|samlRoles|] == samlRoles;
  }
}
