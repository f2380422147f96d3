/** What a finished sync shows of each kind of principal, in terms of the records Okta holds. */
module ReportLaws {
  import opened Base
  import opened Domain
  import opened Sessions
  import opened CacheFacts
  import opened SyncRun

  /** A group is reported with the roles its record lists, exactly when the record has an identifier,
      expandable exactly when all roles are joined. */
  lemma GroupIsReported(w: World, p: Keeping, s: Settings, account: string, reported: set<Grant>, g: string, role: string,
                        expandable: bool)
    requires !s.useGroupMapping && SureReport(w, p, s, account, reported)
    ensures Grant(account, Group(g), role, expandable) in reported <==>
            && g in w.dir.groups && w.dir.groups[g].id.Some? && Lists(w.dir.groups[g].profile, role)
            && expandable == s.joinAllRoles
  {
    var x := Grant(account, Group(g), role, expandable);
    if g in w.dir.groups {
      ReadingRoles(w.dir.groups[g].profile, role);
    }
    assert Sure(w, p, s, account, x);
  }

  /** A direct user, and under union a group-scoped one whatever the join setting, is reported with
      exactly the roles the profile lists. */
  lemma UserIsReported(w: World, p: Keeping, s: Settings, account: string, reported: set<Grant>, u: string, role: string,
                       expandable: bool)
    requires !s.useGroupMapping && SureReport(w, p, s, account, reported)
    requires u in w.dir.users && w.dir.users[u].id.Some?
    requires w.dir.users[u].scope == Some("USER") || (w.dir.users[u].scope == Some("GROUP") && s.samlRolesUnionEnabled)
    ensures Grant(account, User(u), role, expandable) in reported <==> !expandable && Lists(w.dir.users[u].profile, role)
  {
    ReadingRoles(w.dir.users[u].profile, role);
    assert Sure(w, p, s, account, Grant(account, User(u), role, expandable));
  }

  /** The role is in the list of one of the user's groups. */
  ghost predicate InAGroupsList(dir: Directory, u: string, role: string, spared: set<string>) {
    u in dir.members
    && exists g :: Some(g) in dir.members[u] && g in dir.groups && g !in spared && Lists(dir.groups[g].profile, role)
  }

  /** A group-scoped user without union and join is reported with roles its groups list only; with a
      steady store, with exactly those of the groups that are not denied. */
  lemma WalkedUserIsReported(w: World, p: Keeping, s: Settings, account: string, reported: set<Grant>, u: string, role: string,
                             expandable: bool)
    requires !s.useGroupMapping && !s.joinAllRoles && !s.samlRolesUnionEnabled && SureReport(w, p, s, account, reported)
    requires u in w.dir.users && w.dir.users[u].id.Some? && w.dir.users[u].scope == Some("GROUP")
    ensures Grant(account, User(u), role, expandable) in reported ==> !expandable && InAGroupsList(w.dir, u, role, {})
    ensures SteadyReport(w, p, s, account, reported) ==>
              (Grant(account, User(u), role, expandable) in reported <==>
               !expandable && InAGroupsList(w.dir, u, role, DeniedGroups(w, p)))
  {
    var x := Grant(account, User(u), role, expandable);
    forall g ensures StandsFor(w.dir, s, account, x, g) <==>
                     !expandable && u in w.dir.members && Some(g) in w.dir.members[u]
                     && g in w.dir.groups && Lists(w.dir.groups[g].profile, role)
    {
      if g in w.dir.groups {
        ReadingRoles(w.dir.groups[g].profile, role);
      }
    }
    assert ShouldReport(w.dir, s, account, x) <==> ByWalk(w.dir, s, account, x);
  }

  /** Nobody else is reported as a user: nobody unassigned, without identifier or without scope, of
      another scope, or group-scoped while roles are joined without union. */
  lemma OthersAreNotReported(w: World, p: Keeping, s: Settings, account: string, reported: set<Grant>, u: string, role: string,
                             expandable: bool)
    requires !s.useGroupMapping && SureReport(w, p, s, account, reported)
    requires u in w.dir.users && w.dir.users[u].id.Some? ==>
               && w.dir.users[u].scope != Some("USER")
               && (w.dir.users[u].scope == Some("GROUP") ==> s.joinAllRoles && !s.samlRolesUnionEnabled)
    ensures Grant(account, User(u), role, expandable) !in reported
  {
  }

  /** With group mapping, exactly the Okta groups whose name stands for a role of the account are
      reported, as expandable grants. */
  lemma MappedGroupIsReported(w: World, p: Keeping, s: Settings, account: string, reported: set<Grant>, x: Grant)
    requires s.useGroupMapping && SureReport(w, p, s, account, reported)
    ensures x in reported <==>
            && x.account == account && x.principal.Group? && x.expandable
            && exists og :: og in w.dir.orgGroups && og.id == Some(x.principal.id) && og.name.Some?
                            && s.roleRegex.RoleRegex? && s.roleRegex.find(og.name.value) == Some((account, x.role))
  {
    assert forall og :: MapsTo(s, og, x.principal.id, account, x.role) <==>
                        og.id == Some(x.principal.id) && og.name.Some?
                        && s.roleRegex.RoleRegex? && s.roleRegex.find(og.name.value) == Some((account, x.role));
    assert Sure(w, p, s, account, x);
  }
}
