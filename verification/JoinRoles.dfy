/** What the "join all roles" setting means for the roles a user ends up with. */
module JoinRoles {
  import opened Base
  import opened Domain
  import opened Sessions
  import opened CacheFacts
  import opened SyncRun
  import opened StoreFaults
  import opened ReportLaws

  /** A user holds a role when a reported grant names the user, or names one of the user's groups and
      may be expanded to its members. */
  ghost predicate Holds(dir: Directory, reported: set<Grant>, account: string, u: string, role: string) {
    || Grant(account, User(u), role, false) in reported
    || exists g :: BelongsTo(dir, u, g) && Grant(account, Group(g), role, true) in reported
  }

  /** The role comes with one of the user's app groups. */
  ghost predicate ThroughAGroup(dir: Directory, u: string, role: string) {
    exists g :: BelongsTo(dir, u, g) && role in RolesThrough(dir, g)
  }

  /** The role comes with one of the user's app groups that listings show. */
  ghost predicate ThroughAListedGroup(dir: Directory, u: string, role: string) {
    exists g :: BelongsTo(dir, u, g) && !Anonymous(dir, g) && role in RolesThrough(dir, g)
  }

  /** Expanding the group grants reaches exactly the roles of the user's listed groups when all roles
      are joined, and nothing otherwise, whatever the store did during the sync. */
  lemma ExpansionMeansGroups(w: World, p: Keeping, s: Settings, account: string, reported: set<Grant>, u: string, role: string)
    requires !s.useGroupMapping && SureReport(w, p, s, account, reported)
    ensures (exists g :: BelongsTo(w.dir, u, g) && Grant(account, Group(g), role, true) in reported)
            <==> s.joinAllRoles && ThroughAListedGroup(w.dir, u, role)
  {
    if s.joinAllRoles && ThroughAListedGroup(w.dir, u, role) {
      var g :| BelongsTo(w.dir, u, g) && !Anonymous(w.dir, g) && role in RolesThrough(w.dir, g);
      assert Grant(account, Group(g), role, true) in reported;
    }
  }

  /** With any store, a direct user has exactly its own roles when roles are not joined, and exactly its
      own and its groups' roles when they are. */
  lemma DirectUserHolds(w: World, p: Keeping, s: Settings, account: string, reported: set<Grant>, u: string, role: string)
    requires !s.useGroupMapping && SureReport(w, p, s, account, reported)
    requires u in w.dir.users && w.dir.users[u].id.Some? && w.dir.users[u].scope == Some("USER")
    ensures Holds(w.dir, reported, account, u, role) <==>
            Lists(w.dir.users[u].profile, role) || (s.joinAllRoles && ThroughAListedGroup(w.dir, u, role))
  {
    ExpansionMeansGroups(w, p, s, account, reported, u, role);
    UserIsReported(w, p, s, account, reported, u, role, false);
  }

  /** Under union a group-scoped user is in the same position, whatever the join setting. */
  lemma UnionUserHolds(w: World, p: Keeping, s: Settings, account: string, reported: set<Grant>, u: string, role: string)
    requires !s.useGroupMapping && s.samlRolesUnionEnabled && SureReport(w, p, s, account, reported)
    requires u in w.dir.users && w.dir.users[u].id.Some? && w.dir.users[u].scope == Some("GROUP")
    ensures Grant(account, User(u), role, false) in reported <==> Lists(w.dir.users[u].profile, role)
    ensures Holds(w.dir, reported, account, u, role) <==>
            Lists(w.dir.users[u].profile, role) || (s.joinAllRoles && ThroughAListedGroup(w.dir, u, role))
  {
    UserIsReported(w, p, s, account, reported, u, role, false);
    ExpansionMeansGroups(w, p, s, account, reported, u, role);
  }

  /** A group-scoped user without union has, with any store, the roles of its listed groups when roles
      are joined. When they are not, it has no roles but its groups' and all of those that are sure;
      with a steady store, exactly those of the groups that are not denied. */
  lemma GroupScopedUserHolds(w: World, p: Keeping, s: Settings, account: string, reported: set<Grant>, u: string, role: string)
    requires !s.useGroupMapping && !s.samlRolesUnionEnabled && SureReport(w, p, s, account, reported)
    requires u in w.dir.users && w.dir.users[u].id.Some? && w.dir.users[u].scope == Some("GROUP")
    ensures s.joinAllRoles ==>
              && Grant(account, User(u), role, false) !in reported
              && (Holds(w.dir, reported, account, u, role) <==> ThroughAListedGroup(w.dir, u, role))
    ensures !s.joinAllRoles && Holds(w.dir, reported, account, u, role) ==> ThroughAGroup(w.dir, u, role)
    ensures (!s.joinAllRoles && ThroughAGroup(w.dir, u, role)
             && Sure(w, p, s, account, Grant(account, User(u), role, false))) ==> Holds(w.dir, reported, account, u, role)
    ensures !s.joinAllRoles && SteadyReport(w, p, s, account, reported) ==>
              (Holds(w.dir, reported, account, u, role) <==> ThroughAKnownGroup(w, p, u, role))
  {
    ExpansionMeansGroups(w, p, s, account, reported, u, role);
    var x := Grant(account, User(u), role, false);
    if !s.joinAllRoles {
      assert forall g :: StandsFor(w.dir, s, account, x, g) <==> BelongsTo(w.dir, u, g) && role in RolesThrough(w.dir, g);
    }
  }

  /** So the walk over a steady store and the expansion after any sync give such a user the same role,
      exactly unless the role comes only with groups of one kind: listed, or known to the steady store. */
  lemma WalkMatchesExpansion(w: World, p: Keeping, q: Keeping, s: Settings, account: string,
                             walked: set<Grant>, joined: set<Grant>, u: string, role: string)
    requires !s.useGroupMapping && !s.samlRolesUnionEnabled
    requires SteadyReport(w, p, s.(joinAllRoles := false), account, walked)
    requires SureReport(w, q, s.(joinAllRoles := true), account, joined)
    requires u in w.dir.users && w.dir.users[u].id.Some? && w.dir.users[u].scope == Some("GROUP")
    ensures (Holds(w.dir, walked, account, u, role) <==> Holds(w.dir, joined, account, u, role))
            <==> (ThroughAKnownGroup(w, p, u, role) <==> ThroughAListedGroup(w.dir, u, role))
  {
    SteadyIsSure(w, p, s.(joinAllRoles := false), account, walked);
    GroupScopedUserHolds(w, p, s.(joinAllRoles := false), account, walked, u, role);
    GroupScopedUserHolds(w, q, s.(joinAllRoles := true), account, joined, u, role);
  }

  /** A reliable store knows the listed groups, and the others too unless an ID set is kept; so there
      walk and expansion differ only where no ID set is kept and no listed group brings the role. */
  lemma ReliableWalkMatches(w: World, p: Keeping, u: string, role: string)
    requires ValidWorld(w) && Reliable(p)
    ensures ThroughAKnownGroup(w, p, u, role) <==>
            if KeepsIDSet(w) then ThroughAListedGroup(w.dir, u, role) else ThroughAGroup(w.dir, u, role)
    ensures (ThroughAKnownGroup(w, p, u, role) <==> ThroughAListedGroup(w.dir, u, role))
            <==> KeepsIDSet(w) || !ThroughAGroup(w.dir, u, role) || ThroughAListedGroup(w.dir, u, role)
  {
    forall g ensures Denied(w, p, g) <==> Anonymous(w.dir, g) && KeepsIDSet(w) {
      ReliableDenies(w, p, g);
    }
  }
}
