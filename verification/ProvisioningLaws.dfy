/** Laws of provisioning: single requests, whole histories, and what the next sync shows. */
module ProvisioningLaws {
  import opened Base
  import opened Domain
  import opened ProvisioningSpec

  // ---- Role sets ----

  /** The set of roles stored for a principal; none when it is not assigned to the application. */
  function RoleSet(dir: Directory, p: Principal): Option<set<string>> {
    match p
    case User(u) => if u in dir.users then Some(ToSet(RoleList(dir.users[u].profile))) else None
    case Group(g) => if g in dir.groups then Some(ToSet(RoleList(dir.groups[g].profile))) else None
  }

  /** The stored role list itself, in order. */
  function StoredRoles(dir: Directory, p: Principal): seq<string> {
    match p
    case User(u) => if u in dir.users then RoleList(dir.users[u].profile) else []
    case Group(g) => if g in dir.groups then RoleList(dir.groups[g].profile) else []
  }

  /** The roles a principal starts with when a grant finds it unassigned. */
  function StartingRoles(policy: Policy, p: Principal): set<string> {
    match p
    case User(_) => {}
    case Group(g) => ToSet(RoleList(policy.freshAssignment(g)))
  }

  function OtherKeys(profile: Option<Profile>): map<string, string> {
    if profile.Some? then profile.value.other else map[]
  }

  /** Nothing about any other principal differs, and no profile key but the role list. */
  ghost predicate OnlyRolesOf(before: Directory, after: Directory, p: Principal) {
    && after.members == before.members && after.orgGroups == before.orgGroups
    && (forall u :: u in before.users || u in after.users ==>
          if p == User(u) then
            u in before.users && u in after.users ==>
              && after.users[u].id == before.users[u].id
              && OtherKeys(after.users[u].profile) == OtherKeys(before.users[u].profile)
          else u in before.users && u in after.users && after.users[u] == before.users[u])
    && (forall g :: g in before.groups || g in after.groups ==>
          if p == Group(g) then
            g in before.groups && g in after.groups ==>
              && after.groups[g].id == before.groups[g].id
              && OtherKeys(after.groups[g].profile) == OtherKeys(before.groups[g].profile)
          else g in before.groups && g in after.groups && after.groups[g] == before.groups[g])
  }

  lemma {:induction false} WithoutMembers(roles: seq<string>, role: string)
    ensures ToSet(Without(roles, role)) == ToSet(roles) - {role}
    ensures role !in roles ==> Without(roles, role) == roles
  {
    if roles != [] {
      var front, last := roles[..|roles| - 1], roles[|roles| - 1];
      WithoutMembers(front, role);
      assert roles == front + [last];
      ToSetAppend(front, last);
      ToSetAppend(Without(front, role), last);
    }
  }

  /** A grant inserts exactly one role into one principal's set. */
  lemma GrantInserts(dir: Directory, policy: Policy, p: Principal, role: string)
    requires Granted(dir, policy, p, role).Ok?
    ensures var after := Granted(dir, policy, p, role).value.0;
            var had := if RoleSet(dir, p).Some? then RoleSet(dir, p).value else StartingRoles(policy, p);
            RoleSet(after, p) == Some(had + {role})
  {
    var d, after := Assigned(dir, policy, p), Granted(dir, policy, p, role).value.0;
    var roles := StoredRoles(d, p);
    assert StoredRoles(after, p) == if role in roles then roles else roles + [role];
    ToSetAppend(roles, role);
    assert role in roles ==> ToSet(roles) + {role} == ToSet(roles);
    assert RoleSet(dir, p).None? ==> StartingRoles(policy, p) == ToSet(roles);
  }

  /** A grant changes nothing else. */
  lemma GrantTouchesOnlyRoles(dir: Directory, policy: Policy, p: Principal, role: string)
    requires Granted(dir, policy, p, role).Ok?
    ensures OnlyRolesOf(dir, Granted(dir, policy, p, role).value.0, p)
  {
  }

  /** A revocation deletes exactly one role from one principal's set. */
  lemma RevokeDeletes(dir: Directory, policy: Policy, p: Principal, role: string)
    requires Revoked(dir, policy, p, role).Ok?
    ensures var after := Revoked(dir, policy, p, role).value.0;
            && RoleSet(after, p) == (if RoleSet(dir, p).Some? then Some(RoleSet(dir, p).value - {role}) else None)
            && OnlyRolesOf(dir, after, p)
  {
    match p
    case User(u) =>
      if u in dir.users { WithoutMembers(RoleList(dir.users[u].profile), role); }
    case Group(g) =>
      if g in dir.groups { WithoutMembers(RoleList(dir.groups[g].profile), role); }
  }

  // ---- Repeats, retries and inverses ----

  /** Repeating a grant changes nothing more, and says so. */
  lemma GrantIsIdempotent(dir: Directory, policy: Policy, p: Principal, role: string)
    requires Granted(dir, policy, p, role).Ok?
    ensures var after := Granted(dir, policy, p, role).value.0;
            Granted(after, policy, p, role) == Ok((after, AlreadyExists))
  {
  }

  /** So does repeating a revocation. */
  lemma RevokeIsIdempotent(dir: Directory, policy: Policy, p: Principal, role: string)
    requires Revoked(dir, policy, p, role).Ok?
    ensures var after := Revoked(dir, policy, p, role).value.0;
            Revoked(after, policy, p, role) ==
            Ok((after, if RoleSet(dir, p).Some? then AlreadyRevoked else NothingToRevoke))
  {
    RevokeDeletes(dir, policy, p, role);
    var after := Revoked(dir, policy, p, role).value.0;
    if RoleSet(dir, p).Some? {
      var roles := match p case User(u) => RoleList(after.users[u].profile) case Group(g) => RoleList(after.groups[g].profile);
      assert role !in ToSet(roles);
    }
  }

  /** The directories a disturbed grant can leave behind; trying again from any of them leads to
      the same end, with the new role present once more than before at most. */
  ghost predicate OnTheWay(dir: Directory, policy: Policy, p: Principal, role: string, d: Directory) {
    || d == dir
    || d == Assigned(dir, policy, p)
    || (Granted(dir, policy, p, role).Ok? && d == Granted(dir, policy, p, role).value.0)
  }

  lemma GrantConverges(dir: Directory, policy: Policy, p: Principal, role: string, d: Directory)
    requires OnTheWay(dir, policy, p, role, d)
    ensures Granted(d, policy, p, role).Ok? <==> Granted(dir, policy, p, role).Ok?
    ensures Granted(d, policy, p, role).Ok? ==>
              Granted(d, policy, p, role).value.0 == Granted(dir, policy, p, role).value.0
    ensures OnTheWay(dir, policy, p, role, Assigned(d, policy, p))
  {
  }

  ghost predicate NoDuplicates(xs: seq<string>) {
    forall i, j :: 0 <= i < j < |xs| ==> xs[i] != xs[j]
  }

  /** Granting a role an assigned principal lacks and revoking it again restores its role list, in
      order, and leaves everything else as it was. */
  lemma RevokeUndoesGrant(dir: Directory, policy: Policy, p: Principal, role: string)
    requires RoleSet(dir, p).Some? && role !in StoredRoles(dir, p) && Granted(dir, policy, p, role).Ok?
    ensures var granted := Granted(dir, policy, p, role).value.0;
            && Revoked(granted, policy, p, role).Ok?
            && var back := Revoked(granted, policy, p, role).value.0;
               StoredRoles(back, p) == StoredRoles(dir, p) && OnlyRolesOf(dir, back, p)
  {
    var granted := Granted(dir, policy, p, role).value.0;
    RevokeRestoresList(dir, policy, p, role);
    GrantInserts(dir, policy, p, role);
    RevokeDeletes(granted, policy, p, role);
    GrantTouchesOnlyRoles(dir, policy, p, role);
    OnlyRolesTwice(dir, granted, Revoked(granted, policy, p, role).value.0, p);
  }

  lemma RevokeRestoresList(dir: Directory, policy: Policy, p: Principal, role: string)
    requires RoleSet(dir, p).Some? && role !in StoredRoles(dir, p) && Granted(dir, policy, p, role).Ok?
    ensures var granted := Granted(dir, policy, p, role).value.0;
            && Revoked(granted, policy, p, role).Ok?
            && StoredRoles(Revoked(granted, policy, p, role).value.0, p) == StoredRoles(dir, p)
  {
    var roles, granted := StoredRoles(dir, p), Granted(dir, policy, p, role).value.0;
    AppendedThenRemoved(roles, role);
    if p.User? {
      assert granted.users[p.id] == DirectWith(dir.users[p.id], roles + [role]);
    } else {
      assert granted.groups[p.id] == GroupWith(dir.groups[p.id], roles + [role]);
    }
  }

  lemma AppendedThenRemoved(roles: seq<string>, role: string)
    requires role !in roles
    ensures role in roles + [role] && Without(roles + [role], role) == roles
  {
    assert (roles + [role])[..|roles|] == roles;
    WithoutMembers(roles, role);
  }

  lemma OnlyRolesTwice(a: Directory, b: Directory, c: Directory, p: Principal)
    requires OnlyRolesOf(a, b, p) && OnlyRolesOf(b, c, p)
    requires RoleSet(a, p).Some? && RoleSet(b, p).Some? && RoleSet(c, p).Some?
    ensures OnlyRolesOf(a, c, p)
  {
  }

  lemma {:induction false} WithoutKeepsDistinct(roles: seq<string>, role: string)
    requires NoDuplicates(roles)
    ensures NoDuplicates(Without(roles, role))
  {
    if roles != [] {
      var front := roles[..|roles| - 1];
      WithoutKeepsDistinct(front, role);
      WithoutMembers(front, role);
      var kept := Without(front, role);
      forall i | 0 <= i < |kept| ensures kept[i] != roles[|roles| - 1] {
        assert kept[i] in ToSet(kept);
        assert kept[i] in front;
      }
    }
  }

  /** Neither request introduces a duplicate. */
  lemma ProvisioningKeepsDistinct(dir: Directory, policy: Policy, p: Principal, role: string)
    requires NoDuplicates(StoredRoles(Assigned(dir, policy, p), p))
    ensures Granted(dir, policy, p, role).Ok? ==> NoDuplicates(StoredRoles(Granted(dir, policy, p, role).value.0, p))
    ensures Revoked(dir, policy, p, role).Ok? ==> NoDuplicates(StoredRoles(Revoked(dir, policy, p, role).value.0, p))
  {
    WithoutKeepsDistinct(StoredRoles(Assigned(dir, policy, p), p), role);
    var enrolled := StoredRoles(Assigned(dir, policy, p), p);
    assert role !in enrolled ==> NoDuplicates(enrolled + [role]);
  }

  // ---- Histories ----

  /** What one request may turn out to have done. */
  datatype Event =
    | Nothing
    | Assignment(p: Principal)
    | GrantDone(p: Principal, role: string)
    | RevokeDone(p: Principal, role: string)

  /** A grant or revocation is only done where it is allowed. */
  predicate Possible(dir: Directory, policy: Policy, e: Event) {
    match e
    case GrantDone(p, role) => Granted(dir, policy, p, role).Ok?
    case RevokeDone(p, role) => Revoked(dir, policy, p, role).Ok?
    case _ => true
  }

  function After(dir: Directory, policy: Policy, e: Event): Directory
    requires Possible(dir, policy, e)
  {
    match e
    case Nothing => dir
    case Assignment(p) => Assigned(dir, policy, p)
    case GrantDone(p, role) => Granted(dir, policy, p, role).value.0
    case RevokeDone(p, role) => Revoked(dir, policy, p, role).value.0
  }

  predicate PossibleRun(dir: Directory, policy: Policy, events: seq<Event>)
    decreases |events|
  {
    events == [] || (Possible(dir, policy, events[0]) && PossibleRun(After(dir, policy, events[0]), policy, events[1..]))
  }

  function AfterAll(dir: Directory, policy: Policy, events: seq<Event>): Directory
    requires PossibleRun(dir, policy, events)
    decreases |events|
  {
    if events == [] then dir else AfterAll(After(dir, policy, events[0]), policy, events[1..])
  }

  /** The same event on a bare set of roles: insert, delete, or leave alone. */
  function OnSet(policy: Policy, p: Principal, roles: Option<set<string>>, e: Event): Option<set<string>> {
    match e
    case GrantDone(q, role) =>
      if q != p then roles
      else Some((if roles.Some? then roles.value else StartingRoles(policy, p)) + {role})
    case RevokeDone(q, role) =>
      if q != p || roles.None? then roles else Some(roles.value - {role})
    case Assignment(q) =>
      if q == p && p.Group? && roles.None? then Some(StartingRoles(policy, p)) else roles
    case Nothing => roles
  }

  function FoldSet(policy: Policy, p: Principal, roles: Option<set<string>>, events: seq<Event>): Option<set<string>>
    decreases |events|
  {
    if events == [] then roles else FoldSet(policy, p, OnSet(policy, p, roles, events[0]), events[1..])
  }

  lemma EventRefinesSet(dir: Directory, policy: Policy, e: Event, p: Principal)
    requires Possible(dir, policy, e)
    ensures RoleSet(After(dir, policy, e), p) == OnSet(policy, p, RoleSet(dir, p), e)
  {
    match e
    case GrantDone(q, role) => GrantInserts(dir, policy, q, role);
    case RevokeDone(q, role) => RevokeDeletes(dir, policy, q, role);
    case _ =>
  }

  /** Refinement: along any history, each principal's stored roles are what inserting and deleting
      in a set of roles would give. */
  lemma {:induction false} HistoryRefinesSets(dir: Directory, policy: Policy, events: seq<Event>, p: Principal)
    requires PossibleRun(dir, policy, events)
    ensures RoleSet(AfterAll(dir, policy, events), p) == FoldSet(policy, p, RoleSet(dir, p), events)
    decreases |events|
  {
    if events != [] {
      EventRefinesSet(dir, policy, events[0], p);
      HistoryRefinesSets(After(dir, policy, events[0]), policy, events[1..], p);
    }
  }

  lemma {:induction false} RunAppend(dir: Directory, policy: Policy, events: seq<Event>, e: Event)
    requires PossibleRun(dir, policy, events) && Possible(AfterAll(dir, policy, events), policy, e)
    ensures PossibleRun(dir, policy, events + [e])
    ensures AfterAll(dir, policy, events + [e]) == After(AfterAll(dir, policy, events), policy, e)
    decreases |events|
  {
    if events == [] {
      assert ([] + [e])[1..] == [];
    } else {
      assert (events + [e])[1..] == events[1..] + [e];
      RunAppend(After(dir, policy, events[0]), policy, events[1..], e);
    }
  }

  /** Conversion policy along any history: a direct user stays direct, and a group-scoped user is
      untouched unless conversion is allowed and direct roles take effect. */
  lemma {:induction false} HistoryKeepsScopes(dir: Directory, policy: Policy, events: seq<Event>, u: string)
    requires PossibleRun(dir, policy, events) && u in dir.users
    ensures u in AfterAll(dir, policy, events).users
    ensures dir.users[u].scope == Some(USER_SCOPE) ==> AfterAll(dir, policy, events).users[u].scope == Some(USER_SCOPE)
    ensures dir.users[u].scope == Some(GROUP_SCOPE) && !(policy.allowConversion && CanDirectAssign(policy.settings)) ==>
              AfterAll(dir, policy, events).users[u] == dir.users[u]
    decreases |events|
  {
    if events != [] {
      var next := After(dir, policy, events[0]);
      assert u in next.users;
      HistoryKeepsScopes(next, policy, events[1..], u);
    }
  }

  /** Some event is about the principal. */
  ghost predicate Concerns(events: seq<Event>, p: Principal) {
    exists e :: e in events && e != Nothing && e.p == p
  }

  /** What a history leaves alone: memberships and Okta groups; identifiers and profile keys other than
      the role list; and the records of principals that no event is about. New records have no other
      keys than those of a fresh assignment. */
  ghost predicate OnlyRolesChanged(policy: Policy, events: seq<Event>, before: Directory, after: Directory) {
    && after.members == before.members && after.orgGroups == before.orgGroups
    && before.users.Keys <= after.users.Keys && before.groups.Keys <= after.groups.Keys
    && (forall u :: u in after.users ==>
          && (if u in before.users
              then after.users[u].id == before.users[u].id
                   && OtherKeys(after.users[u].profile) == OtherKeys(before.users[u].profile)
              else after.users[u].id == Some(u) && OtherKeys(after.users[u].profile) == map[])
          && (!Concerns(events, User(u)) ==> u in before.users && after.users[u] == before.users[u]))
    && (forall g :: g in after.groups ==>
          && (if g in before.groups
              then after.groups[g].id == before.groups[g].id
                   && OtherKeys(after.groups[g].profile) == OtherKeys(before.groups[g].profile)
              else after.groups[g].id == Some(g)
                   && OtherKeys(after.groups[g].profile) == OtherKeys(policy.freshAssignment(g)))
          && (!Concerns(events, Group(g)) ==> g in before.groups && after.groups[g] == before.groups[g]))
  }

  lemma EventChangesOnlyRoles(dir: Directory, policy: Policy, e: Event)
    requires Possible(dir, policy, e)
    ensures OnlyRolesChanged(policy, [e], dir, After(dir, policy, e))
  {
    if e != Nothing {
      EventTouchesOnlyRoles(dir, policy, e);
      assert forall p :: Concerns([e], p) <==> p == e.p by {
        assert e in [e];
      }
    }
  }

  /** One event changes the record of one principal, and a new record is a fresh one but for its roles. */
  lemma EventTouchesOnlyRoles(dir: Directory, policy: Policy, e: Event)
    requires Possible(dir, policy, e) && e != Nothing
    ensures var after := After(dir, policy, e);
            && OnlyRolesOf(dir, after, e.p)
            && dir.users.Keys <= after.users.Keys && dir.groups.Keys <= after.groups.Keys
            && (match e.p
                case User(u) => u in after.users && u !in dir.users ==>
                  after.users[u].id == Some(u) && OtherKeys(after.users[u].profile) == map[]
                case Group(g) => g in after.groups && g !in dir.groups ==>
                  after.groups[g].id == Some(g) && OtherKeys(after.groups[g].profile) == OtherKeys(policy.freshAssignment(g)))
  {
    match e
    case GrantDone(p, role) => GrantTouchesOnlyRoles(dir, policy, p, role);
    case RevokeDone(p, role) => RevokeDeletes(dir, policy, p, role);
    case _ =>
  }

  /** Along any history nothing changes but role lists, scopes, and which principals are assigned. */
  lemma {:induction false} HistoryChangesOnlyRoles(dir: Directory, policy: Policy, events: seq<Event>)
    requires PossibleRun(dir, policy, events)
    ensures OnlyRolesChanged(policy, events, dir, AfterAll(dir, policy, events))
    decreases |events|
  {
    if events != [] {
      var next := After(dir, policy, events[0]);
      EventChangesOnlyRoles(dir, policy, events[0]);
      HistoryChangesOnlyRoles(next, policy, events[1..]);
      ChangesAddUp(policy, events[0], events[1..], dir, next, AfterAll(dir, policy, events));
      assert [events[0]] + events[1..] == events;
    }
  }

  lemma ChangesAddUp(policy: Policy, e: Event, events: seq<Event>, a: Directory, b: Directory, c: Directory)
    requires OnlyRolesChanged(policy, [e], a, b) && OnlyRolesChanged(policy, events, b, c)
    ensures OnlyRolesChanged(policy, [e] + events, a, c)
  {
    forall p ensures Concerns([e] + events, p) <==> Concerns([e], p) || Concerns(events, p) {
      assert forall f :: f in [e] + events <==> f in [e] || f in events;
    }
  }

  /** Identifiers stay in order along any history. */
  lemma {:induction false} HistoryKeepsValid(dir: Directory, policy: Policy, events: seq<Event>)
    requires PossibleRun(dir, policy, events) && ValidDirectory(dir)
    requires forall e :: e in events && e.GrantDone? ==> e.p.id != ""
    ensures ValidDirectory(AfterAll(dir, policy, events))
    decreases |events|
  {
    if events != [] {
      assert events[0] in events;
      assert ValidDirectory(After(dir, policy, events[0]));
      HistoryKeepsValid(After(dir, policy, events[0]), policy, events[1..]);
    }
  }

  // ---- What the next sync shows ----

  /** After a successful revocation no sync reports the role for that principal. */
  lemma RevokeIsReflected(dir: Directory, policy: Policy, p: Principal, role: string, account: string, expandable: bool)
    requires ValidDirectory(dir) && !policy.settings.useGroupMapping
    requires Revoked(dir, policy, p, role).Ok?
    ensures !ShouldReport(Revoked(dir, policy, p, role).value.0, policy.settings, account, Grant(account, p, role, expandable))
  {
    RevokeDeletes(dir, policy, p, role);
    var after := Revoked(dir, policy, p, role).value.0;
    assert RoleSet(after, p).Some? ==> role !in ToSet(StoredRoles(after, p));
  }

  /** A role that was already there may be invisible: in the profile of a user whose profile is not
      read, or on a group whose record has no identifier. */
  predicate Invisible(dir: Directory, policy: Policy, p: Principal, role: string) {
    match p
    case User(u) => u in dir.users && role in RoleList(dir.users[u].profile) && !ReadsProfile(policy.settings, dir.users[u])
    case Group(g) => g in dir.groups && dir.groups[g].id.None?
  }

  /** After a successful grant the next sync reports the role, exactly unless it was invisible; it
      never takes a walk to find it. */
  lemma GrantIsReflected(dir: Directory, policy: Policy, p: Principal, role: string, account: string)
    requires ValidDirectory(dir) && !policy.settings.useGroupMapping
    requires Granted(dir, policy, p, role).Ok?
    ensures ShouldReport(Granted(dir, policy, p, role).value.0, policy.settings, account,
                         Grant(account, p, role, p.Group? && policy.settings.joinAllRoles))
            <==> !Invisible(dir, policy, p, role)
    ensures !ByWalk(Granted(dir, policy, p, role).value.0, policy.settings, account,
                    Grant(account, p, role, p.Group? && policy.settings.joinAllRoles))
  {
  }

  /** Principals whose stored roles syncs do not read: users whose profile does not count, and groups
      without an identifier. */
  predicate Unread(dir: Directory, s: Settings, p: Principal) {
    match p
    case User(u) => u in dir.users && !ReadsProfile(s, dir.users[u])
    case Group(g) => g in dir.groups && dir.groups[g].id.None?
  }

  /** Of any other principal a sync has to report exactly the stored roles; it never takes a walk. */
  lemma StoredIsReported(dir: Directory, s: Settings, account: string, p: Principal, role: string, expandable: bool)
    requires ValidDirectory(dir) && !s.useGroupMapping && !Unread(dir, s, p)
    ensures ShouldReport(dir, s, account, Grant(account, p, role, expandable)) <==>
            RoleSet(dir, p).Some? && role in RoleSet(dir, p).value && expandable == (p.Group? && s.joinAllRoles)
    ensures !ByWalk(dir, s, account, Grant(account, p, role, expandable))
  {
  }

  /** The user case of invisibility, in the settings it is about: group scope, all roles joined, no
      union of role lists. The grant reports success and the next sync does not show the role. */
  lemma AGrantThatIsNotReflected()
    ensures
      var settings := Settings(true, false, false, BadRegex, "1");
      var policy := Policy(settings, true, _ => None);
      var before := Directory(map["u" := AppUser(Some("u"), Some(GROUP_SCOPE), Some(Profile(Roles(["r"]), map[])))], map[], map[], {});
      && Granted(before, policy, User("u"), "r") == Ok((before, AlreadyExists))
      && !ShouldReport(before, settings, "1", Grant("1", User("u"), "r", false))
  {
  }
}
