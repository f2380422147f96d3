/** What Okta holds about the AWS application, the application's settings, and the grants that
    follow from both. */
module Domain {
  import opened Base

  /** The `samlRoles` field of a profile: missing or null, a list of strings, or something else. */
  datatype SamlRoles = Absent | Roles(roles: seq<string>) | Malformed

  datatype Profile = Profile(samlRoles: SamlRoles, other: map<string, string>)

  datatype AppUser = AppUser(id: Option<string>, scope: Option<string>, profile: Option<Profile>)

  datatype AppGroup = AppGroup(id: Option<string>, profile: Option<Profile>)

  datatype OrgGroup = OrgGroup(id: Option<string>, name: Option<string>)

  /** Application users and groups by key, the groups of each Okta user, and all Okta groups. */
  datatype Directory = Directory(
    users: map<string, AppUser>,
    groups: map<string, AppGroup>,
    members: map<string, seq<Option<string>>>,
    orgGroups: set<OrgGroup>)

  /** How Okta splits its three listings into pages. */
  datatype Listing = Listing(
    userPages: seq<seq<string>>,
    groupPages: seq<seq<string>>,
    orgPages: seq<seq<OrgGroup>>)

  datatype World = World(dir: Directory, listing: Listing)

  const USER_SCOPE := "USER"
  const GROUP_SCOPE := "GROUP"
  const USER_TYPE := "user"
  const GROUP_TYPE := "group"
  const ACCOUNT_TYPE := "account"

  /** The group filter: it compiles to a partial map from group names to (account, role), or it
      does not compile. */
  datatype RoleRegex = BadRegex | RoleRegex(find: string -> Option<(string, string)>)

  datatype Settings = Settings(
    joinAllRoles: bool,
    useGroupMapping: bool,
    samlRolesUnionEnabled: bool,
    roleRegex: RoleRegex,
    identityProviderAccount: string)

  datatype Principal = User(id: string) | Group(id: string)

  datatype Grant = Grant(account: string, principal: Principal, role: string, expandable: bool)

  /** Records carry their own key or no identifier at all, and a user key is never empty. */
  ghost predicate ValidDirectory(dir: Directory) {
    && (forall u :: u in dir.users ==> u != "" && (dir.users[u].id == None || dir.users[u].id == Some(u)))
    && (forall g :: g in dir.groups ==> dir.groups[g].id == None || dir.groups[g].id == Some(g))
  }

  /** Every listing has at least one page and shows exactly what the directory holds. */
  ghost predicate ValidWorld(w: World) {
    && ValidDirectory(w.dir)
    && |w.listing.userPages| > 0 && Flat(w.listing.userPages) == w.dir.users.Keys
    && |w.listing.groupPages| > 0 && Flat(w.listing.groupPages) == w.dir.groups.Keys
    && |w.listing.orgPages| > 0 && Flat(w.listing.orgPages) == w.dir.orgGroups
  }

  /** Reads the role list of a profile. A missing profile or field is an empty list. */
  function GetSamlRoles(profile: Option<Profile>): Result<seq<string>> {
    match profile
    case None => Ok([])
    case Some(p) =>
      match p.samlRoles
      case Absent => Ok([])
      case Roles(rs) => Ok(rs)
      case Malformed => Err
  }

  /** The readable roles of a profile. */
  function RoleList(profile: Option<Profile>): seq<string> {
    var r := GetSamlRoles(profile);
    if r.Ok? then r.value else []
  }

  /** What Okta itself would answer about one group and the application. */
  datatype Membership = NotAppGroup | AppRoles(roles: seq<string>) | Unreadable

  function Direct(dir: Directory, g: string): Membership {
    if g !in dir.groups then NotAppGroup
    else
      match GetSamlRoles(dir.groups[g].profile)
      case Ok(rs) => AppRoles(rs)
      case Err => Unreadable
  }

  function RolesThrough(dir: Directory, g: string): seq<string> {
    match Direct(dir, g)
    case AppRoles(rs) => rs
    case _ => []
  }

  /** Users whose own profile lists the roles they hold. */
  predicate ReadsProfile(s: Settings, u: AppUser) {
    u.id.Some? && u.scope.Some? &&
    (u.scope.value == USER_SCOPE || (u.scope.value == GROUP_SCOPE && s.samlRolesUnionEnabled))
  }

  /** Users whose roles have to be collected from their groups. */
  predicate WalksGroups(s: Settings, u: AppUser) {
    u.id.Some? && u.scope == Some(GROUP_SCOPE) && !s.joinAllRoles && !s.samlRolesUnionEnabled
  }

  predicate BelongsTo(dir: Directory, u: string, g: string) {
    u in dir.members && Some(g) in dir.members[u]
  }

  /** The grants one full sync of an account has to report, said without pages, tokens, caches or
      order: the reference the paged sync is measured against. */
  ghost predicate ShouldReport(dir: Directory, s: Settings, account: string, x: Grant) {
    x.account == account &&
    if s.useGroupMapping then
      && x.principal.Group? && x.expandable
      && exists og :: og in dir.orgGroups && MapsTo(s, og, x.principal.id, account, x.role)
    else
      match x.principal
      case Group(g) =>
        && g in dir.groups && dir.groups[g].id.Some?
        && x.role in RoleList(dir.groups[g].profile)
        && x.expandable == s.joinAllRoles
      case User(u) =>
        && u in dir.users && !x.expandable
        && ((ReadsProfile(s, dir.users[u]) && x.role in RoleList(dir.users[u].profile))
            || (WalksGroups(s, dir.users[u]) &&
                exists g :: BelongsTo(dir, u, g) && x.role in RolesThrough(dir, g)))
  }

  /** A group of a walked user that brings the role of a grant. */
  ghost predicate StandsFor(dir: Directory, s: Settings, account: string, x: Grant, g: string) {
    && !s.useGroupMapping && x.account == account && x.principal.User? && !x.expandable
    && x.principal.id in dir.users && WalksGroups(s, dir.users[x.principal.id])
    && BelongsTo(dir, x.principal.id, g) && x.role in RolesThrough(dir, g)
  }

  /** Grants that have to be collected by walking groups. */
  ghost predicate ByWalk(dir: Directory, s: Settings, account: string, x: Grant) {
    exists g :: StandsFor(dir, s, account, x, g)
  }

  /** Walk-grants that no group with an identifier stands for. */
  ghost predicate Unlisted(dir: Directory, s: Settings, account: string, x: Grant) {
    ByWalk(dir, s, account, x) && forall g :: StandsFor(dir, s, account, x, g) ==> Anonymous(dir, g)
  }

  ghost predicate ExactReport(dir: Directory, s: Settings, account: string, reported: set<Grant>) {
    forall x :: x in reported <==> ShouldReport(dir, s, account, x)
  }

  /** Whether a named Okta group stands for a role of an account under the group filter. */
  predicate MapsTo(s: Settings, og: OrgGroup, g: string, account: string, role: string) {
    && og.id == Some(g) && og.name.Some?
    && s.roleRegex.RoleRegex?
    && s.roleRegex.find(og.name.value) == Some((account, role))
  }

  /** App groups whose record carries no identifier: listings skip them. */
  ghost predicate Anonymous(dir: Directory, g: string) {
    g in dir.groups && dir.groups[g].id.None?
  }

  /** The role is in the profile's list. */
  predicate Lists(profile: Option<Profile>, role: string) {
    profile.Some? && profile.value.samlRoles.Roles? && role in profile.value.samlRoles.roles
  }

  /** The profile's role field holds something else than a list of strings. */
  predicate Garbled(profile: Option<Profile>) {
    profile.Some? && profile.value.samlRoles.Malformed?
  }

  /** Nothing in the directory or the settings makes a sync step fail by itself, where the groups in
      `spared` are never asked for their roles on a user's behalf: with group mapping the filter
      compiles, or there is nothing to match; without, no listed group and no user whose profile counts
      has a garbled role list, and users whose groups are walked are known with readable groups. */
  ghost predicate CleanBut(dir: Directory, s: Settings, spared: set<string>) {
    if s.useGroupMapping then
      s.roleRegex.RoleRegex? || forall og :: og in dir.orgGroups ==> og.id.None? || og.name.None?
    else
      && (forall g :: g in dir.groups && dir.groups[g].id.Some? ==> !Garbled(dir.groups[g].profile))
      && (forall u :: u in dir.users && dir.users[u].id.Some? ==>
            && (dir.users[u].scope == Some("USER") || (dir.users[u].scope == Some("GROUP") && s.samlRolesUnionEnabled)
                ==> !Garbled(dir.users[u].profile))
            && (dir.users[u].scope == Some("GROUP") && !s.joinAllRoles && !s.samlRolesUnionEnabled ==>
                  && u in dir.members
                  && forall g :: Some(g) in dir.members[u] && g in dir.groups && g !in spared ==> !Garbled(dir.groups[g].profile)))
  }

  ghost predicate Clean(dir: Directory, s: Settings) {
    CleanBut(dir, s, {})
  }

  /** Okta lists a user's groups, and all of them can be read, but for the spared ones. */
  ghost predicate Walkable(dir: Directory, u: string, spared: set<string>) {
    u in dir.members && forall g :: BelongsTo(dir, u, g) ==> Direct(dir, g) != Unreadable || g in spared
  }

  /** In a clean directory a walked user's groups can be read, but for the spared ones. */
  lemma CleanWalk(dir: Directory, s: Settings, spared: set<string>, u: string)
    requires !s.useGroupMapping && CleanBut(dir, s, spared) && u in dir.users && WalksGroups(s, dir.users[u])
    ensures Walkable(dir, u, spared)
  {
  }

  /** What reading a profile's role list means for its fields. */
  lemma ReadingRoles(profile: Option<Profile>, role: string)
    ensures GetSamlRoles(profile).Err? <==> Garbled(profile)
    ensures role in RoleList(profile) <==> Lists(profile, role)
  {
  }
}
