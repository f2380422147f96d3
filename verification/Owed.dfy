/** What a page token still owes: the grants and group look-ups a sync has yet to deliver from it,
    and how many more calls that can take. */
module Owed {
  import opened Base
  import opened Sorting
  import opened Pagination
  import opened Domain

  /** One thing a sync must get done: report a grant outright, report a grant on account of one of a
      walked user's groups, or settle one group of one walked user. A principal that cannot be read, and
      a walked user's group that cannot be, are debts that no step ever pays. */
  datatype Item =
    | Emit(grant: Grant)
    | Through(grant: Grant, group: string)
    | Resolve(user: string, group: string)
    | Stuck(principal: Principal)
    | StuckAt(user: string, group: string)

  predicate Payable(x: Item) {
    !x.Stuck? && !x.StuckAt?
  }

  function Emits(grants: seq<Grant>): set<Item> {
    set x | x in grants :: Emit(x)
  }

  lemma EmitsOneMore(grants: seq<Grant>, x: Grant)
    ensures Emits(grants + [x]) == Emits(grants) + {Emit(x)}
  {
  }

  lemma RoleGrantsPrefix(account: string, p: Principal, roles: seq<string>, expandable: bool, i: nat)
    requires i < |roles|
    ensures RoleGrants(account, p, roles[..i + 1], expandable)
         == RoleGrants(account, p, roles[..i], expandable) + {Emit(Grant(account, p, roles[i], expandable))}
  {
  }

  function RoleGrants(account: string, p: Principal, roles: seq<string>, expandable: bool): set<Item> {
    set r | r in roles :: Emit(Grant(account, p, r, expandable))
  }

  /** Everything one group contributes to one user's walk. */
  function LookupItems(dir: Directory, account: string, u: string, g: string): set<Item> {
    {Resolve(u, g)} + (if Direct(dir, g).Unreadable? then {StuckAt(u, g)} else {})
    + set r | r in RolesThrough(dir, g) :: Through(Grant(account, User(u), r, false), g)
  }

  function LookupShare(dir: Directory, account: string, u: string): string -> set<Item> {
    g => LookupItems(dir, account, u, g)
  }

  function WalkItems(dir: Directory, account: string, u: string, groups: seq<string>): set<Item> {
    Gather(ToSet(groups), LookupShare(dir, account, u))
  }

  function GroupsOf(dir: Directory, u: string): seq<string> {
    if u in dir.members then WalkOrder(dir.members[u]) else []
  }

  /** A user Okta lists no groups for cannot be walked. */
  function Unlistable(dir: Directory, u: string): set<Item> {
    if u in dir.members then {} else {Stuck(User(u))}
  }

  function ProfileItems(account: string, p: Principal, profile: Option<Profile>, expandable: bool): set<Item> {
    match GetSamlRoles(profile)
    case Ok(roles) => RoleGrants(account, p, roles, expandable)
    case Err => {Stuck(p)}
  }

  function UserItems(dir: Directory, s: Settings, account: string, u: string): set<Item> {
    if u !in dir.users then {}
    else if ReadsProfile(s, dir.users[u]) then ProfileItems(account, User(u), dir.users[u].profile, false)
    else if WalksGroups(s, dir.users[u]) then WalkItems(dir, account, u, GroupsOf(dir, u)) + Unlistable(dir, u)
    else {}
  }

  function UserShare(dir: Directory, s: Settings, account: string): string -> set<Item> {
    u => UserItems(dir, s, account, u)
  }

  function GroupItems(dir: Directory, s: Settings, account: string, g: string): set<Item> {
    if g in dir.groups && dir.groups[g].id.Some? then
      ProfileItems(account, Group(g), dir.groups[g].profile, s.joinAllRoles)
    else {}
  }

  function GroupShare(dir: Directory, s: Settings, account: string): string -> set<Item> {
    g => GroupItems(dir, s, account, g)
  }

  function MappedRole(s: Settings, og: OrgGroup): Option<(string, string)> {
    if og.name.Some? && s.roleRegex.RoleRegex? then s.roleRegex.find(og.name.value) else None
  }

  function MappedItems(s: Settings, account: string, og: OrgGroup): set<Item> {
    var m := MappedRole(s, og);
    if og.id.Some? && og.name.Some? && s.roleRegex.BadRegex? then {Stuck(Group(og.id.value))}
    else if og.id.Some? && m.Some? && m.value.0 == account
    then {Emit(Grant(account, Group(og.id.value), m.value.1, true))}
    else {}
  }

  function MappedShare(s: Settings, account: string): OrgGroup -> set<Item> {
    og => MappedItems(s, account, og)
  }

  function UserPagesOwed(w: World, s: Settings, account: string, k: nat): set<Item> {
    if k > |w.listing.userPages| then {}
    else Gather(Flat(w.listing.userPages[k..]), UserShare(w.dir, s, account))
  }

  function GroupPagesOwed(w: World, s: Settings, account: string, k: nat): set<Item> {
    if s.useGroupMapping then
      if k > |w.listing.orgPages| then {}
      else Gather(Flat(w.listing.orgPages[k..]), MappedShare(s, account))
    else
      if k > |w.listing.groupPages| then {}
      else Gather(Flat(w.listing.groupPages[k..]), GroupShare(w.dir, s, account))
  }

  /** The position a user state resumes from: an empty token is position 0. */
  function StartIndex(token: Token): Option<int> {
    match token
    case Empty => Some(0)
    case Index(i) => Some(i)
    case _ => None
  }

  function RestOfWalk(groups: seq<string>, token: Token): seq<string> {
    match StartIndex(token)
    case Some(i) => if 0 <= i <= |groups| then groups[i..] else []
    case None => []
  }

  /** A state of the user phase: an empty resource ID is a page of users, anything else a user. */
  function UserStateOwed(w: World, s: Settings, account: string, st: PageState): set<Item> {
    if st.resourceID != "" then
      WalkItems(w.dir, account, st.resourceID, RestOfWalk(GroupsOf(w.dir, st.resourceID), st.token))
      + Unlistable(w.dir, st.resourceID)
    else
      match PageNumber(st.token)
      case Some(k) => UserPagesOwed(w, s, account, k)
      case None => {}
  }

  function UserStackOwed(w: World, s: Settings, account: string, stack: seq<PageState>): set<Item> {
    if stack == [] then {}
    else UserStackOwed(w, s, account, stack[..|stack| - 1])
         + UserStateOwed(w, s, account, stack[|stack| - 1])
  }

  const FIRST_USER_PAGE := PageState(Empty, "", "")

  /** The inner stack of the user phase, opened with its first page state. */
  function UserStackOf(token: Token): seq<PageState> {
    match token
    case Stack(states, current) => states + [current]
    case _ => [FIRST_USER_PAGE]
  }

  function StateOwed(w: World, s: Settings, account: string, st: PageState): set<Item> {
    if st.resourceTypeID == USER_TYPE then UserStackOwed(w, s, account, UserStackOf(st.token))
    else
      match PageNumber(st.token)
      case Some(k) => GroupPagesOwed(w, s, account, k)
      case None => {}
  }

  function StackOwed(w: World, s: Settings, account: string, stack: seq<PageState>): set<Item> {
    if stack == [] then {}
    else StackOwed(w, s, account, stack[..|stack| - 1]) + StateOwed(w, s, account, stack[|stack| - 1])
  }

  /** The outer stack a sync starts from: groups on top, users below, users only without mapping. */
  function OpeningStack(s: Settings): seq<PageState> {
    (if s.useGroupMapping then [] else [PageState(Empty, USER_TYPE, "")]) + [PageState(Empty, GROUP_TYPE, "")]
  }

  /** The outer stack a call to Grants works on. */
  function WorkingStack(s: Settings, token: Token): seq<PageState> {
    match token
    case Stack(states, current) => states + [current]
    case _ => OpeningStack(s)
  }

  lemma UserStackOwedPush(w: World, s: Settings, account: string, stack: seq<PageState>, st: PageState)
    ensures UserStackOwed(w, s, account, stack + [st])
         == UserStackOwed(w, s, account, stack) + UserStateOwed(w, s, account, st)
  {
  }

  lemma StackOwedPush(w: World, s: Settings, account: string, stack: seq<PageState>, st: PageState)
    ensures StackOwed(w, s, account, stack + [st])
         == StackOwed(w, s, account, stack) + StateOwed(w, s, account, st)
  {
  }

  lemma UserPagesOwedStep(w: World, s: Settings, account: string, k: nat)
    requires k < |w.listing.userPages|
    ensures UserPagesOwed(w, s, account, k)
         == Gather(ToSet(w.listing.userPages[k]), UserShare(w.dir, s, account))
            + UserPagesOwed(w, s, account, k + 1)
  {
  }

  lemma GroupPagesOwedStep(w: World, s: Settings, account: string, k: nat)
    requires !s.useGroupMapping && k < |w.listing.groupPages|
    ensures GroupPagesOwed(w, s, account, k)
         == Gather(ToSet(w.listing.groupPages[k]), GroupShare(w.dir, s, account))
            + GroupPagesOwed(w, s, account, k + 1)
  {
  }

  lemma MappedPagesOwedStep(w: World, s: Settings, account: string, k: nat)
    requires s.useGroupMapping && k < |w.listing.orgPages|
    ensures GroupPagesOwed(w, s, account, k)
         == Gather(ToSet(w.listing.orgPages[k]), MappedShare(s, account))
            + GroupPagesOwed(w, s, account, k + 1)
  {
  }

  /** Past the last page nothing is owed. */
  lemma NothingOwedPastTheEnd(w: World, s: Settings, account: string)
    ensures UserPagesOwed(w, s, account, |w.listing.userPages|) == {}
    ensures GroupPagesOwed(w, s, account, GroupPageCount(w, s)) == {}
  {
  }

  /** Splitting a walk at any position splits what it owes. */
  lemma WalkItemsSplit(dir: Directory, account: string, u: string, groups: seq<string>, i: nat, j: nat)
    requires i <= j <= |groups|
    ensures WalkItems(dir, account, u, groups[i..])
         == WalkItems(dir, account, u, groups[i..j]) + WalkItems(dir, account, u, groups[j..])
  {
  }

  /** A walk over some of a user's groups owes exactly those groups' roles and look-ups. */
  lemma WalkOwes(dir: Directory, account: string, u: string, groups: seq<string>, x: Grant, g: string)
    ensures Through(x, g) in WalkItems(dir, account, u, groups) <==>
            && x == Grant(account, User(u), x.role, false) && g in groups && x.role in RolesThrough(dir, g)
    ensures Resolve(u, g) in WalkItems(dir, account, u, groups) <==> g in groups
    ensures StuckAt(u, g) in WalkItems(dir, account, u, groups) <==> g in groups && Direct(dir, g).Unreadable?
    ensures Emit(x) !in WalkItems(dir, account, u, groups)
  {
    var share := LookupShare(dir, account, u);
    if g in groups {
      assert g in ToSet(groups) && Resolve(u, g) in share(g);
      assert Direct(dir, g).Unreadable? ==> StuckAt(u, g) in share(g);
      if x == Grant(account, User(u), x.role, false) && x.role in RolesThrough(dir, g) {
        assert Through(x, g) in share(g);
      }
    }
  }

  /** The opening stack owes, page split and all, exactly what a sync should report: outright what
      needs no walk, and through each group that stands for it what does. */
  lemma OpeningOwesTheReport(w: World, s: Settings, account: string, x: Grant, g: string)
    requires ValidWorld(w)
    ensures Emit(x) in StackOwed(w, s, account, OpeningStack(s)) <==>
            ShouldReport(w.dir, s, account, x) && !ByWalk(w.dir, s, account, x)
    ensures Through(x, g) in StackOwed(w, s, account, OpeningStack(s)) <==> StandsFor(w.dir, s, account, x, g)
  {
    OpeningOwesAllPages(w, s, account);
    if s.useGroupMapping {
      MappedGrants(w.dir, s, account, x);
      NoWalksIn(w.dir.orgGroups, MappedShare(s, account), x, g);
    } else {
      GroupGrants(w.dir, s, account, x);
      NoWalksIn(w.dir.groups.Keys, GroupShare(w.dir, s, account), x, g);
      UserGrants(w.dir, s, account, x, g);
    }
  }

  lemma OpeningOwesAllPages(w: World, s: Settings, account: string)
    requires ValidWorld(w)
    ensures StackOwed(w, s, account, OpeningStack(s)) ==
            if s.useGroupMapping then Gather(w.dir.orgGroups, MappedShare(s, account))
            else Gather(w.dir.users.Keys, UserShare(w.dir, s, account))
                 + Gather(w.dir.groups.Keys, GroupShare(w.dir, s, account))
  {
    var users, groups := PageState(Empty, USER_TYPE, ""), PageState(Empty, GROUP_TYPE, "");
    assert w.listing.userPages[0..] == w.listing.userPages;
    assert w.listing.groupPages[0..] == w.listing.groupPages;
    assert w.listing.orgPages[0..] == w.listing.orgPages;
    StackOwedPush(w, s, account, [], groups);
    if s.useGroupMapping {
      assert OpeningStack(s) == [] + [groups];
    } else {
      assert OpeningStack(s) == ([] + [users]) + [groups];
      StackOwedPush(w, s, account, [], users);
      StackOwedPush(w, s, account, [users], groups);
      UserStackOwedPush(w, s, account, [], FIRST_USER_PAGE);
      assert [] + [FIRST_USER_PAGE] == [FIRST_USER_PAGE];
    }
  }

  lemma NoWalksIn<T>(keys: set<T>, share: T -> set<Item>, x: Grant, g: string)
    requires forall k :: k in keys ==> Through(x, g) !in share(k)
    ensures Through(x, g) !in Gather(keys, share)
  {
  }

  lemma MappedGrants(dir: Directory, s: Settings, account: string, x: Grant)
    requires s.useGroupMapping
    ensures Emit(x) in Gather(dir.orgGroups, MappedShare(s, account)) <==> ShouldReport(dir, s, account, x)
  {
    var f := MappedShare(s, account);
    if Emit(x) in Gather(dir.orgGroups, f) {
      var og :| og in dir.orgGroups && Emit(x) in f(og);
      assert MapsTo(s, og, x.principal.id, account, x.role);
    }
    if ShouldReport(dir, s, account, x) {
      var og :| og in dir.orgGroups && MapsTo(s, og, x.principal.id, account, x.role);
      assert Emit(x) in f(og);
    }
  }

  lemma GroupGrants(dir: Directory, s: Settings, account: string, x: Grant)
    requires !s.useGroupMapping
    ensures Emit(x) in Gather(dir.groups.Keys, GroupShare(dir, s, account)) <==>
            x.principal.Group? && ShouldReport(dir, s, account, x)
  {
    var f := GroupShare(dir, s, account);
    if x.principal.Group? && ShouldReport(dir, s, account, x) {
      assert x.principal.id in dir.groups.Keys && Emit(x) in f(x.principal.id);
    }
  }

  lemma UserGrants(dir: Directory, s: Settings, account: string, x: Grant, g: string)
    requires !s.useGroupMapping
    ensures Emit(x) in Gather(dir.users.Keys, UserShare(dir, s, account)) <==>
            x.principal.User? && ShouldReport(dir, s, account, x) && !ByWalk(dir, s, account, x)
    ensures Through(x, g) in Gather(dir.users.Keys, UserShare(dir, s, account)) <==> StandsFor(dir, s, account, x, g)
  {
    var f := UserShare(dir, s, account);
    forall u | u in dir.users.Keys
      ensures Emit(x) in f(u) <==> x.principal == User(u) && ShouldReport(dir, s, account, x) && !ByWalk(dir, s, account, x)
      ensures Through(x, g) in f(u) <==> x.principal == User(u) && StandsFor(dir, s, account, x, g)
    {
      OneUserGrants(dir, s, account, u, x, g);
    }
    if x.principal.User? && x.principal.id in dir.users.Keys {
      var u := x.principal.id;
      assert x.principal == User(u);
      assert Emit(x) in f(u) ==> Emit(x) in Gather(dir.users.Keys, f);
      assert Through(x, g) in f(u) ==> Through(x, g) in Gather(dir.users.Keys, f);
    }
  }

  lemma OneUserGrants(dir: Directory, s: Settings, account: string, u: string, x: Grant, g: string)
    requires !s.useGroupMapping && u in dir.users
    ensures Emit(x) in UserItems(dir, s, account, u) <==>
            x.principal == User(u) && ShouldReport(dir, s, account, x) && !ByWalk(dir, s, account, x)
    ensures Through(x, g) in UserItems(dir, s, account, u) <==> x.principal == User(u) && StandsFor(dir, s, account, x, g)
  {
    if WalksGroups(s, dir.users[u]) {
      WalkOwes(dir, account, u, GroupsOf(dir, u), x, g);
      GroupsOfMembers(dir, u, g);
      assert x.principal == User(u) && ShouldReport(dir, s, account, x) ==> ByWalk(dir, s, account, x) by {
        if x.principal == User(u) && ShouldReport(dir, s, account, x) {
          var h :| BelongsTo(dir, u, h) && x.role in RolesThrough(dir, h);
          assert StandsFor(dir, s, account, x, h);
        }
      }
    }
  }

  /** What the opening stack owes includes a debt for everything that keeps a sync from finishing. */
  lemma OpeningOwesTheStuck(w: World, s: Settings, account: string, spared: set<string>)
    requires ValidWorld(w)
    requires forall x :: x in StackOwed(w, s, account, OpeningStack(s)) && !Payable(x) ==> x.StuckAt? && x.group in spared
    ensures CleanBut(w.dir, s, spared)
  {
    OpeningOwesAllPages(w, s, account);
    if s.useGroupMapping {
      MappedStuck(w.dir, s, account, spared);
    } else {
      GroupsStuck(w.dir, s, account);
      forall u | u in w.dir.users && w.dir.users[u].id.Some? ensures UserIsClean(w.dir, s, u, spared) {
        GatherShare(w.dir.users.Keys, UserShare(w.dir, s, account), u);
        UserStuck(w.dir, s, account, u, spared);
      }
    }
  }

  /** The part of a clean directory that is about one user. */
  ghost predicate UserIsClean(dir: Directory, s: Settings, u: string, spared: set<string>)
    requires u in dir.users
  {
    && (dir.users[u].scope == Some("USER") || (dir.users[u].scope == Some("GROUP") && s.samlRolesUnionEnabled)
        ==> !Garbled(dir.users[u].profile))
    && (dir.users[u].scope == Some("GROUP") && !s.joinAllRoles && !s.samlRolesUnionEnabled ==>
          && u in dir.members
          && forall g :: Some(g) in dir.members[u] && g in dir.groups && g !in spared ==> !Garbled(dir.groups[g].profile))
  }

  lemma MappedStuck(dir: Directory, s: Settings, account: string, spared: set<string>)
    requires s.useGroupMapping
    requires forall x :: x in Gather(dir.orgGroups, MappedShare(s, account)) && !Payable(x) ==> x.StuckAt? && x.group in spared
    ensures CleanBut(dir, s, spared)
  {
    if s.roleRegex.BadRegex? {
      forall og | og in dir.orgGroups ensures og.id.None? || og.name.None? {
        GatherShare(dir.orgGroups, MappedShare(s, account), og);
        match og.id
        case None =>
        case Some(id) => assert og.name.Some? ==> Stuck(Group(id)) in MappedItems(s, account, og);
      }
    }
  }

  lemma GroupsStuck(dir: Directory, s: Settings, account: string)
    requires forall x :: x in Gather(dir.groups.Keys, GroupShare(dir, s, account)) ==> !x.Stuck?
    ensures forall g :: g in dir.groups && dir.groups[g].id.Some? ==> !Garbled(dir.groups[g].profile)
  {
    forall g | g in dir.groups && dir.groups[g].id.Some? ensures !Garbled(dir.groups[g].profile) {
      ReadingRoles(dir.groups[g].profile, "");
      GatherShare(dir.groups.Keys, GroupShare(dir, s, account), g);
      assert Garbled(dir.groups[g].profile) ==> Stuck(Group(g)) in GroupItems(dir, s, account, g);
    }
  }

  lemma GatherShare<A>(keys: set<A>, f: A -> set<Item>, key: A)
    requires key in keys
    ensures f(key) <= Gather(keys, f)
  {
  }

  lemma UserStuck(dir: Directory, s: Settings, account: string, u: string, spared: set<string>)
    requires u in dir.users && dir.users[u].id.Some?
    requires forall x :: x in UserItems(dir, s, account, u) && !Payable(x) ==> x.StuckAt? && x.group in spared
    ensures UserIsClean(dir, s, u, spared)
  {
    ReadingRoles(dir.users[u].profile, "");
    if ReadsProfile(s, dir.users[u]) {
      assert Garbled(dir.users[u].profile) ==> Stuck(User(u)) in UserItems(dir, s, account, u);
    }
    if WalksGroups(s, dir.users[u]) {
      assert u !in dir.members ==> Stuck(User(u)) in UserItems(dir, s, account, u);
      forall g | BelongsTo(dir, u, g) && g in dir.groups && g !in spared ensures !Garbled(dir.groups[g].profile) {
        ReadingRoles(dir.groups[g].profile, "");
        GroupsOfMembers(dir, u, g);
        WalkOwes(dir, account, u, GroupsOf(dir, u), Grant(account, User(u), "", false), g);
        assert Garbled(dir.groups[g].profile) ==> StuckAt(u, g) in UserItems(dir, s, account, u);
      }
    }
  }

  lemma GroupsOfMembers(dir: Directory, u: string, g: string)
    ensures g in GroupsOf(dir, u) <==> BelongsTo(dir, u, g)
  {
    if u in dir.members { WalkOrderMembers(dir.members[u], g); }
  }

  // ---- How much work a token stands for ----

  /** What is counted: the successful calls a token can take at most, or how often exactly it makes
      one group be looked up for one user. */
  datatype Measure = Calls | LookUps(user: string, group: string)

  /** A user's walk from position `i` takes a look-up for each group left, and at most one call for
      each but at least one. */
  function WalkCost(m: Measure, u: string, groups: seq<string>, i: int): nat {
    match m
    case Calls => if 0 <= i < |groups| then |groups| - i else 1
    case LookUps(user, group) => if u == user && 0 <= i <= |groups| then multiset(groups[i..])[group] else 0
  }

  function PageWalksCost(m: Measure, dir: Directory, s: Settings, keys: seq<string>): nat {
    if keys == [] then 0
    else
      var u := keys[|keys| - 1];
      PageWalksCost(m, dir, s, keys[..|keys| - 1])
      + if u in dir.users && WalksGroups(s, dir.users[u]) then WalkCost(m, u, GroupsOf(dir, u), 0) else 0
  }

  function UserPagesCost(m: Measure, w: World, s: Settings, k: nat): nat
    decreases |w.listing.userPages| - k
  {
    if k >= |w.listing.userPages| then 0
    else (if m.Calls? then 1 else 0) + PageWalksCost(m, w.dir, s, w.listing.userPages[k]) + UserPagesCost(m, w, s, k + 1)
  }

  function GroupPageCount(w: World, s: Settings): nat {
    if s.useGroupMapping then |w.listing.orgPages| else |w.listing.groupPages|
  }

  function GroupPagesCost(m: Measure, w: World, s: Settings, k: nat): nat {
    var n := GroupPageCount(w, s);
    if m.Calls? && k < n then n - k else 0
  }

  function UserStateCost(m: Measure, w: World, s: Settings, st: PageState): nat {
    if st.resourceID != "" then
      match StartIndex(st.token)
      case Some(i) => WalkCost(m, st.resourceID, GroupsOf(w.dir, st.resourceID), i)
      case None => 0
    else
      match PageNumber(st.token)
      case Some(k) => UserPagesCost(m, w, s, k)
      case None => 0
  }

  function UserStackCost(m: Measure, w: World, s: Settings, stack: seq<PageState>): nat {
    if stack == [] then 0
    else UserStackCost(m, w, s, stack[..|stack| - 1]) + UserStateCost(m, w, s, stack[|stack| - 1])
  }

  function StateCost(m: Measure, w: World, s: Settings, st: PageState): nat {
    if st.resourceTypeID == USER_TYPE then UserStackCost(m, w, s, UserStackOf(st.token))
    else
      match PageNumber(st.token)
      case Some(k) => GroupPagesCost(m, w, s, k)
      case None => 0
  }

  function StackCost(m: Measure, w: World, s: Settings, stack: seq<PageState>): nat {
    if stack == [] then 0
    else StackCost(m, w, s, stack[..|stack| - 1]) + StateCost(m, w, s, stack[|stack| - 1])
  }

  lemma UserStackCostPush(m: Measure, w: World, s: Settings, stack: seq<PageState>, st: PageState)
    ensures UserStackCost(m, w, s, stack + [st]) == UserStackCost(m, w, s, stack) + UserStateCost(m, w, s, st)
  {
  }

  lemma StackCostPush(m: Measure, w: World, s: Settings, stack: seq<PageState>, st: PageState)
    ensures StackCost(m, w, s, stack + [st]) == StackCost(m, w, s, stack) + StateCost(m, w, s, st)
  {
  }

  lemma PageWalksCostPrefix(m: Measure, dir: Directory, s: Settings, keys: seq<string>, i: nat)
    requires i < |keys|
    ensures PageWalksCost(m, dir, s, keys[..i + 1])
         == PageWalksCost(m, dir, s, keys[..i])
            + if keys[i] in dir.users && WalksGroups(s, dir.users[keys[i]]) then WalkCost(m, keys[i], GroupsOf(dir, keys[i]), 0) else 0
  {
    assert keys[..i + 1][..i] == keys[..i];
  }

  /** All the keys of a listing from page `k` on, in the order they are listed. */
  function KeysFrom(pages: seq<seq<string>>, k: nat): seq<string>
    decreases |pages| - k
  {
    if k >= |pages| then [] else pages[k] + KeysFrom(pages, k + 1)
  }

  /** The look-ups one walker takes: one for each of its groups. */
  function WalkerPairs(u: string, groups: seq<string>): multiset<(string, string)> {
    if groups == [] then multiset{}
    else WalkerPairs(u, groups[..|groups| - 1]) + multiset{(u, groups[|groups| - 1])}
  }

  function WalkPairs(dir: Directory, s: Settings, keys: seq<string>): multiset<(string, string)> {
    if keys == [] then multiset{}
    else
      var u := keys[|keys| - 1];
      WalkPairs(dir, s, keys[..|keys| - 1])
      + if u in dir.users && WalksGroups(s, dir.users[u]) then WalkerPairs(u, GroupsOf(dir, u)) else multiset{}
  }

  /** Every pair of a listed walker and one of its groups: the look-ups a whole sync takes. */
  function LookUpsNeeded(w: World, s: Settings): multiset<(string, string)> {
    if s.useGroupMapping then multiset{} else WalkPairs(w.dir, s, KeysFrom(w.listing.userPages, 0))
  }

  lemma {:induction false} WalkerPairsCount(u: string, groups: seq<string>, v: string, g: string)
    ensures WalkerPairs(u, groups)[(v, g)] == if u == v then multiset(groups)[g] else 0
  {
    if groups != [] {
      WalkerPairsCount(u, groups[..|groups| - 1], v, g);
      assert groups == groups[..|groups| - 1] + [groups[|groups| - 1]];
    }
  }

  lemma {:induction false} WalkPairsCount(dir: Directory, s: Settings, keys: seq<string>, v: string, g: string)
    ensures WalkPairs(dir, s, keys)[(v, g)] == PageWalksCost(LookUps(v, g), dir, s, keys)
  {
    if keys != [] {
      var u := keys[|keys| - 1];
      WalkPairsCount(dir, s, keys[..|keys| - 1], v, g);
      WalkerPairsCount(u, GroupsOf(dir, u), v, g);
      assert GroupsOf(dir, u)[0..] == GroupsOf(dir, u);
    }
  }

  lemma {:induction false} PageWalksConcat(m: Measure, dir: Directory, s: Settings, a: seq<string>, b: seq<string>)
    ensures PageWalksCost(m, dir, s, a + b) == PageWalksCost(m, dir, s, a) + PageWalksCost(m, dir, s, b)
  {
    if b == [] {
      assert a + b == a;
    } else {
      PageWalksConcat(m, dir, s, a, b[..|b| - 1]);
      assert (a + b)[..|a + b| - 1] == a + b[..|b| - 1];
    }
  }

  lemma {:induction false} LookUpsOfPages(m: Measure, w: World, s: Settings, k: nat)
    requires m.LookUps?
    ensures UserPagesCost(m, w, s, k) == PageWalksCost(m, w.dir, s, KeysFrom(w.listing.userPages, k))
    decreases |w.listing.userPages| - k
  {
    if k < |w.listing.userPages| {
      LookUpsOfPages(m, w, s, k + 1);
      PageWalksConcat(m, w.dir, s, w.listing.userPages[k], KeysFrom(w.listing.userPages, k + 1));
    }
  }

  lemma FirstPageLookUps(m: Measure, w: World, s: Settings)
    requires m.LookUps?
    ensures StateCost(m, w, s, PageState(Empty, USER_TYPE, ""))
         == PageWalksCost(m, w.dir, s, KeysFrom(w.listing.userPages, 0))
  {
    assert [] + [FIRST_USER_PAGE] == [FIRST_USER_PAGE];
    UserStackCostPush(m, w, s, [], FIRST_USER_PAGE);
    assert UserStateCost(m, w, s, FIRST_USER_PAGE) == UserPagesCost(m, w, s, 0);
    LookUpsOfPages(m, w, s, 0);
  }

  /** A sync looks each group of each listed walker up for that walker, however users are split into pages. */
  lemma OpeningLookUps(w: World, s: Settings, u: string, g: string)
    ensures StackCost(LookUps(u, g), w, s, OpeningStack(s)) == LookUpsNeeded(w, s)[(u, g)]
  {
    var m, users, groups := LookUps(u, g), PageState(Empty, USER_TYPE, ""), PageState(Empty, GROUP_TYPE, "");
    assert StateCost(m, w, s, groups) == 0;
    if s.useGroupMapping {
      assert OpeningStack(s) == [] + [groups];
      StackCostPush(m, w, s, [], groups);
    } else {
      assert OpeningStack(s) == ([] + [users]) + [groups];
      StackCostPush(m, w, s, [], users);
      StackCostPush(m, w, s, [users], groups);
      FirstPageLookUps(m, w, s);
      WalkPairsCount(w.dir, s, KeysFrom(w.listing.userPages, 0), u, g);
    }
  }
}
