/** Grants, one call at a time: the group phase, the user phase and the cached group look-up. */
module AccountSync {
  import opened Base
  import opened Sorting
  import opened Pagination
  import opened Domain
  import opened Sessions
  import opened CacheFacts
  import opened OktaApi
  import opened Owed
  import opened TokenShape
  import opened Settlement
  import opened UserSteps
  import opened OuterStep

  function Verdict(o: Option<AppGroupWrapper>): Membership {
    if o.Some? then AppRoles(o.value.samlRoles) else NotAppGroup
  }

  function AnswerOf(r: Result<Option<AppGroupWrapper>>): Result<Membership> {
    if r.Ok? then Ok(Verdict(r.value)) else Err
  }

  function ParseAccountIDAndRoleFromGroupName(re: RoleRegex, groupName: string): Result<Option<(string, string)>> {
    match re
    case BadRegex => Err
    case RoleRegex(find) => Ok(find(groupName))
  }

  class AccountResource {
    const okta: Okta
    const ss: SessionStore
    const settings: Settings
    const account: string
    /** Every group look-up of this sync, in order. */
    ghost var attempts: seq<Attempt>
    /** App groups that were taken for no app group. */
    ghost var misjudged: set<string>

    constructor (okta: Okta, ss: SessionStore, settings: Settings, account: string)
      ensures this.okta == okta && this.ss == ss && this.settings == settings && this.account == account
      ensures attempts == [] && misjudged == {}
    {
      this.okta, this.ss, this.settings, this.account := okta, ss, settings, account;
      attempts, misjudged := [], {};
    }

    ghost predicate Sound()
      reads this, okta, ss
    {
      CacheSound(okta.dir, ss.cache, misjudged)
    }

    ghost predicate Stable()
      reads this, okta
    {
      ValidWorld(okta.Snapshot())
    }

    ghost predicate InUserPhase()
      reads this, okta, ss
    {
      UserPhase(okta.Snapshot(), ss.keeping, ss.cache, okta.requests, misjudged, attempts)
    }

    /** Groups that are not read on anybody's behalf as things stand. */
    ghost function Spared(): set<string>
      reads this, okta, ss
    {
      if InUserPhase() then DeniedGroups(okta.Snapshot(), ss.keeping) else {}
    }

    /** No listed record keeps a page of either phase from being read. */
    ghost predicate PagesReadable()
      reads okta
    {
      CleanBut(okta.dir, settings, okta.dir.groups.Keys)
    }

    method GetAWSApplicationConfig() returns (r: Result<Settings>)
      ensures r.Ok? ==> r.value == settings
      ensures !okta.flaky ==> r.Ok?
    {
      var up := okta.Reach();
      return if up then Ok(settings) else Err;
    }

    /** The roles of one group, from the session store when it knows, else from Okta. */
    method GetOktaAppGroupFromCacheOrFetch(groupId: string) returns (r: Result<Option<AppGroupWrapper>>)
      requires Stable() && Sound()
      modifies ss, okta`requests, `misjudged
      ensures Sound()
      ensures misjudged == old(misjudged) || misjudged == old(misjudged) + {groupId}
      // The answer is Okta's own, except about a misjudged group.
      ensures r.Ok? ==> Verdict(r.value) == Direct(okta.dir, groupId) || (r.value.None? && groupId in misjudged)
      // A group becomes misjudged only through a present ID set that lacks it.
      ensures groupId in misjudged && groupId !in old(misjudged) ==>
                && r == Ok(None) && groupId !in ss.cache.appGroup
                && old(ss.cache).appGroupIDSet.Some? && !InIDSet(old(ss.cache).appGroupIDSet.value, groupId)
      // On a steady store the answer, what is remembered, and whether Okta is asked, are known.
      ensures ss.keeping.steady && r.Ok? ==> Verdict(r.value) == Answer(okta.dir, old(ss.cache), groupId)
      ensures ss.keeping.steady ==>
                ss.cache == if r.Ok? then AfterLookUp(ss.keeping, okta.dir, old(ss.cache), groupId) else old(ss.cache)
      ensures ss.keeping.steady && !AsksOkta(old(ss.cache), groupId) ==> okta.requests == old(okta.requests)
      ensures ss.keeping.steady && r.Ok? && AsksOkta(old(ss.cache), groupId) ==>
                okta.requests == Requests(old(okta.requests).made + multiset{groupId}, old(okta.requests).conclusive + multiset{groupId})
      ensures old(InUserPhase()) ==> InUserPhase()
      ensures ss.keeping.steady && old(InUserPhase()) && r.Ok? && r.value.Some? ==> !Denied(okta.Snapshot(), ss.keeping, groupId)
      ensures !okta.flaky && ss.keeping.steady && Answer(okta.dir, old(ss.cache), groupId) != Unreadable ==> r.Ok?
    {
      ghost var w, before := okta.Snapshot(), ss.cache;
      if ss.keeping.steady && InUserPhase() && Answer(okta.dir, ss.cache, groupId).AppRoles? {
        HeardAreNotDenied(w, ss.keeping, ss.cache, okta.requests, misjudged, attempts, groupId);
      }
      var config := GetAWSApplicationConfig();
      if config.Err? {
        return Err;
      }
      var cached := ss.GetAppGroupFromCache(groupId);
      AgeIsHarmless(w, ss.keeping, before, ss.cache, okta.requests, misjudged, attempts);
      if cached.Err? {
        return Err;
      }
      if cached.value.Some? {
        return cached;
      }
      ghost var looked := ss.cache;
      var notAnAppGroup := ss.CheckIfNotAppGroupFromCache(groupId);
      AgeIsHarmless(w, ss.keeping, looked, ss.cache, okta.requests, misjudged, attempts);
      if notAnAppGroup.Err? {
        return Err;
      }
      if notAnAppGroup.value {
        return Ok(None);
      }

      // A present ID set without this group settles the matter without a call. A missing or
      // unreadable set settles nothing.
      looked := ss.cache;
      var idSet := ss.GetAppGroupIDSet();
      AgeIsHarmless(w, ss.keeping, looked, ss.cache, okta.requests, misjudged, attempts);
      if idSet.Ok? && idSet.value.Some? && !InIDSet(idSet.value.value, groupId) {
        SettleByIDSet(groupId);
        return Ok(None);
      }
      r := FetchAppGroup(groupId);
    }

    /** The ID set says the group is none of the app's; remember the verdict. */
    method SettleByIDSet(groupId: string)
      requires Stable() && Sound()
      requires groupId !in ss.cache.appGroup && DeniedByIDSet(ss.cache, groupId)
      modifies ss, `misjudged
      ensures Sound()
      ensures misjudged == old(misjudged) + if groupId in okta.dir.groups then {groupId} else {}
      ensures SubMap(ss.cache.appGroup, old(ss.cache).appGroup)
      ensures ss.keeping.steady ==> ss.cache == old(ss.cache).(notAppGroup := old(ss.cache).notAppGroup[groupId := true])
      ensures old(InUserPhase()) ==> InUserPhase()
    {
      ghost var before, blind, phase := ss.cache, misjudged, InUserPhase();
      if groupId in okta.dir.groups {
        misjudged := misjudged + {groupId};
      }
      var written := ss.SetNotAppGroupInCache(groupId, true);
      VerdictKeepsSound(okta.dir, before, ss.cache, groupId, blind, misjudged);
      if phase {
        VerdictKeepsUserPhase(okta.Snapshot(), ss.keeping, before, ss.cache, groupId, okta.requests, blind, misjudged, attempts);
      }
    }

    /** Asks Okta about one group and remembers a conclusive answer. */
    method FetchAppGroup(groupId: string) returns (r: Result<Option<AppGroupWrapper>>)
      requires Stable() && Sound()
      requires ss.keeping.steady ==> AsksOkta(ss.cache, groupId)
      modifies ss, okta`requests
      ensures Sound()
      ensures r.Ok? ==> Verdict(r.value) == Direct(okta.dir, groupId)
      ensures old(InUserPhase()) ==> InUserPhase()
      ensures ss.keeping.steady ==>
                ss.cache == if r.Ok? then AfterLookUp(ss.keeping, okta.dir, old(ss.cache), groupId) else old(ss.cache)
      ensures okta.requests == Requests(old(okta.requests).made + multiset{groupId},
                                        old(okta.requests).conclusive + if r.Ok? then multiset{groupId} else multiset{})
      ensures !okta.flaky && Direct(okta.dir, groupId) != Unreadable ==> r.Ok?
    {
      ghost var w, before, requests, phase := okta.Snapshot(), ss.cache, okta.requests, InUserPhase();
      var reply := okta.GetApplicationGroupAssignment(groupId);
      if reply.Failed? {
        if phase {
          RequestKeepsUserPhase(w, ss.keeping, before, groupId, requests, okta.requests, misjudged, attempts);
        }
        return Err;
      } else if reply.NotFound? {
        var written := ss.SetNotAppGroupInCache(groupId, true);
        VerdictKeepsSound(okta.dir, before, ss.cache, groupId, misjudged, misjudged);
        if phase {
          AbsenceKeepsUserPhase(w, ss.keeping, before, ss.cache, groupId, requests, okta.requests, misjudged, attempts);
        }
        return Ok(None);
      }
      var roles := GetSamlRoles(reply.value.profile);
      if roles.Err? {
        if phase {
          RequestKeepsUserPhase(w, ss.keeping, before, groupId, requests, okta.requests, misjudged, attempts);
        }
        return Err;
      }
      var wrapper := AppGroupWrapper(roles.value);
      var written := ss.SetAppGroupInCache(groupId, wrapper);
      RolesKeepSound(okta.dir, before, ss.cache, groupId, wrapper, misjudged);
      if phase {
        RolesKeepUserPhase(w, ss.keeping, before, ss.cache, groupId, wrapper, requests, okta.requests, misjudged, attempts);
      }
      return Ok(Some(wrapper));
    }

    /** Lists a user's groups and puts their IDs in walk order. */
    method SortedUserGroups(userID: string) returns (r: Result<seq<string>>)
      ensures r.Ok? ==> userID in okta.dir.members && r.value == GroupsOf(okta.dir, userID)
      ensures !okta.flaky && userID in okta.dir.members ==> r.Ok?
    {
      var userGroups := okta.ListUserGroups(userID);
      if userGroups.Err? {
        return Err;
      }
      var groupIDs: seq<string> := [];
      for i := 0 to |userGroups.value|
        invariant groupIDs == PresentIds(userGroups.value[..i])
      {
        assert userGroups.value[..i + 1][..i] == userGroups.value[..i];
        if userGroups.value[i].Some? {
          groupIDs := groupIDs + [userGroups.value[i].value];
        }
      }
      assert userGroups.value[..|userGroups.value|] == userGroups.value;
      WalkOrderIsCanonical(userGroups.value, okta.dir.members[userID]);
      return Ok(SortStrings(groupIDs));
    }

    /** Collects roles over a user's groups in walk order from `startIdx`. A failed look-up after
        some progress stops the walk there; without progress it is an error. */
    method CollectRolesFromUserGroups(userID: string, startIdx: int) returns (r: Result<(set<string>, int)>)
      requires Stable() && Sound()
      modifies ss, okta`requests, `attempts, `misjudged
      ensures Sound() && old(misjudged) <= misjudged
      ensures old(InUserPhase()) ==> InUserPhase()
      ensures r.Ok? ==> userID in okta.dir.members && 0 <= startIdx
      ensures r.Ok? && startIdx > |GroupsOf(okta.dir, userID)| ==> r.value == ({}, -1) && attempts == old(attempts)
      ensures r.Ok? && startIdx <= |GroupsOf(okta.dir, userID)| ==>
                WalkOutcome(okta.dir, userID, GroupsOf(okta.dir, userID), startIdx, r.value.0, r.value.1,
                            misjudged, old(attempts), attempts)
      // An error means no group was answered: nothing collected is thrown away.
      ensures r.Err? ==> attempts == old(attempts) || FailedAtOnce(userID, GroupsOf(okta.dir, userID), startIdx, old(attempts), attempts)
      ensures !okta.flaky && ss.keeping.steady && Walkable(okta.dir, userID, old(Spared())) && 0 <= startIdx ==>
                r.Ok? && r.value.1 == -1
    {
      var listed := SortedUserGroups(userID);
      if listed.Err? {
        return Err;
      }
      if startIdx > |listed.value| {
        return Ok(({}, -1));
      } else if startIdx < 0 {
        return Err;
      }
      forall g ensures g in listed.value <==> BelongsTo(okta.dir, userID, g) {
        GroupsOfMembers(okta.dir, userID, g);
      }
      r := WalkFrom(userID, listed.value, startIdx);
    }

    /** The walk itself. */
    method WalkFrom(userID: string, groupIDs: seq<string>, startIdx: nat) returns (r: Result<(set<string>, int)>)
      requires Stable() && Sound() && startIdx <= |groupIDs|
      modifies ss, okta`requests, `attempts, `misjudged
      ensures Sound() && old(misjudged) <= misjudged
      ensures old(InUserPhase()) ==> InUserPhase()
      ensures r.Ok? ==> WalkOutcome(okta.dir, userID, groupIDs, startIdx, r.value.0, r.value.1, misjudged, old(attempts), attempts)
      ensures r.Err? ==> FailedAtOnce(userID, groupIDs, startIdx, old(attempts), attempts)
      ensures (!okta.flaky && ss.keeping.steady
               && forall g :: g in groupIDs ==> Direct(okta.dir, g) != Unreadable || g in old(Spared()))
              ==> r.Ok? && r.value.1 == -1
    {
      var roles: set<string> := {};
      ghost var walked: seq<Attempt> := [];
      WalkBegins(okta.dir, userID, groupIDs, startIdx, misjudged);
      var i := startIdx;
      while i < |groupIDs|
        invariant Sound() && old(misjudged) <= misjudged
        invariant old(InUserPhase()) ==> InUserPhase()
        invariant WalkedTo(okta.dir, userID, groupIDs, startIdx, i, roles, misjudged, walked)
        invariant attempts == old(attempts) + walked
      {
        var failed, more, asked := TakeGroup(userID, groupIDs, startIdx, i, roles, walked);
        if failed {
          if i == startIdx {
            return Err;
          }
          WalkStops(okta.dir, userID, groupIDs, startIdx, roles, i, misjudged, old(attempts), walked, attempts);
          return Ok((roles, i));
        }
        roles := more;
        walked := walked + [asked];
        i := i + 1;
      }
      WalkStops(okta.dir, userID, groupIDs, startIdx, roles, -1, misjudged, old(attempts), walked, attempts);
      return Ok((roles, -1));
    }

    /** Looks up the group at position `i` and adds its roles. */
    method TakeGroup(userID: string, groupIDs: seq<string>, startIdx: nat, i: nat, roles: set<string>, ghost walked: seq<Attempt>)
      returns (failed: bool, more: set<string>, ghost asked: Attempt)
      requires Stable() && Sound()
      requires i < |groupIDs| && WalkedTo(okta.dir, userID, groupIDs, startIdx, i, roles, misjudged, walked)
      modifies ss, okta`requests, `attempts, `misjudged
      ensures Sound() && old(misjudged) <= misjudged
      ensures old(InUserPhase()) ==> InUserPhase()
      ensures attempts == old(attempts) + [asked]
      ensures failed ==> asked == Attempt(userID, groupIDs[i], Err)
                         && WalkedTo(okta.dir, userID, groupIDs, startIdx, i, roles, misjudged, walked)
      ensures !failed ==> WalkedTo(okta.dir, userID, groupIDs, startIdx, i + 1, more, misjudged, walked + [asked])
      ensures (!okta.flaky && ss.keeping.steady
               && (Direct(okta.dir, groupIDs[i]) != Unreadable || groupIDs[i] in old(Spared()))) ==> !failed
    {
      ghost var blind, phase := misjudged, InUserPhase();
      if ss.keeping.steady && groupIDs[i] in Spared() {
        DeniedAnswers(okta.Snapshot(), ss.keeping, ss.cache, okta.requests, misjudged, attempts, groupIDs[i]);
      }
      var appGroup := GetOktaAppGroupFromCacheOrFetch(groupIDs[i]);
      asked := Attempt(userID, groupIDs[i], AnswerOf(appGroup));
      if phase {
        AnswerKeepsUserPhase(okta.Snapshot(), ss.keeping, ss.cache, okta.requests, misjudged, attempts, asked);
      }
      attempts := attempts + [asked];
      ExtendedBlindness(okta.dir, userID, groupIDs, startIdx, i, roles, blind, misjudged, walked);
      failed, more := appGroup.Err?, roles;
      if appGroup.Ok? {
        if appGroup.value.Some? {
          more := roles + ToSet(appGroup.value.value.samlRoles);
        }
        WalkOneMore(okta.dir, userID, groupIDs, startIdx, i, roles, more, blind, misjudged, walked, asked);
      }
    }

    /** One page of the group phase. */
    method GroupGrants(page: Token) returns (r: Result<seq<Grant>>, next: Token)
      requires Stable() && Sound()
      modifies ss
      ensures Sound()
      ensures r.Ok? ==> PageNumber(page).Some?
                        && GroupPageReported(okta.Snapshot(), settings, account, PageNumber(page).value, r.value, next)
      ensures !settings.useGroupMapping && CollectedBefore(old(ss.cache), page)
              ==> Collected(okta.Snapshot(), ss.keeping, ss.cache, PageNumber(page).value + if r.Ok? then 1 else 0)
      ensures (!okta.flaky && PagesReadable() && PageNumber(page).Some?
               && PageNumber(page).value < GroupPageCount(okta.Snapshot(), settings)) ==> r.Ok?
    {
      var config := GetAWSApplicationConfig();
      if config.Err? {
        return Err, Empty;
      }
      if settings.useGroupMapping {
        r, next := MappedGroupGrants(page);
      } else {
        r, next := AssignedGroupGrants(page);
      }
    }

    /** Whether a cache has the pages before `page` collected. */
    ghost predicate CollectedBefore(c: Cache, page: Token)
      reads okta
    {
      PageNumber(page).Some? && Collected(okta.Snapshot(), ss.keeping, c, PageNumber(page).value)
    }

    /** Group mapping: any Okta group whose name stands for a role of this account. */
    method MappedGroupGrants(page: Token) returns (r: Result<seq<Grant>>, next: Token)
      requires Stable() && settings.useGroupMapping
      ensures r.Ok? ==> PageNumber(page).Some?
                        && GroupPageReported(okta.Snapshot(), settings, account, PageNumber(page).value, r.value, next)
      // A filter that does not compile is an error as soon as there is a group to match.
      ensures r.Ok? && settings.roleRegex.BadRegex? ==>
                forall og :: og in okta.listing.orgPages[PageNumber(page).value] ==> og.id.None? || og.name.None?
      ensures (!okta.flaky && PagesReadable() && PageNumber(page).Some?
               && PageNumber(page).value < GroupPageCount(okta.Snapshot(), settings)) ==> r.Ok?
    {
      var listed;
      listed, next := okta.ListGroups(page);
      if listed.Err? {
        return Err, Empty;
      }
      var groups := listed.value;
      ghost var share := MappedShare(settings, account);
      var rv: seq<Grant> := [];
      for i := 0 to |groups|
        invariant Emits(rv) == Gather(ToSet(groups[..i]), share)
        invariant settings.roleRegex.BadRegex? ==> forall j :: 0 <= j < i ==> groups[j].id.None? || groups[j].name.None?
      {
        GatherPrefix(groups, i, share);
        PageKeysAreListed(okta.listing.orgPages, PageNumber(page).value);
        var group := groups[i];
        if group.name.None? || group.id.None? {
          continue;
        }
        var parsed := ParseAccountIDAndRoleFromGroupName(settings.roleRegex, group.name.value);
        if parsed.Err? {
          return Err, Empty;
        }
        if parsed.value.None? || parsed.value.value.0 != account {
          continue;
        }
        var grant := Grant(account, Group(group.id.value), parsed.value.value.1, true);
        EmitsOneMore(rv, grant);
        rv := rv + [grant];
      }
      assert groups[..|groups|] == groups;
      return Ok(rv), next;
    }

    /** Group assignments: report each group's roles, and remember them and the group's ID. */
    method AssignedGroupGrants(page: Token) returns (r: Result<seq<Grant>>, next: Token)
      requires Stable() && Sound() && !settings.useGroupMapping
      modifies ss
      ensures Sound()
      ensures r.Ok? ==> PageNumber(page).Some?
                        && GroupPageReported(okta.Snapshot(), settings, account, PageNumber(page).value, r.value, next)
      ensures CollectedBefore(old(ss.cache), page)
              ==> Collected(okta.Snapshot(), ss.keeping, ss.cache, PageNumber(page).value + if r.Ok? then 1 else 0)
      ensures (!okta.flaky && PagesReadable() && PageNumber(page).Some?
               && PageNumber(page).value < GroupPageCount(okta.Snapshot(), settings)) ==> r.Ok?
    {
      ghost var before := ss.cache;
      var listed;
      listed, next := okta.ListApplicationGroupAssignments(page);
      if listed.Err? {
        return Err, Empty;
      }
      ghost var k := PageNumber(page).value;
      var read, rv, appGroupIDs := ReportAppGroups(listed.value, okta.listing.groupPages[k]);
      ghost var cached := ss.cache;
      if !read {
        if CollectedBefore(before, page) {
          CollectionSurvives(okta.Snapshot(), ss.keeping, before, cached, appGroupIDs, k);
        }
        return Err, Empty;
      }
      assert page == Empty && next == Empty <==> |okta.listing.groupPages| == 1;
      RememberIDs(appGroupIDs, page == Empty && next == Empty);
      if CollectedBefore(before, page) {
        CollectionAdvances(okta.Snapshot(), ss.keeping, before, cached, ss.cache, appGroupIDs, k);
      }
      return Ok(rv), next;
    }

    /** Adds a page's IDs to the stored set, unless the whole listing is one small page. A failed
        write is only logged. */
    method RememberIDs(appGroupIDs: seq<string>, isSinglePage: bool)
      requires Sound()
      modifies ss
      ensures Sound()
      ensures Remembered(ss.keeping, old(ss.cache), ss.cache, appGroupIDs, isSinglePage)
    {
      if CollectsPage(appGroupIDs, isSinglePage) {
        var stored := ss.AppendToAppGroupIDSet(appGroupIDs);
      }
    }

    /** The app groups of one page: their grants, and the IDs seen. An unreadable profile stops it. */
    method ReportAppGroups(appGroups: seq<AppGroup>, ghost keys: seq<string>)
      returns (read: bool, rv: seq<Grant>, appGroupIDs: seq<string>)
      requires Sound() && ValidDirectory(okta.dir)
      requires (forall g :: g in keys ==> g in okta.dir.groups) && appGroups == GroupRecords(okta.dir, keys)
      modifies ss
      ensures Sound()
      ensures PageCached(ss.keeping, old(ss.cache), ss.cache, appGroupIDs)
      ensures read ==> appGroupIDs == PageIDs(okta.dir, keys)
      ensures forall g :: g in appGroupIDs ==> Identified(okta.dir, g)
      ensures read ==> Emits(rv) == Gather(ToSet(keys), GroupShare(okta.dir, settings, account))
      ensures !settings.useGroupMapping && PagesReadable() ==> read
    {
      ghost var share := GroupShare(okta.dir, settings, account);
      rv, appGroupIDs := [], [];
      for i := 0 to |appGroups|
        invariant Sound()
        invariant appGroupIDs == PageIDs(okta.dir, keys[..i])
        invariant forall g :: g in appGroupIDs ==> Identified(okta.dir, g)
        invariant PageCached(ss.keeping, old(ss.cache), ss.cache, appGroupIDs)
        invariant Emits(rv) == Gather(ToSet(keys[..i]), share)
      {
        GatherPrefix(keys, i, share);
        assert keys[..i + 1][..i] == keys[..i];
        var appGroup := appGroups[i];
        if appGroup.id.None? {
          continue;
        }
        var samlRoles := GetSamlRoles(appGroup.profile);
        if samlRoles.Err? {
          return false, rv, appGroupIDs;
        }
        ghost var cached := ss.cache;
        CacheRoles(appGroup.id.value, samlRoles.value);
        CachedOneMore(ss.keeping, old(ss.cache), cached, ss.cache, appGroupIDs, appGroup.id.value);
        appGroupIDs := appGroupIDs + [appGroup.id.value];
        rv := AppendGroupGrants(rv, appGroup.id.value, samlRoles.value);
      }
      assert keys[..|keys|] == keys;
      return true, rv, appGroupIDs;
    }

    /** Remembers one group's roles; a failed write is ignored. */
    method CacheRoles(groupId: string, roles: seq<string>)
      requires Sound() && Direct(okta.dir, groupId) == AppRoles(roles)
      modifies ss
      ensures Sound()
      ensures PageCached(ss.keeping, old(ss.cache), ss.cache, [groupId])
    {
      ghost var before := ss.cache;
      var written := ss.SetAppGroupInCache(groupId, AppGroupWrapper(roles));
      RolesKeepSound(okta.dir, before, ss.cache, groupId, AppGroupWrapper(roles), misjudged);
    }

    /** One grant a role, expandable to the group's members when all roles are joined. */
    method AppendGroupGrants(grants: seq<Grant>, groupId: string, roles: seq<string>) returns (rv: seq<Grant>)
      ensures Emits(rv) == Emits(grants) + RoleGrants(account, Group(groupId), roles, settings.joinAllRoles)
    {
      rv := grants;
      for j := 0 to |roles|
        invariant Emits(rv) == Emits(grants) + RoleGrants(account, Group(groupId), roles[..j], settings.joinAllRoles)
      {
        RoleGrantsPrefix(account, Group(groupId), roles, settings.joinAllRoles, j);
        var grant := Grant(account, Group(groupId), roles[j], settings.joinAllRoles);
        EmitsOneMore(rv, grant);
        rv := rv + [grant];
      }
      assert roles[..|roles|] == roles;
    }

    /** One call of the user phase: either one page of users, or one stretch of one user's walk. */
    method UserGrants(page: Token) returns (r: Result<seq<Grant>>, next: Token, ghost delivered: set<Item>)
      requires Stable() && Sound()
      modifies ss, okta`requests, `attempts, `misjudged
      ensures Sound() && old(misjudged) <= misjudged && old(attempts) <= attempts
      ensures old(InUserPhase()) ==> InUserPhase()
      ensures r.Err? ==> AnsweredOnly(attempts[|old(attempts)|..]) == []
      ensures r.Ok? ==>
                && StackOf(page).Ok? && (next.Empty? || next.Stack?)
                && UserStepDone(okta.Snapshot(), settings, account, misjudged, UserStackOf(page), StackOf(next).value,
                                r.value, delivered, attempts[|old(attempts)|..])
      ensures (!okta.flaky && ss.keeping.steady && !settings.useGroupMapping
               && CleanBut(okta.dir, settings, old(Spared())) && (page.Empty? || page.Stack?)
               && ReachableUserStack(okta.Snapshot(), settings, UserStackOf(page)))
              ==> r.Ok?
    {
      delivered := {};
      var config := GetAWSApplicationConfig();
      if config.Err? {
        return Err, Empty, {};
      }
      var opening := OpenUserStack(page);
      if opening.Err? {
        return Err, Empty, {};
      }
      var bag := opening.value;
      if bag.Current().value.resourceID != "" {
        r, delivered := ResumeWalk(bag);
      } else {
        r, delivered := FetchUserPage(bag);
        assert attempts[|old(attempts)|..] == [];
      }
      TokenRoundTrip(bag.Contents());
      next := bag.Marshal();
    }

    /** The inner stack a call works on: the one in the token, or a new one with the first page. */
    method OpenUserStack(page: Token) returns (r: Result<Bag>)
      ensures r.Ok? ==> fresh(r.value) && r.value.Valid() && r.value.Contents() == UserStackOf(page)
      ensures r.Ok? <==> StackOf(page).Ok?
    {
      var bag := new Bag();
      var parsed := bag.Unmarshal(page);
      if parsed.Err? {
        return Err;
      }
      if bag.Current().None? {
        bag.Push(FIRST_USER_PAGE);
      }
      return Ok(bag);
    }

    /** Continues the walk on top of the stack. */
    method ResumeWalk(bag: Bag) returns (r: Result<seq<Grant>>, ghost delivered: set<Item>)
      requires Stable() && Sound()
      requires bag.Valid() && bag.Contents() != [] && bag.Contents()[|bag.Contents()| - 1].resourceID != ""
      modifies ss, okta`requests, `attempts, `misjudged, bag
      ensures Sound() && old(misjudged) <= misjudged && old(attempts) <= attempts && bag.Valid()
      ensures old(InUserPhase()) ==> InUserPhase()
      ensures r.Err? ==> AnsweredOnly(attempts[|old(attempts)|..]) == []
      ensures r.Ok? ==> UserStepDone(okta.Snapshot(), settings, account, misjudged, old(bag.Contents()), bag.Contents(),
                                     r.value, delivered, attempts[|old(attempts)|..])
      ensures (!okta.flaky && ss.keeping.steady && !settings.useGroupMapping
               && CleanBut(okta.dir, settings, old(Spared()))
               && ReachableUserStack(okta.Snapshot(), settings, old(bag.Contents())))
              ==> r.Ok?
    {
      delivered := {};
      var current := bag.Current().value;
      ghost var below := bag.Contents()[..|bag.Contents()| - 1];
      assert bag.Contents() == below + [current];
      var collected, startIdx := WalkOn(current, below);
      if collected.Err? {
        return Err, {};
      }
      var rv;
      rv, delivered := HandOver(bag, current.resourceID, startIdx, collected.value.0, collected.value.1, below, current, old(attempts));
      return Ok(rv), delivered;
    }

    /** The next stretch of the walk a user state stands for, from the position in its token. */
    method WalkOn(current: PageState, ghost below: seq<PageState>) returns (r: Result<(set<string>, int)>, startIdx: int)
      requires Stable() && Sound() && current.resourceID != ""
      modifies ss, okta`requests, `attempts, `misjudged
      ensures Sound() && old(misjudged) <= misjudged
      ensures old(InUserPhase()) ==> InUserPhase()
      ensures r.Err? ==> old(attempts) <= attempts && AnsweredOnly(attempts[|old(attempts)|..]) == []
      ensures r.Ok? ==>
                var groups := GroupsOf(okta.dir, current.resourceID);
                && current.resourceID in okta.dir.members && 0 <= startIdx && StartIndex(current.token) == Some(startIdx)
                && (startIdx <= |groups| ==> WalkOutcome(okta.dir, current.resourceID, groups, startIdx, r.value.0, r.value.1,
                                                         misjudged, old(attempts), attempts))
                && (startIdx > |groups| ==> r.value == ({}, -1) && attempts == old(attempts))
      ensures (!okta.flaky && ss.keeping.steady && !settings.useGroupMapping
               && CleanBut(okta.dir, settings, old(Spared()))
               && ReachableUserStack(okta.Snapshot(), settings, below + [current]))
              ==> r.Ok?
    {
      if !settings.useGroupMapping && CleanBut(okta.dir, settings, Spared())
         && ReachableUserStack(okta.Snapshot(), settings, below + [current]) {
        ClearWalk(okta.Snapshot(), settings, Spared(), below, current);
      }
      startIdx := 0;
      if current.token != Empty {
        if !current.token.Index? {
          return Err, 0;
        }
        startIdx := current.token.index;
      }
      r := CollectRolesFromUserGroups(current.resourceID, startIdx);
    }

    /** Reports the roles of a stretch and keeps the user's place. */
    method HandOver(bag: Bag, userID: string, startIdx: nat, roles: set<string>, nextIdx: int,
                    ghost below: seq<PageState>, ghost current: PageState, ghost before: seq<Attempt>)
      returns (rv: seq<Grant>, ghost delivered: set<Item>)
      requires bag.Valid() && bag.Contents() == below + [current] && current.resourceID == userID
      requires userID != "" && userID in okta.dir.members && StartIndex(current.token) == Some(startIdx)
      requires startIdx <= |GroupsOf(okta.dir, userID)| ==>
                 WalkOutcome(okta.dir, userID, GroupsOf(okta.dir, userID), startIdx, roles, nextIdx, misjudged, before, attempts)
      requires startIdx > |GroupsOf(okta.dir, userID)| ==> roles == {} && nextIdx == -1 && attempts == before
      modifies bag
      ensures bag.Valid() && before <= attempts
      ensures UserStepDone(okta.Snapshot(), settings, account, misjudged, below + [current], bag.Contents(), rv, delivered,
                           attempts[|before|..])
    {
      rv := UserRoleGrants(userID, roles);
      KeepPlace(bag, userID, nextIdx);
      assert (below + [current])[..|below|] == below;
      delivered := WalkStep(okta.Snapshot(), settings, account, misjudged, below, current, startIdx, nextIdx, roles,
                            before, attempts, rv);
    }

    /** Pops the user just walked and, when unfinished, pushes it back with the position reached. */
    method KeepPlace(bag: Bag, userID: string, nextIdx: int)
      requires bag.Valid() && bag.Contents() != []
      modifies bag
      ensures bag.Valid()
      ensures bag.Contents() == AfterWalk(old(bag.Contents())[..|old(bag.Contents())| - 1], userID, nextIdx)
    {
      var popped := bag.Pop();
      assert old(bag.Contents())[..|old(bag.Contents())| - 1] == bag.Contents();
      if nextIdx >= 0 {
        bag.Push(PageState(Index(nextIdx), "", userID));
      }
    }

    /** One grant for each collected role, in no particular order. */
    method UserRoleGrants(userID: string, roles: set<string>) returns (rv: seq<Grant>)
      ensures Emits(rv) == set r | r in roles :: Emit(Grant(account, User(userID), r, false))
    {
      rv := [];
      var rest := roles;
      while rest != {}
        invariant rest <= roles
        invariant Emits(rv) == set r | r in roles - rest :: Emit(Grant(account, User(userID), r, false))
      {
        var samlRole :| samlRole in rest;
        var grant := Grant(account, User(userID), samlRole, false);
        EmitsOneMore(rv, grant);
        rv := rv + [grant];
        rest := rest - {samlRole};
      }
    }

    /** Fetches the next page of users: profile roles are reported at once, walks are stacked. */
    method FetchUserPage(bag: Bag) returns (r: Result<seq<Grant>>, ghost delivered: set<Item>)
      requires Stable()
      requires bag.Valid() && bag.Contents() != [] && bag.Contents()[|bag.Contents()| - 1].resourceID == ""
      modifies bag
      ensures bag.Valid()
      ensures r.Ok? ==> UserStepDone(okta.Snapshot(), settings, account, misjudged, old(bag.Contents()), bag.Contents(),
                                     r.value, delivered, [])
      ensures (!okta.flaky && !settings.useGroupMapping && PagesReadable()
               && ReachableUserStack(okta.Snapshot(), settings, old(bag.Contents())))
              ==> r.Ok?
    {
      delivered := {};
      ghost var below := bag.Contents()[..|bag.Contents()| - 1];
      ghost var current := bag.Current().value;
      assert bag.Contents() == below + [current];
      if ReachableUserStack(okta.Snapshot(), settings, below + [current]) {
        PageOnTop(okta.Snapshot(), settings, below, current);
      }
      var listed, nextOktaPage := okta.ListApplicationUsers(bag.PageToken());
      if listed.Err? {
        return Err, {};
      }
      ghost var k := PageNumber(current.token).value;
      TurnPage(bag, nextOktaPage);
      assert bag.Contents() == below + PagePart(okta.Snapshot(), k + 1);
      r := ReportUsers(bag, listed.value, okta.listing.userPages[k]);
      if r.Ok? {
        delivered := Emits(r.value);
        FetchStep(okta.Snapshot(), settings, account, misjudged, below, current, k, bag.Contents(), r.value);
      }
    }

    /** Pops the page state just served and, when there is a next page, pushes that one's. */
    method TurnPage(bag: Bag, nextOktaPage: Token)
      requires bag.Valid() && bag.Contents() != []
      modifies bag
      ensures bag.Valid()
      ensures bag.Contents() == old(bag.Contents())[..|old(bag.Contents())| - 1]
                                + if nextOktaPage == Empty then [] else [PageState(nextOktaPage, "", "")]
    {
      var popped := bag.Pop();
      assert old(bag.Contents())[..|old(bag.Contents())| - 1] == bag.Contents();
      if nextOktaPage != Empty {
        bag.Push(PageState(nextOktaPage, "", ""));
      }
    }

    /** The users of one page. */
    method ReportUsers(bag: Bag, appUsers: seq<AppUser>, ghost keys: seq<string>) returns (r: Result<seq<Grant>>)
      requires bag.Valid() && ValidDirectory(okta.dir)
      requires (forall u :: u in keys ==> u in okta.dir.users) && appUsers == UserRecords(okta.dir, keys)
      modifies bag
      ensures bag.Valid()
      ensures r.Ok? ==> PageProgress(okta.Snapshot(), settings, account, old(bag.Contents()), keys, |keys|,
                                     bag.Contents(), r.value)
      ensures !settings.useGroupMapping && PagesReadable() ==> r.Ok?
    {
      ghost var base := bag.Contents();
      var rv: seq<Grant> := [];
      PageBegins(okta.Snapshot(), settings, account, base, keys);
      for i := 0 to |appUsers|
        invariant bag.Valid()
        invariant PageProgress(okta.Snapshot(), settings, account, base, keys, i, bag.Contents(), rv)
      {
        ghost var stack, before := bag.Contents(), rv;
        assert keys[i] in keys && appUsers[i] == okta.dir.users[keys[i]];
        var reported := ReportUser(bag, appUsers[i], keys[i], rv);
        if reported.Err? {
          return Err;
        }
        rv := reported.value;
        PageOneMore(okta.Snapshot(), settings, account, base, keys, i, stack, before, bag.Contents(), rv);
      }
      return Ok(rv);
    }

    /** One user of a page: skipped, reported from the profile, or stacked for a walk. */
    method ReportUser(bag: Bag, appUser: AppUser, ghost key: string, grants: seq<Grant>) returns (r: Result<seq<Grant>>)
      requires bag.Valid() && ValidDirectory(okta.dir)
      requires key in okta.dir.users && okta.dir.users[key] == appUser
      modifies bag
      ensures bag.Valid()
      ensures r.Ok? ==>
                if WalksGroups(settings, appUser)
                then bag.Contents() == old(bag.Contents()) + [WalkState(key)] && r.value == grants
                else bag.Contents() == old(bag.Contents())
                     && Emits(r.value) == Emits(grants) + UserItems(okta.dir, settings, account, key)
      // The only error is a garbled profile that counts.
      ensures r.Err? <==>
                && appUser.id.Some? && Garbled(appUser.profile)
                && (appUser.scope == Some("USER") || (appUser.scope == Some("GROUP") && settings.samlRolesUnionEnabled))
    {
      if appUser.id.None? || appUser.scope.None? {
        return Ok(grants);
      }
      if appUser.scope.value == USER_SCOPE || (appUser.scope.value == GROUP_SCOPE && settings.samlRolesUnionEnabled) {
        var samlRoles := GetSamlRoles(appUser.profile);
        if samlRoles.Err? {
          return Err;
        }
        var rv := AppendUserGrants(grants, appUser.id.value, samlRoles.value);
        return Ok(rv);
      }
      if appUser.scope.value == GROUP_SCOPE && !settings.joinAllRoles && !settings.samlRolesUnionEnabled {
        bag.Push(PageState(Empty, "", appUser.id.value));
      }
      return Ok(grants);
    }

    /** One grant for each role of a user's own profile. */
    method AppendUserGrants(grants: seq<Grant>, userID: string, roles: seq<string>) returns (rv: seq<Grant>)
      ensures Emits(rv) == Emits(grants) + RoleGrants(account, User(userID), roles, false)
    {
      rv := grants;
      for j := 0 to |roles|
        invariant Emits(rv) == Emits(grants) + RoleGrants(account, User(userID), roles[..j], false)
      {
        RoleGrantsPrefix(account, User(userID), roles, false, j);
        var grant := Grant(account, User(userID), roles[j], false);
        EmitsOneMore(rv, grant);
        rv := rv + [grant];
      }
      assert roles[..|roles|] == roles;
    }

    /** Whether the store is where the next token needs it to be. */
    ghost predicate InPhase(stack: seq<PageState>)
      reads this, okta, ss
    {
      && StackShape(okta.Snapshot(), settings, stack)
      && PhaseHolds(okta.Snapshot(), settings, ss.keeping, ss.cache, okta.requests, misjudged, attempts, stack)
    }

    /** A stack whose top state nothing in the directory keeps from being worked on. */
    ghost predicate Clear(stack: seq<PageState>)
      reads this, okta, ss
    {
      && stack != [] && StackShape(okta.Snapshot(), settings, stack)
      && if stack[|stack| - 1].resourceTypeID == USER_TYPE then CleanBut(okta.dir, settings, Spared()) else PagesReadable()
    }

    /** One call of the resumable grant sync. */
    method Grants(token: Token) returns (r: Result<seq<Grant>>, nextToken: Token, ghost delivered: set<Item>)
      requires Stable() && Sound()
      modifies ss, okta`requests, `attempts, `misjudged
      ensures Sound() && old(misjudged) <= misjudged && old(attempts) <= attempts
      ensures r.Err? ==> AnsweredOnly(attempts[|old(attempts)|..]) == []
      ensures r.Ok? ==>
                && StackOf(nextToken).Ok?
                && StepDone(okta.Snapshot(), settings, account, misjudged, WorkingStack(settings, token),
                            StackOf(nextToken).value, r.value, delivered, attempts[|old(attempts)|..])
      // No group is looked up before the users' turn.
      ensures WorkingStack(settings, token)[|WorkingStack(settings, token)| - 1].resourceTypeID != USER_TYPE ==>
                attempts == old(attempts) && okta.requests == old(okta.requests)
      // The next token can be used, and so can the same one again.
      ensures old(InPhase(WorkingStack(settings, token))) ==>
                && InPhase(WorkingStack(settings, token))
                && (r.Ok? ==> InPhase(StackOf(nextToken).value))
      ensures (!okta.flaky && ss.keeping.steady && (token.Empty? || token.Stack?)
               && old(Clear(WorkingStack(settings, token))))
              ==> r.Ok?
    {
      var config := GetAWSApplicationConfig();
      if config.Err? {
        return Err, Empty, {};
      }
      var start := OpenStack(token);
      if start.Err? {
        return Err, Empty, {};
      }
      var bag := start.value;
      ghost var stack := bag.Contents();
      ghost var below, top := stack[..|stack| - 1], stack[|stack| - 1];
      assert stack == below + [top];

      var nextPage;
      r, nextPage, delivered := PhaseCall(below, top, bag.ResourceTypeID(), bag.PageToken());
      if r.Err? {
        return Err, Empty, {};
      }
      nextToken := CloseStack(bag, nextPage);
    }

    /** Moves the top state on and marshals the stack. */
    method CloseStack(bag: Bag, nextPage: Token) returns (token: Token)
      requires bag.Valid() && bag.Contents() != []
      modifies bag
      ensures var stack := old(bag.Contents());
              StackOf(token) == Ok(AfterNext(stack[..|stack| - 1], stack[|stack| - 1], nextPage))
    {
      var advanced := bag.Next(nextPage);
      TokenRoundTrip(bag.Contents());
      token := bag.Marshal();
    }

    /** One page of the phase the top state belongs to; an unknown phase is treated as groups. */
    method PhaseCall(ghost below: seq<PageState>, ghost top: PageState, resourceTypeID: string, page: Token)
      returns (r: Result<seq<Grant>>, nextPage: Token, ghost delivered: set<Item>)
      requires Stable() && Sound() && top.resourceTypeID == resourceTypeID && top.token == page
      modifies ss, okta`requests, `attempts, `misjudged
      ensures Sound() && old(misjudged) <= misjudged && old(attempts) <= attempts
      ensures r.Err? ==> AnsweredOnly(attempts[|old(attempts)|..]) == []
      ensures r.Ok? ==> StepDone(okta.Snapshot(), settings, account, misjudged, below + [top],
                                 AfterNext(below, top, nextPage), r.value, delivered, attempts[|old(attempts)|..])
      ensures resourceTypeID != USER_TYPE ==> attempts == old(attempts) && okta.requests == old(okta.requests)
      ensures old(InPhase(below + [top])) ==>
                InPhase(below + [top]) && (r.Ok? ==> InPhase(AfterNext(below, top, nextPage)))
      ensures !okta.flaky && ss.keeping.steady && old(Clear(below + [top])) ==> r.Ok?
    {
      if resourceTypeID == USER_TYPE {
        r, nextPage, delivered := UserPhaseCall(below, top, page);
      } else {
        r, nextPage, delivered := GroupPhaseCall(below, top, page);
      }
    }

    /** The stack a call works on: the one in the token, or a new one with both phases. */
    method OpenStack(token: Token) returns (r: Result<Bag>)
      ensures r.Ok? ==> fresh(r.value) && r.value.Valid() && r.value.Contents() == WorkingStack(settings, token)
      ensures r.Ok? <==> StackOf(token).Ok?
    {
      var bag := new Bag();
      var parsed := bag.Unmarshal(token);
      if parsed.Err? {
        return Err;
      }
      if bag.Current().None? {
        if !settings.useGroupMapping {
          bag.Push(PageState(Empty, USER_TYPE, ""));
        }
        bag.Push(PageState(Empty, GROUP_TYPE, ""));
      }
      return Ok(bag);
    }

    method UserPhaseCall(ghost below: seq<PageState>, ghost top: PageState, page: Token)
      returns (r: Result<seq<Grant>>, nextPage: Token, ghost delivered: set<Item>)
      requires Stable() && Sound() && top.resourceTypeID == USER_TYPE && top.token == page
      modifies ss, okta`requests, `attempts, `misjudged
      ensures Sound() && old(misjudged) <= misjudged && old(attempts) <= attempts
      ensures r.Err? ==> AnsweredOnly(attempts[|old(attempts)|..]) == []
      ensures r.Ok? ==> StepDone(okta.Snapshot(), settings, account, misjudged, below + [top],
                                 AfterNext(below, top, nextPage), r.value, delivered, attempts[|old(attempts)|..])
      ensures old(InPhase(below + [top])) ==>
                InPhase(below + [top]) && (r.Ok? ==> InPhase(AfterNext(below, top, nextPage)))
      ensures !okta.flaky && ss.keeping.steady && old(Clear(below + [top])) ==> r.Ok?
    {
      ghost var phase := InPhase(below + [top]);
      assert (below + [top])[|below|] == top;
      if StackShape(okta.Snapshot(), settings, below + [top]) {
        UsersOnTop(okta.Snapshot(), settings, ss.keeping, ss.cache, okta.requests, misjudged, attempts, below, top);
      }
      r, nextPage, delivered := UserGrants(page);
      if phase {
        UserStepPhase(okta.Snapshot(), settings, ss.keeping, ss.cache, okta.requests, misjudged, attempts, below, top, nextPage);
      }
      if r.Ok? {
        UserStep(okta.Snapshot(), settings, account, misjudged, below, top, r.value, nextPage, delivered,
                 attempts[|old(attempts)|..]);
      }
    }

    method GroupPhaseCall(ghost below: seq<PageState>, ghost top: PageState, page: Token)
      returns (r: Result<seq<Grant>>, nextPage: Token, ghost delivered: set<Item>)
      requires Stable() && Sound() && top.resourceTypeID != USER_TYPE && top.token == page
      modifies ss
      ensures Sound()
      ensures r.Ok? ==> StepDone(okta.Snapshot(), settings, account, misjudged, below + [top],
                                 AfterNext(below, top, nextPage), r.value, delivered, [])
      ensures old(InPhase(below + [top])) ==>
                InPhase(below + [top]) && (r.Ok? ==> InPhase(AfterNext(below, top, nextPage)))
      ensures !okta.flaky && ss.keeping.steady && old(Clear(below + [top])) ==> r.Ok?
    {
      ghost var before, phase := ss.cache, InPhase(below + [top]);
      delivered := {};
      if StackShape(okta.Snapshot(), settings, below + [top]) {
        GroupOnTop(okta.Snapshot(), settings, below, top);
      }
      r, nextPage := GroupGrants(page);
      if phase {
        GroupStepPhase(okta.Snapshot(), settings, account, ss.keeping, before, ss.cache, okta.requests, misjudged, attempts, below, top,
                       PageNumber(page).value, r, nextPage);
      }
      if r.Ok? {
        delivered := Emits(r.value);
        GroupStep(okta.Snapshot(), settings, account, misjudged, below, top, PageNumber(page).value, r.value, nextPage);
      }
    }
  }
}
