/** Runs of provisioning requests, and provisioning followed by a sync. */
module ProvisioningRuns {
  import opened Base
  import opened Domain
  import opened Sessions
  import opened EntitlementIDs
  import opened ProvisioningSpec
  import opened RequestMeaning
  import opened Provisioning
  import opened ProvisioningLaws
  import opened AccountSync
  import opened SyncRun
  import opened ReportLaws

  datatype Call = GrantCall(resourceType: string, id: string, entitlementID: string)
                | RevokeCall(resourceType: string, id: string, entitlementID: string)

  /** The event a call is after, if it is one that provisioning accepts. */
  function Intended(policy: Policy, c: Call): Event {
    var q := Request(policy, c.resourceType, c.id, c.entitlementID);
    if q.Err? then Nothing
    else if c.GrantCall? then GrantDone(q.value.0, q.value.1) else RevokeDone(q.value.0, q.value.1)
  }

  /** What a call can turn out to have done: an answered call exactly what it was after, a failed
      one that, nothing, or the group assignment only. */
  ghost predicate Explains(policy: Policy, c: Call, r: Result<Outcome>, e: Event) {
    if r.Ok? then e == Intended(policy, c) && e != Nothing
    else || e == Nothing
         || e == Intended(policy, c)
         || (Intended(policy, c).GrantDone? && e == Assignment(Intended(policy, c).p))
  }

  lemma CallIsAnEvent(before: Directory, after: Directory, policy: Policy, c: Call, r: Result<Outcome>) returns (e: Event)
    requires var q := Request(policy, c.resourceType, c.id, c.entitlementID);
             if c.GrantCall? then
               Ends(before, after, if q.Ok? then Assigned(before, policy, q.value.0) else before,
                    GrantRequest(before, policy, c.resourceType, c.id, c.entitlementID), r)
             else
               Ends(before, after, before, RevokeRequest(before, policy, c.resourceType, c.id, c.entitlementID), r)
    ensures Explains(policy, c, r, e) && Possible(before, policy, e) && After(before, policy, e) == after
  {
    var q := Request(policy, c.resourceType, c.id, c.entitlementID);
    if r.Err? && after == before {
      e := Nothing;
    } else if r.Err? && c.GrantCall? && q.Ok? && after == Assigned(before, policy, q.value.0) {
      e := Assignment(q.value.0);
    } else {
      e := Intended(policy, c);
    }
  }

  /** Any history of calls, each of which may fail: it amounts to a possible run of events, one for
      each call, and the role sets are the fold of set insertions and deletions over that run. */
  method RunHistory(provisioner: Provisioner, calls: seq<Call>) returns (results: seq<Result<Outcome>>, ghost events: seq<Event>)
    requires ValidDirectory(provisioner.okta.dir)
    requires forall c :: c in calls ==> c.id != ""
    modifies provisioner.okta`dir, provisioner.okta`requests
    ensures ValidDirectory(provisioner.okta.dir)
    ensures |results| == |events| == |calls|
    ensures forall i :: 0 <= i < |calls| ==> Explains(provisioner.Policy(), calls[i], results[i], events[i])
    ensures PossibleRun(old(provisioner.okta.dir), provisioner.Policy(), events)
    ensures provisioner.okta.dir == AfterAll(old(provisioner.okta.dir), provisioner.Policy(), events)
    ensures forall p :: RoleSet(provisioner.okta.dir, p)
                     == FoldSet(provisioner.Policy(), p, RoleSet(old(provisioner.okta.dir), p), events)
    ensures ScopesKept(provisioner.Policy(), old(provisioner.okta.dir), provisioner.okta.dir)
    ensures OnlyRolesChanged(provisioner.Policy(), events, old(provisioner.okta.dir), provisioner.okta.dir)
  {
    ghost var start, policy := provisioner.okta.dir, provisioner.Policy();
    results, events := [], [];
    for i := 0 to |calls|
      invariant |results| == |events| == i
      invariant ValidDirectory(provisioner.okta.dir)
      invariant forall j :: 0 <= j < i ==> Explains(policy, calls[j], results[j], events[j])
      invariant PossibleRun(start, policy, events) && provisioner.okta.dir == AfterAll(start, policy, events)
    {
      var r, e := OneCall(provisioner, calls[i]);
      RunAppend(start, policy, events, e);
      results, events := results + [r], events + [e];
    }
    forall p ensures RoleSet(provisioner.okta.dir, p) == FoldSet(policy, p, RoleSet(start, p), events) {
      HistoryRefinesSets(start, policy, events, p);
    }
    HistoryChangesOnlyRoles(start, policy, events);
    forall u | u in start.users
      ensures ScopeKept(policy, start, provisioner.okta.dir, u)
    {
      HistoryKeepsScopes(start, policy, events, u);
    }
  }

  /** Direct users stay direct; group-scoped users stay as they are where conversion is not allowed. */
  ghost predicate ScopeKept(policy: Policy, before: Directory, after: Directory, u: string)
    requires u in before.users
  {
    && u in after.users
    && (before.users[u].scope == Some(USER_SCOPE) ==> after.users[u].scope == Some(USER_SCOPE))
    && (before.users[u].scope == Some(GROUP_SCOPE) && !(policy.allowConversion && CanDirectAssign(policy.settings)) ==>
          after.users[u] == before.users[u])
  }

  ghost predicate ScopesKept(policy: Policy, before: Directory, after: Directory) {
    forall u :: u in before.users ==> ScopeKept(policy, before, after, u)
  }

  method OneCall(provisioner: Provisioner, c: Call) returns (r: Result<Outcome>, ghost e: Event)
    requires ValidDirectory(provisioner.okta.dir) && c.id != ""
    modifies provisioner.okta`dir, provisioner.okta`requests
    ensures ValidDirectory(provisioner.okta.dir)
    ensures Explains(provisioner.Policy(), c, r, e)
    ensures (!provisioner.okta.flaky && c.GrantCall?
             && GrantOpen(old(provisioner.okta.dir), provisioner.Policy(), c.resourceType, c.id, c.entitlementID)) ==> r.Ok?
    ensures (!provisioner.okta.flaky && c.RevokeCall?
             && RevokeOpen(old(provisioner.okta.dir), provisioner.Policy(), c.resourceType, c.id, c.entitlementID)) ==> r.Ok?
    ensures c.GrantCall? ==>
              GrantLeaves(old(provisioner.okta.dir), provisioner.okta.dir, provisioner.Policy(), c.resourceType, c.id, c.entitlementID, r)
    ensures c.RevokeCall? ==>
              RevokeLeaves(old(provisioner.okta.dir), provisioner.okta.dir, provisioner.Policy(), c.resourceType, c.id, c.entitlementID, r)
    ensures Possible(old(provisioner.okta.dir), provisioner.Policy(), e)
    ensures provisioner.okta.dir == After(old(provisioner.okta.dir), provisioner.Policy(), e)
  {
    ghost var before, policy := provisioner.okta.dir, provisioner.Policy();
    if c.GrantCall? {
      r := provisioner.Grant(c.resourceType, c.id, c.entitlementID);
    } else {
      r := provisioner.Revoke(c.resourceType, c.id, c.entitlementID);
    }
    e := CallIsAnEvent(before, provisioner.okta.dir, policy, c, r);
    HistoryKeepsValid(before, policy, [e]);
    assert PossibleRun(After(before, policy, e), policy, []);
    assert AfterAll(before, policy, [e]) == After(before, policy, e);
  }

  /** Repeats one grant until it is answered: however it was disturbed on the way, it ends where an
      undisturbed grant ends. */
  method GrantUntilDone(provisioner: Provisioner, resourceType: string, id: string, entitlementID: string, maxCalls: nat)
    returns (done: bool)
    requires ValidDirectory(provisioner.okta.dir) && id != ""
    modifies provisioner.okta`dir, provisioner.okta`requests
    ensures done ==>
              var clean := GrantRequest(old(provisioner.okta.dir), provisioner.Policy(), resourceType, id, entitlementID);
              clean.Ok? && provisioner.okta.dir == clean.value.0
    ensures done ==> exists outcome ::
              GrantAnswer(old(provisioner.okta.dir), provisioner.okta.dir, provisioner.Policy(), resourceType, id, entitlementID, outcome)
    ensures (!provisioner.okta.flaky && maxCalls > 0
             && GrantOpen(old(provisioner.okta.dir), provisioner.Policy(), resourceType, id, entitlementID)) ==> done
    ensures (provisioner.settings.useGroupMapping || (resourceType != "user" && resourceType != "group")
             || forall role :: !Names(entitlementID, role)) ==>
              !done && provisioner.okta.dir == old(provisioner.okta.dir)
  {
    ghost var start, policy := provisioner.okta.dir, provisioner.Policy();
    ghost var q := Request(policy, resourceType, id, entitlementID);
    RequestIff(policy, resourceType, id, entitlementID);
    OpenIff(start, policy, resourceType, id, entitlementID);
    done := false;
    var calls := 0;
    while calls < maxCalls && !done
      invariant ValidDirectory(provisioner.okta.dir)
      invariant q.Err? ==> !done && provisioner.okta.dir == start
      invariant q.Ok? ==> OnTheWay(start, policy, q.value.0, q.value.1, provisioner.okta.dir)
      invariant done ==> Granted(start, policy, q.value.0, q.value.1).Ok?
                         && provisioner.okta.dir == Granted(start, policy, q.value.0, q.value.1).value.0
      invariant !provisioner.okta.flaky && calls > 0 && GrantRequest(start, policy, resourceType, id, entitlementID).Ok? ==> done
    {
      if q.Ok? {
        OpenIff(provisioner.okta.dir, policy, resourceType, id, entitlementID);
        GrantConverges(start, policy, q.value.0, q.value.1, provisioner.okta.dir);
      }
      var r, e := OneCall(provisioner, GrantCall(resourceType, id, entitlementID));
      calls, done := calls + 1, r.Ok?;
    }    if done {
      GrantMeans(start, provisioner.okta.dir, policy, resourceType, id, entitlementID, Ok(Granted(start, policy, q.value.0, q.value.1).value.1));
    }
  }

  /** What a sync shows after a revocation was answered: of a group, and of a user the call has written,
      exactly the roles the record listed before, but for the revoked one. */
  ghost predicate RevokeShown(before: Directory, s: Settings, account: string, resourceType: string, id: string,
                              entitlementID: string, outcome: Outcome, reported: set<Grant>) {
    forall role, q, expandable :: Names(entitlementID, role) ==>
      && (resourceType == "user" && outcome == Updated ==>
            (Grant(account, User(id), q, expandable) in reported <==>
             !expandable && q != role && id in before.users && Lists(before.users[id].profile, q)))
      && (resourceType == "group" ==>
            (Grant(account, Group(id), q, expandable) in reported <==>
             && expandable == s.joinAllRoles && q != role
             && id in before.groups && before.groups[id].id.Some? && Lists(before.groups[id].profile, q)))
  }

  /** And after a grant: those it listed before, and the granted one; of a group just assigned, also
      those the assignment brings. */
  ghost predicate GrantShown(before: Directory, policy: Policy, account: string, resourceType: string, id: string,
                             entitlementID: string, outcome: Outcome, reported: set<Grant>) {
    var group := if id in before.groups then before.groups[id] else AppGroup(Some(id), policy.freshAssignment(id));
    forall role, q, expandable :: Names(entitlementID, role) ==>
      && (resourceType == "user" && outcome == Updated ==>
            (Grant(account, User(id), q, expandable) in reported <==>
             !expandable && (q == role || (id in before.users && Lists(before.users[id].profile, q)))))
      && (resourceType == "group" ==>
            (Grant(account, Group(id), q, expandable) in reported <==>
             expandable == policy.settings.joinAllRoles && group.id.Some? && (q == role || Lists(group.profile, q))))
  }

  lemma RevokeIsShown(before: Directory, w: World, p: Keeping, policy: Policy, account: string, resourceType: string, id: string,
                      entitlementID: string, outcome: Outcome, reported: set<Grant>)
    requires RevokeAnswer(before, w.dir, policy, resourceType, id, entitlementID, outcome)
    requires SureReport(w, p, policy.settings, account, reported)
    ensures RevokeShown(before, policy.settings, account, resourceType, id, entitlementID, outcome, reported)
  {
    forall role, q, expandable | Names(entitlementID, role) && (resourceType == "group" || outcome == Updated)
      ensures && (resourceType == "user" ==>
                    (Grant(account, User(id), q, expandable) in reported <==>
                     !expandable && q != role && id in before.users && Lists(before.users[id].profile, q)))
              && (resourceType == "group" ==>
                    (Grant(account, Group(id), q, expandable) in reported <==>
                     && expandable == policy.settings.joinAllRoles && q != role
                     && id in before.groups && before.groups[id].id.Some? && Lists(before.groups[id].profile, q)))
    {
      if resourceType == "user" {
        UserIsReported(w, p, policy.settings, account, reported, id, q, expandable);
      } else {
        GroupIsReported(w, p, policy.settings, account, reported, id, q, expandable);
      }
    }
  }

  lemma GrantIsShown(before: Directory, w: World, p: Keeping, policy: Policy, account: string, resourceType: string, id: string,
                     entitlementID: string, outcome: Outcome, reported: set<Grant>)
    requires GrantAnswer(before, w.dir, policy, resourceType, id, entitlementID, outcome)
    requires SureReport(w, p, policy.settings, account, reported)
    ensures GrantShown(before, policy, account, resourceType, id, entitlementID, outcome, reported)
  {
    var group := if id in before.groups then before.groups[id] else AppGroup(Some(id), policy.freshAssignment(id));
    forall role, q, expandable | Names(entitlementID, role) && (resourceType == "group" || outcome == Updated)
      ensures && (resourceType == "user" ==>
                    (Grant(account, User(id), q, expandable) in reported <==>
                     !expandable && (q == role || (id in before.users && Lists(before.users[id].profile, q)))))
              && (resourceType == "group" ==>
                    (Grant(account, Group(id), q, expandable) in reported <==>
                     expandable == policy.settings.joinAllRoles && group.id.Some? && (q == role || Lists(group.profile, q))))
    {
      if resourceType == "user" {
        UserIsReported(w, p, policy.settings, account, reported, id, q, expandable);
      } else {
        GroupIsReported(w, p, policy.settings, account, reported, id, q, expandable);
      }
    }
  }

  /** A revocation and then a full sync with a fresh session: the revoked role is not reported for
      the principal, whatever fails during the sync. */
  method RevokeThenSync(provisioner: Provisioner, resourceType: string, id: string, entitlementID: string,
                        account: string, keeping: Keeping, maxCalls: nat, lossy: bool)
    returns (r: Result<Outcome>, done: bool, reported: set<Grant>, failed: nat)
    requires ValidDirectory(provisioner.okta.dir) && id != ""
    modifies provisioner.okta`dir, provisioner.okta`listing, provisioner.okta`requests
    ensures r.Ok? ==>
              var q := Request(provisioner.Policy(), resourceType, id, entitlementID);
              q.Ok? && forall expandable :: Grant(account, q.value.0, q.value.1, expandable) !in reported
    ensures r.Ok? && done ==>
              RevokeShown(old(provisioner.okta.dir), provisioner.settings, account, resourceType, id, entitlementID, r.value, reported)
    // Without faults the request is answered, and enough calls finish the sync.
    ensures !provisioner.okta.flaky && RevokeOpen(old(provisioner.okta.dir), provisioner.Policy(), resourceType, id, entitlementID) ==> r.Ok?
    ensures failed + CallsNeeded(provisioner.okta.Snapshot(), provisioner.settings) <= maxCalls ==> done
    ensures (!lossy && !provisioner.okta.flaky && keeping.steady && Clean(provisioner.okta.dir, provisioner.settings))
            ==> failed == 0
  {
    ghost var before, policy := provisioner.okta.dir, provisioner.Policy();
    ghost var e;
    OpenIff(before, policy, resourceType, id, entitlementID);
    r, e := OneCall(provisioner, RevokeCall(resourceType, id, entitlementID));
    ghost var after := provisioner.okta.dir;
    provisioner.okta.Relist();
    var ss := new SessionStore(keeping);
    var accounts := new AccountResource(provisioner.okta, ss, provisioner.settings, account);
    var succeeded;
    done, reported, succeeded, failed := FullSync(accounts, maxCalls, lossy);
    ghost var w := provisioner.okta.Snapshot();
    assert w.dir == after;
    if r.Ok? {
      if done {
        RevokeIsShown(before, w, keeping, policy, account, resourceType, id, entitlementID, r.value, reported);
      }
      ghost var q := Request(policy, resourceType, id, entitlementID);
      forall expandable ensures Grant(account, q.value.0, q.value.1, expandable) !in reported {
        RevokeIsReflected(before, policy, q.value.0, q.value.1, account, expandable);
      }
    }
  }

  /** A grant and then a full sync with a fresh session: a finished sync reports the role for the
      principal, whatever fails and whatever the store forgets, exactly unless the role was there
      before and invisible. */
  method GrantThenSync(provisioner: Provisioner, resourceType: string, id: string, entitlementID: string,
                       account: string, keeping: Keeping, maxCalls: nat, lossy: bool)
    returns (r: Result<Outcome>, done: bool, reported: set<Grant>, failed: nat)
    requires ValidDirectory(provisioner.okta.dir) && id != ""
    modifies provisioner.okta`dir, provisioner.okta`listing, provisioner.okta`requests
    ensures r.Ok? && done ==>
              var q := Request(provisioner.Policy(), resourceType, id, entitlementID);
              && q.Ok?
              && (Grant(account, q.value.0, q.value.1, q.value.0.Group? && provisioner.settings.joinAllRoles) in reported
                  <==> !Invisible(old(provisioner.okta.dir), provisioner.Policy(), q.value.0, q.value.1))
    ensures r.Ok? && done ==>
              GrantShown(old(provisioner.okta.dir), provisioner.Policy(), account, resourceType, id, entitlementID, r.value, reported)
    // Without faults the request is answered, and enough calls finish the sync.
    ensures !provisioner.okta.flaky && GrantOpen(old(provisioner.okta.dir), provisioner.Policy(), resourceType, id, entitlementID) ==> r.Ok?
    ensures failed + CallsNeeded(provisioner.okta.Snapshot(), provisioner.settings) <= maxCalls ==> done
    ensures (!lossy && !provisioner.okta.flaky && keeping.steady && Clean(provisioner.okta.dir, provisioner.settings))
            ==> failed == 0
  {
    ghost var before, policy := provisioner.okta.dir, provisioner.Policy();
    ghost var e;
    OpenIff(before, policy, resourceType, id, entitlementID);
    r, e := OneCall(provisioner, GrantCall(resourceType, id, entitlementID));
    ghost var after := provisioner.okta.dir;
    provisioner.okta.Relist();
    var ss := new SessionStore(keeping);
    var accounts := new AccountResource(provisioner.okta, ss, provisioner.settings, account);
    var succeeded;
    done, reported, succeeded, failed := FullSync(accounts, maxCalls, lossy);
    ghost var w := provisioner.okta.Snapshot();
    assert w.dir == after;
    if r.Ok? {
      if done {
        GrantIsShown(before, w, keeping, policy, account, resourceType, id, entitlementID, r.value, reported);
      }
      ghost var q := Request(policy, resourceType, id, entitlementID);
      GrantIsReflected(before, policy, q.value.0, q.value.1, account);
      ghost var x := Grant(account, q.value.0, q.value.1, q.value.0.Group? && provisioner.settings.joinAllRoles);
      assert Sure(provisioner.okta.Snapshot(), keeping, provisioner.settings, account, x);
    }
  }

  /** Any history of calls and then a full sync with a fresh session. Whatever failed in either, of every
      principal whose roles are read a finished sync reports exactly the roles that inserting and
      deleting in a set, event by event, leaves. */
  method HistoryThenSync(provisioner: Provisioner, calls: seq<Call>, account: string, keeping: Keeping, maxCalls: nat, lossy: bool)
    returns (results: seq<Result<Outcome>>, ghost events: seq<Event>, done: bool, reported: set<Grant>, failed: nat)
    requires ValidDirectory(provisioner.okta.dir) && !provisioner.settings.useGroupMapping
    requires forall c :: c in calls ==> c.id != ""
    modifies provisioner.okta`dir, provisioner.okta`listing, provisioner.okta`requests
    ensures |results| == |events| == |calls|
    ensures forall i :: 0 <= i < |calls| ==> Explains(provisioner.Policy(), calls[i], results[i], events[i])
    ensures PossibleRun(old(provisioner.okta.dir), provisioner.Policy(), events)
    ensures provisioner.okta.dir == AfterAll(old(provisioner.okta.dir), provisioner.Policy(), events)
    ensures done ==> forall p, role, expandable :: !Unread(provisioner.okta.dir, provisioner.settings, p) ==>
              (Grant(account, p, role, expandable) in reported <==>
               var roles := FoldSet(provisioner.Policy(), p, RoleSet(old(provisioner.okta.dir), p), events);
               roles.Some? && role in roles.value && expandable == (p.Group? && provisioner.settings.joinAllRoles))
    ensures failed + CallsNeeded(provisioner.okta.Snapshot(), provisioner.settings) <= maxCalls ==> done
    ensures (!lossy && !provisioner.okta.flaky && keeping.steady && Clean(provisioner.okta.dir, provisioner.settings))
            ==> failed == 0
  {
    results, events := RunHistory(provisioner, calls);
    provisioner.okta.Relist();
    var ss := new SessionStore(keeping);
    var accounts := new AccountResource(provisioner.okta, ss, provisioner.settings, account);
    var succeeded;
    done, reported, succeeded, failed := FullSync(accounts, maxCalls, lossy);
    forall p, role, expandable | done && !Unread(provisioner.okta.dir, provisioner.settings, p)
      ensures Grant(account, p, role, expandable) in reported <==>
              RoleSet(provisioner.okta.dir, p).Some? && role in RoleSet(provisioner.okta.dir, p).value
              && expandable == (p.Group? && provisioner.settings.joinAllRoles)
    {
      StoredIsReported(provisioner.okta.dir, provisioner.settings, account, p, role, expandable);
    }
  }
}
