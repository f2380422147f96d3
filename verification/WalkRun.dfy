/** One user's walk, interrupted and resumed until it ends. */
module WalkRun {
  import opened Domain
  import opened Sessions
  import opened CacheFacts
  import opened OktaApi
  import opened Owed
  import opened Settlement
  import opened AccountSync

  /** Two stretches that meet are one. */
  lemma StretchesMeet(dir: Directory, u: string, groups: seq<string>, i: nat, j: nat, k: nat, first: set<string>, second: set<string>,
                      early: set<string>, late: set<string>, a: seq<Attempt>, b: seq<Attempt>)
    requires early <= late
    requires WalkedTo(dir, u, groups, i, j, first, early, a) && WalkedTo(dir, u, groups, j, k, second, late, b)
    ensures WalkedTo(dir, u, groups, i, k, first + second, late, a + b)
  {
    var all := a + b;
    forall r | r in first + second ensures exists n :: 0 <= n < |all| && TellsRole(all[n], r) {
      if r in first {
        var n :| 0 <= n < |a| && TellsRole(a[n], r);
        assert all[n] == a[n];
      } else {
        var n :| 0 <= n < |b| && TellsRole(b[n], r);
        assert all[|a| + n] == b[n];
      }
    }
  }

  /** The roles of a whole walk are those of the user's groups, but for groups misjudged. */
  lemma WholeWalkRoles(dir: Directory, u: string, roles: set<string>, misjudged: set<string>, walked: seq<Attempt>, r: string)
    requires WalkedTo(dir, u, GroupsOf(dir, u), 0, |GroupsOf(dir, u)|, roles, misjudged, walked)
    ensures r in roles ==> exists g :: BelongsTo(dir, u, g) && r in RolesThrough(dir, g)
    ensures forall g :: BelongsTo(dir, u, g) && r in RolesThrough(dir, g) && g !in misjudged ==> r in roles
  {
    var groups := GroupsOf(dir, u);
    if r in roles {
      var n :| 0 <= n < |walked| && TellsRole(walked[n], r);
      GroupsOfMembers(dir, u, groups[n]);
      assert BelongsTo(dir, u, walked[n].group) && r in RolesThrough(dir, walked[n].group);
    }
    forall g | BelongsTo(dir, u, g) && r in RolesThrough(dir, g) && g !in misjudged ensures r in roles {
      GroupsOfMembers(dir, u, g);
      var n :| 0 <= n < |groups| && groups[n] == g;
      assert TellsRole(walked[n], r);
    }
  }

  /** A walk that has reached `position` since the look-ups recorded in `start`. */
  ghost predicate WalkSoFar(dir: Directory, u: string, groups: seq<string>, position: nat, roles: set<string>,
                            misjudged: set<string>, start: seq<Attempt>, attempts: seq<Attempt>) {
    && start <= attempts
    && WalkedTo(dir, u, groups, 0, position, roles, misjudged, AnsweredOnly(attempts[|start|..]))
  }

  lemma WalkSoFarBegins(dir: Directory, u: string, groups: seq<string>, misjudged: set<string>, start: seq<Attempt>)
    ensures WalkSoFar(dir, u, groups, 0, {}, misjudged, start, start)
  {
  }

  lemma WalkSoFarFails(dir: Directory, u: string, groups: seq<string>, position: nat, roles: set<string>, early: set<string>,
                       late: set<string>, start: seq<Attempt>, before: seq<Attempt>, after: seq<Attempt>)
    requires WalkSoFar(dir, u, groups, position, roles, early, start, before) && early <= late
    requires after == before || FailedAtOnce(u, groups, position, before, after)
    ensures WalkSoFar(dir, u, groups, position, roles, late, start, after)
  {
    FailureAddsNothing(u, groups, position, before, after);
    AnsweredOnlyConcat(before[|start|..], after[|before|..]);
    assert after[|start|..] == before[|start|..] + after[|before|..];
    ExtendedBlindness(dir, u, groups, 0, position, roles, early, late, AnsweredOnly(before[|start|..]));
  }

  lemma WalkSoFarAdvances(dir: Directory, u: string, groups: seq<string>, position: nat, roles: set<string>, more: set<string>,
                          next: int, early: set<string>, late: set<string>,
                          start: seq<Attempt>, before: seq<Attempt>, after: seq<Attempt>)
    requires WalkSoFar(dir, u, groups, position, roles, early, start, before) && early <= late
    requires WalkOutcome(dir, u, groups, position, more, next, late, before, after)
    ensures WalkSoFar(dir, u, groups, EndOf(groups, next), roles + more, late, start, after)
  {
    OutcomeAddsStretch(dir, u, groups, position, more, next, late, before, after);
    StretchesMeet(dir, u, groups, 0, position, EndOf(groups, next), roles, more, early, late,
                  AnsweredOnly(before[|start|..]), AnsweredOnly(after[|before|..]));
    AnsweredOnlyConcat(before[|start|..], after[|before|..]);
    assert after[|start|..] == before[|start|..] + after[|before|..];
  }

  lemma {:induction false} AnsweredWereMade(attempts: seq<Attempt>, a: Attempt)
    requires a in AnsweredOnly(attempts)
    ensures a in attempts && a.answer.Ok?
  {
    var front, last := attempts[..|attempts| - 1], attempts[|attempts| - 1];
    if a in AnsweredOnly(front) {
      AnsweredWereMade(front, a);
    }
  }

  /** A whole walk in the user phase collects the roles of every safe group and, with a steady store,
      exactly the roles of the groups that are not denied. */
  lemma WalkInUserPhase(w: World, p: Keeping, c: Cache, requests: Requests, misjudged: set<string>,
                        start: seq<Attempt>, attempts: seq<Attempt>, u: string, roles: set<string>)
    requires UserPhase(w, p, c, requests, misjudged, attempts)
    requires WalkSoFar(w.dir, u, GroupsOf(w.dir, u), |GroupsOf(w.dir, u)|, roles, misjudged, start, attempts)
    ensures forall r, g :: BelongsTo(w.dir, u, g) && r in RolesThrough(w.dir, g) && Safe(w.dir, p, g) ==> r in roles
    ensures p.steady ==> forall r :: r in roles <==> ThroughAKnownGroup(w, p, u, r)
  {
    var walked := AnsweredOnly(attempts[|start|..]);
    forall r ensures forall g :: BelongsTo(w.dir, u, g) && r in RolesThrough(w.dir, g) && g !in misjudged ==> r in roles {
      WholeWalkRoles(w.dir, u, roles, misjudged, walked, r);
    }
    if p.steady {
      forall r | r in roles ensures ThroughAKnownGroup(w, p, u, r) {
        RoleIsKnown(w, p, misjudged, start, attempts, u, roles, r);
      }
    }
  }

  lemma RoleIsKnown(w: World, p: Keeping, misjudged: set<string>, start: seq<Attempt>, attempts: seq<Attempt>,
                    u: string, roles: set<string>, r: string)
    requires DeniedUnheard(w, p, attempts) && r in roles
    requires WalkSoFar(w.dir, u, GroupsOf(w.dir, u), |GroupsOf(w.dir, u)|, roles, misjudged, start, attempts)
    ensures ThroughAKnownGroup(w, p, u, r)
  {
    var groups, walked := GroupsOf(w.dir, u), AnsweredOnly(attempts[|start|..]);
    var n :| 0 <= n < |walked| && TellsRole(walked[n], r);
    AnsweredWereMade(attempts[|start|..], walked[n]);
    GroupsOfMembers(w.dir, u, groups[n]);
    assert walked[n] in attempts && r in RolesThrough(w.dir, groups[n]);
  }

  function Max(a: nat, b: nat): nat {
    if a < b then b else a
  }

  /** Resumes one user's walk until it ends. However often it is interrupted, and in whatever order
      Okta lists the groups each time, every group is answered exactly once, in walk order, and the
      roles add up to those of all the user's groups. */
  method ResumeUntilDone(accounts: AccountResource, userID: string, maxCalls: nat) returns (done: bool, roles: set<string>, failed: nat)
    requires accounts.Stable() && accounts.Sound()
    modifies accounts.ss, accounts.okta`requests, accounts`attempts, accounts`misjudged
    ensures old(accounts.attempts) <= accounts.attempts
    ensures done ==>
              var groups := GroupsOf(accounts.okta.dir, userID);
              WalkedTo(accounts.okta.dir, userID, groups, 0, |groups|, roles, accounts.misjudged,
                       AnsweredOnly(accounts.attempts[|old(accounts.attempts)|..]))
    ensures done ==> forall r :: r in roles ==>
                       exists g :: BelongsTo(accounts.okta.dir, userID, g) && r in RolesThrough(accounts.okta.dir, g)
    ensures done ==> forall r, g :: (BelongsTo(accounts.okta.dir, userID, g) && r in RolesThrough(accounts.okta.dir, g)
                                     && g !in accounts.misjudged) ==> r in roles
    // In the user phase this is what a caller can tell beforehand: with any store the roles of every safe
    // group are collected, and with a steady one exactly those of the groups it does not deny.
    ensures old(accounts.InUserPhase()) ==> accounts.InUserPhase()
    ensures done && old(accounts.InUserPhase()) ==>
              forall r, g :: (BelongsTo(accounts.okta.dir, userID, g) && r in RolesThrough(accounts.okta.dir, g)
                              && Safe(accounts.okta.dir, accounts.ss.keeping, g)) ==> r in roles
    ensures done && old(accounts.InUserPhase()) && accounts.ss.keeping.steady ==>
              forall r :: r in roles <==> ThroughAKnownGroup(accounts.okta.Snapshot(), accounts.ss.keeping, userID, r)
    // Every call that does not fail ends the walk or gets at least one group further, and without faults
    // none fails.
    ensures failed + Max(1, |GroupsOf(accounts.okta.dir, userID)|) <= maxCalls ==> done
    ensures (!accounts.okta.flaky && accounts.ss.keeping.steady
             && Walkable(accounts.okta.dir, userID, old(accounts.Spared()))) ==> failed == 0
  {
    ghost var dir, groups, start := accounts.okta.dir, GroupsOf(accounts.okta.dir, userID), accounts.attempts;
    ghost var phase := accounts.InUserPhase();
    var position, calls := 0, 0;
    done, roles, failed := false, {}, 0;
    WalkSoFarBegins(dir, userID, groups, accounts.misjudged, start);
    while !done && calls < maxCalls
      invariant accounts.Sound() && (phase ==> accounts.InUserPhase())
      invariant 0 <= position <= |groups|
      invariant WalkSoFar(dir, userID, groups, if done then |groups| else position, roles, accounts.misjudged, start, accounts.attempts)
      invariant calls <= maxCalls && (!done ==> calls <= position + failed && (position == 0 || position < |groups|))
      invariant (!accounts.okta.flaky && accounts.ss.keeping.steady
                 && Walkable(accounts.okta.dir, userID, old(accounts.Spared()))) ==> failed == 0
      decreases maxCalls - calls
    {
      ghost var tried, blind := accounts.attempts, accounts.misjudged;
      var collected := accounts.CollectRolesFromUserGroups(userID, position);
      calls := calls + 1;
      if collected.Err? {
        WalkSoFarFails(dir, userID, groups, position, roles, blind, accounts.misjudged, start, tried, accounts.attempts);
        failed := failed + 1;
        continue;
      }
      WalkSoFarAdvances(dir, userID, groups, position, roles, collected.value.0, collected.value.1, blind, accounts.misjudged,
                        start, tried, accounts.attempts);
      roles := roles + collected.value.0;
      done := collected.value.1 < 0;
      position := if done then position else collected.value.1;
    }
    if done && phase {
      WalkInUserPhase(accounts.okta.Snapshot(), accounts.ss.keeping, accounts.ss.cache, accounts.okta.requests,
                      accounts.misjudged, start, accounts.attempts, userID, roles);
    }
    if done {
      forall r ensures r in roles ==> exists g :: BelongsTo(dir, userID, g) && r in RolesThrough(dir, g)
               ensures forall g :: BelongsTo(dir, userID, g) && r in RolesThrough(dir, g) && g !in accounts.misjudged ==> r in roles
      {
        WholeWalkRoles(dir, userID, roles, accounts.misjudged, AnsweredOnly(accounts.attempts[|start|..]), r);
      }
    }
  }
}
