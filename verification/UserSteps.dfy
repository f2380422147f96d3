/** The two kinds of step in the user phase: a page of users, and a stretch of one user's walk. */
module UserSteps {
  import opened Base
  import opened Pagination
  import opened Domain
  import opened Owed
  import opened TokenShape
  import opened Settlement

  /** The inner stack after a walk: the user is done, or comes back with the position reached. */
  function AfterWalk(below: seq<PageState>, u: string, next: int): seq<PageState> {
    below + if next < 0 then [] else [PageState(Index(next), "", u)]
  }

  lemma WalkStepSettles(w: World, s: Settings, account: string, misjudged: set<string>, below: seq<PageState>,
                        top: PageState, start: nat, next: int, roles: set<string>, attempts: seq<Attempt>)
    requires var u := top.resourceID; var groups := GroupsOf(w.dir, u);
             && u != "" && u in w.dir.members && StartIndex(top.token) == Some(start) && start <= |groups|
             && (next == -1 || start < next < |groups|)
             && WalkedTo(w.dir, u, groups, start, EndOf(groups, next), roles, misjudged, attempts)
    ensures var u := top.resourceID; var groups := GroupsOf(w.dir, u);
            Settles(misjudged, UserStackOwed(w, s, account, below + [top]),
                    StretchItems(account, u, attempts),
                    UserStackOwed(w, s, account, AfterWalk(below, u, next)))
  {
    var u, groups := top.resourceID, GroupsOf(w.dir, top.resourceID);
    var end := EndOf(groups, next);
    UserStackOwedPush(w, s, account, below, top);
    OwedAfterWalk(w, s, account, below, u, next);
    StretchSettles(w.dir, account, u, misjudged, groups, start, end, roles, attempts);
    SettleBelow(misjudged, UserStackOwed(w, s, account, below),
                WalkItems(w.dir, account, u, groups[start..]),
                StretchItems(account, u, attempts),
                WalkItems(w.dir, account, u, groups[end..]));
  }

  lemma OwedAfterWalk(w: World, s: Settings, account: string, below: seq<PageState>, u: string, next: int)
    requires u != "" && u in w.dir.members && next <= |GroupsOf(w.dir, u)|
    ensures UserStackOwed(w, s, account, AfterWalk(below, u, next))
         == UserStackOwed(w, s, account, below)
            + WalkItems(w.dir, account, u, GroupsOf(w.dir, u)[EndOf(GroupsOf(w.dir, u), next)..])
  {
    var groups := GroupsOf(w.dir, u);
    if next < 0 {
      assert AfterWalk(below, u, next) == below && groups[|groups|..] == [];
      assert ToSet<string>([]) == {};
      GatherEmpty(LookupShare(w.dir, account, u));
    } else {
      var rest := PageState(Index(next), "", u);
      assert UserStateOwed(w, s, account, rest) == WalkItems(w.dir, account, u, groups[next..]);
      UserStackOwedPush(w, s, account, below, rest);
    }
  }

  /** One call of the user phase brings the end closer, and every answered look-up was one to go. */
  ghost predicate UserWorkDone(w: World, s: Settings, before: seq<PageState>, after: seq<PageState>, news: seq<Attempt>) {
    && UserStackCost(Calls, w, s, after) < UserStackCost(Calls, w, s, before)
    && forall m: Measure :: m.LookUps? ==>
         UserStackCost(m, w, s, after) + AnsweredPairs(news)[(m.user, m.group)] == UserStackCost(m, w, s, before)
  }

  lemma UserOnTopCosts(m: Measure, w: World, s: Settings, below: seq<PageState>, top: PageState, i: int)
    requires top.resourceID != "" && StartIndex(top.token) == Some(i)
    ensures UserStackCost(m, w, s, below + [top])
         == UserStackCost(m, w, s, below) + WalkCost(m, top.resourceID, GroupsOf(w.dir, top.resourceID), i)
  {
    UserStackCostPush(m, w, s, below, top);
    assert UserStateCost(m, w, s, top) == WalkCost(m, top.resourceID, GroupsOf(w.dir, top.resourceID), i);
  }

  lemma CostAfterWalk(m: Measure, w: World, s: Settings, below: seq<PageState>, u: string, next: int)
    requires u != ""
    ensures UserStackCost(m, w, s, AfterWalk(below, u, next))
         == UserStackCost(m, w, s, below) + if next < 0 then 0 else WalkCost(m, u, GroupsOf(w.dir, u), next)
  {
    if next < 0 {
      assert AfterWalk(below, u, next) == below;
    } else {
      UserOnTopCosts(m, w, s, below, PageState(Index(next), "", u), next);
    }
  }

  /** A stretch of a walk leaves the look-ups that were not answered yet, and no others. */
  lemma StretchLookUps(u: string, groups: seq<string>, start: nat, end: nat, walked: seq<Attempt>, v: string, g: string)
    requires start <= end <= |groups| && |walked| == end - start
    requires forall j :: 0 <= j < |walked| ==>
               walked[j].user == u && walked[j].group == groups[start + j] && walked[j].answer.Ok?
    ensures WalkCost(LookUps(v, g), u, groups, start)
         == AnsweredPairs(walked)[(v, g)] + WalkCost(LookUps(v, g), u, groups, end)
  {
    StretchPairs(u, groups[start..end], walked, v, g);
    assert groups[start..] == groups[start..end] + groups[end..];
  }

  lemma WalkStepCosts(w: World, s: Settings, misjudged: set<string>, below: seq<PageState>, top: PageState, start: nat,
                      next: int, roles: set<string>, walked: seq<Attempt>, news: seq<Attempt>)
    requires var u := top.resourceID; var groups := GroupsOf(w.dir, u);
             && u != "" && StartIndex(top.token) == Some(start) && start <= |groups|
             && (next == -1 || start < next < |groups|)
             && WalkedTo(w.dir, u, groups, start, EndOf(groups, next), roles, misjudged, walked)
             && news == walked + if next < 0 then [] else [Attempt(u, groups[next], Err)]
    ensures UserWorkDone(w, s, below + [top], AfterWalk(below, top.resourceID, next), news)
  {
    var u, groups := top.resourceID, GroupsOf(w.dir, top.resourceID);
    UserOnTopCosts(Calls, w, s, below, top, start);
    CostAfterWalk(Calls, w, s, below, u, next);
    if next < 0 {
      assert news == walked;
    } else {
      assert news[..|walked|] == walked;
    }
    assert AnsweredPairs(news) == AnsweredPairs(walked);
    forall m: Measure | m.LookUps?
      ensures UserStackCost(m, w, s, AfterWalk(below, u, next)) + AnsweredPairs(news)[(m.user, m.group)]
           == UserStackCost(m, w, s, below + [top])
    {
      UserOnTopCosts(m, w, s, below, top, start);
      CostAfterWalk(m, w, s, below, u, next);
      StretchLookUps(u, groups, start, EndOf(groups, next), walked, m.user, m.group);
      assert next < 0 ==> groups[|groups|..] == [];
    }
  }

  /** A walk asked to start beyond the user's groups has nothing left to do. */
  lemma OvershotWalkSettles(w: World, s: Settings, account: string, misjudged: set<string>, below: seq<PageState>,
                            top: PageState, start: nat)
    requires top.resourceID != "" && top.resourceID in w.dir.members && StartIndex(top.token) == Some(start)
    requires start > |GroupsOf(w.dir, top.resourceID)|
    ensures Settles(misjudged, UserStackOwed(w, s, account, below + [top]), {}, UserStackOwed(w, s, account, below))
    ensures UserWorkDone(w, s, below + [top], below, [])
  {
    UserStackOwedPush(w, s, account, below, top);
    forall m: Measure
      ensures UserStackCost(m, w, s, below + [top])
           == UserStackCost(m, w, s, below) + WalkCost(m, top.resourceID, GroupsOf(w.dir, top.resourceID), start)
    {
      UserOnTopCosts(m, w, s, below, top, start);
    }
  }

  /** The first `i` users of a fetched page dealt with: their profile roles are in `rv`, and those
      to be walked are on the stack above `base`. */
  ghost predicate PageProgress(w: World, s: Settings, account: string, base: seq<PageState>, keys: seq<string>,
                               i: nat, stack: seq<PageState>, rv: seq<Grant>) {
    && i <= |keys|
    && stack == StackedUpTo(w, s, base, keys, i)
    && UserStackOwed(w, s, account, stack) + Emits(rv)
       == UserStackOwed(w, s, account, base) + Gather(ToSet(keys[..i]), UserShare(w.dir, s, account))
  }

  lemma PageBegins(w: World, s: Settings, account: string, base: seq<PageState>, keys: seq<string>)
    ensures PageProgress(w, s, account, base, keys, 0, base, [])
  {
  }

  lemma PageOneMore(w: World, s: Settings, account: string, base: seq<PageState>, keys: seq<string>, i: nat,
                    stack: seq<PageState>, rv: seq<Grant>, stack': seq<PageState>, rv': seq<Grant>)
    requires i < |keys| && keys[i] in w.dir.users && keys[i] != ""
    requires PageProgress(w, s, account, base, keys, i, stack, rv)
    requires var u := w.dir.users[keys[i]];
             if WalksGroups(s, u) then stack' == stack + [WalkState(keys[i])] && rv' == rv
             else stack' == stack && Emits(rv') == Emits(rv) + UserItems(w.dir, s, account, keys[i])
    ensures PageProgress(w, s, account, base, keys, i + 1, stack', rv')
  {
    StackedOneMore(w, s, base, keys, i);
    PageOneMoreOwed(w, s, account, keys, i, stack, rv, stack', rv');
    BothGrow(UserStackOwed(w, s, account, stack) + Emits(rv), UserStackOwed(w, s, account, base),
             Gather(ToSet(keys[..i]), UserShare(w.dir, s, account)), UserItems(w.dir, s, account, keys[i]));
  }

  lemma BothGrow(whole: set<Item>, below: set<Item>, part: set<Item>, more: set<Item>)
    requires whole == below + part
    ensures whole + more == below + (part + more)
  {
  }

  lemma PageOneMoreOwed(w: World, s: Settings, account: string, keys: seq<string>, i: nat,
                        stack: seq<PageState>, rv: seq<Grant>, stack': seq<PageState>, rv': seq<Grant>)
    requires i < |keys| && keys[i] in w.dir.users && keys[i] != ""
    requires var u := w.dir.users[keys[i]];
             if WalksGroups(s, u) then stack' == stack + [WalkState(keys[i])] && rv' == rv
             else stack' == stack && Emits(rv') == Emits(rv) + UserItems(w.dir, s, account, keys[i])
    ensures UserStackOwed(w, s, account, stack') + Emits(rv')
         == UserStackOwed(w, s, account, stack) + Emits(rv) + UserItems(w.dir, s, account, keys[i])
    ensures Gather(ToSet(keys[..i + 1]), UserShare(w.dir, s, account))
         == Gather(ToSet(keys[..i]), UserShare(w.dir, s, account)) + UserItems(w.dir, s, account, keys[i])
  {
    GatherPrefix(keys, i, UserShare(w.dir, s, account));
    if WalksGroups(s, w.dir.users[keys[i]]) {
      UserStackOwedPush(w, s, account, stack, WalkState(keys[i]));
      assert GroupsOf(w.dir, keys[i])[0..] == GroupsOf(w.dir, keys[i]);
    }
  }

  /** One more user of a page on the stack, or not. */
  lemma OneMoreWalkerCosts(m: Measure, w: World, s: Settings, keys: seq<string>, i: nat,
                           stack: seq<PageState>, stack': seq<PageState>)
    requires i < |keys| && (keys[i] in w.dir.users ==> keys[i] != "")
    requires stack' == stack + if keys[i] in w.dir.users && WalksGroups(s, w.dir.users[keys[i]]) then [WalkState(keys[i])] else []
    ensures UserStackCost(m, w, s, stack') - UserStackCost(m, w, s, stack)
         == PageWalksCost(m, w.dir, s, keys[..i + 1]) - PageWalksCost(m, w.dir, s, keys[..i])
  {
    PageWalksCostPrefix(m, w.dir, s, keys, i);
    if keys[i] in w.dir.users && WalksGroups(s, w.dir.users[keys[i]]) {
      UserStackCostPush(m, w, s, stack, WalkState(keys[i]));
    } else {
      assert stack' == stack;
    }
  }

  /** A page's first `i` users, those to be walked stacked above `base`. */
  function StackedUpTo(w: World, s: Settings, base: seq<PageState>, keys: seq<string>, i: nat): seq<PageState>
    requires i <= |keys|
  {
    base + WalkStates(Walkers(w.dir, s, keys[..i]))
  }

  lemma StackedOneMore(w: World, s: Settings, base: seq<PageState>, keys: seq<string>, i: nat)
    requires i < |keys|
    ensures StackedUpTo(w, s, base, keys, i + 1)
         == StackedUpTo(w, s, base, keys, i)
            + if keys[i] in w.dir.users && WalksGroups(s, w.dir.users[keys[i]]) then [WalkState(keys[i])] else []
  {
    WalkersOneMore(w.dir, s, keys, i);
  }

  lemma StackedNone(w: World, s: Settings, base: seq<PageState>, keys: seq<string>)
    ensures StackedUpTo(w, s, base, keys, 0) == base
  {
  }

  /** The walkers of a page, stacked, cost as much as their walks. */
  lemma {:induction false} StackedWalkersCost(m: Measure, w: World, s: Settings, base: seq<PageState>, keys: seq<string>, i: nat)
    requires ValidDirectory(w.dir) && i <= |keys|
    ensures UserStackCost(m, w, s, StackedUpTo(w, s, base, keys, i))
         == UserStackCost(m, w, s, base) + PageWalksCost(m, w.dir, s, keys[..i])
  {
    if i == 0 {
      StackedNone(w, s, base, keys);
    } else {
      StackedWalkersCost(m, w, s, base, keys, i - 1);
      StackedOneMore(w, s, base, keys, i - 1);
      OneMoreWalkerCosts(m, w, s, keys, i - 1, StackedUpTo(w, s, base, keys, i - 1), StackedUpTo(w, s, base, keys, i));
    }
  }

  /** What lies below a fetched page, with the next page state on it, owes as much as the pages that
      follow, and costs as much. */
  lemma BelowTheWalkers(w: World, s: Settings, account: string, below: seq<PageState>, k: nat)
    requires k < |w.listing.userPages|
    ensures UserStackOwed(w, s, account, below + PagePart(w, k + 1))
         == UserStackOwed(w, s, account, below) + UserPagesOwed(w, s, account, k + 1)
  {
    if k + 1 < |w.listing.userPages| {
      UserStackOwedPush(w, s, account, below, UserPageState(k + 1));
    } else {
      assert below + PagePart(w, k + 1) == below;
      NothingOwedPastTheEnd(w, s, account);
    }
  }

  lemma BelowTheWalkersCost(m: Measure, w: World, s: Settings, below: seq<PageState>, k: nat)
    requires k < |w.listing.userPages|
    ensures UserStackCost(m, w, s, below + PagePart(w, k + 1)) == UserStackCost(m, w, s, below) + UserPagesCost(m, w, s, k + 1)
  {
    if k + 1 < |w.listing.userPages| {
      UserStackCostPush(m, w, s, below, UserPageState(k + 1));
    } else {
      assert below + PagePart(w, k + 1) == below;
    }
  }

  /** A fetched page costs the call that fetched it. */
  lemma PageStepCost(m: Measure, w: World, s: Settings, below: seq<PageState>, top: PageState, k: nat, stack: seq<PageState>)
    requires ValidDirectory(w.dir) && top.resourceID == "" && PageNumber(top.token) == Some(k) && k < |w.listing.userPages|
    requires stack == below + PagePart(w, k + 1) + WalkStates(Walkers(w.dir, s, w.listing.userPages[k]))
    ensures UserStackCost(m, w, s, below + [top]) == UserStackCost(m, w, s, stack) + if m.Calls? then 1 else 0
  {
    BelowTheWalkersCost(m, w, s, below, k);
    var keys := w.listing.userPages[k];
    assert keys[..|keys|] == keys;
    StackedWalkersCost(m, w, s, below + PagePart(w, k + 1), keys, |keys|);
    UserStackCostPush(m, w, s, below, top);
    assert UserStateCost(m, w, s, top) == UserPagesCost(m, w, s, k);
  }

  lemma PageStepWork(w: World, s: Settings, below: seq<PageState>, top: PageState, k: nat, stack: seq<PageState>)
    requires ValidDirectory(w.dir) && top.resourceID == "" && PageNumber(top.token) == Some(k) && k < |w.listing.userPages|
    requires stack == below + PagePart(w, k + 1) + WalkStates(Walkers(w.dir, s, w.listing.userPages[k]))
    ensures UserWorkDone(w, s, below + [top], stack, [])
  {
    forall m: Measure
      ensures UserStackCost(m, w, s, below + [top]) == UserStackCost(m, w, s, stack) + if m.Calls? then 1 else 0
    {
      PageStepCost(m, w, s, below, top, k, stack);
    }
  }

  lemma ExactlySettles(misjudged: set<string>, before: set<Item>, delivered: set<Item>, after: set<Item>)
    requires after + delivered == before
    ensures Settles(misjudged, before, delivered, after)
  {
  }

  /** The response of a walk step and its look-ups are what it delivered. */
  lemma StretchDelivered(dir: Directory, account: string, u: string, misjudged: set<string>, groups: seq<string>,
                         i: nat, j: nat, roles: set<string>, walked: seq<Attempt>, news: seq<Attempt>, rv: seq<Grant>)
    requires WalkedTo(dir, u, groups, i, j, roles, misjudged, walked) && walked <= news
    requires Emits(rv) == set r | r in roles :: Emit(Grant(account, User(u), r, false))
    ensures Delivered(StretchItems(account, u, walked), rv, news)
  {
    var items := StretchItems(account, u, walked);
    assert forall a :: a in walked ==> a in news;
    forall x ensures Includes(items, x) <==> x in rv {
      StretchDelivers(dir, account, u, misjudged, groups, i, j, roles, walked, x);
      assert x in rv <==> Emit(x) in Emits(rv);
    }
    forall v, g | Resolve(v, g) in items ensures AnsweredFor(news, v, g) {
      var k :| 0 <= k < |walked| && walked[k].group == g;
      assert walked[k] in news;
    }
    forall x, g | Through(x, g) in items ensures HeardFrom(news, x.principal.id, g) {
      var k :| 0 <= k < |walked| && walked[k].group == g && walked[k].answer.value.AppRoles?;
      assert walked[k] in news;
    }
  }

  lemma EmitsDelivered(rv: seq<Grant>)
    ensures Delivered(Emits(rv), rv, [])
  {
  }

  /** What one successful call of the user phase does to its inner stack. */
  ghost predicate UserStepDone(w: World, s: Settings, account: string, misjudged: set<string>,
                               before: seq<PageState>, after: seq<PageState>, rv: seq<Grant>,
                               delivered: set<Item>, news: seq<Attempt>) {
    && Settles(misjudged, UserStackOwed(w, s, account, before), delivered, UserStackOwed(w, s, account, after))
    && UserWorkDone(w, s, before, after, news)
    && Delivered(delivered, rv, news)
    && (ReachableUserStack(w, s, before) ==> ReachableUserStack(w, s, after))
  }

  /** A stretch of a walk is a proper step of the user phase. */
  lemma WalkStep(w: World, s: Settings, account: string, misjudged: set<string>, below: seq<PageState>,
                 top: PageState, start: nat, next: int, roles: set<string>,
                 before: seq<Attempt>, after: seq<Attempt>, rv: seq<Grant>) returns (delivered: set<Item>)
    requires var u := top.resourceID; var groups := GroupsOf(w.dir, u);
             && u != "" && u in w.dir.members && StartIndex(top.token) == Some(start)
             && (start <= |groups| ==> WalkOutcome(w.dir, u, groups, start, roles, next, misjudged, before, after))
             && (start > |groups| ==> roles == {} && next == -1 && after == before)
             && Emits(rv) == set r | r in roles :: Emit(Grant(account, User(u), r, false))
    ensures before <= after
    ensures UserStepDone(w, s, account, misjudged, below + [top], AfterWalk(below, top.resourceID, next), rv,
                         delivered, after[|before|..])
  {
    var u, groups := top.resourceID, GroupsOf(w.dir, top.resourceID);
    if start > |groups| {
      OvershotWalkSettles(w, s, account, misjudged, below, top, start);
      assert AfterWalk(below, u, next) == below;
      assert forall x :: x in rv ==> Emit(x) in Emits(rv);
      delivered := Emits(rv);
      EmitsDelivered(rv);
    } else {
      var walked :| WalkedTo(w.dir, u, groups, start, EndOf(groups, next), roles, misjudged, walked)
                    && after == before + walked + if next < 0 then [] else [Attempt(u, groups[next], Err)];
      var news := walked + if next < 0 then [] else [Attempt(u, groups[next], Err)];
      assert after[|before|..] == news;
      assert walked <= after[|before|..];
      delivered := StretchItems(account, u, walked);
      WalkStepSettles(w, s, account, misjudged, below, top, start, next, roles, walked);
      WalkStepCosts(w, s, misjudged, below, top, start, next, roles, walked, news);
      StretchDelivered(w.dir, account, u, misjudged, groups, start, EndOf(groups, next), roles, walked,
                       after[|before|..], rv);
    }
    WalkKeepsShape(w, s, below, top, next);
  }

  /** A fetched page is a proper step of the user phase. */
  lemma FetchStep(w: World, s: Settings, account: string, misjudged: set<string>, below: seq<PageState>,
                  top: PageState, k: nat, stack: seq<PageState>, rv: seq<Grant>)
    requires ValidWorld(w) && top.resourceID == "" && PageNumber(top.token) == Some(k) && k < |w.listing.userPages|
    requires var keys := w.listing.userPages[k];
             PageProgress(w, s, account, below + PagePart(w, k + 1), keys, |keys|, stack, rv)
    ensures UserStepDone(w, s, account, misjudged, below + [top], stack, rv, Emits(rv), [])
  {
    assert w.listing.userPages[k][..|w.listing.userPages[k]|] == w.listing.userPages[k];
    BelowTheWalkers(w, s, account, below, k);
    UserPagesOwedStep(w, s, account, k);
    UserStackOwedPush(w, s, account, below, top);
    ExactlySettles(misjudged, UserStackOwed(w, s, account, below + [top]), Emits(rv),
                   UserStackOwed(w, s, account, stack));
    PageStepWork(w, s, below, top, k, stack);
    EmitsDelivered(rv);
    FetchKeepsShape(w, s, below, top, k, stack);
  }

  lemma WalkKeepsShape(w: World, s: Settings, below: seq<PageState>, top: PageState, next: int)
    requires top.resourceID != ""
    requires next < 0 || 0 < next < |GroupsOf(w.dir, top.resourceID)|
    ensures ReachableUserStack(w, s, below + [top]) ==>
              ReachableUserStack(w, s, AfterWalk(below, top.resourceID, next))
  {
    if ReachableUserStack(w, s, below + [top]) {
      var k :| UserStackShape(w, s, below + [top], k);
      if next < 0 {
        assert AfterWalk(below, top.resourceID, next) == below;
        PopKeepsShape(w, s, below, top, k);
      } else {
        AdvanceKeepsShape(w, s, below, top, k, next);
      }
    }
  }

  lemma FetchKeepsShape(w: World, s: Settings, below: seq<PageState>, top: PageState, k: nat, stack: seq<PageState>)
    requires ValidWorld(w) && top.resourceID == "" && PageNumber(top.token) == Some(k) && k < |w.listing.userPages|
    requires stack == below + PagePart(w, k + 1) + WalkStates(Walkers(w.dir, s, w.listing.userPages[k]))
    ensures ReachableUserStack(w, s, below + [top]) ==> ReachableUserStack(w, s, stack)
  {
    if ReachableUserStack(w, s, below + [top]) {
      var j :| UserStackShape(w, s, below + [top], j);
      PageStateIsAlone(w, s, below, top, j);
      assert [] + PagePart(w, k + 1) == PagePart(w, k + 1);
      FetchedPageShape(w, s, k, stack);
    }
  }
}
