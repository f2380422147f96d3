/** How one page of either phase moves the outer stack. */
module OuterStep {
  import opened Base
  import opened Pagination
  import opened Domain
  import opened Sessions
  import opened OktaApi
  import opened CacheFacts
  import opened Owed
  import opened TokenShape
  import opened Settlement
  import opened UserSteps

  /** What a successful group-phase page reports, and where the listing continues. */
  ghost predicate GroupPageReported(w: World, s: Settings, account: string, k: nat, rv: seq<Grant>, next: Token) {
    && k < GroupPageCount(w, s)
    && next == CursorAfter(k, GroupPageCount(w, s))
    && Emits(rv) == if s.useGroupMapping
                    then Gather(ToSet(w.listing.orgPages[k]), MappedShare(s, account))
                    else Gather(ToSet(w.listing.groupPages[k]), GroupShare(w.dir, s, account))
  }

  ghost predicate WorkDone(w: World, s: Settings, before: seq<PageState>, after: seq<PageState>, news: seq<Attempt>) {
    && StackCost(Calls, w, s, after) < StackCost(Calls, w, s, before)
    && forall m: Measure :: m.LookUps? ==>
         StackCost(m, w, s, after) + AnsweredPairs(news)[(m.user, m.group)] == StackCost(m, w, s, before)
  }

  /** What one successful call to Grants does to the outer stack: it settles part of what was owed,
      brings the end strictly closer without repeating a look-up, and leaves a stack of a known shape. */
  ghost predicate StepDone(w: World, s: Settings, account: string, misjudged: set<string>,
                           before: seq<PageState>, after: seq<PageState>, rv: seq<Grant>,
                           delivered: set<Item>, news: seq<Attempt>) {
    && Settles(misjudged, StackOwed(w, s, account, before), delivered, StackOwed(w, s, account, after))
    && WorkDone(w, s, before, after, news)
    && Delivered(delivered, rv, news)
    && (StackShape(w, s, before) ==> StackShape(w, s, after))
  }

  /** The stack once its top state has moved to `next`, or is gone. */
  function AfterNext(below: seq<PageState>, top: PageState, next: Token): seq<PageState> {
    if next == Empty then below else below + [top.(token := next)]
  }

  lemma CostAfterNext(m: Measure, w: World, s: Settings, below: seq<PageState>, top: PageState, next: Token)
    ensures StackCost(m, w, s, below + [top]) == StackCost(m, w, s, below) + StateCost(m, w, s, top)
    ensures StackCost(m, w, s, AfterNext(below, top, next))
         == StackCost(m, w, s, below) + if next == Empty then 0 else StateCost(m, w, s, top.(token := next))
  {
    StackCostPush(m, w, s, below, top);
    if next != Empty {
      StackCostPush(m, w, s, below, top.(token := next));
    }
  }

  lemma GroupStep(w: World, s: Settings, account: string, misjudged: set<string>, below: seq<PageState>,
                  top: PageState, k: nat, rv: seq<Grant>, next: Token)
    requires ValidWorld(w) && top.resourceTypeID != USER_TYPE && PageNumber(top.token) == Some(k)
    requires GroupPageReported(w, s, account, k, rv, next)
    ensures StepDone(w, s, account, misjudged, below + [top], AfterNext(below, top, next), rv, Emits(rv), [])
  {
    GroupStepSettles(w, s, account, misjudged, below, top, k, rv, next);
    EmitsDelivered(rv);
    GroupStepShape(w, s, account, below, top, k, rv, next);
  }

  lemma GroupStepSettles(w: World, s: Settings, account: string, misjudged: set<string>, below: seq<PageState>,
                         top: PageState, k: nat, rv: seq<Grant>, next: Token)
    requires top.resourceTypeID != USER_TYPE && PageNumber(top.token) == Some(k)
    requires GroupPageReported(w, s, account, k, rv, next)
    ensures Settles(misjudged, StackOwed(w, s, account, below + [top]), Emits(rv),
                    StackOwed(w, s, account, AfterNext(below, top, next)))
    ensures WorkDone(w, s, below + [top], AfterNext(below, top, next), [])
  {
    StackOwedPush(w, s, account, below, top);
    forall m: Measure {
      CostAfterNext(m, w, s, below, top, next);
    }
    if s.useGroupMapping {
      MappedPagesOwedStep(w, s, account, k);
    } else {
      GroupPagesOwedStep(w, s, account, k);
    }
    NothingOwedPastTheEnd(w, s, account);
    if next != Empty {
      StackOwedPush(w, s, account, below, top.(token := next));
    }
    ExactlySettles(misjudged, StackOwed(w, s, account, below + [top]), Emits(rv),
                   StackOwed(w, s, account, AfterNext(below, top, next)));
  }

  lemma GroupStepShape(w: World, s: Settings, account: string, below: seq<PageState>, top: PageState, k: nat,
                       rv: seq<Grant>, next: Token)
    requires ValidWorld(w) && top.resourceTypeID != USER_TYPE && PageNumber(top.token) == Some(k)
    requires GroupPageReported(w, s, account, k, rv, next)
    ensures StackShape(w, s, below + [top]) ==> StackShape(w, s, AfterNext(below, top, next))
  {
    var stack := below + [top];
    assert stack[|below|] == top;
    if StackShape(w, s, stack) {
      OpeningShape(w, s);
      if next == Empty && !s.useGroupMapping {
        assert below == [PageState(Empty, USER_TYPE, "")];
        assert UserState(w, s, below[0]);
      }
    }
  }

  lemma UserStep(w: World, s: Settings, account: string, misjudged: set<string>, below: seq<PageState>,
                 top: PageState, rv: seq<Grant>, next: Token, delivered: set<Item>, news: seq<Attempt>)
    requires top.resourceTypeID == USER_TYPE && (next.Empty? || next.Stack?)
    requires UserStepDone(w, s, account, misjudged, UserStackOf(top.token), StackOf(next).value, rv, delivered, news)
    ensures StepDone(w, s, account, misjudged, below + [top], AfterNext(below, top, next), rv, delivered, news)
  {
    StackOwedPush(w, s, account, below, top);
    forall m: Measure {
      CostAfterNext(m, w, s, below, top, next);
    }
    if next != Empty {
      StackOwedPush(w, s, account, below, top.(token := next));
    }
    SettleBelow(misjudged, StackOwed(w, s, account, below),
                UserStackOwed(w, s, account, UserStackOf(top.token)), delivered,
                UserStackOwed(w, s, account, StackOf(next).value));
    UserStepShape(w, s, below, top, next);
  }

  lemma UserStepShape(w: World, s: Settings, below: seq<PageState>, top: PageState, next: Token)
    requires top.resourceTypeID == USER_TYPE && (next.Empty? || next.Stack?)
    requires ReachableUserStack(w, s, UserStackOf(top.token)) ==> ReachableUserStack(w, s, StackOf(next).value)
    ensures StackShape(w, s, below + [top]) ==> StackShape(w, s, AfterNext(below, top, next))
  {
  }

  lemma UsersOnTop(w: World, s: Settings, p: Keeping, c: Cache, requests: Requests, misjudged: set<string>,
                   attempts: seq<Attempt>, below: seq<PageState>, top: PageState)
    requires top.resourceTypeID == USER_TYPE && StackShape(w, s, below + [top])
    ensures below == [] && ReachableUserStack(w, s, UserStackOf(top.token)) && !s.useGroupMapping
    ensures PhaseHolds(w, s, p, c, requests, misjudged, attempts, below + [top]) <==> UserPhase(w, p, c, requests, misjudged, attempts)
  {
  }

  /** A store after a call for users: ready for the same token again and for the next one. */
  lemma UserStepPhase(w: World, s: Settings, p: Keeping, c: Cache, requests: Requests, misjudged: set<string>,
                      attempts: seq<Attempt>, below: seq<PageState>, top: PageState, next: Token)
    requires top.resourceTypeID == USER_TYPE && StackShape(w, s, below + [top])
    requires UserPhase(w, p, c, requests, misjudged, attempts)
    ensures PhaseHolds(w, s, p, c, requests, misjudged, attempts, below + [top])
    ensures PhaseHolds(w, s, p, c, requests, misjudged, attempts, AfterNext(below, top, next))
  {
  }

  /** A store after a call for a group page: ready for the same page again, and on success
      for the next one or, after the last, for the users. */
  lemma GroupStepPhase(w: World, s: Settings, account: string, p: Keeping, before: Cache, c: Cache, requests: Requests,
                       misjudged: set<string>, attempts: seq<Attempt>, below: seq<PageState>, top: PageState, k: nat,
                       r: Result<seq<Grant>>, next: Token)
    requires ValidWorld(w) && StackShape(w, s, below + [top])
    requires PhaseHolds(w, s, p, before, requests, misjudged, attempts, below + [top])
    requires top.resourceTypeID != USER_TYPE && PageNumber(top.token) == Some(k)
    requires r.Ok? ==> GroupPageReported(w, s, account, k, r.value, next)
    requires !s.useGroupMapping ==> Collected(w, p, c, k + if r.Ok? then 1 else 0)
    ensures PhaseHolds(w, s, p, c, requests, misjudged, attempts, below + [top])
    ensures r.Ok? ==> PhaseHolds(w, s, p, c, requests, misjudged, attempts, AfterNext(below, top, next))
  {
    var stack := below + [top];
    assert stack[|below|] == top;
    if !s.useGroupMapping && r.Ok? {
      CollectionCanRepeat(w, p, c, k);
    }
    if !s.useGroupMapping && r.Ok? && next == Empty {
      CollectionIsComplete(w, p, c);
      assert below == [PageState(Empty, USER_TYPE, "")];
    }
  }
}
