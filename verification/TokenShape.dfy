/** The tokens a sync can reach, and how one call moves between them. */
module TokenShape {
  import opened Pagination
  import opened Domain
  import opened Owed

  /** The state that asks Okta for page `k` of the application users. */
  function UserPageState(k: nat): PageState {
    PageState(if k == 0 then Empty else Cursor(k), "", "")
  }

  function WalkState(u: string): PageState {
    PageState(Empty, "", u)
  }

  /** The users of a page whose groups have to be walked, in page order. */
  function Walkers(dir: Directory, s: Settings, keys: seq<string>): seq<string> {
    if keys == [] then []
    else
      var front, u := Walkers(dir, s, keys[..|keys| - 1]), keys[|keys| - 1];
      if u in dir.users && WalksGroups(s, dir.users[u]) then front + [u] else front
  }

  lemma {:induction false} WalkersBound(dir: Directory, s: Settings, keys: seq<string>)
    ensures |Walkers(dir, s, keys)| <= |keys|
    ensures forall u :: u in Walkers(dir, s, keys) ==> u in keys && u in dir.users && WalksGroups(s, dir.users[u])
  {
    if keys != [] {
      WalkersBound(dir, s, keys[..|keys| - 1]);
    }
  }

  /** One fresh walk state for each user, first user lowest. */
  function WalkStates(users: seq<string>): (states: seq<PageState>)
    ensures |states| == |users|
    ensures forall j :: 0 <= j < |users| ==> states[j] == WalkState(users[j])
  {
    if users == [] then [] else WalkStates(users[..|users| - 1]) + [WalkState(users[|users| - 1])]
  }

  lemma WalkersOneMore(dir: Directory, s: Settings, keys: seq<string>, i: nat)
    requires i < |keys|
    ensures var walks := keys[i] in dir.users && WalksGroups(s, dir.users[keys[i]]);
            WalkStates(Walkers(dir, s, keys[..i + 1]))
            == WalkStates(Walkers(dir, s, keys[..i])) + if walks then [WalkState(keys[i])] else []
  {
    assert keys[..i + 1][..i] == keys[..i];
    var before := Walkers(dir, s, keys[..i]);
    assert (before + [keys[i]])[..|before|] == before;
  }

  /** The page state for the pages still to come, when there are any. */
  function PagePart(w: World, k: nat): seq<PageState> {
    if k < |w.listing.userPages| then [UserPageState(k)] else []
  }

  ghost predicate WalkerState(dir: Directory, st: PageState, u: string, top: bool) {
    && st.resourceID == u && st.resourceTypeID == ""
    && (st.token == Empty || (top && st.token.Index? && 0 < st.token.index < |GroupsOf(dir, u)|))
  }

  /** An inner stack after `k` pages of users: one page state at the bottom if pages remain, and
      above it the first few walkers of the last page fetched, in order; only the top one may be
      part-way through its groups. */
  ghost predicate UserStackShape(w: World, s: Settings, stack: seq<PageState>, k: nat) {
    var base := PagePart(w, k);
    && k <= |w.listing.userPages|
    && base <= stack
    && (k == 0 ==> stack == base)
    && (k > 0 ==>
          var walkers := Walkers(w.dir, s, w.listing.userPages[k - 1]);
          && |stack| - |base| <= |walkers|
          && forall j :: |base| <= j < |stack| ==>
               WalkerState(w.dir, stack[j], walkers[j - |base|], j == |stack| - 1))
  }

  ghost predicate ReachableUserStack(w: World, s: Settings, stack: seq<PageState>) {
    exists k :: UserStackShape(w, s, stack, k)
  }

  /** An outer stack: groups above users, then users alone, then nothing. */
  ghost predicate StackShape(w: World, s: Settings, stack: seq<PageState>) {
    if s.useGroupMapping then
      stack == [] || (|stack| == 1 && GroupState(stack[0], |w.listing.orgPages|))
    else
      || stack == []
      || (|stack| == 1 && UserState(w, s, stack[0]))
      || (|stack| == 2 && stack[0] == PageState(Empty, USER_TYPE, "")
          && GroupState(stack[1], |w.listing.groupPages|))
  }

  ghost predicate GroupState(st: PageState, pages: nat) {
    && st.resourceTypeID == GROUP_TYPE && st.resourceID == ""
    && PageNumber(st.token).Some? && PageNumber(st.token).value < pages
  }

  ghost predicate UserState(w: World, s: Settings, st: PageState) {
    && st.resourceTypeID == USER_TYPE && st.resourceID == ""
    && (st.token.Empty? || st.token.Stack?)
    && ReachableUserStack(w, s, UserStackOf(st.token))
  }

  /** A group state on top of a stack of known shape asks for a page that exists. */
  lemma GroupOnTop(w: World, s: Settings, below: seq<PageState>, top: PageState)
    requires StackShape(w, s, below + [top]) && top.resourceTypeID != USER_TYPE
    ensures PageNumber(top.token).Some? && PageNumber(top.token).value < GroupPageCount(w, s)
    ensures below == if s.useGroupMapping then [] else [PageState(Empty, USER_TYPE, "")]
  {
  }

  lemma OpeningShape(w: World, s: Settings)
    requires ValidWorld(w)
    ensures StackShape(w, s, OpeningStack(s))
    ensures ReachableUserStack(w, s, [FIRST_USER_PAGE])
  {
    assert UserStackShape(w, s, [FIRST_USER_PAGE], 0);
  }

  /** What the shape of a user-phase token means for a reader: at most one page state and only at
      the bottom, every other entry a user state, only the top one with a position, that position
      inside the user's group list, and no deeper than one page of users plus one. */
  lemma InnerStackIsBounded(w: World, s: Settings, stack: seq<PageState>, k: nat)
    requires ValidWorld(w) && UserStackShape(w, s, stack, k)
    ensures forall j :: |PagePart(w, k)| <= j < |stack| ==> stack[j].resourceID != ""
    ensures forall j :: 0 <= j < |stack| - 1 && stack[j].resourceID != "" ==> stack[j].token == Empty
    ensures forall j :: 0 <= j < |stack| && stack[j].resourceID != "" && stack[j].token != Empty ==>
              stack[j].token.Index? && 0 < stack[j].token.index < |GroupsOf(w.dir, stack[j].resourceID)|
    ensures |stack| <= 1 + if k == 0 then 0 else |w.listing.userPages[k - 1]|
  {
    if k > 0 {
      var page := w.listing.userPages[k - 1];
      WalkersBound(w.dir, s, page);
      var base, walkers := PagePart(w, k), Walkers(w.dir, s, page);
      forall j | |base| <= j < |stack| ensures stack[j].resourceID != "" {
        assert walkers[j - |base|] in walkers;
        assert walkers[j - |base|] in w.dir.users;
      }
    }
  }

  /** Dropping the finished top user keeps the shape. */
  lemma PopKeepsShape(w: World, s: Settings, below: seq<PageState>, top: PageState, k: nat)
    requires UserStackShape(w, s, below + [top], k) && top.resourceID != ""
    ensures UserStackShape(w, s, below, k)
  {
    var base, stack := PagePart(w, k), below + [top];
    assert stack[|below|] == top;
    assert forall j :: 0 <= j < |below| ==> stack[j] == below[j];
  }

  /** So does moving the top user further along. */
  lemma AdvanceKeepsShape(w: World, s: Settings, below: seq<PageState>, top: PageState, k: nat, next: int)
    requires UserStackShape(w, s, below + [top], k) && top.resourceID != ""
    requires 0 < next < |GroupsOf(w.dir, top.resourceID)|
    ensures UserStackShape(w, s, below + [PageState(Index(next), "", top.resourceID)], k)
  {
    var base, stack := PagePart(w, k), below + [top];
    assert stack[|below|] == top;
    assert forall j :: 0 <= j < |below| ==> stack[j] == below[j];
  }

  /** A page state is on top only when it is the whole stack. */
  lemma PageStateIsAlone(w: World, s: Settings, below: seq<PageState>, top: PageState, k: nat)
    requires ValidWorld(w) && UserStackShape(w, s, below + [top], k) && top.resourceID == ""
    ensures below == [] && k < |w.listing.userPages| && top == UserPageState(k)
  {
    var stack := below + [top];
    assert stack[|below|] == top;
    InnerStackIsBounded(w, s, stack, k);
  }

  /** A user on top of a reachable stack is one whose groups are to be walked. */
  lemma WalkerOnTop(w: World, s: Settings, below: seq<PageState>, top: PageState)
    requires ReachableUserStack(w, s, below + [top]) && top.resourceID != ""
    ensures top.resourceID in w.dir.users && WalksGroups(s, w.dir.users[top.resourceID])
    ensures top.token == Empty || (top.token.Index? && 0 < top.token.index)
  {
    var k :| UserStackShape(w, s, below + [top], k);
    var stack, base := below + [top], PagePart(w, k);
    assert stack[|below|] == top;
    assert k > 0 && |below| >= |base|;
    var page := w.listing.userPages[k - 1];
    WalkersBound(w.dir, s, page);
    assert Walkers(w.dir, s, page)[|below| - |base|] in Walkers(w.dir, s, page);
  }

  /** In a clean directory the walk of a user on top of a reachable stack can be gone on with. */
  lemma ClearWalk(w: World, s: Settings, spared: set<string>, below: seq<PageState>, top: PageState)
    requires ReachableUserStack(w, s, below + [top]) && top.resourceID != ""
    requires !s.useGroupMapping && CleanBut(w.dir, s, spared)
    ensures Walkable(w.dir, top.resourceID, spared)
    ensures top.token == Empty || (top.token.Index? && 0 < top.token.index)
  {
    WalkerOnTop(w, s, below, top);
    CleanWalk(w.dir, s, spared, top.resourceID);
  }

  /** A page state on top of a reachable stack asks for a page that exists. */
  lemma PageOnTop(w: World, s: Settings, below: seq<PageState>, top: PageState)
    requires ValidWorld(w) && ReachableUserStack(w, s, below + [top]) && top.resourceID == ""
    ensures PageNumber(top.token).Some? && PageNumber(top.token).value < |w.listing.userPages|
  {
    var k :| UserStackShape(w, s, below + [top], k);
    PageStateIsAlone(w, s, below, top, k);
  }

  /** Fetching page `k` leaves the next page state with all of the page's walkers above it. */
  lemma FetchedPageShape(w: World, s: Settings, k: nat, stack: seq<PageState>)
    requires k < |w.listing.userPages|
    requires stack == PagePart(w, k + 1) + WalkStates(Walkers(w.dir, s, w.listing.userPages[k]))
    ensures UserStackShape(w, s, stack, k + 1)
  {
  }

  /** An unfinished stack of known shape always has at least one call to go. */
  lemma UnfinishedCosts(w: World, s: Settings, stack: seq<PageState>)
    requires ValidWorld(w) && StackShape(w, s, stack) && stack != []
    ensures StackCost(Calls, w, s, stack) > 0
  {
    var below, top := stack[..|stack| - 1], stack[|stack| - 1];
    assert stack == below + [top];
    StackCostPush(Calls, w, s, below, top);
    if top.resourceTypeID == USER_TYPE {
      UnfinishedUsersCost(w, s, UserStackOf(top.token));
    } else {
      GroupOnTop(w, s, below, top);
    }
  }

  lemma UnfinishedUsersCost(w: World, s: Settings, stack: seq<PageState>)
    requires ValidWorld(w) && ReachableUserStack(w, s, stack) && stack != []
    ensures UserStackCost(Calls, w, s, stack) > 0
  {
    var below, top := stack[..|stack| - 1], stack[|stack| - 1];
    assert stack == below + [top];
    UserStackCostPush(Calls, w, s, below, top);
    if top.resourceID == "" {
      PageOnTop(w, s, below, top);
      assert UserStateCost(Calls, w, s, top) == UserPagesCost(Calls, w, s, PageNumber(top.token).value);
    } else {
      WalkerOnTop(w, s, below, top);
      assert UserStateCost(Calls, w, s, top)
          == WalkCost(Calls, top.resourceID, GroupsOf(w.dir, top.resourceID), StartIndex(top.token).value);
    }
  }
}
