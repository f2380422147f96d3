/** The law every call of the sync obeys, and what the session store keeps while it runs. */
module Settlement {
  import opened Base
  import opened Pagination
  import opened Domain
  import opened Sessions
  import opened CacheFacts
  import opened OktaApi
  import opened Owed

  /** One look-up of a group for a user whose groups are walked, and what came back. */
  datatype Attempt = Attempt(user: string, group: string, answer: Result<Membership>)

  predicate TellsRole(a: Attempt, role: string) {
    a.answer.Ok? && a.answer.value.AppRoles? && role in a.answer.value.roles
  }

  ghost predicate AnsweredFor(attempts: seq<Attempt>, u: string, g: string) {
    exists a :: a in attempts && a.user == u && a.group == g && a.answer.Ok?
  }

  ghost predicate HeardFrom(attempts: seq<Attempt>, u: string, g: string) {
    exists a :: a in attempts && a.user == u && a.group == g && a.answer.Ok? && a.answer.value.AppRoles?
  }

  /** An answer is Okta's own, except that a misjudged group is denied. */
  predicate Truthful(dir: Directory, misjudged: set<string>, a: Attempt) {
    a.answer.Ok? && !a.answer.value.Unreadable?
    && (a.answer.value == Direct(dir, a.group) || (a.answer.value == NotAppGroup && a.group in misjudged))
  }

  /** What is owed on account of a misjudged group. */
  predicate Excused(misjudged: set<string>, x: Item) {
    (x.Through? || x.StuckAt?) && x.group in misjudged
  }

  /** Conservation: what was owed is what was delivered plus what is still owed, except for what was
      owed on account of a misjudged group. */
  ghost predicate Settles(misjudged: set<string>, before: set<Item>, delivered: set<Item>, after: set<Item>) {
    && delivered <= before
    && after <= before
    && forall x :: x in before ==> x in delivered || x in after || Excused(misjudged, x)
  }

  /** Whether a grant is among some items, outright or through some group. */
  ghost predicate Includes(items: set<Item>, x: Grant) {
    Emit(x) in items || exists g :: Through(x, g) in items
  }

  /** The delivered items are the grants of the response, the groups their roles were heard from, and
      the look-ups that were answered; nothing that cannot be paid is among them. */
  ghost predicate Delivered(delivered: set<Item>, rv: seq<Grant>, attempts: seq<Attempt>) {
    && (forall x :: Includes(delivered, x) <==> x in rv)
    && (forall x, g :: Through(x, g) in delivered ==> HeardFrom(attempts, x.principal.id, g))
    && (forall u, g :: Resolve(u, g) in delivered ==> AnsweredFor(attempts, u, g))
    && (forall x :: x in delivered ==> Payable(x))
  }

  /** On a steady store, no group got more than one conclusive answer unless the store loses its roles;
      and where there is an ID set, only recorded groups whose roles are lost were asked about at all. */
  ghost predicate CallsBounded(w: World, p: Keeping, c: Cache, requests: Requests) {
    && (forall g :: g !in w.dir.groups || p.keepsRoles(g) ==>
          requests.conclusive[g] <= 1 && (g in requests.conclusive ==> g in c.appGroup || SaysNotAppGroup(c, g)))
    && (Recorded(w, p) != {} ==> forall g :: g in requests.made ==> g in Recorded(w, p) && !p.keepsRoles(g))
  }

  /** On a steady store, only denied groups are misjudged. */
  ghost predicate OnlyDenied(w: World, p: Keeping, misjudged: set<string>) {
    forall g :: g in misjudged ==> Denied(w, p, g)
  }

  /** On a steady store, no roles were heard from a denied group. */
  ghost predicate DeniedUnheard(w: World, p: Keeping, attempts: seq<Attempt>) {
    forall a :: a in attempts && a.answer.Ok? && a.answer.value.AppRoles? ==> !Denied(w, p, a.group)
  }

  ghost predicate SteadyPhase(w: World, p: Keeping, c: Cache, requests: Requests, misjudged: set<string>, attempts: seq<Attempt>) {
    CallsBounded(w, p, c, requests) && OnlyDenied(w, p, misjudged) && DeniedUnheard(w, p, attempts)
  }

  /** A store while users are being processed. */
  ghost predicate UserPhase(w: World, p: Keeping, c: Cache, requests: Requests, misjudged: set<string>, attempts: seq<Attempt>) {
    ReadyForUsers(w, p, c, misjudged) && (p.steady ==> SteadyPhase(w, p, c, requests, misjudged, attempts))
  }

  /** A store between two calls, as far as the next token tells. */
  ghost predicate PhaseHolds(w: World, s: Settings, p: Keeping, c: Cache, requests: Requests,
                             misjudged: set<string>, attempts: seq<Attempt>, stack: seq<PageState>) {
    if s.useGroupMapping then requests == NO_REQUESTS && misjudged == {} && attempts == []
    else if stack == [] || stack[|stack| - 1].resourceTypeID == USER_TYPE then
      UserPhase(w, p, c, requests, misjudged, attempts)
    else
      && PageNumber(stack[|stack| - 1].token).Some?
      && Collected(w, p, c, PageNumber(stack[|stack| - 1].token).value)
      && requests == NO_REQUESTS && misjudged == {} && attempts == []
  }

  // ---- What reads and writes of the store keep ----

  lemma EvictionKeepsSound(dir: Directory, before: Cache, after: Cache, misjudged: set<string>)
    requires CacheSound(dir, before, misjudged) && Evicted(before, after)
    ensures CacheSound(dir, after, misjudged)
  {
  }

  lemma VerdictKeepsSound(dir: Directory, before: Cache, after: Cache, g: string,
                          blind: set<string>, misjudged: set<string>)
    requires CacheSound(dir, before, blind) && blind <= misjudged <= dir.groups.Keys
    requires g !in dir.groups || g in misjudged
    requires Evicted(before, after) || Evicted(before.(notAppGroup := before.notAppGroup[g := true]), after)
    ensures CacheSound(dir, after, misjudged)
  {
  }

  lemma RolesKeepSound(dir: Directory, before: Cache, after: Cache, g: string, wrapper: AppGroupWrapper,
                       misjudged: set<string>)
    requires CacheSound(dir, before, misjudged) && Direct(dir, g) == AppRoles(wrapper.samlRoles)
    requires Evicted(before, after) || Evicted(before.(appGroup := before.appGroup[g := wrapper]), after)
    ensures CacheSound(dir, after, misjudged)
  {
  }

  lemma AgeKeepsUserPhase(w: World, p: Keeping, before: Cache, after: Cache, requests: Requests, misjudged: set<string>,
                          attempts: seq<Attempt>)
    requires UserPhase(w, p, before, requests, misjudged, attempts) && Aged(p, before, after)
    ensures UserPhase(w, p, after, requests, misjudged, attempts)
  {
    AnchorSurvives(w, before, after, misjudged);
  }

  /** Time passing in the store makes no cached fact wrong and ends no phase. */
  lemma AgeIsHarmless(w: World, p: Keeping, before: Cache, after: Cache, requests: Requests, misjudged: set<string>,
                      attempts: seq<Attempt>)
    requires CacheSound(w.dir, before, misjudged) && Aged(p, before, after)
    ensures CacheSound(w.dir, after, misjudged)
    ensures UserPhase(w, p, before, requests, misjudged, attempts) ==> UserPhase(w, p, after, requests, misjudged, attempts)
  {
    EvictionKeepsSound(w.dir, before, after, misjudged);
    if UserPhase(w, p, before, requests, misjudged, attempts) {
      AgeKeepsUserPhase(w, p, before, after, requests, misjudged, attempts);
    }
  }

  /** A verdict read off a present ID set, written or not. */
  lemma VerdictKeepsUserPhase(w: World, p: Keeping, c: Cache, after: Cache, g: string, requests: Requests,
                              blind: set<string>, misjudged: set<string>, attempts: seq<Attempt>)
    requires UserPhase(w, p, c, requests, blind, attempts)
    requires g !in c.appGroup && DeniedByIDSet(c, g)
    requires misjudged == blind + if g in w.dir.groups then {g} else {}
    requires Aged(p, c, after) || Aged(p, c.(notAppGroup := c.notAppGroup[g := true]), after)
    ensures UserPhase(w, p, after, requests, misjudged, attempts)
  {
    var j :| AnchorPage(w, c, blind, j);
    assert AnchorPage(w, after, misjudged, j);
  }

  /** A request that told nothing. */
  lemma RequestKeepsUserPhase(w: World, p: Keeping, c: Cache, g: string, requests: Requests, later: Requests,
                              misjudged: set<string>, attempts: seq<Attempt>)
    requires UserPhase(w, p, c, requests, misjudged, attempts) && (p.steady ==> AsksOkta(c, g))
    requires later == Requests(requests.made + multiset{g}, requests.conclusive)
    ensures UserPhase(w, p, c, later, misjudged, attempts)
  {
    if Recorded(w, p) != {} && p.steady && g in Recorded(w, p) {
      RecordedAreIdentified(w, p, g);
    }
  }

  /** A request that found no app group. */
  lemma AbsenceKeepsUserPhase(w: World, p: Keeping, c: Cache, after: Cache, g: string, requests: Requests, later: Requests,
                              misjudged: set<string>, attempts: seq<Attempt>)
    requires UserPhase(w, p, c, requests, misjudged, attempts) && (p.steady ==> AsksOkta(c, g)) && g !in w.dir.groups
    requires later == Requests(requests.made + multiset{g}, requests.conclusive + multiset{g})
    requires Aged(p, c.(notAppGroup := c.notAppGroup[g := true]), after) || (!p.steady && Aged(p, c, after))
    ensures UserPhase(w, p, after, later, misjudged, attempts)
  {
    AnchorSurvives(w, c, after, misjudged);
    if Recorded(w, p) != {} && p.steady {
      RecordedAreIdentified(w, p, g);
    }
  }

  /** A request that told a group's roles. */
  lemma RolesKeepUserPhase(w: World, p: Keeping, c: Cache, after: Cache, g: string, wrapper: AppGroupWrapper,
                           requests: Requests, later: Requests, misjudged: set<string>, attempts: seq<Attempt>)
    requires UserPhase(w, p, c, requests, misjudged, attempts) && (p.steady ==> AsksOkta(c, g)) && g in w.dir.groups
    requires later == Requests(requests.made + multiset{g}, requests.conclusive + multiset{g})
    requires || (Aged(p, c.(appGroup := c.appGroup[g := wrapper]), after) && (p.steady ==> p.keepsRoles(g)))
             || (!p.keepsRoles(g) && Aged(p, c, after))
    ensures UserPhase(w, p, after, later, misjudged, attempts)
  {
    AnchorSurvives(w, c, after, misjudged);
    if Recorded(w, p) != {} && p.steady {
      RecordedAreIdentified(w, p, g);
    }
  }

  /** In the user phase a steady store hears roles only from groups that are not denied. */
  lemma HeardAreNotDenied(w: World, p: Keeping, c: Cache, requests: Requests, misjudged: set<string>, attempts: seq<Attempt>, g: string)
    requires p.steady && UserPhase(w, p, c, requests, misjudged, attempts)
    requires Answer(w.dir, c, g).AppRoles?
    ensures !Denied(w, p, g)
  {
  }

  /** In the user phase a steady store does not ask about a denied group. */
  lemma DeniedAnswers(w: World, p: Keeping, c: Cache, requests: Requests, misjudged: set<string>, attempts: seq<Attempt>, g: string)
    requires p.steady && UserPhase(w, p, c, requests, misjudged, attempts) && Denied(w, p, g)
    ensures Answer(w.dir, c, g) == NotAppGroup
  {
  }

  lemma AnswerKeepsUserPhase(w: World, p: Keeping, c: Cache, requests: Requests, misjudged: set<string>,
                             attempts: seq<Attempt>, a: Attempt)
    requires UserPhase(w, p, c, requests, misjudged, attempts)
    requires p.steady && a.answer.Ok? && a.answer.value.AppRoles? ==> !Denied(w, p, a.group)
    ensures UserPhase(w, p, c, requests, misjudged, attempts + [a])
  {
  }

  /** Settling the top of a stack settles the stack. */
  lemma SettleBelow(misjudged: set<string>, below: set<Item>, before: set<Item>, delivered: set<Item>, after: set<Item>)
    requires Settles(misjudged, before, delivered, after)
    ensures Settles(misjudged, below + before, delivered, below + after)
  {
  }

  /** Two settlements in a row are one. */
  lemma SettleTwice(early: set<string>, late: set<string>, start: set<Item>, first: set<Item>, middle: set<Item>,
                    second: set<Item>, end: set<Item>)
    requires early <= late
    requires Settles(early, start, first, middle) && Settles(late, middle, second, end)
    ensures Settles(late, start, first + second, end)
  {
  }

  /** A walk that has got from position `start` to position `i`: every group on the way gave a
      truthful answer, and the roles are exactly those the answers told. */
  ghost predicate WalkedTo(dir: Directory, u: string, groups: seq<string>, start: nat, i: nat,
                           roles: set<string>, misjudged: set<string>, attempts: seq<Attempt>) {
    && start <= i <= |groups|
    && |attempts| == i - start
    && (forall j :: 0 <= j < |attempts| ==>
          attempts[j].user == u && attempts[j].group == groups[start + j] && Truthful(dir, misjudged, attempts[j]))
    && (forall r :: r in roles ==> exists j :: 0 <= j < |attempts| && TellsRole(attempts[j], r))
    && (forall j, r :: 0 <= j < |attempts| && TellsRole(attempts[j], r) ==> r in roles)
  }

  lemma WalkBegins(dir: Directory, u: string, groups: seq<string>, start: nat, misjudged: set<string>)
    requires start <= |groups|
    ensures WalkedTo(dir, u, groups, start, start, {}, misjudged, [])
  {
  }

  lemma WalkOneMore(dir: Directory, u: string, groups: seq<string>, start: nat, i: nat, roles: set<string>, more: set<string>,
                    early: set<string>, late: set<string>, attempts: seq<Attempt>, a: Attempt)
    requires WalkedTo(dir, u, groups, start, i, roles, early, attempts) && i < |groups| && early <= late
    requires a.user == u && a.group == groups[i] && Truthful(dir, late, a)
    requires more == roles + if a.answer.value.AppRoles? then ToSet(a.answer.value.roles) else {}
    ensures WalkedTo(dir, u, groups, start, i + 1, more, late, attempts + [a])
  {
    var all := attempts + [a];
    forall r | r in more ensures exists j :: 0 <= j < |all| && TellsRole(all[j], r) {
      if r in roles {
        var j :| 0 <= j < |attempts| && TellsRole(attempts[j], r);
        assert all[j] == attempts[j];
      } else {
        assert TellsRole(all[|attempts|], r);
      }
    }
  }

  lemma ExtendedBlindness(dir: Directory, u: string, groups: seq<string>, start: nat, i: nat, roles: set<string>,
                          early: set<string>, late: set<string>, attempts: seq<Attempt>)
    requires WalkedTo(dir, u, groups, start, i, roles, early, attempts) && early <= late
    ensures WalkedTo(dir, u, groups, start, i, roles, late, attempts)
  {
  }

  /** Where a walk that started at `start` ended when it says to continue at `next` (-1: never). */
  function EndOf(groups: seq<string>, next: int): nat {
    if next < 0 then |groups| else next
  }

  /** A successful walk: it stopped at the end or, with progress made, at a group whose look-up
      failed; every group before that was answered, and the roles are those groups' roles. */
  ghost predicate WalkOutcome(dir: Directory, u: string, groups: seq<string>, start: nat, roles: set<string>, next: int,
                              misjudged: set<string>, before: seq<Attempt>, after: seq<Attempt>) {
    && (next == -1 || start < next < |groups|)
    && exists walked ::
         && WalkedTo(dir, u, groups, start, EndOf(groups, next), roles, misjudged, walked)
         && after == before + walked + if next < 0 then [] else [Attempt(u, groups[next], Err)]
  }

  lemma WalkStops(dir: Directory, u: string, groups: seq<string>, start: nat, roles: set<string>, next: int,
                  misjudged: set<string>, before: seq<Attempt>, walked: seq<Attempt>, after: seq<Attempt>)
    requires next == -1 || start < next < |groups|
    requires WalkedTo(dir, u, groups, start, EndOf(groups, next), roles, misjudged, walked)
    requires after == before + walked + if next < 0 then [] else [Attempt(u, groups[next], Err)]
    ensures WalkOutcome(dir, u, groups, start, roles, next, misjudged, before, after)
  {
  }

  /** A failed walk: its first look-up was not answered. */
  ghost predicate FailedAtOnce(u: string, groups: seq<string>, start: int, before: seq<Attempt>, after: seq<Attempt>) {
    0 <= start < |groups| && after == before + [Attempt(u, groups[start], Err)]
  }

  /** The look-ups that were answered, in order. */
  function AnsweredOnly(attempts: seq<Attempt>): seq<Attempt> {
    if attempts == [] then []
    else
      var front, last := AnsweredOnly(attempts[..|attempts| - 1]), attempts[|attempts| - 1];
      if last.answer.Ok? then front + [last] else front
  }

  lemma {:induction false} AnsweredOnlyConcat(a: seq<Attempt>, b: seq<Attempt>)
    ensures AnsweredOnly(a + b) == AnsweredOnly(a) + AnsweredOnly(b)
  {
    if b == [] {
      assert a + b == a;
    } else {
      var front, last := b[..|b| - 1], b[|b| - 1];
      AnsweredOnlyConcat(a, front);
      assert (a + b)[..|a + b| - 1] == a + front;
    }
  }

  lemma {:induction false} AllAnswered(attempts: seq<Attempt>)
    requires forall j :: 0 <= j < |attempts| ==> attempts[j].answer.Ok?
    ensures AnsweredOnly(attempts) == attempts
  {
    if attempts != [] {
      AllAnswered(attempts[..|attempts| - 1]);
      assert attempts == attempts[..|attempts| - 1] + [attempts[|attempts| - 1]];
    }
  }

  lemma FailureIsDropped(attempts: seq<Attempt>, u: string, g: string)
    ensures AnsweredOnly(attempts + [Attempt(u, g, Err)]) == AnsweredOnly(attempts)
  {
  }

  lemma FailureAddsNothing(u: string, groups: seq<string>, start: int, before: seq<Attempt>, after: seq<Attempt>)
    requires after == before || FailedAtOnce(u, groups, start, before, after)
    ensures before <= after && AnsweredOnly(after[|before|..]) == []
  {
  }

  lemma OutcomeAddsStretch(dir: Directory, u: string, groups: seq<string>, start: nat, roles: set<string>, next: int,
                           misjudged: set<string>, before: seq<Attempt>, after: seq<Attempt>)
    requires WalkOutcome(dir, u, groups, start, roles, next, misjudged, before, after)
    ensures before <= after
    ensures WalkedTo(dir, u, groups, start, EndOf(groups, next), roles, misjudged, AnsweredOnly(after[|before|..]))
  {
    var walked :| WalkedTo(dir, u, groups, start, EndOf(groups, next), roles, misjudged, walked)
                  && after == before + walked + if next < 0 then [] else [Attempt(u, groups[next], Err)];
    AllAnswered(walked);
    if next < 0 {
      assert after[|before|..] == walked;
    } else {
      assert after[|before|..] == walked + [Attempt(u, groups[next], Err)];
      FailureIsDropped(walked, u, groups[next]);
    }
  }

  /** The users and groups of answered look-ups, each as often as it was answered. */
  function AnsweredPairs(attempts: seq<Attempt>): multiset<(string, string)> {
    if attempts == [] then multiset{}
    else
      var front, last := AnsweredPairs(attempts[..|attempts| - 1]), attempts[|attempts| - 1];
      if last.answer.Ok? then front + multiset{(last.user, last.group)} else front
  }

  lemma {:induction false} AnsweredPairsConcat(a: seq<Attempt>, b: seq<Attempt>)
    ensures AnsweredPairs(a + b) == AnsweredPairs(a) + AnsweredPairs(b)
  {
    if b == [] {
      assert a + b == a;
    } else {
      var front := b[..|b| - 1];
      AnsweredPairsConcat(a, front);
      assert (a + b)[..|a + b| - 1] == a + front;
    }
  }

  lemma {:induction false} NoAnswersNoPairs(attempts: seq<Attempt>)
    requires AnsweredOnly(attempts) == []
    ensures AnsweredPairs(attempts) == multiset{}
  {
    if attempts != [] {
      NoAnswersNoPairs(attempts[..|attempts| - 1]);
    }
  }

  /** Answers for one user about some groups in a row count each of those groups for that user. */
  lemma {:induction false} StretchPairs(u: string, groups: seq<string>, attempts: seq<Attempt>, v: string, g: string)
    requires |attempts| == |groups|
    requires forall j :: 0 <= j < |attempts| ==> attempts[j].user == u && attempts[j].group == groups[j] && attempts[j].answer.Ok?
    ensures AnsweredPairs(attempts)[(v, g)] == if u == v then multiset(groups)[g] else 0
  {
    if attempts != [] {
      var n := |attempts| - 1;
      StretchPairs(u, groups[..n], attempts[..n], v, g);
      assert groups == groups[..n] + [groups[n]];
    }
  }

  /** What the answers of one stretch of a walk hand over: look-ups, and grants through the groups
      that told their roles. */
  function StretchItems(account: string, u: string, attempts: seq<Attempt>): set<Item> {
    (set a | a in attempts :: Resolve(u, a.group))
    + (set a, r | a in attempts && a.answer.Ok? && a.answer.value.AppRoles? && r in a.answer.value.roles ::
         Through(Grant(account, User(u), r, false), a.group))
  }

  lemma StretchIsOwed(dir: Directory, account: string, u: string, misjudged: set<string>, groups: seq<string>,
                      i: nat, j: nat, roles: set<string>, attempts: seq<Attempt>, x: Item)
    requires WalkedTo(dir, u, groups, i, j, roles, misjudged, attempts)
    requires x in StretchItems(account, u, attempts)
    ensures x in WalkItems(dir, account, u, groups[i..j])
  {
    var stretch := groups[i..j];
    if x.Resolve? {
      var k :| 0 <= k < |attempts| && attempts[k].group == x.group;
      assert stretch[k] == x.group;
      WalkOwes(dir, account, u, stretch, Grant(account, User(u), "", false), x.group);
    } else {
      var k :| 0 <= k < |attempts| && attempts[k].group == x.group && TellsRole(attempts[k], x.grant.role);
      assert stretch[k] == x.group;
      WalkOwes(dir, account, u, stretch, x.grant, x.group);
    }
  }

  lemma StretchIsComplete(dir: Directory, account: string, u: string, misjudged: set<string>, groups: seq<string>,
                          i: nat, j: nat, roles: set<string>, attempts: seq<Attempt>, x: Item)
    requires WalkedTo(dir, u, groups, i, j, roles, misjudged, attempts)
    requires x in WalkItems(dir, account, u, groups[i..j])
    ensures x in StretchItems(account, u, attempts) || Excused(misjudged, x)
  {
    var stretch := groups[i..j];
    var g :| g in ToSet(stretch) && x in LookupShare(dir, account, u)(g);
    var k :| 0 <= k < |stretch| && stretch[k] == g;
    assert attempts[k].group == g && attempts[k] in attempts;
  }

  /** One stretch of a walk: its answers, together with the misjudged groups, settle it. */
  lemma StretchSettles(dir: Directory, account: string, u: string, misjudged: set<string>,
                       groups: seq<string>, i: nat, j: nat, roles: set<string>, attempts: seq<Attempt>)
    requires WalkedTo(dir, u, groups, i, j, roles, misjudged, attempts)
    ensures Settles(misjudged, WalkItems(dir, account, u, groups[i..]),
                    StretchItems(account, u, attempts), WalkItems(dir, account, u, groups[j..]))
  {
    WalkItemsSplit(dir, account, u, groups, i, j);
    forall x | x in StretchItems(account, u, attempts) ensures x in WalkItems(dir, account, u, groups[i..j]) {
      StretchIsOwed(dir, account, u, misjudged, groups, i, j, roles, attempts, x);
    }
    forall x | x in WalkItems(dir, account, u, groups[i..j])
      ensures x in StretchItems(account, u, attempts) || Excused(misjudged, x)
    {
      StretchIsComplete(dir, account, u, misjudged, groups, i, j, roles, attempts, x);
    }
  }

  /** A stretch hands over exactly the grants for the roles it collected. */
  lemma StretchDelivers(dir: Directory, account: string, u: string, misjudged: set<string>, groups: seq<string>,
                        i: nat, j: nat, roles: set<string>, attempts: seq<Attempt>, x: Grant)
    requires WalkedTo(dir, u, groups, i, j, roles, misjudged, attempts)
    ensures Includes(StretchItems(account, u, attempts), x) <==> x == Grant(account, User(u), x.role, false) && x.role in roles
  {
  }
}
