/** Whole runs of the grant sync, from the empty token to the empty token. */
module SyncRun {
  import opened Base
  import opened Pagination
  import opened Domain
  import opened Sessions
  import opened CacheFacts
  import opened OktaApi
  import opened Owed
  import opened TokenShape
  import opened Settlement
  import opened OuterStep
  import opened AccountSync

  /** Grants that need a walk and that only misjudged groups stand for. */
  ghost predicate MayBeMissed(dir: Directory, s: Settings, account: string, misjudged: set<string>, x: Grant) {
    && ByWalk(dir, s, account, x)
    && forall g :: StandsFor(dir, s, account, x, g) ==> g in misjudged
  }

  /** The report of a sync with a reliable store: everything that should be reported, except, where an
      ID set is kept, what only groups without an identifier stand for. */
  ghost predicate ListedReport(w: World, s: Settings, account: string, reported: set<Grant>)
    requires |w.listing.groupPages| > 0
  {
    forall x :: x in reported <==>
      ShouldReport(w.dir, s, account, x) && !(KeepsIDSet(w) && Unlisted(w.dir, s, account, x))
  }

  /** Walk-grants that a steady store hides: it denies every group that stands for them. */
  ghost predicate Hidden(w: World, p: Keeping, s: Settings, account: string, x: Grant) {
    && ByWalk(w.dir, s, account, x)
    && forall g :: StandsFor(w.dir, s, account, x, g) ==> Denied(w, p, g)
  }

  /** The report of a sync with a steady store. */
  ghost predicate SteadyReport(w: World, p: Keeping, s: Settings, account: string, reported: set<Grant>) {
    forall x :: x in reported <==> ShouldReport(w.dir, s, account, x) && !Hidden(w, p, s, account, x)
  }

  ghost predicate StandsOnPage(w: World, s: Settings, account: string, x: Grant, j: nat)
    requires j < |w.listing.groupPages|
  {
    exists g :: StandsFor(w.dir, s, account, x, g) && g in PageIDs(w.dir, w.listing.groupPages[j])
  }

  /** Grants no store that keeps certain role entries can lose, whatever becomes of everything else in
      it: those that need no walk, that come with a safe group, or that come with some group of every
      page whose IDs are collected. */
  ghost predicate Sure(w: World, p: Keeping, s: Settings, account: string, x: Grant) {
    || !ByWalk(w.dir, s, account, x)
    || (exists g :: StandsFor(w.dir, s, account, x, g) && Safe(w.dir, p, g))
    || (forall j: nat :: j < |w.listing.groupPages| && CollectingPage(w, j) ==> StandsOnPage(w, s, account, x, j))
  }

  /** The report of a finished sync with any store: nothing that should not be there, and everything
      that is sure. */
  ghost predicate SureReport(w: World, p: Keeping, s: Settings, account: string, reported: set<Grant>) {
    && (forall x :: x in reported ==> ShouldReport(w.dir, s, account, x))
    && (forall x :: ShouldReport(w.dir, s, account, x) && Sure(w, p, s, account, x) ==> x in reported)
  }

  /** With a reliable store only app groups without an identifier are misjudged, and only where an ID
      set is kept. */
  ghost predicate OnlyAnonymous(w: World, misjudged: set<string>)
    requires |w.listing.groupPages| > 0
  {
    forall g :: g in misjudged ==> Anonymous(w.dir, g) && KeepsIDSet(w)
  }

  /** Settled items are the reported grants, roles heard from groups, and answered look-ups. */
  ghost predicate Corresponds(settled: set<Item>, reported: set<Grant>, attempts: seq<Attempt>) {
    && (forall x :: x in reported <==> Includes(settled, x))
    && (forall x, g :: Through(x, g) in settled ==> HeardFrom(attempts, x.principal.id, g))
    && (forall u, g :: Resolve(u, g) in settled ==> AnsweredFor(attempts, u, g))
    && (forall x :: x in settled ==> Payable(x))
  }

  /** What has happened in a run: look-ups made, groups misjudged, the stack the next call works on,
      what was reported and settled, and how many calls counted. */
  datatype Run = Run(attempts: seq<Attempt>, misjudged: set<string>, stack: seq<PageState>,
                     reported: set<Grant>, settled: set<Item>, succeeded: nat, lossy: bool)

  function Begun(s: Settings, lossy: bool): Run {
    Run([], {}, OpeningStack(s), {}, {}, 0, lossy)
  }

  /** A call that failed or whose response was lost. */
  function Waited(run: Run, attempts: seq<Attempt>, misjudged: set<string>): Run {
    run.(attempts := attempts, misjudged := misjudged)
  }

  /** A call that counted. */
  function Continued(run: Run, attempts: seq<Attempt>, misjudged: set<string>, stack: seq<PageState>,
                     rv: seq<Grant>, delivered: set<Item>): Run {
    Run(attempts, misjudged, stack, run.reported + ToSet(rv), run.settled + delivered, run.succeeded + 1, run.lossy)
  }

  /** A run so far: settled items and reported grants correspond, nothing was settled that was not
      owed, every call that counted brought the end closer, and no look-up was wasted. */
  ghost predicate RunSoFar(w: World, s: Settings, account: string, run: Run) {
    && Settles(run.misjudged, StackOwed(w, s, account, OpeningStack(s)), run.settled, StackOwed(w, s, account, run.stack))
    && Corresponds(run.settled, run.reported, run.attempts)
    && StackShape(w, s, run.stack)
    && run.succeeded + StackCost(Calls, w, s, run.stack) <= StackCost(Calls, w, s, OpeningStack(s))
    && LookUpsAccounted(w, s, run.attempts, run.stack, run.lossy)
  }

  lemma RunBegins(w: World, s: Settings, account: string, lossy: bool)
    requires ValidWorld(w)
    ensures RunSoFar(w, s, account, Begun(s, lossy))
  {
    NoDebtIsSettled(StackOwed(w, s, account, OpeningStack(s)));
    NoLookUpIsMade(w, s, lossy);
  }

  lemma NoDebtIsSettled(owed: set<Item>)
    ensures Settles({}, owed, {}, owed) && Corresponds({}, {}, [])
  {
  }

  lemma NoLookUpIsMade(w: World, s: Settings, lossy: bool)
    requires ValidWorld(w)
    ensures LookUpsAccounted(w, s, [], OpeningStack(s), lossy)
  {
    forall u, g ensures StackCost(LookUps(u, g), w, s, OpeningStack(s)) == LookUpsNeeded(w, s)[(u, g)] {
      OpeningLookUps(w, s, u, g);
    }
  }

  lemma RunContinues(w: World, s: Settings, account: string, run: Run, attempts: seq<Attempt>, misjudged: set<string>,
                     stack: seq<PageState>, rv: seq<Grant>, delivered: set<Item>)
    requires RunSoFar(w, s, account, run) && run.misjudged <= misjudged && run.attempts <= attempts
    requires StepDone(w, s, account, misjudged, run.stack, stack, rv, delivered, attempts[|run.attempts|..])
    ensures RunSoFar(w, s, account, Continued(run, attempts, misjudged, stack, rv, delivered))
  {
    SettleTwice(run.misjudged, misjudged, StackOwed(w, s, account, OpeningStack(s)), run.settled,
                StackOwed(w, s, account, run.stack), delivered, StackOwed(w, s, account, stack));
    StepCorresponds(run.settled, run.reported, run.attempts, attempts, delivered, rv);
    LookUpsContinue(w, s, run.attempts, attempts, run.stack, stack, run.lossy);
  }

  lemma StepCorresponds(settled: set<Item>, reported: set<Grant>, attempts: seq<Attempt>, attempts': seq<Attempt>,
                        delivered: set<Item>, rv: seq<Grant>)
    requires attempts <= attempts' && Corresponds(settled, reported, attempts)
    requires Delivered(delivered, rv, attempts'[|attempts|..])
    ensures Corresponds(settled + delivered, reported + ToSet(rv), attempts')
  {
  }

  lemma HeardLater(before: seq<Attempt>, news: seq<Attempt>, u: string, g: string)
    ensures HeardFrom(before, u, g) || HeardFrom(news, u, g) ==> HeardFrom(before + news, u, g)
    ensures AnsweredFor(before, u, g) || AnsweredFor(news, u, g) ==> AnsweredFor(before + news, u, g)
  {
  }

  lemma WaitCorresponds(settled: set<Item>, reported: set<Grant>, attempts: seq<Attempt>, attempts': seq<Attempt>)
    requires attempts <= attempts' && Corresponds(settled, reported, attempts)
    ensures Corresponds(settled, reported, attempts')
  {
    var news := attempts'[|attempts|..];
    assert attempts' == attempts + news;
    forall u, g ensures HeardFrom(attempts, u, g) ==> HeardFrom(attempts', u, g)
                ensures AnsweredFor(attempts, u, g) ==> AnsweredFor(attempts', u, g)
    {
      HeardLater(attempts, news, u, g);
    }
  }

  lemma RunWaits(w: World, s: Settings, account: string, run: Run, attempts: seq<Attempt>, misjudged: set<string>)
    requires RunSoFar(w, s, account, run) && run.misjudged <= misjudged && run.attempts <= attempts
    requires run.lossy || AnsweredOnly(attempts[|run.attempts|..]) == []
    ensures RunSoFar(w, s, account, Waited(run, attempts, misjudged))
  {
    WaitCorresponds(run.settled, run.reported, run.attempts, attempts);
    if !run.lossy {
      NoAnswersNoPairs(attempts[|run.attempts|..]);
    }
    LookUpsContinue(w, s, run.attempts, attempts, run.stack, run.stack, run.lossy);
  }

  /** What a run has reported is right at any time. */
  lemma RunIsRight(w: World, s: Settings, account: string, run: Run, x: Grant)
    requires ValidWorld(w) && RunSoFar(w, s, account, run)
    ensures x in run.reported ==> ShouldReport(w.dir, s, account, x)
    ensures x in run.reported && ByWalk(w.dir, s, account, x) ==>
              exists g :: StandsFor(w.dir, s, account, x, g) && HeardFrom(run.attempts, x.principal.id, g)
  {
    if Includes(run.settled, x) {
      OpeningOwesTheReport(w, s, account, x, "");
      if exists g :: Through(x, g) in run.settled {
        var g :| Through(x, g) in run.settled;
        OpeningOwesTheReport(w, s, account, x, g);
        assert StandsFor(w.dir, s, account, x, g) && HeardFrom(run.attempts, x.principal.id, g);
      }
    }
  }

  /** What a finished run has reported is complete, except for what only misjudged groups stand for. */
  lemma RunIsComplete(w: World, s: Settings, account: string, run: Run, x: Grant)
    requires ValidWorld(w) && RunSoFar(w, s, account, run) && run.stack == []
    requires ShouldReport(w.dir, s, account, x)
    ensures x in run.reported || MayBeMissed(w.dir, s, account, run.misjudged, x)
  {
    if !ByWalk(w.dir, s, account, x) {
      OpeningOwesTheReport(w, s, account, x, "");
      DebtIsSettled(w, s, account, run, Emit(x));
      assert Includes(run.settled, x);
    } else if !MayBeMissed(w.dir, s, account, run.misjudged, x) {
      var g :| StandsFor(w.dir, s, account, x, g) && g !in run.misjudged;
      OpeningOwesTheReport(w, s, account, x, g);
      DebtIsSettled(w, s, account, run, Through(x, g));
      assert Includes(run.settled, x);
    }
  }

  /** A finished run has settled what it was to settle. */
  lemma DebtIsSettled(w: World, s: Settings, account: string, run: Run, x: Item)
    requires RunSoFar(w, s, account, run) && run.stack == []
    requires x in StackOwed(w, s, account, OpeningStack(s)) && !Excused(run.misjudged, x)
    ensures x in run.settled
  {
  }

  /** A finished run had every group of every walked user answered. */
  lemma RunResolvesEveryWalk(w: World, s: Settings, account: string, run: Run, u: string, g: string)
    requires ValidWorld(w) && !s.useGroupMapping && RunSoFar(w, s, account, run) && run.stack == []
    requires u in w.dir.users && WalksGroups(s, w.dir.users[u]) && BelongsTo(w.dir, u, g)
    ensures AnsweredFor(run.attempts, u, g)
  {
    OpeningOwesEveryWalk(w, s, account, u, g);
    DebtIsSettled(w, s, account, run, Resolve(u, g));
  }

  /** Answered look-ups so far and look-ups to go: for each user and group none was wasted, except where
      responses got lost. */
  ghost predicate LookUpsAccounted(w: World, s: Settings, attempts: seq<Attempt>, stack: seq<PageState>, lossy: bool) {
    forall u, g ::
      var accounted := AnsweredPairs(attempts)[(u, g)] + StackCost(LookUps(u, g), w, s, stack);
      LookUpsNeeded(w, s)[(u, g)] <= accounted && (!lossy ==> accounted == LookUpsNeeded(w, s)[(u, g)])
  }

  lemma LookUpsContinue(w: World, s: Settings, attempts: seq<Attempt>, attempts': seq<Attempt>,
                        stack: seq<PageState>, stack': seq<PageState>, lossy: bool)
    requires attempts <= attempts' && LookUpsAccounted(w, s, attempts, stack, lossy)
    requires var news := attempts'[|attempts|..];
             if stack == stack' then lossy || AnsweredPairs(news) == multiset{} else WorkDone(w, s, stack, stack', news)
    ensures LookUpsAccounted(w, s, attempts', stack', lossy)
  {
    var news := attempts'[|attempts|..];
    assert attempts' == attempts + news;
    AnsweredPairsConcat(attempts, news);
    forall u, g
      ensures var accounted := AnsweredPairs(attempts')[(u, g)] + StackCost(LookUps(u, g), w, s, stack');
              LookUpsNeeded(w, s)[(u, g)] <= accounted && (!lossy ==> accounted == LookUpsNeeded(w, s)[(u, g)])
    {
      var m := LookUps(u, g);
      assert AnsweredPairs(attempts')[(u, g)] == AnsweredPairs(attempts)[(u, g)] + AnsweredPairs(news)[(u, g)];
      assert stack != stack' ==> StackCost(m, w, s, stack') + AnsweredPairs(news)[(m.user, m.group)] == StackCost(m, w, s, stack);
    }
  }

  lemma WalkIsOwed(dir: Directory, s: Settings, account: string, u: string, g: string)
    requires u in dir.users && WalksGroups(s, dir.users[u]) && BelongsTo(dir, u, g)
    ensures Resolve(u, g) in UserItems(dir, s, account, u)
  {
    GroupsOfMembers(dir, u, g);
    WalkOwes(dir, account, u, GroupsOf(dir, u), Grant(account, User(u), "", false), g);
  }

  lemma OpeningOwesEveryWalk(w: World, s: Settings, account: string, u: string, g: string)
    requires ValidWorld(w) && !s.useGroupMapping
    requires u in w.dir.users && WalksGroups(s, w.dir.users[u]) && BelongsTo(w.dir, u, g)
    ensures Resolve(u, g) in StackOwed(w, s, account, OpeningStack(s))
  {
    OpeningOwesAllPages(w, s, account);
    WalkIsOwed(w.dir, s, account, u, g);
    assert u in w.dir.users.Keys && Resolve(u, g) in UserShare(w.dir, s, account)(u);
  }

  /** A run that can go on with a token, or is done: the books are right, the store is where the token
      needs it to be, and the token is for the stack the books are about. */
  ghost predicate Underway(accounts: AccountResource, run: Run, token: Token, done: bool)
    reads accounts, accounts.okta, accounts.ss
  {
    && accounts.Stable() && accounts.Sound() && accounts.InPhase(run.stack)
    && RunSoFar(accounts.okta.Snapshot(), accounts.settings, accounts.account, run)
    && run.attempts == accounts.attempts && run.misjudged == accounts.misjudged
    && if done then run.stack == []
       else run.stack == WorkingStack(accounts.settings, token) && StackOf(token).Ok? && run.stack != []
  }

  /** The stack of a response is the one the next call works on, or empty when there is none. */
  lemma NextStack(s: Settings, token: Token)
    requires StackOf(token).Ok?
    ensures if token == Empty then StackOf(token).value == []
            else WorkingStack(s, token) == StackOf(token).value && StackOf(token).value != []
  {
  }

  /** Where a steady store finds nothing in its way, every stack a run can reach can be worked on. */
  lemma PassableIsClear(accounts: AccountResource, stack: seq<PageState>)
    requires accounts.InPhase(stack) && stack != []
    ensures accounts.ss.keeping.steady && Passable(accounts.okta.Snapshot(), accounts.ss.keeping, accounts.settings) ==>
              accounts.Clear(stack)
  {
    if accounts.ss.keeping.steady && Passable(accounts.okta.Snapshot(), accounts.ss.keeping, accounts.settings)
       && stack[|stack| - 1].resourceTypeID == USER_TYPE {
      assert !accounts.settings.useGroupMapping;
    }
  }

  /** One call of a run. It may fail, and on a lossy connection its response may be lost although the
      call did its work. */
  method CallOnce(accounts: AccountResource, token: Token, lossy: bool, ghost run: Run)
    returns (counted: bool, nextToken: Token, rv: seq<Grant>, ghost delivered: set<Item>, ghost later: Run)
    requires Underway(accounts, run, token, false) && run.lossy == lossy
    modifies accounts.ss, accounts.okta`requests, accounts`attempts, accounts`misjudged
    ensures accounts.Sound() && accounts.InPhase(later.stack)
    ensures RunSoFar(accounts.okta.Snapshot(), accounts.settings, accounts.account, later)
    ensures counted ==> StackOf(nextToken).Ok?
    ensures later == if counted
                     then Continued(run, accounts.attempts, accounts.misjudged, StackOf(nextToken).value, rv, delivered)
                     else Waited(run, accounts.attempts, accounts.misjudged)
    ensures (!lossy && !accounts.okta.flaky && accounts.ss.keeping.steady && Passable(accounts.okta.Snapshot(), accounts.ss.keeping, accounts.settings)) ==> counted
  {
    ghost var w, s, account := accounts.okta.Snapshot(), accounts.settings, accounts.account;
    var r;
    PassableIsClear(accounts, run.stack);
    r, nextToken, delivered := accounts.Grants(token);
    assert accounts.okta.Snapshot() == w;
    var lost: bool := *;
    counted, rv := r.Ok? && !(lossy && lost), [];
    if counted {
      rv := r.value;
      ghost var stack := StackOf(nextToken).value;
      RunContinues(w, s, account, run, accounts.attempts, accounts.misjudged, stack, rv, delivered);
      later := Continued(run, accounts.attempts, accounts.misjudged, stack, rv, delivered);
      assert RunSoFar(w, s, account, later) && later.stack == stack;
    } else {
      RunWaits(w, s, account, run, accounts.attempts, accounts.misjudged);
      later := Waited(run, accounts.attempts, accounts.misjudged);
      assert RunSoFar(w, s, account, later) && later.stack == run.stack;
    }
  }

  /** The last token that arrived, after one more call. */
  method CallAgain(accounts: AccountResource, token: Token, lossy: bool, ghost run: Run)
    returns (counted: bool, last: Token, rv: seq<Grant>, ghost later: Run)
    requires Underway(accounts, run, token, false) && run.lossy == lossy
    modifies accounts.ss, accounts.okta`requests, accounts`attempts, accounts`misjudged
    ensures Underway(accounts, later, last, counted && last == Empty)
    ensures !counted ==> last == token && rv == []
    ensures later.reported == run.reported + ToSet(rv) && later.lossy == lossy
    ensures later.succeeded == run.succeeded + if counted then 1 else 0
    ensures (!lossy && !accounts.okta.flaky && accounts.ss.keeping.steady && Passable(accounts.okta.Snapshot(), accounts.ss.keeping, accounts.settings)) ==> counted
  {
    ghost var delivered;
    counted, last, rv, delivered, later := CallOnce(accounts, token, lossy, run);
    if counted {
      NextStack(accounts.settings, last);
    } else {
      last, rv := token, [];
    }
  }

  lemma RunCanBegin(accounts: AccountResource, lossy: bool)
    requires accounts.Stable()
    requires accounts.ss.cache == EMPTY_CACHE && accounts.okta.requests == NO_REQUESTS
    requires accounts.misjudged == {} && accounts.attempts == []
    ensures Underway(accounts, Begun(accounts.settings, lossy), Empty, false)
  {
    RunBegins(accounts.okta.Snapshot(), accounts.settings, accounts.account, lossy);
    FreshPhase(accounts.okta.Snapshot(), accounts.settings, accounts.ss.keeping);
  }

  /** Makes at most `maxCalls` calls, each with the last token whose response arrived: after a failure or
      a lost response the same token is used again. */
  method MakeCalls(accounts: AccountResource, maxCalls: nat, lossy: bool)
    returns (done: bool, reported: set<Grant>, succeeded: nat, failed: nat, ghost run: Run, ghost last: Token)
    requires accounts.Stable()
    requires accounts.ss.cache == EMPTY_CACHE && accounts.okta.requests == NO_REQUESTS
    requires accounts.misjudged == {} && accounts.attempts == []
    modifies accounts.ss, accounts.okta`requests, accounts`attempts, accounts`misjudged
    ensures Underway(accounts, run, last, done)
    ensures run.reported == reported && run.succeeded == succeeded && run.lossy == lossy
    ensures !done ==> succeeded + failed == maxCalls
    ensures (!lossy && !accounts.okta.flaky && accounts.ss.keeping.steady && Passable(accounts.okta.Snapshot(), accounts.ss.keeping, accounts.settings))
            ==> failed == 0
  {
    var token := Empty;
    done, reported, succeeded, failed, run := false, {}, 0, 0, Begun(accounts.settings, lossy);
    RunCanBegin(accounts, lossy);
    while !done && succeeded + failed < maxCalls
      invariant Underway(accounts, run, token, done)
      invariant run.reported == reported && run.succeeded == succeeded && run.lossy == lossy
      invariant succeeded + failed <= maxCalls
      invariant (!lossy && !accounts.okta.flaky && accounts.ss.keeping.steady && Passable(accounts.okta.Snapshot(), accounts.ss.keeping, accounts.settings)) ==> failed == 0
      decreases maxCalls - succeeded - failed, !done
    {
      var counted, rv;
      counted, token, rv, run := CallAgain(accounts, token, lossy, run);
      reported := reported + ToSet(rv);
      if counted {
        succeeded, done := succeeded + 1, token == Empty;
      } else {
        failed := failed + 1;
      }
    }
    last := token;
  }

  /** Whether every group of every walked user has been answered. */
  ghost predicate EveryWalkAnswered(dir: Directory, s: Settings, attempts: seq<Attempt>) {
    forall u, g :: u in dir.users && WalksGroups(s, dir.users[u]) && BelongsTo(dir, u, g) ==> AnsweredFor(attempts, u, g)
  }

  /** The number of successful calls that always finishes a sync. */
  function CallsNeeded(w: World, s: Settings): nat {
    StackCost(Calls, w, s, OpeningStack(s))
  }

  /** A full sync under any faults, any page split and any number of repeated calls. */
  method FullSync(accounts: AccountResource, maxCalls: nat, lossy: bool)
    returns (done: bool, reported: set<Grant>, succeeded: nat, failed: nat)
    requires accounts.Stable()
    requires accounts.ss.cache == EMPTY_CACHE && accounts.okta.requests == NO_REQUESTS
    requires accounts.misjudged == {} && accounts.attempts == []
    modifies accounts.ss, accounts.okta`requests, accounts`attempts, accounts`misjudged
    // Nothing is ever reported that should not be, whatever fails and whatever the store forgets.
    ensures forall x :: x in reported ==> ShouldReport(accounts.okta.dir, accounts.settings, accounts.account, x)
    // A finished run reports everything, except what only misjudged groups stand for.
    ensures done ==> forall x :: ShouldReport(accounts.okta.dir, accounts.settings, accounts.account, x) ==>
                       || x in reported
                       || MayBeMissed(accounts.okta.dir, accounts.settings, accounts.account, accounts.misjudged, x)
    // Whatever becomes of the rest of the store, with certain role entries kept some grants are sure to
    // be reported, and with those of every app group kept the report is exact.
    ensures done ==>
              SureReport(accounts.okta.Snapshot(), accounts.ss.keeping, accounts.settings, accounts.account, reported)
    ensures done && (forall g :: g in accounts.okta.dir.groups ==> Safe(accounts.okta.dir, accounts.ss.keeping, g)) ==>
              ExactReport(accounts.okta.dir, accounts.settings, accounts.account, reported)
    // With a steady store the report is known exactly, and with a reliable one it is the listed report.
    ensures accounts.ss.keeping.steady ==> OnlyDenied(accounts.okta.Snapshot(), accounts.ss.keeping, accounts.misjudged)
    ensures Reliable(accounts.ss.keeping) ==> OnlyAnonymous(accounts.okta.Snapshot(), accounts.misjudged)
    ensures done && accounts.ss.keeping.steady ==>
              SteadyReport(accounts.okta.Snapshot(), accounts.ss.keeping, accounts.settings, accounts.account, reported)
    ensures done && Reliable(accounts.ss.keeping) ==>
              ListedReport(accounts.okta.Snapshot(), accounts.settings, accounts.account, reported)
    // Nothing unreadable is passed over: a finished run found nothing in its way but groups it misjudged,
    // and with a steady store that is exactly when runs can finish.
    ensures done ==> CleanBut(accounts.okta.dir, accounts.settings, accounts.misjudged)
    ensures done && accounts.ss.keeping.steady ==>
              Passable(accounts.okta.Snapshot(), accounts.ss.keeping, accounts.settings)
    // No error is lost: every group of every walked user has been answered.
    ensures done && !accounts.settings.useGroupMapping ==>
              EveryWalkAnswered(accounts.okta.dir, accounts.settings, accounts.attempts)
    // Nor is work repeated: unless responses get lost, each group of each listed walker is answered once
    // for that walker.
    ensures done ==> LookUpsNeeded(accounts.okta.Snapshot(), accounts.settings) <= AnsweredPairs(accounts.attempts)
    ensures !lossy ==> AnsweredPairs(accounts.attempts) <= LookUpsNeeded(accounts.okta.Snapshot(), accounts.settings)
    // A steady store spares calls: Okta tells at most once about a group whose roles are kept, and where
    // there is an ID set it is asked about recorded groups with lost roles only.
    ensures accounts.ss.keeping.steady ==>
              forall g :: g !in accounts.okta.dir.groups || accounts.ss.keeping.keepsRoles(g) ==>
                accounts.okta.requests.conclusive[g] <= 1
    ensures accounts.ss.keeping.steady && Recorded(accounts.okta.Snapshot(), accounts.ss.keeping) != {} ==>
              forall g :: g in accounts.okta.requests.made ==>
                g in Recorded(accounts.okta.Snapshot(), accounts.ss.keeping) && !accounts.ss.keeping.keepsRoles(g)
    ensures Reliable(accounts.ss.keeping) && KeepsIDSet(accounts.okta.Snapshot()) ==> accounts.okta.requests.made == multiset{}
    // A bounded number of successful calls finishes the run.
    ensures succeeded <= CallsNeeded(accounts.okta.Snapshot(), accounts.settings)
    ensures failed + CallsNeeded(accounts.okta.Snapshot(), accounts.settings) <= maxCalls ==> done
    ensures (!lossy && !accounts.okta.flaky && accounts.ss.keeping.steady
             && Passable(accounts.okta.Snapshot(), accounts.ss.keeping, accounts.settings)) ==> failed == 0
    ensures (!lossy && !accounts.okta.flaky && accounts.ss.keeping.steady && Clean(accounts.okta.dir, accounts.settings))
            ==> failed == 0
  {
    ghost var w, s, account, p := accounts.okta.Snapshot(), accounts.settings, accounts.account, accounts.ss.keeping;
    ghost var run, last;
    done, reported, succeeded, failed, run, last := MakeCalls(accounts, maxCalls, lossy);
    assert accounts.okta.Snapshot() == w && RunSoFar(w, s, account, run);
    RunOutcome(w, s, account, run);
    PhaseOutcome(w, s, p, accounts.ss.cache, accounts.okta.requests, run.misjudged, run.attempts, run.stack);
    if done {
      FinishedOutcome(w, s, account, p, accounts.ss.cache, accounts.okta.requests, run);
    } else {
      UnfinishedCosts(w, s, run.stack);
    }
  }

  /** All that a finished run guarantees about its report because of its store. */
  lemma FinishedOutcome(w: World, s: Settings, account: string, p: Keeping, c: Cache, requests: Requests, run: Run)
    requires ValidWorld(w) && RunSoFar(w, s, account, run) && run.stack == []
    requires PhaseHolds(w, s, p, c, requests, run.misjudged, run.attempts, [])
    ensures SureReport(w, p, s, account, run.reported)
    ensures (forall g :: g in w.dir.groups ==> Safe(w.dir, p, g)) ==> ExactReport(w.dir, s, account, run.reported)
    ensures p.steady ==> SteadyReport(w, p, s, account, run.reported) && Passable(w, p, s)
    ensures Reliable(p) ==> ListedReport(w, s, account, run.reported)
  {
    SureOutcome(w, s, account, p, c, requests, run);
    PhaseOutcome(w, s, p, c, requests, run.misjudged, run.attempts, []);
    if p.steady {
      SteadyOutcome(w, s, account, p, run);
    }
  }

  /** All that a run so far guarantees about its report. */
  lemma RunOutcome(w: World, s: Settings, account: string, run: Run)
    requires ValidWorld(w) && RunSoFar(w, s, account, run)
    ensures forall x :: x in run.reported ==> ShouldReport(w.dir, s, account, x)
    ensures run.stack == [] ==> forall x :: ShouldReport(w.dir, s, account, x) ==>
                                  x in run.reported || MayBeMissed(w.dir, s, account, run.misjudged, x)
    ensures run.stack == [] && !s.useGroupMapping ==> EveryWalkAnswered(w.dir, s, run.attempts)
    ensures run.stack == [] ==> LookUpsNeeded(w, s) <= AnsweredPairs(run.attempts)
    ensures !run.lossy ==> AnsweredPairs(run.attempts) <= LookUpsNeeded(w, s)
    ensures run.stack == [] ==> CleanBut(w.dir, s, run.misjudged)
  {
    PairsAccounted(w, s, run);
    if run.stack == [] {
      OpeningOwesTheStuck(w, s, account, run.misjudged);
    }
    forall x | x in run.reported ensures ShouldReport(w.dir, s, account, x) {
      RunIsRight(w, s, account, run, x);
    }
    if run.stack == [] {
      forall x | ShouldReport(w.dir, s, account, x)
        ensures x in run.reported || MayBeMissed(w.dir, s, account, run.misjudged, x)
      {
        RunIsComplete(w, s, account, run, x);
      }
      if !s.useGroupMapping {
        forall u, g | u in w.dir.users && WalksGroups(s, w.dir.users[u]) && BelongsTo(w.dir, u, g)
          ensures AnsweredFor(run.attempts, u, g)
        {
          RunResolvesEveryWalk(w, s, account, run, u, g);
        }
      }
    }
  }

  lemma PairsAccounted(w: World, s: Settings, run: Run)
    requires LookUpsAccounted(w, s, run.attempts, run.stack, run.lossy)
    ensures run.stack == [] ==> LookUpsNeeded(w, s) <= AnsweredPairs(run.attempts)
    ensures !run.lossy ==> AnsweredPairs(run.attempts) <= LookUpsNeeded(w, s)
  {
    forall pair: (string, string)
      ensures run.stack == [] ==> LookUpsNeeded(w, s)[pair] <= AnsweredPairs(run.attempts)[pair]
      ensures !run.lossy ==> AnsweredPairs(run.attempts)[pair] <= LookUpsNeeded(w, s)[pair]
    {
      var (u, g) := pair;
      assert StackCost(LookUps(u, g), w, s, run.stack) >= 0;
    }
  }

  /** A finished run reports every grant that is sure, whatever the store did. */
  lemma SureOutcome(w: World, s: Settings, account: string, p: Keeping, c: Cache, requests: Requests, run: Run)
    requires ValidWorld(w) && RunSoFar(w, s, account, run) && run.stack == []
    requires PhaseHolds(w, s, p, c, requests, run.misjudged, run.attempts, [])
    ensures SureReport(w, p, s, account, run.reported)
    ensures (forall g :: g in w.dir.groups ==> Safe(w.dir, p, g)) ==> ExactReport(w.dir, s, account, run.reported)
  {
    RunOutcome(w, s, account, run);
    forall x | ShouldReport(w.dir, s, account, x) && Sure(w, p, s, account, x) ensures x in run.reported {
      if ByWalk(w.dir, s, account, x) {
        SureIsNotMissed(w, p, s, account, c, run.misjudged, x);
      }
    }
    if forall g :: g in w.dir.groups ==> Safe(w.dir, p, g) {
      forall x | ByWalk(w.dir, s, account, x) ensures Sure(w, p, s, account, x) {
        var g :| StandsFor(w.dir, s, account, x, g);
        assert Safe(w.dir, p, g);
      }
    }
  }

  /** In the user phase some group of a sure walk-grant is not misjudged. */
  lemma SureIsNotMissed(w: World, p: Keeping, s: Settings, account: string, c: Cache, misjudged: set<string>, x: Grant)
    requires ReadyForUsers(w, p, c, misjudged) && Sure(w, p, s, account, x) && ByWalk(w.dir, s, account, x)
    ensures exists g :: StandsFor(w.dir, s, account, x, g) && g !in misjudged
  {
    if exists g :: StandsFor(w.dir, s, account, x, g) && Safe(w.dir, p, g) {
      var g :| StandsFor(w.dir, s, account, x, g) && Safe(w.dir, p, g);
      assert g !in misjudged;
    } else if exists j :: AnchorPage(w, c, misjudged, j) {
      var j :| AnchorPage(w, c, misjudged, j);
      assert StandsOnPage(w, s, account, x, j);
    }
  }

  /** A finished run over a steady store reports everything but what the store hides. */
  lemma SteadyOutcome(w: World, s: Settings, account: string, p: Keeping, run: Run)
    requires ValidWorld(w) && RunSoFar(w, s, account, run) && run.stack == []
    requires OnlyDenied(w, p, run.misjudged) && DeniedUnheard(w, p, run.attempts)
    ensures SteadyReport(w, p, s, account, run.reported)
    ensures Reliable(p) ==> ListedReport(w, s, account, run.reported)
    ensures Passable(w, p, s)
  {
    RunOutcome(w, s, account, run);
    assert run.misjudged <= DeniedGroups(w, p);
    forall x ensures x in run.reported <==> ShouldReport(w.dir, s, account, x) && !Hidden(w, p, s, account, x) {
      RunIsRight(w, s, account, run, x);
      if ShouldReport(w.dir, s, account, x) {
        RunIsComplete(w, s, account, run, x);
      }
    }
    if Reliable(p) {
      ReliableIsListed(w, s, account, p, run.reported);
    }
  }

  /** A reliable store denies the app groups without an identifier, where an ID set is kept, and no others. */
  lemma ReliableDenies(w: World, p: Keeping, g: string)
    requires ValidWorld(w) && Reliable(p)
    ensures Denied(w, p, g) <==> Anonymous(w.dir, g) && KeepsIDSet(w)
  {
    FullRecord(w, p);
  }

  lemma ReliableIsListed(w: World, s: Settings, account: string, p: Keeping, reported: set<Grant>)
    requires ValidWorld(w) && Reliable(p) && SteadyReport(w, p, s, account, reported)
    ensures ListedReport(w, s, account, reported)
  {
    forall g ensures Denied(w, p, g) <==> Anonymous(w.dir, g) && KeepsIDSet(w) {
      ReliableDenies(w, p, g);
    }
    forall x ensures Hidden(w, p, s, account, x) <==> KeepsIDSet(w) && Unlisted(w.dir, s, account, x) {
    }
  }

  /** All that a store guarantees between two calls. */
  lemma PhaseOutcome(w: World, s: Settings, p: Keeping, c: Cache, requests: Requests, misjudged: set<string>,
                     attempts: seq<Attempt>, stack: seq<PageState>)
    requires ValidWorld(w) && PhaseHolds(w, s, p, c, requests, misjudged, attempts, stack)
    ensures forall g :: g in misjudged ==> !Safe(w.dir, p, g)
    ensures p.steady ==> OnlyDenied(w, p, misjudged) && DeniedUnheard(w, p, attempts)
    ensures p.steady ==> forall g :: g !in w.dir.groups || p.keepsRoles(g) ==> requests.conclusive[g] <= 1
    ensures p.steady && Recorded(w, p) != {} ==>
              forall g :: g in requests.made ==> g in Recorded(w, p) && !p.keepsRoles(g)
    ensures Reliable(p) ==> OnlyAnonymous(w, misjudged)
    ensures Reliable(p) && KeepsIDSet(w) ==> requests.made == multiset{}
  {
    if Reliable(p) {
      FullRecord(w, p);
      forall g | g in misjudged ensures Anonymous(w.dir, g) && KeepsIDSet(w) {
        ReliableDenies(w, p, g);
      }
    }
  }

  lemma FreshPhase(w: World, s: Settings, p: Keeping)
    requires ValidWorld(w)
    ensures PhaseHolds(w, s, p, EMPTY_CACHE, NO_REQUESTS, {}, [], OpeningStack(s))
    ensures StackShape(w, s, OpeningStack(s))
  {
  }
}
