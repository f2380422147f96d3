/** Exactly which grants a faulty session store can make a sync lose, and runs that lose them. */
module StoreFaults {
  import opened Base
  import opened Domain
  import opened Sessions
  import opened CacheFacts
  import opened OktaApi
  import opened AccountSync
  import opened SyncRun

  /** Two stores that write and keep the role entries of the same groups. */
  ghost predicate SameRolesKept(p: Keeping, q: Keeping) {
    forall g :: p.keepsRoles(g) <==> q.keepsRoles(g)
  }

  /** No steady store that keeps the same role entries denies all groups of a sure walk-grant. */
  lemma SureIsNotHidden(w: World, p: Keeping, q: Keeping, s: Settings, account: string, x: Grant)
    requires SameRolesKept(p, q) && Sure(w, p, s, account, x) && ByWalk(w.dir, s, account, x)
    ensures exists g :: StandsFor(w.dir, s, account, x, g) && !Denied(w, q, g)
  {
    if exists g :: StandsFor(w.dir, s, account, x, g) && Safe(w.dir, p, g) {
      var g :| StandsFor(w.dir, s, account, x, g) && Safe(w.dir, p, g);
      assert !Denied(w, q, g);
    } else if Recorded(w, q) == {} {
      var g :| StandsFor(w.dir, s, account, x, g);
      assert !Denied(w, q, g);
    } else {
      var n := |w.listing.groupPages|;
      var h :| h in Recorded(w, q);
      RecordedMembers(w, q, n, h);
      var j: nat :| j < n && CollectingPage(w, j) && q.keepsAppends(PageIDs(w.dir, w.listing.groupPages[j]));
      assert StandsOnPage(w, s, account, x, j);
      var g :| StandsFor(w.dir, s, account, x, g) && g in PageIDs(w.dir, w.listing.groupPages[j]);
      RecordedMembers(w, q, n, g);
    }
  }

  /** A steady store that refuses all appends but those of one page. */
  function OnePageKept(w: World, keepsRoles: string -> bool, j: nat): Keeping
    requires j < |w.listing.groupPages|
  {
    var kept := PageIDs(w.dir, w.listing.groupPages[j]);
    Keeping(true, keepsRoles, ids => ids == kept)
  }

  /** A walk-grant that an ID set with one page's IDs loses: none of its groups is on that page or has a
      kept role entry. */
  ghost predicate Losable(w: World, keepsRoles: string -> bool, s: Settings, account: string, x: Grant, j: nat)
    requires j < |w.listing.groupPages|
  {
    && CollectingPage(w, j) && ByWalk(w.dir, s, account, x)
    && forall g :: StandsFor(w.dir, s, account, x, g) ==>
         !(Identified(w.dir, g) && keepsRoles(g)) && g !in PageIDs(w.dir, w.listing.groupPages[j])
  }

  /** A grant is not sure if and only if some page loses it. */
  lemma UnsureIffLosable(w: World, p: Keeping, s: Settings, account: string, x: Grant)
    ensures !Sure(w, p, s, account, x) <==>
            exists j: nat :: j < |w.listing.groupPages| && Losable(w, p.keepsRoles, s, account, x, j)
  {
    if !Sure(w, p, s, account, x) {
      var j: nat :| j < |w.listing.groupPages| && CollectingPage(w, j) && !StandsOnPage(w, s, account, x, j);
      assert Losable(w, p.keepsRoles, s, account, x, j);
    }
    forall j: nat | j < |w.listing.groupPages| && Losable(w, p.keepsRoles, s, account, x, j)
      ensures !StandsOnPage(w, s, account, x, j)
    {
    }
  }

  lemma HiddenByOnePage(w: World, keepsRoles: string -> bool, s: Settings, account: string, x: Grant, j: nat)
    requires j < |w.listing.groupPages| && Losable(w, keepsRoles, s, account, x, j)
    ensures Hidden(w, OnePageKept(w, keepsRoles, j), s, account, x)
  {
    var p, n, kept := OnePageKept(w, keepsRoles, j), |w.listing.groupPages|, PageIDs(w.dir, w.listing.groupPages[j]);
    RecordedMembers(w, p, n, kept[0]);
    forall g | StandsFor(w.dir, s, account, x, g) ensures Denied(w, p, g) {
      RecordedMembers(w, p, n, g);
    }
  }

  /** Nothing less makes a grant sure: exactly the sure grants are hidden by no steady store that keeps
      the same role entries. */
  lemma SureIffNeverHidden(w: World, p: Keeping, s: Settings, account: string, x: Grant)
    ensures Sure(w, p, s, account, x) <==>
            forall q: Keeping :: q.steady && SameRolesKept(p, q) ==> !Hidden(w, q, s, account, x)
  {
    if !Sure(w, p, s, account, x) {
      UnsureIffLosable(w, p, s, account, x);
      var j: nat :| j < |w.listing.groupPages| && Losable(w, p.keepsRoles, s, account, x, j);
      HiddenByOnePage(w, p.keepsRoles, s, account, x, j);
      assert SameRolesKept(p, OnePageKept(w, p.keepsRoles, j));
    }
    forall q: Keeping | q.steady && SameRolesKept(p, q) && Sure(w, p, s, account, x) ensures !Hidden(w, q, s, account, x) {
      if ByWalk(w.dir, s, account, x) {
        SureIsNotHidden(w, p, q, s, account, x);
      }
    }
  }

  /** What a steady store leaves of a report contains what is sure. */
  lemma SteadyIsSure(w: World, p: Keeping, s: Settings, account: string, reported: set<Grant>)
    requires SteadyReport(w, p, s, account, reported)
    ensures SureReport(w, p, s, account, reported)
  {
    forall x | Sure(w, p, s, account, x) && ByWalk(w.dir, s, account, x) ensures !Hidden(w, p, s, account, x) {
      SureIsNotHidden(w, p, p, s, account, x);
    }
  }

  /** A run that loses a grant which is not sure: Okta never fails, no response gets lost, and the store
      does nothing worse than refuse the appends of all pages but one and lose the role entries it does
      not keep. */
  method ARunThatLosesAGrant(w: World, settings: Settings, account: string, keepsRoles: string -> bool, page: nat, ghost x: Grant)
    returns (reported: set<Grant>)
    requires ValidWorld(w) && Clean(w.dir, settings)
    requires page < |w.listing.groupPages| && Losable(w, keepsRoles, settings, account, x, page)
    ensures ShouldReport(w.dir, settings, account, x) && x !in reported
    ensures SteadyReport(w, OnePageKept(w, keepsRoles, page), settings, account, reported)
  {
    var okta := new Okta(false, _ => None, w.dir, w.listing);
    assert okta.Snapshot() == w;
    var ss := new SessionStore(OnePageKept(w, keepsRoles, page));
    var accounts := new AccountResource(okta, ss, settings, account);
    var done, succeeded, failed;
    done, reported, succeeded, failed := FullSync(accounts, CallsNeeded(w, settings), false);
    assert okta.Snapshot() == w;
    HiddenByOnePage(w, keepsRoles, settings, account, x, page);
    ghost var g :| StandsFor(w.dir, settings, account, x, g);
  }

  /** The smallest such case. Two app groups on two pages and a user in the second group: the append of
      the second page fails, that group's role entry is lost, and the user's role goes unreported. */
  method AFailedAppendLosesAGrant() returns (reported: set<Grant>)
    ensures var s := Settings(false, false, false, BadRegex, "1");
            var lost := Grant("1", User("u"), "r2", false);
            ShouldReport(AMemberOfTheSecond().dir, s, "1", lost) && lost !in reported
  {
    var w, s := AMemberOfTheSecond(), Settings(false, false, false, BadRegex, "1");
    MemberOfTheSecondFacts();
    var keepsRoles := (g: string) => g != "g2";
    assert Losable(w, keepsRoles, s, "1", Grant("1", User("u"), "r2", false), 0);
    reported := ARunThatLosesAGrant(w, s, "1", keepsRoles, 0, Grant("1", User("u"), "r2", false));
  }

  function AMemberOfTheSecond(): World {
    World(Directory(map["u" := AppUser(Some("u"), Some(GROUP_SCOPE), None)], TwoAppGroups().groups, map["u" := [Some("g2")]], {}),
          Listing([["u"]], [["g1"], ["g2"]], [[]]))
  }

  lemma MemberOfTheSecondFacts()
    ensures var w, s := AMemberOfTheSecond(), Settings(false, false, false, BadRegex, "1");
            ValidWorld(w) && Clean(w.dir, s) && Losable(w, g => g != "g2", s, "1", Grant("1", User("u"), "r2", false), 0)
  {
    var w, s := AMemberOfTheSecond(), Settings(false, false, false, BadRegex, "1");
    var lost := Grant("1", User("u"), "r2", false);
    TwoPages(w);
    FirstPageIsCollected();
    OnlyTheSecondStands(w.dir, s);
    assert ByWalk(w.dir, s, "1", lost) by {
      assert StandsFor(w.dir, s, "1", lost, "g2");
    }
    assert "g2" !in ["g1"] by {
      assert "g2"[1] != "g1"[1];
    }
  }

  lemma FirstPageIsCollected()
    ensures CollectingPage(AMemberOfTheSecond(), 0)
    ensures PageIDs(AMemberOfTheSecond().dir, AMemberOfTheSecond().listing.groupPages[0]) == ["g1"]
  {
    var w := AMemberOfTheSecond();
    assert w.listing.groupPages[0] == ["g1"] && ["g1"][..0] == [];
    assert PageIDs(w.dir, ["g1"]) == ["g1"];
  }

  lemma OnlyTheSecondStands(dir: Directory, s: Settings)
    requires dir == AMemberOfTheSecond().dir && s == Settings(false, false, false, BadRegex, "1")
    ensures forall g :: StandsFor(dir, s, "1", Grant("1", User("u"), "r2", false), g) <==> g == "g2"
  {
    assert dir.members["u"] == [Some("g2")] && [Some("g2")][0] == Some("g2") && ["r2"][0] == "r2";
    assert RolesThrough(dir, "g2") == ["r2"];
  }

  /** The report of a sync with a reliable store is exact if and only if no ID set is kept or every
      walk-grant has a listed group. */
  lemma ListedReportIsExactIff(w: World, s: Settings, account: string, reported: set<Grant>)
    requires |w.listing.groupPages| > 0 && ListedReport(w, s, account, reported)
    ensures ExactReport(w.dir, s, account, reported) <==>
            (KeepsIDSet(w) ==> forall x :: !Unlisted(w.dir, s, account, x))
  {
  }

  /** A world where it is not: two pages of app groups, the second group without an identifier. The
      user's role comes through that group alone, and no sync with a reliable store reports it. */
  lemma AGroupWithoutIdentifierIsLost()
    ensures
      var w, s := AHiddenGroup(), Settings(false, false, false, BadRegex, "1");
      var lost := Grant("1", User("u"), "r", false);
      && ValidWorld(w) && ShouldReport(w.dir, s, "1", lost)
      && forall reported :: ListedReport(w, s, "1", reported) ==> lost !in reported
  {
    var w, s := AHiddenGroup(), Settings(false, false, false, BadRegex, "1");
    var lost := Grant("1", User("u"), "r", false);
    TwoPages(w);
    OnlyTheHiddenStands(w.dir, s);
    assert Identified(w.dir, "g1") && KeepsIDSet(w);
    assert StandsFor(w.dir, s, "1", lost, "g2");
    assert Unlisted(w.dir, s, "1", lost);
  }

  lemma OnlyTheHiddenStands(dir: Directory, s: Settings)
    requires dir == AHiddenGroup().dir && s == Settings(false, false, false, BadRegex, "1")
    ensures forall g :: StandsFor(dir, s, "1", Grant("1", User("u"), "r", false), g) <==> g == "g2"
    ensures Anonymous(dir, "g2")
  {
    assert ["g2"][0] == "g2" && "g2"[1] != "g1"[1] && ["r"][0] == "r";
    assert dir.members["u"] == [Some("g2")] && [Some("g2")][0] == Some("g2");
    assert RolesThrough(dir, "g2") == ["r"];
  }

  /** One page of users, two pages of app groups. */
  lemma TwoPages(w: World)
    requires ValidDirectory(w.dir) && w.dir.users.Keys == {"u"} && w.dir.groups.Keys == {"g1", "g2"} && w.dir.orgGroups == {}
    requires w.listing == Listing([["u"]], [["g1"], ["g2"]], [[]])
    ensures ValidWorld(w)
  {
    var pages := w.listing;
    assert pages.userPages[0] == ["u"] && pages.groupPages[0] == ["g1"] && pages.groupPages[1] == ["g2"];
    assert ["u"] in pages.userPages && ["g1"] in pages.groupPages && ["g2"] in pages.groupPages;
    assert "u" in ["u"] && "g1" in ["g1"] && "g2" in ["g2"];
    assert forall p :: p in pages.groupPages ==> p == ["g1"] || p == ["g2"];
    assert Flat(pages.userPages) == {"u"} && Flat(pages.groupPages) == {"g1", "g2"};
    assert Flat(pages.orgPages) == {};
  }

  function AHiddenGroup(): World {
    World(Directory(map["u" := AppUser(Some("u"), Some(GROUP_SCOPE), None)],
                    map["g1" := AppGroup(Some("g1"), None),
                        "g2" := AppGroup(None, Some(Profile(Roles(["r"]), map[])))],
                    map["u" := [Some("g2")]], {}),
          Listing([["u"]], [["g1"], ["g2"]], [[]]))
  }
}
