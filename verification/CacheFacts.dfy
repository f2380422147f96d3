/** When the session cache tells the truth about app groups. */
module CacheFacts {
  import opened Base
  import opened Domain
  import opened Sessions

  const LARGE_APP_GROUP_COLLECTION_SIZE := 5

  /** Cached roles are Okta's roles, and a "not an app group" verdict is right except for groups
      in `misjudged`. */
  ghost predicate CacheSound(dir: Directory, c: Cache, misjudged: set<string>) {
    && (forall g :: g in c.appGroup ==> Direct(dir, g) == AppRoles(c.appGroup[g].samlRoles))
    && (forall g :: g in c.notAppGroup && c.notAppGroup[g] ==> g !in dir.groups || g in misjudged)
    && misjudged <= dir.groups.Keys
  }

  predicate DeniedByIDSet(c: Cache, g: string) {
    c.appGroupIDSet.Some? && !InIDSet(c.appGroupIDSet.value, g)
  }

  /** Whether a look-up has to ask Okta. */
  predicate AsksOkta(c: Cache, g: string) {
    g !in c.appGroup && !SaysNotAppGroup(c, g) && !DeniedByIDSet(c, g)
  }

  /** What a look-up answers when neither the store nor Okta fails. */
  function Answer(dir: Directory, c: Cache, g: string): Membership {
    if g in c.appGroup then AppRoles(c.appGroup[g].samlRoles)
    else if SaysNotAppGroup(c, g) || DeniedByIDSet(c, g) then NotAppGroup
    else Direct(dir, g)
  }

  /** What a steady store holds after an answered look-up. */
  function AfterLookUp(p: Keeping, dir: Directory, c: Cache, g: string): Cache {
    if g in c.appGroup || SaysNotAppGroup(c, g) then c
    else if DeniedByIDSet(c, g) then c.(notAppGroup := c.notAppGroup[g := true])
    else
      match Direct(dir, g)
      case NotAppGroup => c.(notAppGroup := c.notAppGroup[g := true])
      case AppRoles(roles) => if p.keepsRoles(g) then c.(appGroup := c.appGroup[g := AppGroupWrapper(roles)]) else c
      case Unreadable => c
  }

  /** Remembering an answer never changes any answer, and saves the next call exactly unless the
      profile was unreadable or the store loses the group's roles. */
  lemma LookUpKeepsAnswers(p: Keeping, dir: Directory, c: Cache, g: string)
    ensures forall h :: Answer(dir, AfterLookUp(p, dir, c, g), h) == Answer(dir, c, h)
    ensures AsksOkta(AfterLookUp(p, dir, c, g), g) <==>
            AsksOkta(c, g) && (Direct(dir, g).Unreadable? || (Direct(dir, g).AppRoles? && !p.keepsRoles(g)))
  {
  }

  /** A present ID set, together with the cached roles, accounts for every app group. */
  ghost predicate Covered(dir: Directory, c: Cache) {
    c.appGroupIDSet.Some? ==>
      forall g :: g in dir.groups ==> g in c.appGroup || InIDSet(c.appGroupIDSet.value, g)
  }

  /** Cache transparency: with truthful entries, the cached look-up agrees with asking Okta about
      every group exactly when the cache is covered. */
  lemma TransparentIffCovered(dir: Directory, c: Cache)
    requires CacheSound(dir, c, {})
    ensures (forall g :: Answer(dir, c, g) == Direct(dir, g)) <==> Covered(dir, c)
  {
    if !Covered(dir, c) {
      var g :| g in dir.groups && !(g in c.appGroup || InIDSet(c.appGroupIDSet.value, g));
      assert Direct(dir, g) != NotAppGroup && Answer(dir, c, g) == NotAppGroup;
    }
  }

  /** Once the ID set is lost, every answer of a truthful cache is Okta's own. */
  lemma LosingTheIDSetIsHarmless(dir: Directory, c: Cache)
    requires CacheSound(dir, c, {})
    ensures forall g :: Answer(dir, c.(appGroupIDSet := None), g) == Direct(dir, g)
  {
  }

  /** Losing the ID set between two group pages: the set rebuilt from the later pages covers the
      directory exactly when the role entries of the groups it misses survive. */
  lemma RebuiltSetNeedsRoleEntries(dir: Directory, c: Cache, later: seq<string>)
    requires CacheSound(dir, c, {})
    ensures var rebuilt := c.(appGroupIDSet := Some(WithIDs(None, later)));
            (forall g :: Answer(dir, rebuilt, g) == Direct(dir, g)) <==>
            (forall g :: g in dir.groups && g !in later ==> g in c.appGroup)
  {
    var rebuilt := c.(appGroupIDSet := Some(WithIDs(None, later)));
    TransparentIffCovered(dir, rebuilt);
    assert forall g :: InIDSet(rebuilt.appGroupIDSet.value, g) <==> g in later;
  }

  /** A concrete cache that is no longer covered. The ID set holds the first of two app groups, and the
      second group's role entry is evicted: the next look-up of that group says "not an app group"
      although Okta has a role for it. */
  lemma FailedAppendLosesAGroup()
    ensures
      var dir := TwoAppGroups();
      var afterPages := Cache(map["g1" := AppGroupWrapper(["r1"]), "g2" := AppGroupWrapper(["r2"])],
                              map[], Some(WithIDs(None, ["g1"])));
      var later := afterPages.(appGroup := map["g1" := AppGroupWrapper(["r1"])]);
      && CacheSound(dir, afterPages, {}) && Covered(dir, afterPages)
      && Evicted(afterPages, later) && !Covered(dir, later)
      && Answer(dir, later, "g2") == NotAppGroup
      && Direct(dir, "g2") == AppRoles(["r2"])
  {
    var dir := TwoAppGroups();
    var ids := WithIDs(None, ["g1"]);
    assert "g2"[1] != "g1"[1];
    assert InIDSet(ids, "g1") && !InIDSet(ids, "g2");
    assert "g2" in dir.groups && "g1" in dir.groups;
    assert Direct(dir, "g1") == AppRoles(["r1"]) && Direct(dir, "g2") == AppRoles(["r2"]);
  }

  function TwoAppGroups(): Directory {
    Directory(map[],
              map["g1" := AppGroup(Some("g1"), Some(Profile(Roles(["r1"]), map[]))),
                  "g2" := AppGroup(Some("g2"), Some(Profile(Roles(["r2"]), map[])))],
              map[], {})
  }

  ghost predicate Identified(dir: Directory, g: string) {
    g in dir.groups && dir.groups[g].id.Some?
  }

  /** The identifiers on one page of app groups, in page order. */
  function PageIDs(dir: Directory, keys: seq<string>): seq<string> {
    if keys == [] then []
    else
      var front, g := PageIDs(dir, keys[..|keys| - 1]), keys[|keys| - 1];
      if g in dir.groups && dir.groups[g].id.Some? then front + [g] else front
  }

  ghost function IDsUpTo(w: World, k: nat): set<string>
    requires k <= |w.listing.groupPages|
  {
    set g | g in Flat(w.listing.groupPages[..k]) && Identified(w.dir, g)
  }

  /** Whether a page's IDs are worth adding to the stored set. */
  predicate CollectsPage(ids: seq<string>, singlePage: bool) {
    |ids| > 0 && (!singlePage || |ids| >= LARGE_APP_GROUP_COLLECTION_SIZE)
  }

  /** Whether the group phase adds the IDs of page `j` to the stored set. */
  predicate CollectingPage(w: World, j: nat)
    requires j < |w.listing.groupPages|
  {
    CollectsPage(PageIDs(w.dir, w.listing.groupPages[j]), |w.listing.groupPages| == 1)
  }

  /** Whether the group phase keeps an ID set at all: a single page of fewer than five groups is not
      worth one. */
  ghost predicate KeepsIDSet(w: World)
    requires |w.listing.groupPages| > 0
  {
    if |w.listing.groupPages| == 1
    then |PageIDs(w.dir, w.listing.groupPages[0])| >= 5
    else exists g :: Identified(w.dir, g)
  }

  /** The IDs a steady store records of the first `k` pages. */
  function RecordedUpTo(w: World, p: Keeping, k: nat): set<string>
    requires k <= |w.listing.groupPages|
  {
    if k == 0 then {}
    else
      var ids := PageIDs(w.dir, w.listing.groupPages[k - 1]);
      RecordedUpTo(w, p, k - 1)
      + if CollectingPage(w, k - 1) && p.keepsAppends(ids) then ToSet(ids) else {}
  }

  /** The ID set a steady store has when the group phase is over; no set at all when it is empty. */
  function Recorded(w: World, p: Keeping): set<string> {
    RecordedUpTo(w, p, |w.listing.groupPages|)
  }

  /** Groups a store can always tell the roles of, once the group phase is over. */
  ghost predicate Safe(dir: Directory, p: Keeping, g: string) {
    Identified(dir, g) && p.keepsRoles(g)
  }

  /** App groups a steady store takes for none of the application's: there is an ID set, it lacks the
      group, and the store does not have the group's roles either. */
  ghost predicate Denied(w: World, p: Keeping, g: string) {
    g in w.dir.groups && Recorded(w, p) != {} && g !in Recorded(w, p) && !Safe(w.dir, p, g)
  }

  /** The role comes with one of the user's app groups that a steady store does not deny. */
  ghost predicate ThroughAKnownGroup(w: World, p: Keeping, u: string, role: string) {
    exists g :: BelongsTo(w.dir, u, g) && !Denied(w, p, g) && role in RolesThrough(w.dir, g)
  }

  ghost function DeniedGroups(w: World, p: Keeping): set<string> {
    set g | g in w.dir.groups && Denied(w, p, g)
  }

  /** Nothing makes a sync with a steady store fail by itself: groups it denies are never read. */
  ghost predicate Passable(w: World, p: Keeping, s: Settings) {
    CleanBut(w.dir, s, DeniedGroups(w, p))
  }

  /** On any store: a present ID set holds all IDs of some page that is worth collecting, and none of
      those was misjudged. */
  ghost predicate AnchorPage(w: World, c: Cache, misjudged: set<string>, j: nat) {
    && j < |w.listing.groupPages| && CollectingPage(w, j)
    && (forall g :: g in PageIDs(w.dir, w.listing.groupPages[j]) ==>
          g !in misjudged && (c.appGroupIDSet.Some? ==> InIDSet(c.appGroupIDSet.value, g)))
  }

  ghost predicate Anchored(w: World, c: Cache, misjudged: set<string>) {
    (c.appGroupIDSet.None? && misjudged == {}) || exists j :: AnchorPage(w, c, misjudged, j)
  }

  /** A steady store once the first `k` pages of app groups are consumed. A repeated page may have
      contributed early, so the ID set may run ahead of `k`. */
  ghost predicate SetCollected(w: World, p: Keeping, c: Cache, k: nat)
    requires k <= |w.listing.groupPages|
  {
    && (forall g :: g in c.appGroup ==> Safe(w.dir, p, g))
    && (c.appGroupIDSet.Some? ==>
          && Recorded(w, p) != {}
          && RecordedUpTo(w, p, k) <= c.appGroupIDSet.value.Keys
          && forall g :: g in c.appGroupIDSet.value ==> c.appGroupIDSet.value[g] && g in Recorded(w, p))
    && (RecordedUpTo(w, p, k) != {} ==> c.appGroupIDSet.Some?)
  }

  /** Any store once the first `k` pages of app groups are consumed. */
  ghost predicate Collected(w: World, p: Keeping, c: Cache, k: nat) {
    && k <= |w.listing.groupPages|
    && (forall g :: g in IDsUpTo(w, k) && p.keepsRoles(g) ==> g in c.appGroup)
    && Anchored(w, c, {})
    && (p.steady ==> SetCollected(w, p, c, k))
  }

  /** A steady store in the user phase: the ID set is absent or holds exactly what was recorded. */
  ghost predicate SetReady(w: World, p: Keeping, c: Cache) {
    && (c.appGroupIDSet.Some? <==> Recorded(w, p) != {})
    && (c.appGroupIDSet.Some? ==>
          && (forall g :: InIDSet(c.appGroupIDSet.value, g) <==> g in Recorded(w, p))
          && (forall g :: g in c.appGroup ==> Safe(w.dir, p, g)))
  }

  /** Any store in the user phase: the roles of every safe group are there, and misjudged groups are
      neither safe nor on the page that anchors the ID set. */
  ghost predicate ReadyForUsers(w: World, p: Keeping, c: Cache, misjudged: set<string>) {
    && (forall g :: Safe(w.dir, p, g) ==> g in c.appGroup && g !in misjudged)
    && Anchored(w, c, misjudged)
    && (p.steady ==> SetReady(w, p, c))
  }

  lemma {:induction false} PageIDsMembers(dir: Directory, keys: seq<string>, g: string)
    ensures g in PageIDs(dir, keys) <==> g in keys && Identified(dir, g)
  {
    if keys != [] {
      PageIDsMembers(dir, keys[..|keys| - 1], g);
      assert keys == keys[..|keys| - 1] + [keys[|keys| - 1]];
    }
  }

  lemma IDsUpToStep(w: World, k: nat)
    requires k < |w.listing.groupPages|
    ensures IDsUpTo(w, k + 1) == IDsUpTo(w, k) + ToSet(PageIDs(w.dir, w.listing.groupPages[k]))
  {
    var pages := w.listing.groupPages;
    assert pages[..k + 1] == pages[..k] + [pages[k]];
    forall g ensures g in IDsUpTo(w, k + 1) <==> g in IDsUpTo(w, k) || g in PageIDs(w.dir, pages[k]) {
      PageIDsMembers(w.dir, pages[k], g);
      if g in Flat(pages[..k]) {
        var p :| p in pages[..k] && g in p;
        assert p in pages[..k + 1];
      }
      if g in pages[k] {
        assert pages[k] in pages[..k + 1];
      }
    }
  }

  lemma {:induction false} RecordedMembers(w: World, p: Keeping, k: nat, g: string)
    requires k <= |w.listing.groupPages|
    ensures g in RecordedUpTo(w, p, k) <==>
            exists j :: 0 <= j < k && CollectingPage(w, j) && g in PageIDs(w.dir, w.listing.groupPages[j])
                        && p.keepsAppends(PageIDs(w.dir, w.listing.groupPages[j]))
  {
    if k > 0 {
      RecordedMembers(w, p, k - 1, g);
    }
  }

  lemma RecordedGrows(w: World, p: Keeping, k: nat)
    requires k <= |w.listing.groupPages|
    ensures RecordedUpTo(w, p, k) <= Recorded(w, p)
  {
    forall g | g in RecordedUpTo(w, p, k) ensures g in Recorded(w, p) {
      RecordedMembers(w, p, k, g);
      RecordedMembers(w, p, |w.listing.groupPages|, g);
    }
  }

  lemma RecordedAreIdentified(w: World, p: Keeping, g: string)
    requires g in Recorded(w, p)
    ensures Identified(w.dir, g)
  {
    RecordedMembers(w, p, |w.listing.groupPages|, g);
    var j :| 0 <= j < |w.listing.groupPages| && g in PageIDs(w.dir, w.listing.groupPages[j]);
    PageIDsMembers(w.dir, w.listing.groupPages[j], g);
  }

  /** What consuming some app groups does to a store: role entries of `ids` come in. */
  ghost predicate PageCached(p: Keeping, before: Cache, c: Cache, ids: seq<string>) {
    && (c.appGroupIDSet.Some? ==> c.appGroupIDSet == before.appGroupIDSet)
    && (forall g :: (g in before.appGroup || g in ids) && p.keepsRoles(g) ==> g in c.appGroup)
    && (p.steady ==>
          && c.appGroupIDSet == before.appGroupIDSet
          && forall g :: g in c.appGroup ==> g in before.appGroup || (g in ids && p.keepsRoles(g)))
  }

  lemma CachedOneMore(p: Keeping, before: Cache, c: Cache, later: Cache, ids: seq<string>, g: string)
    requires PageCached(p, before, c, ids) && PageCached(p, c, later, [g])
    ensures PageCached(p, before, later, ids + [g])
  {
  }

  /** What remembering a page's IDs does to a store. */
  ghost predicate Remembered(p: Keeping, before: Cache, c: Cache, ids: seq<string>, singlePage: bool) {
    if CollectsPage(ids, singlePage) then Appended(p, before, c, ids) else c == before
  }

  lemma AnchorSurvives(w: World, before: Cache, c: Cache, misjudged: set<string>)
    requires Anchored(w, before, misjudged)
    requires c.appGroupIDSet.Some? ==> c.appGroupIDSet == before.appGroupIDSet
    ensures Anchored(w, c, misjudged)
  {
    if exists j :: AnchorPage(w, before, misjudged, j) {
      var j :| AnchorPage(w, before, misjudged, j);
      assert AnchorPage(w, c, misjudged, j);
    }
  }

  /** A page that fails half-way leaves the collection where it was. */
  lemma CollectionSurvives(w: World, p: Keeping, before: Cache, c: Cache, ids: seq<string>, k: nat)
    requires Collected(w, p, before, k) && PageCached(p, before, c, ids)
    requires forall g :: g in ids ==> Identified(w.dir, g)
    ensures Collected(w, p, c, k)
  {
    AnchorSurvives(w, before, c, {});
  }

  /** A consumed page moves the collection on. */
  lemma CollectionAdvances(w: World, p: Keeping, before: Cache, cached: Cache, c: Cache, ids: seq<string>, k: nat)
    requires k < |w.listing.groupPages| && ids == PageIDs(w.dir, w.listing.groupPages[k])
    requires Collected(w, p, before, k) && PageCached(p, before, cached, ids)
    requires Remembered(p, cached, c, ids, |w.listing.groupPages| == 1)
    ensures Collected(w, p, c, k + 1)
  {
    PageStep(w, ids, k);
    CollectionSurvives(w, p, before, cached, ids, k);
    AnchorAdvances(w, p, cached, c, ids, k);
    if p.steady {
      SetAdvances(w, p, cached, c, ids, k);
    }
  }

  lemma PageStep(w: World, ids: seq<string>, k: nat)
    requires k < |w.listing.groupPages| && ids == PageIDs(w.dir, w.listing.groupPages[k])
    ensures IDsUpTo(w, k + 1) == IDsUpTo(w, k) + ToSet(ids)
    ensures forall g :: g in ids ==> Identified(w.dir, g)
  {
    IDsUpToStep(w, k);
    forall g | g in ids ensures Identified(w.dir, g) {
      PageIDsMembers(w.dir, w.listing.groupPages[k], g);
    }
  }

  lemma AnchorAdvances(w: World, p: Keeping, cached: Cache, c: Cache, ids: seq<string>, k: nat)
    requires k < |w.listing.groupPages| && ids == PageIDs(w.dir, w.listing.groupPages[k])
    requires Anchored(w, cached, {}) && Remembered(p, cached, c, ids, |w.listing.groupPages| == 1)
    ensures Anchored(w, c, {})
  {
    if c.appGroupIDSet.Some? && c.appGroupIDSet != cached.appGroupIDSet {
      assert AnchorPage(w, c, {}, k);
    } else {
      AnchorSurvives(w, cached, c, {});
    }
  }

  lemma SetAdvances(w: World, p: Keeping, cached: Cache, c: Cache, ids: seq<string>, k: nat)
    requires k < |w.listing.groupPages| && ids == PageIDs(w.dir, w.listing.groupPages[k])
    requires p.steady && SetCollected(w, p, cached, k)
    requires Remembered(p, cached, c, ids, |w.listing.groupPages| == 1)
    ensures SetCollected(w, p, c, k + 1)
  {
    RecordedGrows(w, p, k + 1);
    if CollectingPage(w, k) && p.keepsAppends(ids) {
      assert RecordedUpTo(w, p, k + 1) == RecordedUpTo(w, p, k) + ToSet(ids);
      assert ids[0] in ToSet(ids);
    } else {
      assert RecordedUpTo(w, p, k + 1) == RecordedUpTo(w, p, k);
    }
  }

  /** A page that is consumed again finds the collection at least where it was. */
  lemma CollectionCanRepeat(w: World, p: Keeping, c: Cache, k: nat)
    requires k < |w.listing.groupPages| && Collected(w, p, c, k + 1)
    ensures Collected(w, p, c, k)
  {
    IDsUpToStep(w, k);
  }

  lemma AllIDs(w: World)
    requires ValidWorld(w)
    ensures forall g :: g in IDsUpTo(w, |w.listing.groupPages|) <==> Identified(w.dir, g)
  {
  }

  /** The group phase leaves the roles of every safe group; on a steady store it leaves exactly the
      recorded IDs, or no set, for every page split. */
  lemma CollectionIsComplete(w: World, p: Keeping, c: Cache)
    requires ValidWorld(w) && Collected(w, p, c, |w.listing.groupPages|)
    ensures ReadyForUsers(w, p, c, {})
  {
    AllIDs(w);
  }

  /** On a store that accepts every append the ID set is kept or not as the listing has it, and is
      complete. */
  lemma FullRecord(w: World, p: Keeping)
    requires ValidWorld(w) && Reliable(p)
    ensures Recorded(w, p) != {} <==> KeepsIDSet(w)
    ensures KeepsIDSet(w) ==> forall g :: g in Recorded(w, p) <==> Identified(w.dir, g)
  {
    var n := |w.listing.groupPages|;
    forall g ensures g in Recorded(w, p) <==> KeepsIDSet(w) && Identified(w.dir, g) {
      RecordedMembers(w, p, n, g);
      if g in Recorded(w, p) {
        RecordedAreIdentified(w, p, g);
      }
      if KeepsIDSet(w) && Identified(w.dir, g) {
        var page :| page in w.listing.groupPages && g in page;
        var j :| 0 <= j < n && w.listing.groupPages[j] == page;
        PageIDsMembers(w.dir, page, g);
        assert CollectingPage(w, j);
      }
    }
    if KeepsIDSet(w) && n == 1 {
      var g := PageIDs(w.dir, w.listing.groupPages[0])[0];
      PageIDsMembers(w.dir, w.listing.groupPages[0], g);
      assert g in Recorded(w, p);
    }
  }

  /** In the user phase a steady store answers about a group as Okta would, exactly unless it is denied. */
  lemma ReadyAnswers(w: World, p: Keeping, c: Cache, misjudged: set<string>, g: string)
    requires p.steady && ReadyForUsers(w, p, c, misjudged) && CacheSound(w.dir, c, misjudged)
    requires forall m :: m in misjudged ==> Denied(w, p, m)
    ensures Answer(w.dir, c, g) == Direct(w.dir, g) <==> !Denied(w, p, g)
  {
  }
}
