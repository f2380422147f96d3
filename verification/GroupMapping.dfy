/** Accounts and entitlements when Okta groups stand for AWS roles: listing them page by page. */
module GroupMapping {
  import opened Base
  import opened Pagination
  import opened Domain
  import opened OktaApi
  import opened Owed
  import opened AccountSync

  /** An account some Okta group stands for a role of. */
  ghost predicate AccountListed(dir: Directory, s: Settings, account: string) {
    exists og :: og in dir.orgGroups && og.name.Some? && s.roleRegex.RoleRegex?
                 && s.roleRegex.find(og.name.value).Some? && s.roleRegex.find(og.name.value).value.0 == account
  }

  /** A role of an account that some Okta group stands for. */
  ghost predicate EntitlementOffered(dir: Directory, s: Settings, account: string, role: string) {
    exists og :: og in dir.orgGroups && og.name.Some? && s.roleRegex.RoleRegex?
                 && s.roleRegex.find(og.name.value) == Some((account, role))
  }

  /** Every role reported for a group is an entitlement of that account, and every account that has
      an entitlement is listed. */
  lemma MappingIsConsistent(dir: Directory, s: Settings, account: string, x: Grant)
    requires s.useGroupMapping
    ensures ShouldReport(dir, s, account, x) ==> x.account == account && EntitlementOffered(dir, s, account, x.role)
    ensures EntitlementOffered(dir, s, account, x.role) ==> AccountListed(dir, s, account)
  {
  }

  /** There is nothing to match, or the filter can match it. */
  ghost predicate FilterServes(groups: set<OrgGroup>, s: Settings) {
    s.roleRegex.RoleRegex? || forall og :: og in groups ==> og.name.None?
  }

  lemma ServedPages(w: World, s: Settings, k: nat)
    requires ValidWorld(w) && k < |w.listing.orgPages|
    ensures FilterServes(Flat(w.listing.orgPages[..k]), s) && FilterServes(ToSet(w.listing.orgPages[k]), s) ==>
              FilterServes(Flat(w.listing.orgPages[..k + 1]), s)
    ensures FilterServes(w.dir.orgGroups, s) ==> FilterServes(ToSet(w.listing.orgPages[k]), s)
  {
    PageKeysAreListed(w.listing.orgPages, k);
  }

  function AccountShare(s: Settings): OrgGroup -> set<string> {
    og => if MappedRole(s, og).Some? then {MappedRole(s, og).value.0} else {}
  }

  function RoleShare(s: Settings, account: string): OrgGroup -> set<string> {
    og => if MappedRole(s, og).Some? && MappedRole(s, og).value.0 == account then {MappedRole(s, og).value.1} else {}
  }

  /** What the pages before page `k` contribute. */
  ghost function Before(w: World, k: nat, share: OrgGroup -> set<string>): set<string>
    requires k <= |w.listing.orgPages|
  {
    Gather(Flat(w.listing.orgPages[..k]), share)
  }

  lemma BeforeOneMore(w: World, k: nat, share: OrgGroup -> set<string>)
    requires k < |w.listing.orgPages|
    ensures Before(w, k + 1, share) == Before(w, k, share) + Gather(ToSet(w.listing.orgPages[k]), share)
  {
  }

  lemma AllPages(w: World, s: Settings, account: string, x: string)
    requires ValidWorld(w)
    ensures x in Before(w, |w.listing.orgPages|, AccountShare(s)) <==> AccountListed(w.dir, s, x)
    ensures x in Before(w, |w.listing.orgPages|, RoleShare(s, account)) <==> EntitlementOffered(w.dir, s, account, x)
  {
    assert w.listing.orgPages[..|w.listing.orgPages|] == w.listing.orgPages;
    if AccountListed(w.dir, s, x) {
      var og :| og in w.dir.orgGroups && MappedRole(s, og).Some? && MappedRole(s, og).value.0 == x;
      assert x in AccountShare(s)(og);
    }
    if EntitlementOffered(w.dir, s, account, x) {
      var og :| og in w.dir.orgGroups && MappedRole(s, og) == Some((account, x));
      assert x in RoleShare(s, account)(og);
    }
  }

  /** What is reported from the first `k` pages is right, and complete after the last page. */
  ghost predicate Catalogued(w: World, k: nat, share: OrgGroup -> set<string>, found: set<string>) {
    k <= |w.listing.orgPages| && found == Before(w, k, share)
  }

  lemma CataloguedIsRight(w: World, s: Settings, account: string, k: nat, found: set<string>)
    requires ValidWorld(w)
    ensures Catalogued(w, k, AccountShare(s), found) ==> forall x :: x in found ==> AccountListed(w.dir, s, x)
    ensures Catalogued(w, k, RoleShare(s, account), found) ==> forall x :: x in found ==> EntitlementOffered(w.dir, s, account, x)
    ensures Catalogued(w, |w.listing.orgPages|, AccountShare(s), found) ==>
              forall x :: x in found <==> AccountListed(w.dir, s, x)
    ensures Catalogued(w, |w.listing.orgPages|, RoleShare(s, account), found) ==>
              forall x :: x in found <==> EntitlementOffered(w.dir, s, account, x)
  {
    forall x ensures x in Before(w, |w.listing.orgPages|, AccountShare(s)) <==> AccountListed(w.dir, s, x)
             ensures x in Before(w, |w.listing.orgPages|, RoleShare(s, account)) <==> EntitlementOffered(w.dir, s, account, x)
    {
      AllPages(w, s, account, x);
    }
    if k <= |w.listing.orgPages| {
      BeforeGrows(w, k, AccountShare(s));
      BeforeGrows(w, k, RoleShare(s, account));
    }
  }

  lemma BeforeGrows(w: World, k: nat, share: OrgGroup -> set<string>)
    requires k <= |w.listing.orgPages|
    ensures Before(w, k, share) <= Before(w, |w.listing.orgPages|, share)
  {
  }

  /** The token that asks for page `k`. */
  function PageTokenFor(k: nat): Token {
    if k == 0 then Empty else Stack([], PageState(Cursor(k), ACCOUNT_TYPE, ""))
  }

  function NextTokenFor(k: nat, pages: nat): Token {
    if k + 1 < pages then PageTokenFor(k + 1) else Empty
  }

  /** The one state on a catalog's stack asks for page `k`, and moves on to page `k + 1` or away. */
  lemma CatalogTokens(k: nat, pages: nat)
    ensures StackOf(PageTokenFor(k)) == Ok(if k == 0 then [] else [PageState(Cursor(k), ACCOUNT_TYPE, "")])
    ensures PageNumber(if k == 0 then Empty else Cursor(k)) == Some(k)
    ensures TokenOf(if CursorAfter(k, pages) == Empty then [] else [PageState(CursorAfter(k, pages), ACCOUNT_TYPE, "")])
         == NextTokenFor(k, pages)
  {
    assert [] + [PageState(Cursor(k), ACCOUNT_TYPE, "")] == [PageState(Cursor(k), ACCOUNT_TYPE, "")];
    var one := [PageState(CursorAfter(k, pages), ACCOUNT_TYPE, "")];
    assert one[..|one| - 1] == [];
  }

  class Catalog {
    const okta: Okta
    const settings: Settings

    constructor (okta: Okta, settings: Settings)
      ensures this.okta == okta && this.settings == settings
    {
      this.okta, this.settings := okta, settings;
    }

    /** One page of accounts. Without group mapping there is one account, the identity provider's. */
    method List(token: Token, ghost k: nat) returns (r: Result<set<string>>, next: Token)
      ensures !settings.useGroupMapping && r.Ok? ==> r.value == {settings.identityProviderAccount} && next == Empty
      ensures settings.useGroupMapping && r.Ok? && token == PageTokenFor(k) ==>
                && k < |okta.listing.orgPages|
                && r.value == Gather(ToSet(okta.listing.orgPages[k]), AccountShare(settings))
                && next == NextTokenFor(k, |okta.listing.orgPages|)
      // A filter that does not compile is an error as soon as there is a name to match.
      ensures settings.useGroupMapping && r.Ok? && token == PageTokenFor(k) ==> FilterServes(ToSet(okta.listing.orgPages[k]), settings)
      ensures (!okta.flaky && k < |okta.listing.orgPages| && FilterServes(ToSet(okta.listing.orgPages[k]), settings) && token == PageTokenFor(k)) ==> r.Ok?
    {
      var up := okta.Reach();
      if !up {
        return Err, Empty;
      }
      if !settings.useGroupMapping {
        return Ok({settings.identityProviderAccount}), Empty;
      }
      var groups;
      groups, next := NextPage(token, k);
      if groups.Err? {
        return Err, Empty;
      }
      var accountSet: set<string> := {};
      for i := 0 to |groups.value|
        invariant accountSet == Gather(ToSet(groups.value[..i]), AccountShare(settings))
        invariant settings.roleRegex.BadRegex? ==> forall j :: 0 <= j < i ==> groups.value[j].name.None?
      {
        GatherPrefix(groups.value, i, AccountShare(settings));
        var group := groups.value[i];
        if group.name.None? {
          continue;
        }
        var parsed := ParseAccountIDAndRoleFromGroupName(settings.roleRegex, group.name.value);
        if parsed.Err? {
          return Err, Empty;
        }
        if parsed.value.None? {
          continue;
        }
        accountSet := accountSet + {parsed.value.value.0};
      }
      assert groups.value[..|groups.value|] == groups.value;
      r := Ok(accountSet);
    }

    /** One page of an account's roles under group mapping. */
    method Entitlements(account: string, token: Token, ghost k: nat) returns (r: Result<seq<string>>, next: Token)
      requires settings.useGroupMapping
      ensures r.Ok? && token == PageTokenFor(k) ==>
                && k < |okta.listing.orgPages|
                && ToSet(r.value) == Gather(ToSet(okta.listing.orgPages[k]), RoleShare(settings, account))
                && next == NextTokenFor(k, |okta.listing.orgPages|)
      // A filter that does not compile is an error as soon as there is a name to match.
      ensures r.Ok? && token == PageTokenFor(k) ==> FilterServes(ToSet(okta.listing.orgPages[k]), settings)
      ensures (!okta.flaky && k < |okta.listing.orgPages| && FilterServes(ToSet(okta.listing.orgPages[k]), settings) && token == PageTokenFor(k)) ==> r.Ok?
    {
      var up := okta.Reach();
      if !up {
        return Err, Empty;
      }
      var groups;
      groups, next := NextPage(token, k);
      if groups.Err? {
        return Err, Empty;
      }
      var rv: seq<string> := [];
      for i := 0 to |groups.value|
        invariant ToSet(rv) == Gather(ToSet(groups.value[..i]), RoleShare(settings, account))
        invariant settings.roleRegex.BadRegex? ==> forall j :: 0 <= j < i ==> groups.value[j].name.None?
      {
        GatherPrefix(groups.value, i, RoleShare(settings, account));
        var group := groups.value[i];
        if group.name.None? {
          continue;
        }
        var parsed := ParseAccountIDAndRoleFromGroupName(settings.roleRegex, group.name.value);
        if parsed.Err? {
          return Err, Empty;
        }
        if parsed.value.None? || parsed.value.value.0 != account {
          continue;
        }
        ToSetAppend(rv, parsed.value.value.1);
        rv := rv + [parsed.value.value.1];
      }
      assert groups.value[..|groups.value|] == groups.value;
      r := Ok(rv);
    }

    /** The Okta groups a token asks for, and the token after it. */
    method NextPage(token: Token, ghost k: nat) returns (groups: Result<seq<OrgGroup>>, next: Token)
      ensures groups.Ok? && token == PageTokenFor(k) ==>
                && k < |okta.listing.orgPages| && groups.value == okta.listing.orgPages[k]
                && next == NextTokenFor(k, |okta.listing.orgPages|)
      ensures !okta.flaky && token == PageTokenFor(k) && k < |okta.listing.orgPages| ==> groups.Ok?
    {
      var bag, page := OpenListing(token, k);
      if bag.Err? {
        return Err, Empty;
      }
      var nextPage;
      groups, nextPage := okta.ListGroups(page);
      if groups.Ok? {
        next := CloseListing(bag.value, nextPage, k, |okta.listing.orgPages|);
      } else {
        next := Empty;
      }
    }

    method OpenListing(token: Token, ghost k: nat) returns (r: Result<Bag>, page: Token)
      ensures r.Ok? ==> fresh(r.value) && r.value.Valid() && r.value.Contents() != []
      ensures token == PageTokenFor(k) ==>
                r.Ok? && PageNumber(page) == Some(k) && r.value.Contents() == [PageState(page, ACCOUNT_TYPE, "")]
    {
      r, page := ParsePageToken(token, ACCOUNT_TYPE, "");
      CatalogTokens(k, 0);
    }

    method CloseListing(bag: Bag, nextPage: Token, ghost k: nat, ghost pages: nat) returns (next: Token)
      requires bag.Valid() && bag.Contents() != []
      modifies bag
      ensures (|old(bag.Contents())| == 1 && old(bag.Contents())[0].(token := Empty) == PageState(Empty, ACCOUNT_TYPE, "")
               && nextPage == CursorAfter(k, pages)) ==> next == NextTokenFor(k, pages)
    {
      ghost var asked := bag.Contents();
      var advanced := bag.Next(nextPage);
      CatalogTokens(k, pages);
      assert |asked| == 1 ==> asked[..0] == [];
      next := bag.Marshal();
    }
  }

  /** Lists all accounts: right at any time, complete when done, whatever fails and however the
      groups are split into pages. */
  method ListAllAccounts(catalog: Catalog, maxCalls: nat) returns (done: bool, accounts: set<string>, failed: nat)
    requires ValidWorld(catalog.okta.Snapshot()) && catalog.settings.useGroupMapping
    ensures forall a :: a in accounts ==> AccountListed(catalog.okta.dir, catalog.settings, a)
    ensures done ==> forall a :: a in accounts <==> AccountListed(catalog.okta.dir, catalog.settings, a)
    // A finished listing had a filter that compiles, or nothing to match.
    ensures done ==> FilterServes(catalog.okta.dir.orgGroups, catalog.settings)
    // Every call that does not fail is one page nearer to the end, and without faults none fails.
    ensures failed + |catalog.okta.listing.orgPages| <= maxCalls ==> done
    ensures !catalog.okta.flaky && FilterServes(catalog.okta.dir.orgGroups, catalog.settings) ==> failed == 0
  {
    ghost var w, share, k := catalog.okta.Snapshot(), AccountShare(catalog.settings), 0;
    var token := Empty;
    done, accounts, failed := false, {}, 0;
    assert w.listing.orgPages[..0] == [];
    for calls := 0 to maxCalls
      invariant Catalogued(w, k, share, accounts)
      invariant if done then k == |w.listing.orgPages| else token == PageTokenFor(k) && k < |w.listing.orgPages|
      invariant !done ==> calls == k + failed
      invariant !catalog.okta.flaky && FilterServes(catalog.okta.dir.orgGroups, catalog.settings) ==> failed == 0
      invariant FilterServes(Flat(w.listing.orgPages[..k]), catalog.settings)
    {
      if done {
        continue;
      }
      ServedPages(w, catalog.settings, k);
      var r, next := catalog.List(token, k);
      if r.Ok? {
        BeforeOneMore(w, k, share);
        accounts, token, k, done := accounts + r.value, next, k + 1, next == Empty;
      } else {
        failed := failed + 1;
      }
    }
    assert w.listing.orgPages[..|w.listing.orgPages|] == w.listing.orgPages;
    CataloguedIsRight(w, catalog.settings, "", k, accounts);
  }

  /** Lists all roles of one account in the same way. */
  method ListAllEntitlements(catalog: Catalog, account: string, maxCalls: nat) returns (done: bool, roles: set<string>, failed: nat)
    requires ValidWorld(catalog.okta.Snapshot()) && catalog.settings.useGroupMapping
    ensures forall r :: r in roles ==> EntitlementOffered(catalog.okta.dir, catalog.settings, account, r)
    ensures done ==> forall r :: r in roles <==> EntitlementOffered(catalog.okta.dir, catalog.settings, account, r)
    // A finished listing had a filter that compiles, or nothing to match.
    ensures done ==> FilterServes(catalog.okta.dir.orgGroups, catalog.settings)
    // Every call that does not fail is one page nearer to the end, and without faults none fails.
    ensures failed + |catalog.okta.listing.orgPages| <= maxCalls ==> done
    ensures !catalog.okta.flaky && FilterServes(catalog.okta.dir.orgGroups, catalog.settings) ==> failed == 0
  {
    ghost var w, share, k := catalog.okta.Snapshot(), RoleShare(catalog.settings, account), 0;
    var token := Empty;
    done, roles, failed := false, {}, 0;
    assert w.listing.orgPages[..0] == [];
    for calls := 0 to maxCalls
      invariant Catalogued(w, k, share, roles)
      invariant if done then k == |w.listing.orgPages| else token == PageTokenFor(k) && k < |w.listing.orgPages|
      invariant !done ==> calls == k + failed
      invariant !catalog.okta.flaky && FilterServes(catalog.okta.dir.orgGroups, catalog.settings) ==> failed == 0
      invariant FilterServes(Flat(w.listing.orgPages[..k]), catalog.settings)
    {
      if done {
        continue;
      }
      ServedPages(w, catalog.settings, k);
      var r, next := catalog.Entitlements(account, token, k);
      if r.Ok? {
        BeforeOneMore(w, k, share);
        roles, token, k, done := roles + ToSet(r.value), next, k + 1, next == Empty;
      } else {
        failed := failed + 1;
      }
    }
    assert w.listing.orgPages[..|w.listing.orgPages|] == w.listing.orgPages;
    CataloguedIsRight(w, catalog.settings, account, k, roles);
  }
}
