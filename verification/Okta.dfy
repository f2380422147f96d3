/** The Okta API as the connector sees it. */
module OktaApi {
  import opened Base
  import opened Pagination
  import opened Domain

  /** How a write ended: refused, stored, or stored while the acknowledgement was lost. */
  datatype WriteFate = Refused | Stored | Unacknowledged

  function UserRecords(dir: Directory, keys: seq<string>): seq<AppUser>
    requires forall u :: u in keys ==> u in dir.users
  {
    seq(|keys|, i requires 0 <= i < |keys| => assert keys[i] in keys; dir.users[keys[i]])
  }

  function GroupRecords(dir: Directory, keys: seq<string>): seq<AppGroup>
    requires forall g :: g in keys ==> g in dir.groups
  {
    seq(|keys|, i requires 0 <= i < |keys| => assert keys[i] in keys; dir.groups[keys[i]])
  }

  lemma PageKeysAreListed<T>(pages: seq<seq<T>>, k: nat)
    requires k < |pages|
    ensures forall x :: x in pages[k] ==> x in Flat(pages)
  {
  }

  /** Single-group look-ups: all that were made, and those among them that told whether the group is
      one of the application's and with which roles. */
  datatype Requests = Requests(made: multiset<string>, conclusive: multiset<string>)

  const NO_REQUESTS := Requests(multiset{}, multiset{})

  predicate Conclusive(reply: Reply<AppGroup>) {
    reply.NotFound? || (reply.Found? && GetSamlRoles(reply.value.profile).Ok?)
  }

  function Counted(before: Requests, g: string, reply: Reply<AppGroup>): Requests {
    Requests(before.made + multiset{g}, before.conclusive + if Conclusive(reply) then multiset{g} else multiset{})
  }

  /** Every call may fail on a flaky Okta; on one that is not, calls fail only for a reason. */
  class Okta {
    const flaky: bool
    /** What a group's assignment looks like right after it is created. */
    const freshAssignment: string -> Option<Profile>
    var dir: Directory
    var listing: Listing
    /** Single-group look-ups made since Okta's contents were last relisted. */
    ghost var requests: Requests

    constructor (flaky: bool, freshAssignment: string -> Option<Profile>, dir: Directory, listing: Listing)
      ensures this.flaky == flaky && this.freshAssignment == freshAssignment
      ensures this.dir == dir && this.listing == listing && requests == NO_REQUESTS
    {
      this.flaky, this.freshAssignment, this.dir, this.listing := flaky, freshAssignment, dir, listing;
      requests := NO_REQUESTS;
    }

    function Snapshot(): World
      reads this`dir, this`listing
    {
      World(dir, listing)
    }

    /** Okta lists its current contents, on pages of its own choosing; counting starts anew. */
    method Relist()
      requires ValidDirectory(dir)
      modifies this`listing, this`requests
      ensures ValidWorld(Snapshot()) && requests == NO_REQUESTS
    {
      requests := NO_REQUESTS;
      var users := InSomeOrder(dir.users.Keys);
      var groups := InSomeOrder(dir.groups.Keys);
      var orgGroups := InSomeOrder(dir.orgGroups);
      listing := Listing([users], [groups], [orgGroups]);
    }

    method Reach() returns (up: bool)
      ensures !flaky ==> up
    {
      var failed: bool := *;
      up := !(flaky && failed);
    }

    method ListApplicationUsers(after: Token) returns (r: Result<seq<AppUser>>, next: Token)
      requires ValidWorld(Snapshot())
      ensures r.Ok? ==>
                && PageNumber(after).Some? && PageNumber(after).value < |listing.userPages|
                && (forall u :: u in listing.userPages[PageNumber(after).value] ==> u in dir.users)
                && r.value == UserRecords(dir, listing.userPages[PageNumber(after).value])
                && next == CursorAfter(PageNumber(after).value, |listing.userPages|)
      ensures !flaky && PageNumber(after).Some? && PageNumber(after).value < |listing.userPages| ==> r.Ok?
    {
      var up := Reach();
      if !up || PageNumber(after).None? || PageNumber(after).value >= |listing.userPages| {
        return Err, Empty;
      }
      var k := PageNumber(after).value;
      PageKeysAreListed(listing.userPages, k);
      return Ok(UserRecords(dir, listing.userPages[k])), CursorAfter(k, |listing.userPages|);
    }

    method ListApplicationGroupAssignments(after: Token) returns (r: Result<seq<AppGroup>>, next: Token)
      requires ValidWorld(Snapshot())
      ensures r.Ok? ==>
                && PageNumber(after).Some? && PageNumber(after).value < |listing.groupPages|
                && (forall g :: g in listing.groupPages[PageNumber(after).value] ==> g in dir.groups)
                && r.value == GroupRecords(dir, listing.groupPages[PageNumber(after).value])
                && next == CursorAfter(PageNumber(after).value, |listing.groupPages|)
      ensures !flaky && PageNumber(after).Some? && PageNumber(after).value < |listing.groupPages| ==> r.Ok?
    {
      var up := Reach();
      if !up || PageNumber(after).None? || PageNumber(after).value >= |listing.groupPages| {
        return Err, Empty;
      }
      var k := PageNumber(after).value;
      PageKeysAreListed(listing.groupPages, k);
      return Ok(GroupRecords(dir, listing.groupPages[k])), CursorAfter(k, |listing.groupPages|);
    }

    method ListGroups(after: Token) returns (r: Result<seq<OrgGroup>>, next: Token)
      ensures r.Ok? ==>
                && PageNumber(after).Some? && PageNumber(after).value < |listing.orgPages|
                && r.value == listing.orgPages[PageNumber(after).value]
                && next == CursorAfter(PageNumber(after).value, |listing.orgPages|)
      ensures !flaky && PageNumber(after).Some? && PageNumber(after).value < |listing.orgPages| ==> r.Ok?
    {
      var up := Reach();
      if !up || PageNumber(after).None? || PageNumber(after).value >= |listing.orgPages| {
        return Err, Empty;
      }
      var k := PageNumber(after).value;
      return Ok(listing.orgPages[k]), CursorAfter(k, |listing.orgPages|);
    }

    /** One user's groups, in whatever order Okta likes this time. */
    method ListUserGroups(userID: string) returns (r: Result<seq<Option<string>>>)
      ensures r.Ok? ==> userID in dir.members && multiset(r.value) == multiset(dir.members[userID])
      ensures !flaky && userID in dir.members ==> r.Ok?
    {
      var up := Reach();
      if !up || userID !in dir.members {
        return Err;
      }
      return Ok(dir.members[userID]);
    }

    method GetApplicationGroupAssignment(groupID: string) returns (r: Reply<AppGroup>)
      modifies this`requests
      ensures requests == Counted(old(requests), groupID, r)
      ensures r.Found? ==> groupID in dir.groups && r.value == dir.groups[groupID]
      ensures r.NotFound? ==> groupID !in dir.groups
      ensures !flaky ==> !r.Failed?
    {
      var up := Reach();
      r := if !up then Failed else if groupID !in dir.groups then NotFound else Found(dir.groups[groupID]);
      requests := Counted(requests, groupID, r);
    }

    method GetApplicationUser(userID: string) returns (r: Reply<AppUser>)
      ensures r.Found? ==> userID in dir.users && r.value == dir.users[userID]
      ensures r.NotFound? ==> userID !in dir.users
      ensures !flaky ==> !r.Failed?
    {
      var up := Reach();
      if !up {
        return Failed;
      } else if userID !in dir.users {
        return NotFound;
      }
      return Found(dir.users[userID]);
    }

    method Write() returns (fate: WriteFate)
      ensures !flaky ==> fate == Stored
    {
      var up := Reach();
      var kept: bool := *;
      fate := if up then Stored else if kept then Unacknowledged else Refused;
    }

    /** Stores a profile and a scope for an existing application user. */
    method UpdateApplicationUser(userID: string, profile: Profile, scope: string) returns (r: Result<()>)
      requires userID in dir.users
      modifies this`dir
      ensures var stored := old(dir).(users := old(dir).users[userID :=
                            old(dir).users[userID].(scope := Some(scope), profile := Some(profile))]);
              dir == stored || (r.Err? && dir == old(dir))
      ensures !flaky ==> r.Ok?
    {
      var fate := Write();
      if !fate.Refused? {
        dir := dir.(users := dir.users[userID := dir.users[userID].(scope := Some(scope), profile := Some(profile))]);
      }
      return if fate.Stored? then Ok(()) else Err;
    }

    method AssignUserToApplication(userID: string, scope: string, profile: Profile) returns (r: Result<()>)
      modifies this`dir
      ensures var stored := old(dir).(users := old(dir).users[userID :=
                            AppUser(Some(userID), Some(scope), Some(profile))]);
              dir == stored || (r.Err? && dir == old(dir))
      ensures !flaky ==> r.Ok?
    {
      var fate := Write();
      if !fate.Refused? {
        dir := dir.(users := dir.users[userID := AppUser(Some(userID), Some(scope), Some(profile))]);
      }
      return if fate.Stored? then Ok(()) else Err;
    }

    method AssignGroupToApplication(groupID: string) returns (r: Result<()>)
      requires groupID !in dir.groups
      modifies this`dir
      ensures var stored := old(dir).(groups := old(dir).groups[groupID :=
                            AppGroup(Some(groupID), freshAssignment(groupID))]);
              dir == stored || (r.Err? && dir == old(dir))
      ensures !flaky ==> r.Ok?
    {
      var fate := Write();
      if !fate.Refused? {
        dir := dir.(groups := dir.groups[groupID := AppGroup(Some(groupID), freshAssignment(groupID))]);
      }
      return if fate.Stored? then Ok(()) else Err;
    }

    /** Replaces `/profile/samlRoles` of a group assignment and nothing else. */
    method PatchGroupSamlRoles(groupID: string, samlRoles: seq<string>) returns (r: Result<()>)
      requires groupID in dir.groups
      modifies this`dir
      ensures var stored := old(dir).(groups := old(dir).groups[groupID :=
                            old(dir).groups[groupID].(profile := Some(WithSamlRoles(old(dir).groups[groupID].profile, samlRoles)))]);
              dir == stored || (r.Err? && dir == old(dir))
      ensures !flaky ==> r.Ok?
    {
      var fate := Write();
      if !fate.Refused? {
        dir := dir.(groups := dir.groups[groupID :=
                 dir.groups[groupID].(profile := Some(WithSamlRoles(dir.groups[groupID].profile, samlRoles)))]);
      }
      return if fate.Stored? then Ok(()) else Err;
    }
  }

  method InSomeOrder<T(==)>(items: set<T>) returns (order: seq<T>)
    ensures Flat([order]) == items
  {
    order := [];
    var rest := items;
    while rest != {}
      invariant rest <= items && ToSet(order) == items - rest
    {
      var x :| x in rest;
      ToSetAppend(order, x);
      order, rest := order + [x], rest - {x};
    }
    assert order in [order];
    assert forall x :: x in Flat([order]) <==> x in ToSet(order);
  }

  /** A profile with its role list set and its other keys as they were. */
  function WithSamlRoles(profile: Option<Profile>, samlRoles: seq<string>): Profile {
    match profile
    case None => Profile(Roles(samlRoles), map[])
    case Some(p) => p.(samlRoles := Roles(samlRoles))
  }
}
