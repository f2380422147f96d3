/** The session store of one sync: three namespaces of cached facts about groups. */
module Sessions {
  import opened Base

  datatype AppGroupWrapper = AppGroupWrapper(samlRoles: seq<string>)

  /** Roles of known app groups, verdicts "not an app group", and the accumulated app-group IDs. */
  datatype Cache = Cache(
    appGroup: map<string, AppGroupWrapper>,
    notAppGroup: map<string, bool>,
    appGroupIDSet: Option<map<string, bool>>)

  const EMPTY_CACHE := Cache(map[], map[], None)

  /** `after` holds nothing but entries of `before`; some may have been evicted. */
  ghost predicate Evicted(before: Cache, after: Cache) {
    && SubMap(after.appGroup, before.appGroup)
    && SubMap(after.notAppGroup, before.notAppGroup)
    && (after.appGroupIDSet.Some? ==> after.appGroupIDSet == before.appGroupIDSet)
  }

  predicate SaysNotAppGroup(c: Cache, g: string) {
    g in c.notAppGroup && c.notAppGroup[g]
  }

  predicate InIDSet(ids: map<string, bool>, g: string) {
    g in ids && ids[g]
  }

  /** The stored set with more IDs added, creating it if needed. */
  function WithIDs(stored: Option<map<string, bool>>, ids: seq<string>): map<string, bool> {
    var existing := if stored.Some? then stored.value else map[];
    existing + map id | id in ids :: true
  }

  /** What can be said about a store. On any store, role entries of the groups in `keepsRoles` are
      written and stay; everything else may fail or be evicted at any time. A steady store never fails
      and never evicts, except that it loses the role entries of all other groups and refuses the
      ID-set appends that are not in `keepsAppends`. */
  datatype Keeping = Keeping(steady: bool, keepsRoles: string -> bool, keepsAppends: seq<string> -> bool)

  /** A store on which nothing fails and nothing is lost. */
  ghost predicate Reliable(p: Keeping) {
    p.steady && (forall g :: p.keepsRoles(g)) && (forall ids :: p.keepsAppends(ids))
  }

  /** What a store may do to its entries between two calls. */
  ghost predicate Aged(p: Keeping, before: Cache, after: Cache) {
    && Evicted(before, after)
    && (p.steady ==> after == before)
    && (forall g :: g in before.appGroup && p.keepsRoles(g) ==> g in after.appGroup)
  }

  /** What an append of some IDs may do: the stored set is what it was, gone, or grown by the IDs, or
      holds the IDs alone; other entries only age. */
  ghost predicate Appended(p: Keeping, before: Cache, after: Cache, ids: seq<string>) {
    && Aged(p, before.(appGroupIDSet := after.appGroupIDSet), after)
    && (after.appGroupIDSet.Some? ==>
          || after.appGroupIDSet == before.appGroupIDSet
          || after.appGroupIDSet == Some(WithIDs(before.appGroupIDSet, ids))
          || after.appGroupIDSet == Some(WithIDs(None, ids)))
    && (p.steady ==>
          after == if p.keepsAppends(ids) then before.(appGroupIDSet := Some(WithIDs(before.appGroupIDSet, ids))) else before)
  }

  class SessionStore {
    const keeping: Keeping
    var cache: Cache

    constructor (keeping: Keeping)
      ensures this.keeping == keeping && cache == EMPTY_CACHE
    {
      this.keeping := keeping;
      cache := EMPTY_CACHE;
    }

    /** One round trip to the store: entries may have gone, and the call itself may fail. */
    method Reach() returns (up: bool)
      modifies this
      ensures Aged(keeping, old(cache), cache)
      ensures keeping.steady ==> up
    {
      if keeping.steady {
        return true;
      }
      var keepRoles: set<string> := *;
      var keepVerdicts: set<string> := *;
      var keepSet: bool := *;
      cache := Cache(
        map g | g in cache.appGroup && (g in keepRoles || keeping.keepsRoles(g)) :: cache.appGroup[g],
        map g | g in cache.notAppGroup && g in keepVerdicts :: cache.notAppGroup[g],
        if keepSet then cache.appGroupIDSet else None);
      up := *;
    }

    method GetAppGroupFromCache(groupId: string) returns (r: Result<Option<AppGroupWrapper>>)
      modifies this
      ensures Aged(keeping, old(cache), cache)
      ensures r.Ok? ==> r.value == if groupId in cache.appGroup then Some(cache.appGroup[groupId]) else None
      ensures keeping.steady ==> r.Ok?
    {
      var up := Reach();
      if !up {
        return Err;
      } else if groupId !in cache.appGroup {
        return Ok(None);
      }
      return Ok(Some(cache.appGroup[groupId]));
    }

    method SetAppGroupInCache(groupId: string, wrapper: AppGroupWrapper) returns (r: Result<()>)
      modifies this
      ensures r.Err? ==> Aged(keeping, old(cache), cache)
      ensures r.Ok? ==> Aged(keeping, old(cache).(appGroup := old(cache).appGroup[groupId := wrapper]), cache)
      ensures r.Ok? ==> groupId in cache.appGroup
      ensures keeping.keepsRoles(groupId) ==> r.Ok?
      ensures keeping.steady && !keeping.keepsRoles(groupId) ==> r.Err?
    {
      var up := Reach();
      if !keeping.keepsRoles(groupId) && (!up || keeping.steady) {
        return Err;
      }
      cache := cache.(appGroup := cache.appGroup[groupId := wrapper]);
      return Ok(());
    }

    method CheckIfNotAppGroupFromCache(groupId: string) returns (r: Result<bool>)
      modifies this
      ensures Aged(keeping, old(cache), cache)
      ensures r.Ok? ==> r.value == SaysNotAppGroup(cache, groupId)
      ensures keeping.steady ==> r.Ok?
    {
      var up := Reach();
      if !up {
        return Err;
      } else if groupId !in cache.notAppGroup {
        return Ok(false);
      }
      return Ok(cache.notAppGroup[groupId]);
    }

    method SetNotAppGroupInCache(groupId: string, value: bool) returns (r: Result<()>)
      modifies this
      ensures r.Err? ==> Aged(keeping, old(cache), cache)
      ensures r.Ok? ==> Aged(keeping, old(cache).(notAppGroup := old(cache).notAppGroup[groupId := value]), cache)
      ensures keeping.steady ==> r.Ok?
    {
      var up := Reach();
      if !up {
        return Err;
      }
      cache := cache.(notAppGroup := cache.notAppGroup[groupId := value]);
      return Ok(());
    }

    method GetAppGroupIDSet() returns (r: Result<Option<map<string, bool>>>)
      modifies this
      ensures Aged(keeping, old(cache), cache)
      ensures r.Ok? ==> r.value == cache.appGroupIDSet
      ensures keeping.steady ==> r.Ok?
    {
      var up := Reach();
      if !up {
        return Err;
      }
      return Ok(cache.appGroupIDSet);
    }

    method SetAppGroupIDSet(idSet: map<string, bool>) returns (r: Result<()>)
      modifies this
      ensures r.Err? ==> Aged(keeping, old(cache), cache)
      ensures r.Ok? ==> Aged(keeping, old(cache).(appGroupIDSet := Some(idSet)), cache)
      ensures r.Ok? ==> cache.appGroupIDSet == Some(idSet)
      ensures keeping.steady ==> r.Ok?
    {
      var up := Reach();
      if !up {
        return Err;
      }
      cache := cache.(appGroupIDSet := Some(idSet));
      return Ok(());
    }

    /** Adds IDs to the stored set. When the set cannot be read nothing is written; when it was
        evicted in between, only the new IDs remain. */
    method AppendToAppGroupIDSet(groupIDs: seq<string>) returns (r: Result<()>)
      modifies this
      ensures Appended(keeping, old(cache), cache, groupIDs)
      ensures keeping.steady ==> (r.Ok? <==> keeping.keepsAppends(groupIDs))
    {
      var read := GetAppGroupIDSet();
      if read.Err? || (keeping.steady && !keeping.keepsAppends(groupIDs)) {
        return Err;
      }
      var existing := if read.value.Some? then read.value.value else map[];
      ghost var start := existing;
      for i := 0 to |groupIDs|
        invariant existing == start + map id | id in groupIDs[..i] :: true
      {
        assert groupIDs[..i + 1] == groupIDs[..i] + [groupIDs[i]];
        existing := existing[groupIDs[i] := true];
      }
      assert groupIDs[..|groupIDs|] == groupIDs;
      r := SetAppGroupIDSet(existing);
    }
  }
}
