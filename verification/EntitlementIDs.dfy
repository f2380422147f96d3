/** Entitlement identifiers: three parts joined by colons, the last of them the SAML role. */
module EntitlementIDs {
  import opened Base

  const COLON := ':'

  /** The parts of a string between colons; there is always at least one. */
  function Split(s: string): (parts: seq<string>)
    ensures |parts| >= 1
  {
    if s == "" then [""]
    else
      var rest := Split(s[1..]);
      if s[0] == COLON then [""] + rest else [[s[0]] + rest[0]] + rest[1..]
  }

  function EntitlementID(resourceType: string, resourceID: string, role: string): string {
    resourceType + [COLON] + resourceID + [COLON] + role
  }

  function ParseSAMLRole(entitlementID: string): Result<string> {
    var parts := Split(entitlementID);
    if |parts| != 3 then Err
    else if parts[0] == "" || parts[1] == "" || parts[2] == "" then Err
    else Ok(parts[2])
  }

  predicate CleanPart(s: string) {
    s != "" && COLON !in s
  }

  lemma {:induction false} SplitJoined(a: string, b: string)
    ensures Split(a + [COLON] + b) == Split(a) + Split(b)
  {
    var s := a + [COLON] + b;
    if a == "" {
      assert s[1..] == b;
    } else {
      assert s[1..] == a[1..] + [COLON] + b;
      SplitJoined(a[1..], b);
    }
  }

  lemma {:induction false} SplitOne(s: string)
    ensures |Split(s)| == 1 <==> COLON !in s
    ensures COLON !in s ==> Split(s) == [s]
  {
    if s != "" {
      SplitOne(s[1..]);
      assert s == [s[0]] + s[1..];
    }
  }

  lemma {:induction false} PartsAreClean(s: string, i: nat)
    requires i < |Split(s)|
    ensures COLON !in Split(s)[i]
  {
    if s != "" {
      var rest := Split(s[1..]);
      if s[0] == COLON {
        if i > 0 { PartsAreClean(s[1..], i - 1); }
      } else {
        PartsAreClean(s[1..], i);
      }
    }
  }

  /** Round trip, for all strings: parsing a built identifier gives back exactly its role when all
      three parts are non-empty and free of colons, and is an error otherwise; it never yields a
      different role. */
  lemma ParseBuilt(resourceType: string, resourceID: string, role: string)
    ensures ParseSAMLRole(EntitlementID(resourceType, resourceID, role)) ==
            if CleanPart(resourceType) && CleanPart(resourceID) && CleanPart(role) then Ok(role) else Err
  {
    SplitJoined(resourceType + [COLON] + resourceID, role);
    SplitJoined(resourceType, resourceID);
    SplitOne(resourceType);
    SplitOne(resourceID);
    SplitOne(role);
  }

  /** Whatever parses was built from three such parts. */
  lemma ParsedWasBuilt(entitlementID: string)
    requires ParseSAMLRole(entitlementID).Ok?
    ensures var parts := Split(entitlementID);
            && |parts| == 3 && entitlementID == EntitlementID(parts[0], parts[1], parts[2])
            && CleanPart(parts[0]) && CleanPart(parts[1]) && ParseSAMLRole(entitlementID) == Ok(parts[2]) && CleanPart(parts[2])
  {
    JoinSplit(entitlementID);
    var parts := Split(entitlementID);
    PartsAreClean(entitlementID, 0);
    PartsAreClean(entitlementID, 1);
    PartsAreClean(entitlementID, 2);
    var tail := parts[1..];
    assert tail[1..] == [parts[2]];
    assert Join(tail) == parts[1] + [COLON] + parts[2];
    assert Join(parts) == parts[0] + [COLON] + (parts[1] + [COLON] + parts[2]);
  }

  /** The identifier is a resource type, a resource and the role, all clean, with colons between. */
  ghost predicate Names(entitlementID: string, role: string) {
    exists t, i :: CleanPart(t) && CleanPart(i) && CleanPart(role) && entitlementID == t + ":" + i + ":" + role
  }

  /** Parsing gives a role if and only if the identifier names it. */
  lemma NamesIffParses(entitlementID: string, role: string)
    ensures Names(entitlementID, role) <==> ParseSAMLRole(entitlementID) == Ok(role)
  {
    if Names(entitlementID, role) {
      var t, i :| CleanPart(t) && CleanPart(i) && CleanPart(role) && entitlementID == t + ":" + i + ":" + role;
      ParseBuilt(t, i, role);
    }
    if ParseSAMLRole(entitlementID) == Ok(role) {
      ParsedWasBuilt(entitlementID);
      var parts := Split(entitlementID);
      assert entitlementID == parts[0] + ":" + parts[1] + ":" + parts[2];
    }
  }

  function Join(parts: seq<string>): string
    requires |parts| >= 1
  {
    if |parts| == 1 then parts[0] else parts[0] + [COLON] + Join(parts[1..])
  }

  lemma {:induction false} JoinSplit(s: string)
    ensures Join(Split(s)) == s
  {
    if s != "" {
      JoinSplit(s[1..]);
      var rest, parts := Split(s[1..]), Split(s);
      if s[0] == COLON {
        assert parts[1..] == rest;
      } else {
        assert parts[1..] == rest[1..];
      }
    }
  }
}
