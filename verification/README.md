# Okta AWS federation connector: a verified model

The connector reports who holds which SAML role of an AWS account that is reached through one Okta
application, and changes those roles on request. This project models two of its cores over one
abstract Okta backend and proves what they promise.

**The resumable grant sync.** Each call takes a page token, does one piece of work, returns some
grants and a new token. Group assignments come first, users second. The user phase keeps a stack of
its own inside the token, mixing "fetch a page of users" states with "walk this user's groups from
position i" states. Session caches filled by the group phase spare look-ups in the user phase.

**Provisioning.** `Grant` and `Revoke` read a user or group, decide, and write a new role list; a
group-scoped user may be converted to a direct one.

## How the proof goes

*Owed items.* `Owed` gives every token a set of items still to be delivered: grants to report
outright, grants to report through one of a walked user's groups, groups of users to settle, and debts
that cannot be paid: garbled role lists, unknown walkers, names a broken filter cannot match. A call
obeys a conservation law (`Settlement.Settles`): what the token owed is what the call delivered plus
what the new token owes. The opening stack owes exactly `Domain.ShouldReport`, a description of the
report that mentions no page, token, cache or order, and its unpayable debts are all that is in the way
of finishing. A second function on tokens counts work in two measures: calls, which strictly decrease,
and look-ups of one group for one user, which drop by exactly the number answered.

*Misjudged groups.* A present app-group ID set that lacks an app group makes the connector take that
group for none of the application's. Such groups are collected in a ghost set, and the law lets only
items owed through them go undelivered. Whatever fails, a finished report lacks at most grants all
of whose groups are misjudged.

*Faults.* Every Okta call may fail, and every write may be stored while its acknowledgement is lost.
Every session-store call may fail, and entries may be evicted at any time. The constant `flaky` and
the record `Sessions.Keeping` say what cannot happen, so the same contracts also say that calls
succeed when nothing goes wrong. A `Keeping` names the groups whose role entries are written and
stay; a *steady* store fails in no other way than by losing the other groups' entries and refusing
certain ID-set appends; a *reliable* one does not fail at all.

*What a faulty store costs.* On any store a finished sync reports every grant that is `SyncRun.Sure`:
one that needs no walk, comes with a group whose role entry is kept, or comes with some group of every
page whose IDs are collected. Nothing less is enough: a grant is sure if and only if no steady store
that keeps the same role entries hides it (`StoreFaults.SureIffNeverHidden`), and
`StoreFaults.ARunThatLosesAGrant` is a run that loses any other. On a steady store the report is known
exactly (`SyncRun.SteadyReport`); on a reliable one it is everything except, where an ID set is kept,
what only app groups without an identifier stand for (`SyncRun.ListedReport`).

*Meaning in records.* `ReportLaws` and `RequestMeaning` say what a finished report and an answered
request come to in the fields of the records Okta holds, user by user and group by group, so that the
reference report and the specified effects are themselves held to something.

| file | content |
|---|---|
| `Base`, `Sorting`, `Pagination` | collections, walk order of group IDs, tokens and the page-state stack |
| `Domain`, `Sessions`, `Okta` | directory, settings and the reference report; session store; Okta API |
| `CacheFacts` | when the caches tell the truth, and how the group phase fills them |
| `Owed`, `TokenShape`, `Settlement`, `UserSteps`, `OuterStep` | what tokens owe and cost, which tokens occur, the law of a step |
| `AccountSync` | the sync methods; long source functions are cut into several methods along their branches |
| `SyncRun`, `StoreFaults`, `ReportLaws`, `WalkRun`, `JoinRoles`, `GroupMapping` | whole runs and their meaning, and what store faults can cost |
| `EntitlementIDs`, `ProvisioningSpec`, `ProvisioningLaws`, `RequestMeaning`, `Provisioning`, `ProvisioningRuns` | provisioning, its laws and its meaning in records, histories, and provisioning followed by a sync |

## Hypotheses

- The directory, the page split and the settings stay as they are during one sync, and a session
  store is empty when a sync starts. Okta may list a user's groups in a different order each time.
- Okta lists what it holds and stores what it is sent. A record carries its own key or no identifier.
- User IDs are not empty: an empty resource ID means "fetch a page of users"
  (pkg/connector/aws_account.go:339).
- A token is told apart by what it was made from (nothing, an Okta cursor, a position, a marshalled
  stack). A JSON stack with entries but no current state, which marshalling never produces, is not
  representable.
- Reports are sets: the same role can be returned again after a resume.
- Okta's union and group-priority recomputation of profiles is not part of this model.

The source calls the stored app-group IDs the complete set (pkg/connector/connector.go:477-478). In
the code a failed or evicted write can leave an incomplete one
(pkg/connector/aws_account.go:608-610); the model follows the code, and `StoreFaults` says when that
matters.

## Model

| member | source | states |
|---|---|---|
| SyncRun.FullSync | pkg/connector/aws_account.go:248-614 | For every page split, fault schedule, eviction and repeated call: nothing is reported that should not be; a finished run reports every sure grant, and exactly the reference report where no app group lacks an identifier or a kept role entry; on a steady store it reports exactly what is due and not hidden, on a reliable one exactly what is due and listed; every group of every walked user was answered for that user, and unless responses get lost the multiset of answered (user, group) pairs is exactly the pairs of listed walkers and their groups; on a steady store Okta gives at most one conclusive answer about a group with a kept role entry, and where there is an ID set it is asked, successfully or not, only about recorded groups with lost entries, on a reliable store about none; at most `CallsNeeded` successful calls are used, and a run with that many to spare beyond its failures is finished. A finished run found nothing garbled, unknown or unmatchable in its way but groups it misjudged, on a steady store nothing but groups that store denies; and when that holds of a steady store, a run without other faults has no failed call. |
| SyncRun.MakeCalls | pkg/connector/aws_account.go:248-304 | The driver keeps the conservation law, the token shape, the look-up account and the store phase over any interleaving of successes, errors and lost responses. |
| SyncRun.CallOnce | pkg/connector/aws_account.go:248-304 | So does each of its calls, whether it counts, fails or loses its response. |
| SyncRun.RunContinues | pkg/connector/aws_account.go:291-303 | One more successful call extends a run: settled items, reported grants, answered look-ups and both counts of work stay in step. |
| SyncRun.LookUpsContinue | pkg/connector/aws_account.go:495-512 | For each user and group, look-ups answered so far plus look-ups to go stay what they were: resuming repeats none and skips none, and only a lost response can waste any. |
| Owed.OpeningLookUps | pkg/connector/aws_account.go:402-443 | The opening stack stands for one look-up of each group of each listed walker for that walker, however the users are split into pages. |
| SyncRun.RunIsRight | pkg/connector/aws_account.go:243-247 | What a run has reported is in the reference report at any time, and a reported walk-grant was heard, for its user, from one of the groups that bring its role. |
| SyncRun.RunIsComplete | pkg/connector/aws_account.go:291-303 | At the end the reference report is covered, except for walk-grants all of whose groups are misjudged. |
| SyncRun.SureOutcome | pkg/connector/aws_account.go:602-611 | On any store a finished run reports every sure grant, and is exact when every app group has an identifier and a kept role entry. |
| SyncRun.SteadyOutcome | pkg/connector/aws_account.go:778-787 | A finished run over a steady store reports a grant if and only if it is due and some group of it is not denied; over a reliable store, if and only if it is due and not one that only unlisted groups stand for while an ID set is kept. |
| ReportLaws.GroupIsReported | pkg/connector/aws_account.go:570-598 | A finished sync with any store reports for a group exactly the roles its record lists, if the record has an identifier, expandable exactly when roles are joined. |
| ReportLaws.UserIsReported | pkg/connector/aws_account.go:423-433 | A direct user, and under union a group-scoped one whatever the join setting, is reported with exactly the roles its profile lists. |
| ReportLaws.WalkedUserIsReported | pkg/connector/aws_account.go:434-442 | A group-scoped user without union and join is reported only with roles its groups list and, with a steady store, exactly with those of groups the store does not deny. |
| ReportLaws.OthersAreNotReported | pkg/connector/aws_account.go:411-442 | Nobody unassigned, without identifier or scope, of another scope, or group-scoped under join without union is reported. |
| ReportLaws.MappedGroupIsReported | pkg/connector/aws_account.go:523-560 | With group mapping, exactly the Okta groups whose name stands for a role of the account are reported, as expandable grants. |
| Owed.OpeningOwesTheStuck | pkg/connector/aws_account.go:263-272 | When the opening stack owes nothing unpayable but through some groups, nothing garbled, unknown or unmatchable is in the directory but those groups. |
| Domain.ReadingRoles | pkg/connector/aws_account.go:706-753 | Reading a profile's roles fails exactly when the field is there and no list of strings; a missing profile or field lists nothing. |
| StoreFaults.SureIffNeverHidden | pkg/connector/aws_account.go:602-611 | A grant is sure if and only if no steady store that keeps the same role entries hides it. |
| StoreFaults.UnsureIffLosable | pkg/connector/aws_account.go:602-611 | A grant is not sure if and only if some collected page has none of its groups and none of them has a kept role entry. |
| StoreFaults.ARunThatLosesAGrant | pkg/connector/aws_account.go:602-611 | For every such grant and page, in any world and settings that make no call fail by itself, a finished run without Okta faults or lost responses that does not report it, and otherwise exactly what that store leaves. |
| StoreFaults.AFailedAppendLosesAGrant | pkg/connector/aws_account.go:607-611 | The smallest such run: the append of the second page fails, that group's role entry is lost, and the role of a user in that group goes unreported. |
| StoreFaults.ListedReportIsExactIff | pkg/connector/aws_account.go:570-611 | The report of a reliable store equals the reference report if and only if no ID set is kept or every walk-grant has a group with an identifier. |
| StoreFaults.AGroupWithoutIdentifierIsLost | pkg/connector/aws_account.go:570-611 | A concrete valid world, two pages of app groups and one group without identifier, in which a role that should be reported is in no report a reliable store gives. |
| SyncRun.RunResolvesEveryWalk | pkg/connector/aws_account.go:495-512 | A finished run has an answered look-up, made for that user, for every group of every walked user: no error is lost. |
| SyncRun.PhaseOutcome | pkg/connector/aws_account.go:778-787 | Between any two calls: no safe group is misjudged; on a steady store only denied groups are, a group with a kept role entry got at most one conclusive answer, and where there is an ID set no request at all, failed or not, was made but about recorded groups with lost entries; on a reliable store only groups without identifier are misjudged, and none is asked about where an ID set is kept. |
| Owed.OpeningOwesTheReport | pkg/connector/aws_account.go:263-272 | The opening stack, evaluated page by page, owes a grant outright if and only if the page-free reference report contains it without a walk, and owes it through a group if and only if that group of a walked user brings the role. |
| Owed.WalkOwes | pkg/connector/aws_account.go:487-512 | A walk owes a grant through a group if and only if the group is walked and brings the role, and a look-up of exactly the walked groups. |
| AccountSync.AccountResource.Grants | pkg/connector/aws_account.go:248-304 | One call on any token: conservation of owed items, strictly fewer calls to go, token shape kept, no look-up before the user phase, the store ready for the next token and for the same one again, a failed call throws no answered look-up away, success when nothing fails. |
| AccountSync.AccountResource.GroupGrants | pkg/connector/aws_account.go:514-614 | A page of the group phase reports exactly the grants of its groups, in both mapping modes, and moves the collection of roles and IDs on by that page, or leaves it where it was on error. |
| AccountSync.AccountResource.AssignedGroupGrants | pkg/connector/aws_account.go:562-613 | The branch over group assignments: page contents to grants, role cache and ID set, including the single-page threshold. It fails on a listed group with a garbled role list and, without faults, not when no listed group has one; a missing profile or role list is an empty one. |
| AccountSync.AccountResource.MappedGroupGrants | pkg/connector/aws_account.go:523-560 | The group-mapping branch: expandable grants of exactly the groups whose name stands for a role of this account. With a filter that does not compile there is no answer once a named group with an identifier is on the page. |
| AccountSync.AccountResource.UserGrants | pkg/connector/aws_account.go:306-452 | A call of the user phase settles part of its inner stack, at strictly lower cost, and keeps the stack's shape. |
| AccountSync.AccountResource.ReportUser | pkg/connector/aws_account.go:411-443 | A user is skipped, reported from the profile, or pushed for a walk, exactly as scope and settings say; it is an error exactly when the profile counts and its role list is garbled. |
| AccountSync.AccountResource.CollectRolesFromUserGroups | pkg/connector/aws_account.go:463-512 | Success covers a stretch from the start index to the stop, every group of it answered and the stop group not; an error means nothing was answered, and the first look-up was the one at the start index. |
| AccountSync.AccountResource.GetOktaAppGroupFromCacheOrFetch | pkg/connector/aws_account.go:755-835 | An answer is Okta's own except about a misjudged group; a group becomes misjudged only through a present ID set that lacks it; the cache stays sound and the store stays in its phase. On a steady store the answer, the new cache and whether Okta is asked are given exactly. |
| WalkRun.ResumeUntilDone | pkg/connector/aws_account.go:351-387 | However often a walk is interrupted and in whatever order Okta lists the groups, each group is answered exactly once, in walk order, and every collected role is a role of one of the user's groups. In the user phase, which the walk does not end, the roles of every safe group are collected on any store, and on a steady store exactly those of the groups it does not deny. Failures plus as many calls as there are groups, at least one, always finish the walk, and without faults none fails. |
| WalkRun.StretchesMeet | pkg/connector/aws_account.go:489-512 | Two adjoining stretches are one: their roles and look-ups add up. |
| WalkRun.WholeWalkRoles | pkg/connector/aws_account.go:463-512 | The roles of a walk over all groups are those of the user's groups, but for groups misjudged. |
| Settlement.StretchSettles | pkg/connector/aws_account.go:489-512 | The answers of a stretch deliver everything owed for it, except grants owed through misjudged groups, and leave the rest of the walk owed. |
| Sorting.WalkOrderIsCanonical | pkg/connector/aws_account.go:474-482 | The sorted group list depends only on which groups were listed, so an index means the same group on every call. |
| Sorting.SortedIsUnique | pkg/connector/aws_account.go:482 | A collection of strings has one sorted arrangement. |
| TokenShape.InnerStackIsBounded | pkg/connector/aws_account.go:330-342 | In a reachable inner stack only the bottom entry can be a page state, only the top one has a position, that position is inside the user's group list, and the depth is at most one page of users plus one. |
| TokenShape.AdvanceKeepsShape | pkg/connector/aws_account.go:370-380 | Popping an unfinished user and pushing it back with its position keeps the shape. |
| TokenShape.PageStateIsAlone | pkg/connector/aws_account.go:402-409 | A page state comes to the top only when all users above it are done, and it asks for the next unread page. |
| TokenShape.UnfinishedCosts | pkg/connector/aws_account.go:291-300 | A reachable token that is not empty always has at least one call to go. |
| UserSteps.WalkStep | pkg/connector/aws_account.go:344-387 | A stretch of a walk is a proper step: conservation, lower cost, as many look-ups fewer to go as were answered, deliveries backed by answered look-ups, shape. |
| UserSteps.FetchStep | pkg/connector/aws_account.go:390-452 | So is a fetched page of users. |
| OuterStep.GroupStepPhase | pkg/connector/aws_account.go:602-611 | After a group page any store is ready for the same page again and, on success, for the next one or, after the last, for the users. |
| CacheFacts.TransparentIffCovered | pkg/connector/aws_account.go:755-787 | With truthful entries the cached look-up agrees with asking Okta about every group if and only if a present ID set and the cached roles together account for every app group. |
| CacheFacts.RebuiltSetNeedsRoleEntries | pkg/connector/connector.go:495-508 | When the ID set is lost between group pages, the set rebuilt from the later pages is harmless if and only if the role entries of all groups it misses survive. |
| CacheFacts.LosingTheIDSetIsHarmless | pkg/connector/aws_account.go:778-784 | Once the ID set is lost, every answer of a truthful cache is Okta's own. |
| CacheFacts.LookUpKeepsAnswers | pkg/connector/aws_account.go:755-835 | What a look-up remembers changes no answer about any group, and spares the next call exactly unless the profile was unreadable or the store loses the group's roles. |
| CacheFacts.FailedAppendLosesAGroup | pkg/connector/aws_account.go:778-784 | A concrete cache, an ID set without the second of two app groups: evicting that group's role entry makes it uncovered, and the group is denied although Okta has its role. |
| CacheFacts.CollectionAdvances | pkg/connector/aws_account.go:565-611 | On any store, consuming page k turns a collection of k pages into one of k+1: kept role entries, an ID set that holds all of some collected page if it is there, and on a steady store exactly which IDs, for every page split and on both sides of the threshold. |
| CacheFacts.CollectionIsComplete | pkg/connector/aws_account.go:602-611 | After the last group page the roles of every safe group are there, and on a steady store the ID set is absent or holds exactly the recorded IDs. |
| CacheFacts.FullRecord | pkg/connector/aws_account.go:606-607 | On a reliable store the recorded IDs are all identified app groups, and there are any exactly for several pages with any ID or one page of at least five. |
| CacheFacts.ReadyAnswers | pkg/connector/aws_account.go:755-835 | In every user-phase state a steady store answers about a group as Okta would, exactly unless it is an app group that is neither recorded nor safe while there is an ID set. |
| Sessions.SessionStore.AppendToAppGroupIDSet | pkg/connector/connector.go:495-508 | What the stored set can be afterwards under eviction and failed reads or writes, and exactly what it is on a steady store. |
| Pagination.TokenRoundTrip | vendor/github.com/conductorone/baton-sdk/pkg/pagination/pagination.go:129-163 | Marshalling a stack and parsing it gives the stack back; only the empty stack gives the empty token. |
| Pagination.Bag.Next | vendor/github.com/conductorone/baton-sdk/pkg/pagination/pagination.go:79-92 | The top state takes the new token, or is dropped when there is none. |
| Pagination.ParsePageToken | pkg/connector/pagination.go:52-69 | A listing's stack is the one in the token, or one initial state when the token is empty. |
| JoinRoles.DirectUserHolds | pkg/connector/connector.go:51-58 | After a finished sync with any store, a direct user has exactly its own roles when roles are not joined, and exactly its own and its listed groups' roles when they are. |
| JoinRoles.UnionUserHolds | pkg/connector/aws_account.go:424-432 | Under union a group-scoped user has, whatever the join setting, exactly the roles of its profile, and when joined also those of its listed groups. |
| JoinRoles.GroupScopedUserHolds | pkg/connector/aws_account.go:434-442 | A group-scoped user without union has, after a finished sync with any store, exactly the roles of its listed groups when roles are joined, and no direct grant; when they are not, only roles of its groups and all of those that are sure, and with a steady store exactly those of the groups it does not deny. |
| JoinRoles.WalkMatchesExpansion | pkg/connector/aws_account.go:589-598 | The walk of a finished sync with a steady store and the expansion after one with any store give such a user the same role if and only if the role comes with a group the steady store does not deny exactly when it comes with a listed group. |
| JoinRoles.ReliableWalkMatches | pkg/connector/aws_account.go:589-598 | For a reliable store that condition holds exactly unless no ID set is kept and the role comes only with groups that listings do not show. |
| GroupMapping.ListAllAccounts | pkg/connector/aws_account.go:66-144 | A finished listing is exactly the accounts some Okta group stands for a role of, for every page split and any failures; failures plus one call a page finish it. It finishes only if the filter compiles or no group has a name, and then without faults none fails. |
| GroupMapping.ListAllEntitlements | pkg/connector/aws_account.go:173-217 | A finished listing is exactly the roles of the account that some Okta group stands for; failures plus one call a page finish it. The filter is as in `ListAllAccounts`. |
| GroupMapping.MappingIsConsistent | pkg/connector/aws_account.go:524-560 | Every role reported for a group is an entitlement of its account, and every account with an entitlement is listed. |
| EntitlementIDs.ParseBuilt | pkg/connector/aws_account.go:229-241 | Parsing a built identifier gives exactly its role when all three parts are non-empty and colon-free, and an error otherwise; never another role. |
| EntitlementIDs.ParsedWasBuilt | pkg/connector/aws_account.go:229-241 | Whatever parses was built from three such parts. |
| EntitlementIDs.NamesIffParses | pkg/connector/aws_account.go:229-241 | An identifier parses to a role if and only if it is a type, a resource and that role, clean and joined by colons. |
| RequestMeaning.RequestIff | pkg/connector/aws_account.go:846-870 | A request of type "user" is about the user of that key, one of type "group" about the group, and both about the role the identifier names; anything else, and any request under group mapping, is refused. |
| RequestMeaning.GrantedIff | pkg/connector/aws_account.go:897-912 | A grant is allowed if and only if the user is unassigned, or has an identifier, a scope and a readable role list and, when group-scoped, conversion is allowed and join or union is on; for a group, if and only if its stored or fresh role list is readable. |
| RequestMeaning.RevokedIff | pkg/connector/aws_account.go:1056-1072 | The same for revocation, where an unassigned group is no obstacle. |
| RequestMeaning.GrantMeans | pkg/connector/aws_account.go:846-1005 | An answered grant leaves exactly the named principal's record listing what it listed and the role; "already exists" exactly when it was listed; a written user is direct; everything else in the directory is as it was. |
| RequestMeaning.RevokeMeans | pkg/connector/aws_account.go:1007-1145 | An answered revocation leaves exactly the named principal's record listing what it listed but the role; "already revoked" exactly when it was not listed; a written user is direct; everything else is as it was. |
| Provisioning.Provisioner.Grant | pkg/connector/aws_account.go:846-1005 | An answered grant was open and did, in the record of the user or group its type and key name, what a grant means, with the right outcome; a failed one leaves the directory untouched, with the group assigned, or with that effect in place; without faults an open grant is answered. |
| Provisioning.Provisioner.Revoke | pkg/connector/aws_account.go:1007-1145 | The same for revocation, where a failure leaves the directory untouched or with the effect in place. |
| Provisioning.RemoveSamlRole | pkg/connector/aws_account.go:1230-1239 | The loop drops every occurrence of the role and keeps the rest in order. |
| ProvisioningLaws.GrantInserts | pkg/connector/aws_account.go:914-956 | A grant inserts exactly one role into one principal's role set. |
| ProvisioningLaws.GrantTouchesOnlyRoles | pkg/connector/aws_account.go:926-956 | No other principal and no other profile key changes. |
| ProvisioningLaws.RevokeDeletes | pkg/connector/aws_account.go:1073-1100 | A revocation deletes exactly one role from one principal's set and touches nothing else. |
| ProvisioningLaws.GrantIsIdempotent | pkg/connector/aws_account.go:914-918 | Repeating a grant changes nothing and is reported as already existing. |
| ProvisioningLaws.RevokeIsIdempotent | pkg/connector/aws_account.go:1073-1077 | Repeating a revocation changes nothing and is reported as such. |
| ProvisioningLaws.RevokeUndoesGrant | pkg/connector/aws_account.go:1083-1086 | Granting an absent role to an assigned principal and revoking it restores its role list in order. |
| ProvisioningLaws.ProvisioningKeepsDistinct | pkg/connector/aws_account.go:914-925 | A duplicate-free role list stays duplicate-free. |
| ProvisioningLaws.GrantConverges | pkg/connector/aws_account.go:959-1001 | From every state a disturbed grant can leave, granting again leads to the same directory as one undisturbed grant. |
| ProvisioningLaws.HistoryRefinesSets | pkg/connector/aws_account.go:846-1174 | Along any history each principal's stored roles are the fold of set insertions and deletions. |
| ProvisioningLaws.HistoryKeepsScopes | pkg/connector/aws_account.go:902-939 | Along any history a direct user stays direct, and a group-scoped user is untouched unless conversion is allowed and join or union is on. |
| ProvisioningLaws.HistoryChangesOnlyRoles | pkg/connector/aws_account.go:926-1001 | Along any history memberships, Okta groups, identifiers and all profile keys but the role list stay, principals no event is about stay as they are, and new records carry no keys but those of a fresh assignment. |
| ProvisioningLaws.RevokeIsReflected | pkg/connector/aws_account.go:1031-1142 | After a successful revocation, whatever the scope and settings and also when nothing was found, no sync reports the role for that principal. |
| ProvisioningLaws.GrantIsReflected | pkg/connector/aws_account.go:870-1001 | After a successful grant the next sync has to report the role, exactly unless it was already in a profile that is not read or on a group without identifier; finding it never takes a walk. |
| ProvisioningLaws.AGrantThatIsNotReflected | pkg/connector/aws_account.go:423-442 | A concrete group-scoped user with join on and union off: the grant reports that the role exists, and the next sync does not show it. |
| ProvisioningRuns.RunHistory | pkg/connector/aws_account.go:846-1174 | Any sequence of calls, each of which may fail or lose its acknowledgement, amounts to one possible event per call; role sets are the fold over those events, scopes follow the conversion policy, and nothing else changes. |
| ProvisioningRuns.GrantUntilDone | pkg/connector/aws_account.go:959-1001 | Repeating a disturbed grant until it is answered ends where one undisturbed grant ends, with what a grant means done once. |
| ProvisioningRuns.RevokeThenSync | pkg/connector/aws_account.go:1007-1145 | After an answered revocation no sync reports the role, whatever fails during the sync; a finished one reports of the group, or of the user the call has written, whatever its scope was, exactly the other roles its record listed. Without faults the revocation is answered if open, and enough calls finish the sync. |
| ProvisioningRuns.GrantThenSync | pkg/connector/aws_account.go:846-1005 | After an answered grant a finished sync reports the role, whatever fails or is evicted during it, exactly unless the role was there before and invisible; and of a user the call has written, or a group with an identifier, it reports exactly the role and those its record listed before or its assignment brought. Without faults the grant is answered if open, and enough calls finish the sync. |
| ProvisioningRuns.HistoryThenSync | pkg/connector/aws_account.go:846-1145 | After any history of calls, each of which may fail, a finished sync with any store reports, of every principal whose roles are read, exactly the fold of role insertions and deletions over the history. |
| ProvisioningLaws.StoredIsReported | pkg/connector/aws_account.go:411-433 | Of a user whose profile counts, a group with an identifier, or a principal not assigned, a sync has to report exactly the stored roles, and never takes a walk for them. |

## Left out

- HTTP, the Okta SDK, JSON encoding, `next` link parsing, rate-limit headers and annotations: a call succeeds, finds nothing, or fails.
- The text of errors and their status codes: no branch of the modelled functions depends on them.
- Regular expressions and the rewriting of the group filter: a filter is a partial function from names to (account, role), or does not compile.
- Reading the application's settings, ARN parsing and the user-schema look-up: the settings are a record whose retrieval may fail.
- Changes to the backend during a sync, and Okta's own recomputation of profiles.
- Roles offered as entitlements without group mapping: one call that copies a list.
- Grant annotations other than the expandable flag, display names, logging, configuration, metadata and the command line.
- Byte-level encoding of strings: identifiers are compared character by character.
