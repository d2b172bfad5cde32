# Verified models of the city-planning backend

This project models the parts of the backend where correctness depends on more than one
function at a time, and proves what those parts are for. Each module is one file of the same
name. Run `dafny verify dfyconfig.toml` to check everything.

* **The versioned read-through cache.** `CacheModel` is a transition system: every `await` of
  `CacheService` and of the version lookup is a point where other tasks and processes act, Redis
  requests may succeed, be lost after taking effect or never arrive, entries and locks expire
  or are evicted, and a commit writes data and version together. Five modules prove properties
  of its runs: `CacheAnswers` (which gets answer a call, and how long it polls),
  `CacheFreshness` (no answer is older than its key, and how old a looked-up version can be),
  `CacheExclusion` (no two tasks compute one key at once), `CacheOnce` (a
  release removes only the caller's own lock; exactly when a key is computed at most once across
  processes, with a run that computes it twice) and `CacheSingleFlight` (at most one compute in
  a process). `CacheService` has the methods in the shape of the code, each access being one
  step of that system. `CacheVersions` has the version rows and local copies, `CacheKeys` the keys,
  and `ViewportKeys` the keys of map viewports with what the cached query reads.
* **The last active superuser** (`SuperuserGuard`): transactions that lock rows one by one under
  READ COMMITTED, mixed with administrators who count first and write later.
* **Editing and mailing**: `EmailTemplates` (optimistic versions in any interleaving) and
  `EmailCampaigns` (drafting, starting once, cancelling, with the sending workers in between),
  with `CampaignSchedule` (nothing is taken up before its time).
* **Codecs and parsers**: `OAuthFlow` on `Base64Url`, with `OAuthSample` as an instance of its
  laws, and `PolygonFilters`, with `Text` and `Lists` for the string and list operations.
* **Tables**: `OsmReconcile` (publishing staged OpenStreetMap rows), `AreaAssignment`
  (polygons to analysis areas) and `Analytics` (the same figures from two different queries),
  with `Sorting` and `Permutations`. `Sets`, `Options` and `Powers` are shared definitions.
* **`ViewportTiles`**: viewport checks and tile ranges in exact arithmetic.
* **The assistant**: `AssistantProvider` (retries and repair) and `AssistantPlans` (at most four
  tools for one question).

Where the outside world matters it is a parameter with stated laws: the query (`Config.compute`),
the hash (`CacheKeys.Env`: injective), signature and JSON (`OAuthFlow.Env`: what was written reads
back), spatial predicates (`Gis`), the projection (`Mercator`: strictly decreasing, with its
inverse), rounding (`Rounding`: any function). Times are reals.

Things the code does that differ from what one might expect, each proved:

* A key can be computed twice by two processes in a run in which nothing fails and no time
  passes, since nothing looks at the cache again after a granted `SET NX`
  (`CacheOnce.ComputedTwice`, `CacheOnce.AtMostOnceIff`).
* Two administrators can deactivate the last two superusers, since count and write are separate
  steps (`SuperuserGuard.TwoAdminsCanEmpty`, `SuperuserGuard.KeepsASuperuserIff`).
* Cancelling a campaign is final exactly when no worker holds one of its rows at that moment: a
  worker whose send fails for now puts its row back to PENDING although the campaign is cancelled
  (`EmailCampaigns.CancelIsFinalIff`).
* The size distribution has no CHECK constraint behind it and can fall short of the number of
  polygons (`Analytics.SizesAddUpIff`).
* A correctly signed OAuth payload that is JSON but no object makes the decoder raise
  `AttributeError` instead of returning nothing, and nothing else does
  (`OAuthFlow.AttributeErrorIff`, with an instance in `OAuthSample.SignedListRaises`). The encoder
  signs objects only, so no cookie it writes does that (`OAuthFlow.SignedRaises`).
* A viewport answer from the cache fits every request that shares its key, except that the zoom
  it reports may be that of another request (`ViewportKeys.SharedKeyReadsSame`,
  `ViewportKeys.ReportedZoomMayDiffer`).

Three results are about inputs that the code and its imports never produce; they say why a
condition is there. Version rows start at 1 and are only raised, so they stay positive
(`CacheVersions.VersionCountsBumps`), and `CacheVersions.RaisesByOneIff` shows what a row of 0 or -1
would do. The importer writes nodes, ways and relations only (`OsmReconcile.KnownTypesPublish`), and
`OsmReconcile.PublishesIff` shows what a row of another type would do. The parameter lists of the
calls are all of one kind (`CacheKeys.OneKindIff`), and `CacheKeys.MixedListsSplit` shows a list
that is not.

## Model

| member | source | states |
|---|---|---|
| `CacheFreshness.NeverOlderThanKey` | backend/app/cache/service.py:150-279 | In every run, whatever fails, expires or is evicted, each entry stored under a version-v key and each answer given to a task holding v was computed from a database state of version v or later. |
| `CacheFreshness.NextFresh` | backend/app/services/city_metrics.py:55-98 | The invariant behind it is kept by every single step of readers, writers (data and version in one commit), expiry, eviction and clock. |
| `CacheFreshness.LookupWindow` | backend/app/services/cache_versions.py:12-24 | With a Redis client, a version returned at time t was the committed one at some moment after t - 5 s (less the read latency d; d = 0 when read and local store are one step) and no later than t. |
| `CacheFreshness.AnswerReflectsOldCommits` | backend/app/services/city_metrics.py:55-98 | End to end: an answer reflects every commit made at least 5 s (plus d) before its version lookup returned. |
| `CacheAnswers.GetAnswersIff` | backend/app/cache/service.py:158-161 | A get ends the call exactly when it reaches Redis, the key has an entry that has not expired, and the call asks for bytes or the entry is not the JSON text `null`; the answer is that entry, and otherwise the call goes on. |
| `CacheAnswers.NullIsNoHit` | backend/app/cache/service.py:150-193 | Over every run no JSON call is answered by a stored null, and no entry, lock or local version outlives its time to live (5 s for versions). |
| `CacheAnswers.StoredIsServed` | backend/app/cache/service.py:150-196 | What a task stores answers every get of its key that reaches Redis within the time to live, whatever else happens, unless the entry is evicted or stored again or is a JSON null. |
| `CacheAnswers.AtMostFivePolls` | backend/app/cache/service.py:248-256 | Over every run a call for bytes polls at most five times, and one that computes polled five times, or never because it holds the lock or could not ask for it. |
| `CacheAnswers.PollingIs` | backend/app/cache/service.py:184-193 | A refused call polls five times for bytes and until the lock's time to live has passed for JSON, and computes only then. |
| `CacheAnswers.PollsWhenRested` | backend/app/cache/service.py:186-193 | A sleeping call polls once 0.1 s (JSON) or 0.05 s (bytes) have passed, not before. |
| `CacheAnswers.NeverStuck` | backend/app/cache/service.py:150-279 | A call that has not ended can always go on, unless it waits for a lock that has an owner or rests between two polls. |
| `CacheAnswers.RedisLockIs` | backend/app/cache/service.py:172-211 | `SET NX` makes a lock exactly when it arrives and no unexpired one is there, the task knows of it exactly when the reply arrives too, and a release removes only an unexpired lock with the task's token. |
| `CacheAnswers.OwnerIs` | backend/app/cache/service.py:165-214 | The local lock is taken when nobody owns it and given up exactly when the call ends inside it, however it ends. |
| `CacheAnswers.TableIs` | backend/app/cache/service.py:213-279 | The lock object leaves the table exactly with the end of a fill, and for bytes with every end inside the lock. |
| `CacheAnswers.VersionUsed` | backend/app/services/cache_versions.py:12-24 | Without a client the version is 1; an unexpired local copy is used as it is; otherwise the committed version is read and copied for 5 s. |
| `CacheExclusion.NoOverlap` | backend/app/cache/service.py:150-214 | With Redis working for the key and nothing of it evicted, results not null, holders not raising, every hold of the lock shorter than its TTL by more than one poll's get, entries living at least as long as the lock TTL and longer than the gap between two gets of a waiting task, no two tasks of any processes are computing one key at the same time. |
| `CacheExclusion.OnlyHoldersCompute` | backend/app/cache/service.py:166-195 | Under the same assumptions a computing task holds a live Redis lock carrying its own token; a task that was refused the lock never computes. |
| `CacheExclusion.NextKeeps` | backend/app/cache/service.py:166-214 | Every orderly step keeps the invariant: one holder, its lock unexpired, every waiting task covered by a live entry or an older holder. |
| `CacheOnce.ReleaseOnlyOwnToken` | backend/app/cache/service.py:202-211 | In all runs, also after expiry and re-acquisition, the only lock an action of a task removes carries a token that task made, and the action is its release. |
| `CacheOnce.AtMostOnceIff` | backend/app/cache/service.py:166-195 | Under the assumptions of `CacheExclusion.NoOverlap` and while the entry does not expire, a key is computed at most once over all processes if, and when no compute is about to start only if, no lock was granted while a live entry was there. |
| `CacheOnce.ComputedTwice` | backend/app/cache/service.py:166-195 | At most once across processes is false: a run of two processes, with Redis working and nothing expiring, computes one key twice. |
| `CacheSingleFlight.SingleFlight` | backend/app/cache/service.py:158-214 | Over a run in which the gets and sets of a process for a key succeed, none of its calls raises inside the local lock, results are not null and the entry neither expires nor is evicted, the process starts at most one compute of the key, for both variants of the call, although the table of lock objects may lose or replace the object while tasks wait for it. |
| `CacheSingleFlight.MissMeansFirst` | backend/app/cache/service.py:224-279 | A second miss inside the local lock shows that no task of the process is past its own second miss and that none has ever started the compute. |
| `CacheSingleFlight.NextKept` | backend/app/cache/service.py:158-279 | Every step, of any process, keeps the single-flight invariant. |
| `CacheService.Service.Take` | backend/app/cache/service.py:150-279 | One action of a call is one step of the transition system and keeps the freshness invariant. |
| `CacheService.Service.Await` | backend/app/cache/service.py:150-279 | While a call awaits, the steps of the others leave it where it is and keep the invariant. |
| `CacheService.Service.LookFirst` | backend/app/cache/service.py:158-165 | The first get answers with a usable entry, for JSON never with null, or the call goes on to wait for the local lock. |
| `CacheService.Service.TakeLock` | backend/app/cache/service.py:165-166 | The call gets the local lock, is cancelled, or still waits for a lock object that some task owns. |
| `CacheService.Service.LookAgain` | backend/app/cache/service.py:167-170 | The get inside the local lock answers, for JSON never with null, or the call has missed twice. |
| `CacheService.Service.Poll` | backend/app/cache/service.py:186-193 | Polling ends with a hit, for JSON never null, by cancellation, or with the call ready to compute; otherwise the call is still between two polls. |
| `CacheService.Service.Publish` | backend/app/cache/service.py:196-214 | After store, release and pop the call returns the computed value as a miss. |
| `CacheService.Service.GetOrCompute` | backend/app/cache/service.py:150-279 | Between any steps of others and with any failures of Redis, a call of either variant fails only when it is cancelled, and what it returns was computed from a database state at least as new as the version it holds; a JSON hit is never null; a call without a reply waits for a lock or between two polls. |
| `CacheVersions.Versions.CacheVersion` | backend/app/services/cache_versions.py:12-24 | Without Redis the version is 1; an unexpired copy is returned unchanged; otherwise the row is read (absent counts as 1) and copied for 5 s; the table never changes. |
| `CacheVersions.Versions.Bump` | backend/app/services/cache_versions.py:27-43 | Raises the named rows once each however often named, inserts absent ones at 2, drops exactly their local copies. |
| `CacheVersions.BumpRaisesByOne` | backend/app/services/cache_versions.py:27-43 | For positive rows a bump raises what readers see by one for exactly the named namespaces, absent rows included, and keeps rows positive. |
| `CacheVersions.RaisesByOneIff` | backend/app/services/cache_versions.py:18-42 | Hypothetical rows: the rise is one for every stored value but 0 and -1. |
| `CacheVersions.VersionCountsBumps` | backend/app/services/cache_versions.py:12-43 | From rows of at least 1, over any sequence of bumps, rows stay positive and the version of a namespace grows by the number of bumps that name it. |
| `CacheKeys.CanonicalIff` | backend/app/cache/keys.py:12-19 | Two parameter mappings, nested ones included, have the same canonical form exactly when they have the same keys, equal scalars (UUIDs and floats read as text) and, per list, the same items, those of equal text in the same order. |
| `CacheKeys.OneKindIff` | backend/app/cache/keys.py:17-18 | For lists of strings and for lists of numbers the same items means the same multiset, so order is forgotten and nothing else. |
| `CacheKeys.MixedListsSplit` | backend/app/cache/keys.py:17-18 | Hypothetical list: one that mixes a number with its own text is split by order although the multiset is the same. |
| `Sorting.StableIff` | backend/app/cache/keys.py:17-18 | Stable sorting makes two lists equal exactly when, among items that tie, they hold the same in the same order. |
| `CacheKeys.VersionInjective` | backend/app/cache/keys.py:22-28 | Resource and version, single or a pair joined by a colon or a dash, can be read back from the text before the digest. |
| `CacheKeys.KeyIff` | backend/app/cache/keys.py:12-28 | With an injective hash, two calls share a cache key exactly when resource, version and selection agree. |
| `CacheKeys.ListIsSorted` | backend/app/cache/keys.py:17-18 | A list becomes its items in the order of their texts, equal texts in the order given. |
| `CacheKeys.LexIff` | backend/app/cache/keys.py:17-18 | That order is Python's: a prefix first, else by the first character that differs. |
| `CacheKeys.ScalarIff` | backend/app/cache/keys.py:19 | Scalars are confused only when both are read as the same text. |
| `CacheKeys.ReadDecimal` | backend/app/cache/keys.py:28 | Reading a printed version gives the version, without leading zeros. |
| `ViewportKeys.KeyIff` | backend/app/services/osm_features.py:172-189 | Two cached viewport requests share a key exactly when they agree on tile zoom, tile ranges, rounded zoom and every other choice, lists and filters as multisets. |
| `ViewportKeys.SharedKeyReadsSame` | backend/app/services/osm_features.py:226-292 | Requests that share a key make the query read the same: bucket with its edges, side of the thresholds 13, 15 and 17, feature limits, area, categories and filters, although the key rounds the zoom and sorts the tile ranges as text. |
| `ViewportKeys.SameBand` | backend/app/services/osm_features.py:87-106 | From zoom 11 on, equal tile zooms mean the same side of every zoom threshold. |
| `ViewportKeys.LimitsAre` | backend/app/services/osm_features.py:229-259 | The feature total is shared out between points, polygons and buildings by zoom, never exceeds the total and is never negative. |
| `ViewportKeys.ReportedZoomMayDiffer` | backend/app/services/osm_features.py:374-377 | Two accepted requests of different zoom can share a key, so the reported zoom of a cached answer may be another request's. |
| `SuperuserGuard.SelfServiceKeepsASuperuser` | backend/app/services/account_service.py:27-174 | Any number of concurrent self-deactivations and self-deletions, with administrators whose count and write are one step, never take the number of active superusers from positive to zero. |
| `SuperuserGuard.CommittedEffect` | backend/app/services/account_service.py:63-174 | A self-service call that ends as committed has removed its user, or made an active user inactive, and changed no other row. |
| `SuperuserGuard.SuccessLasts` | backend/app/services/account_service.py:63-174 | Over every run, once a call has reported success its user stays gone or inactive until someone registers or activates that id. |
| `SuperuserGuard.AloneOutcome` | backend/app/services/account_service.py:27-174 | Without rivals a call runs to its end, and it ends exactly as the rule says: the last active superuser is refused, anyone else is deactivated or deleted. |
| `SuperuserGuard.AdminCountIff` | backend/app/services/admin_users.py:195-222 | An administrator's request passes its check exactly when it is about someone else who is active, and who is no superuser or one of at least two active ones. |
| `SuperuserGuard.LockNextEffect` | backend/app/services/account_service.py:40-48 | Each candidate row is looked at once and counts exactly if it is still an active superuser, so the locking ends. |
| `SuperuserGuard.GuardEffect` | backend/app/services/account_service.py:40-58 | The rows looked at are the active superusers of the moment; they are counted only when all have been looked at, and one or none refuses the call. |
| `SuperuserGuard.LocksAreGivenUp` | backend/app/services/account_service.py:27-174 | Over every run each lock belongs to a transaction still under way. |
| `SuperuserGuard.EndReleases` | backend/app/services/account_service.py:27-174 | A transaction that ends gives up exactly its own locks. |
| `SuperuserGuard.TransactionsTouchNothingElse` | backend/app/services/account_service.py:27-174 | No step of a self-service call but its commit changes a user. |
| `SuperuserGuard.KeepsASuperuserIff` | backend/app/services/admin_users.py:188-248 | In every run from a consistent state an active superuser remains throughout exactly when no administrator writes on a count that no longer holds. |
| `SuperuserGuard.StepEmptiesIff` | backend/app/services/account_service.py:41-84 | The only step that can take away the last active superuser is an administrator's write on a stale count; a self-service commit never is. |
| `SuperuserGuard.NextKeeps` | backend/app/services/account_service.py:27-58 | Every step keeps what each transaction knows: the rows it counted are locked by it and are still active superusers. |
| `SuperuserGuard.TwoAdminsCanEmpty` | backend/app/services/admin_users.py:203-222 | Without atomic count and write the guarantee is false: a run with two administrators ends without an active superuser. |
| `EmailTemplates.NoLostUpdate` | backend/app/services/admin_email_templates.py:126-236 | In every interleaving of updates and resets, first insert included, committed versions are exactly 1, 2, 3, ..., each directly follows the version its editor had read and has what the editor submitted, the row is the last success, and the log holds exactly the successes. |
| `EmailTemplates.OneWinnerPerVersion` | backend/app/services/admin_email_templates.py:146-149 | Of all editors who had read one version at most one succeeds. |
| `EmailTemplates.ConflictIff` | backend/app/services/admin_email_templates.py:126-236 | A call is refused for its version exactly when the version it had read is not the committed one at the moment it gets the row, and a call that does not commit changes nothing. |
| `EmailTemplates.InsertRace` | backend/app/services/admin_email_templates.py:126-236 | Of two editors who find no row one inserts it and the other fails on the unique key, although neither has waited for the other. |
| `EmailTemplates.LockEffect` | backend/app/services/admin_email_templates.py:126-160 | Only a row that is there is locked, and it stays locked exactly for the editor whose version agrees. |
| `EmailTemplates.AloneOutcome` | backend/app/services/admin_email_templates.py:126-236 | Without rivals an editor who had read the committed version succeeds and leaves its content under the next version; any other is told of the conflict. |
| `EmailTemplates.NextKeeps` | backend/app/services/admin_email_templates.py:126-236 | Every step keeps the invariant tying row lock, pending insert and log to the editors. |
| `EmailCampaigns.Store.Create` | backend/app/services/admin_email_campaigns.py:82-104 | A valid draft becomes a campaign of version 1 without deliveries and leaves all others alone; an invalid one changes nothing. |
| `EmailCampaigns.Store.Update` | backend/app/services/admin_email_campaigns.py:107-137 | Exactly a draft at the expected version takes valid content and the next version, and nothing else changes; each other reply has its exact condition and changes nothing. |
| `EmailCampaigns.Store.AddRows` | backend/app/services/admin_email_campaigns.py:240-263 | The loop appends one pending delivery and one outbox row for each recipient, in order, with fresh ids. |
| `EmailCampaigns.Store.Start` | backend/app/services/admin_email_campaigns.py:210-302 | Exactly a draft, a legal one only when confirmed, is started: one pending delivery and outbox row for each recipient, due at the scheduled time or else at once, the campaign scheduled, in process or completed; a started campaign is returned unchanged. |
| `EmailCampaigns.Store.Cancel` | backend/app/services/admin_email_campaigns.py:305-340 | Cancelling turns exactly the campaign's pending deliveries and outbox rows to cancelled and changes nothing else of any row; only a completed or unknown campaign is refused. |
| `EmailCampaigns.CampaignsStayConsistent` | backend/app/services/admin_email_campaigns.py:82-340 | Over every sequence of calls and worker steps deliveries and outbox rows stay one to one, `recipient_count` is the number of deliveries, drafts have none, completed campaigns have no open row in either table. |
| `EmailCampaigns.CallsKeepEqualRows` | backend/app/services/admin_email_campaigns.py:82-340 | Over every sequence of create, update, start and cancel calls the rows keep equal status and schedule and a cancelled campaign has no pending row. |
| `EmailCampaigns.CancelIsFinalIff` | backend/app/services/email_outbox.py:229-291 | A cancel leaves no pending row, and no later call or worker step makes one, exactly when no worker held a row of the campaign at the cancel. |
| `EmailCampaigns.InWorkIsLive` | backend/app/services/email_outbox.py:143-146 | A row held by a worker belongs to a delivery in work, so nothing is sent for a cancelled delivery. |
| `EmailCampaigns.WorkKeeps` | backend/app/services/email_outbox.py:68-348 | Every worker step (take, skip, fail, retry, send, recover) keeps the invariant. |
| `EmailCampaigns.StartWritesWhatWasShown` | backend/app/services/admin_email_campaigns.py:195-268 | A start succeeds exactly for a draft, a legal one only when confirmed; it records the number the recipient count gave just before it, and writes one pending delivery and outbox row to each recipient in order, all due at the scheduled time if there is one, else at once. |
| `EmailCampaigns.RecipientsAre` | backend/app/services/admin_email_campaigns.py:186-207 | A start writes to exactly the users the campaign addresses, a newsletter only to its subscribers, in order, and the number shown is theirs. |
| `EmailCampaigns.WorkEffect` | backend/app/services/email_outbox.py:68-348 | A worker step changes the two rows it works on and their campaign as stated, and nothing else. |
| `CampaignSchedule.NotBeforeItsTime` | backend/app/services/admin_email_campaigns.py:239-263 | Over every run of calls and worker steps no worker takes a row for the first time before the time its campaign is scheduled for. |
| `CampaignSchedule.SentWasTaken` | backend/app/services/email_outbox.py:68-108 | Over every run a row that is in work, sent or failed has been taken at least once. |
| `CampaignSchedule.WorkIsPossible` | backend/app/services/email_outbox.py:68-348 | After any run a waiting row can be taken exactly from its time on; a row in work can always be closed or put back, and sent unless its delivery is cancelled. |
| `EmailCampaigns.StartedIsFixed` | backend/app/services/admin_email_campaigns.py:115-117 | After DRAFT no sequence of calls and worker steps changes content, version, count or the addressees of the deliveries: they are written at most once. |
| `EmailCampaigns.CallKeeps` | backend/app/services/admin_email_campaigns.py:82-340 | Every single call keeps the invariant. |
| `PolygonFilters.RepeatedEqualsCsv` | backend/app/schemas/polygon_filters.py:18-43 | Parsing a list of filter strings equals parsing their comma-join, for every list, errors included. |
| `PolygonFilters.AcceptedIsCanonical` | backend/app/schemas/polygon_filters.py:18-43 | Accepted values are exactly the tokens given, without duplicates, in order of first occurrence, allowed, and NONE only alone. |
| `PolygonFilters.RejectedIff` | backend/app/schemas/polygon_filters.py:25-42 | A list is rejected exactly when it has an unknown token or NONE beside another token. |
| `PolygonFilters.ErrorNames` | backend/app/schemas/polygon_filters.py:25-42 | The error names every unknown token; without one it names all tokens beside NONE; a missing parameter is an empty list. |
| `PolygonFilters.TokensAre` | backend/app/schemas/polygon_filters.py:19-23 | The tokens are exactly the non-empty parts between the commas of the items, without surrounding white space. |
| `PolygonFilters.QueryComplains` | backend/app/schemas/polygon_filters.py:66-101 | Of several wrong fields the first is reported, the sources before all others. |
| `PolygonFilters.PrintThenParse` | backend/app/schemas/polygon_filters.py:18-43 | Printing accepted values as CSV and parsing them returns them unchanged. |
| `PolygonFilters.QueryRoundTrip` | backend/app/schemas/polygon_filters.py:66-101 | Whatever request is accepted, its six filters printed as CSV parse to the same filters. |
| `Lists.DedupKeepsOrder` | backend/app/schemas/polygon_filters.py:19-24 | Removing duplicates keeps the order of first occurrences. |
| `Text.SplitJoin` | backend/app/schemas/polygon_filters.py:22 | Splitting undoes joining for parts without the separator. |
| `Text.JoinSplit` | backend/app/schemas/polygon_filters.py:22 | Joining undoes splitting for every text. |
| `Text.StripIs` | backend/app/schemas/polygon_filters.py:22 | Stripping removes all white space at both ends and nothing else. |
| `OAuthFlow.SafeIffUnchanged` | backend/app/auth/oauth.py:35-46 | The redirect path is always safe, exactly the safe paths are left as they are, and normalising is idempotent. |
| `OAuthFlow.RedirectIs` | backend/app/auth/oauth.py:35-46 | The redirect is the path without surrounding white space if that is inside the site (one leading slash, no backslash, no control character), else the root. |
| `OAuthFlow.DecodeEncodeFlow` | backend/app/auth/oauth.py:53-102 | Decoding an encoded flow gives that flow with its path normalised exactly when it is a login flow or a link flow with a non-empty user; every other flow is rejected. |
| `OAuthFlow.AcceptedIsSigned` | backend/app/auth/oauth.py:71-102 | An accepted cookie carries the signature of its own text; its flow is well formed, its path safe, and it survives encoding and decoding. |
| `OAuthFlow.AcceptedIff` | backend/app/auth/oauth.py:71-102 | A cookie is accepted exactly when it is signed and holds an object with a text as state, a known mode, a text as path, a text or nothing as user, and a user for a link. |
| `OAuthFlow.AcceptedFields` | backend/app/auth/oauth.py:71-102 | The accepted flow has the fields of that object, its path brought inside the site. |
| `OAuthFlow.CookieHolds` | backend/app/auth/oauth.py:53-68 | An encoded flow is the text without padding, a dot and its signature, and holds the fields of the flow. |
| `OAuthFlow.AttributeErrorIff` | backend/app/auth/oauth.py:71-102 | The decoder raises `AttributeError` exactly for a correctly signed text whose JSON is no object; everything else is accepted or rejected. |
| `OAuthFlow.SignedRaises` | backend/app/auth/oauth.py:53-83 | Signing any JSON but an object makes a cookie that raises; an encoded flow never raises. |
| `OAuthSample.SignedListRaises` | backend/app/auth/oauth.py:80-84 | The laws of signature and JSON can be met together, and there the signed text of an empty list raises. |
| `Base64Url.DecodeEncode` | backend/app/auth/oauth.py:64-81 | Decoding encoded bytes returns them. |
| `Base64Url.PadUnpad` | backend/app/auth/oauth.py:64-81 | Restoring the padding by length undoes stripping it. |
| `Base64Url.GroupSpells` | backend/app/auth/oauth.py:64-68 | Three bytes are written as one number of 24 bits, in the digits of the URL-safe alphabet. |
| `Text.SplitLastOf` | backend/app/auth/oauth.py:75 | Splitting at the last separator finds the signature whatever precedes it. |
| `OsmReconcile.KnownTypesPublish` | backend/app/cli/postprocess_osm.py:25-64 | For nodes, ways and relations, which is what the importer stages, no two selected rows collide, upsert and delete leave exactly the selected rows, and a second run changes nothing and reports 0/0/0. |
| `OsmReconcile.PublishedAre` | backend/app/cli/postprocess_osm.py:25-64 | Type by type, N as node, W as way and R as relation: the feature is there exactly if its stage row is a point or an area that intersects the region, with the row's data, and its import time if nothing changed. |
| `OsmReconcile.NoOtherTypes` | backend/app/cli/postprocess_osm.py:46-64 | No feature of another type is left, whichever boundaries the statements find. |
| `OsmReconcile.RegionsAre` | backend/app/cli/postprocess_osm.py:16-24 | The boundary is a relation tagged as administrative boundary with the code of Schleswig-Holstein. |
| `OsmReconcile.PublishesIff` | backend/app/cli/postprocess_osm.py:25-64 | For arbitrary staged types the table equals the selected rows if and only if all of them are of type N, W or R. |
| `OsmReconcile.FeatureEffect` | backend/app/cli/postprocess_osm.py:25-64 | Whichever boundaries the two statements find: a feature is left exactly if it was there or was selected and the delete keeps it; selected rows are there with their data, equal ones untouched (import time included); others stay as they were. |
| `OsmReconcile.SelectedEffect` | backend/app/cli/postprocess_osm.py:25-64 | With one boundary every feature left is a selected row, and a selected row is left exactly if its type is known. |
| `OsmReconcile.UpsertEffectIff` | backend/app/cli/postprocess_osm.py:25-44 | What the upsert promises for each feature determines the table. |
| `OsmReconcile.DeleteEffectIff` | backend/app/cli/postprocess_osm.py:46-64 | What the delete promises for each feature determines the table. |
| `OsmReconcile.SizeAfter` | backend/app/cli/postprocess_osm.py:132-147 | Size after = size before + inserted - deleted, also with two boundaries. |
| `OsmReconcile.SecondRunIsNoop` | backend/app/cli/postprocess_osm.py:25-64 | For arbitrary staged types a second run on the same stage changes nothing, and reports 0/0/0 exactly when all selected rows are of type N, W or R. |
| `OsmReconcile.RefreshAgrees` | backend/app/cli/postprocess_osm.py:79-88 | The source refresh makes every source with a surviving feature equal to it, stamps a changed one with the feature's import time, leaves the others alone and is idempotent. |
| `OsmReconcile.OsmDatabase.Upsert` | backend/app/cli/postprocess_osm.py:25-44 | Every selected row is there, an equal one untouched down to its import time and another stamped; other features stay as they were and nothing else appears; the counts are of the features that appear and of those that change. |
| `OsmReconcile.OsmDatabase.DeleteMissing` | backend/app/cli/postprocess_osm.py:46-64 | Exactly the features with a kept stage row stay, unchanged, and the size falls by the reported count. |
| `OsmReconcile.OsmDatabase.RefreshSources` | backend/app/cli/postprocess_osm.py:79-88 | Refreshes the sources and counts exactly those that changed. |
| `OsmReconcile.OsmDatabase.Reconcile` | backend/app/cli/postprocess_osm.py:132-147 | Upsert and delete in their order give the reconciled table, the counts, and a size that adds up. |
| `OsmReconcile.OsmDatabase.Run` | backend/app/cli/postprocess_osm.py:116-172 | Without a boundary nothing changes; otherwise, whichever boundary each statement finds, the table is reconciled, sources agree with it, the counts are recorded and add up; with one boundary the table is the selected rows exactly when all are of known type. |
| `AreaAssignment.Assignments.Refresh` | backend/app/services/analysis_areas.py:153-173 | Replaces exactly the rows of the polygon (or all): of every type that covers it, the area of least size, the lowest id among equals, with its overlap, and no other row; returns their number. |
| `AreaAssignment.OneAreaPerType` | backend/app/services/analysis_areas.py:159-170 | A polygon gets exactly one area of each type that covers it: every other such area is larger, or equally large with a higher id; of a type that does not cover it, it gets none. |
| `AreaAssignment.IncrementalEqualsFull` | backend/app/services/analysis_areas.py:153-173 | Refreshing only polygon p after only p changed, appeared or was deleted gives the same assignments as a full refresh. |
| `AreaAssignment.RefreshTwice` | backend/app/services/analysis_areas.py:153-173 | Refreshing is idempotent. |
| `AreaAssignment.CountsAddUp` | backend/app/services/analytics.py:403-421 | Polygon counts over all areas of one type add up to the number of polygons such an area covers, so to at most the number of polygons. |
| `Analytics.FillDictionary` | backend/app/services/analytics.py:424-444 | The loop over the rows builds the dictionary that holds each row's metrics under its area and nothing else. |
| `Analytics.CompareMetricsByArea` | backend/app/services/analytics.py:393-444 | The grouped comparison returns the dictionary of the grouped rows of the join, empty for no areas. |
| `Analytics.GroupedAgreesWithSingle` | backend/app/services/analytics.py:393-465 | For every requested area the grouped query shows the figures of the single-selection query restricted to that area, and they are what the rows say (counts, sum, average, median, rates, last change); an absent group shows those of the empty selection. |
| `Analytics.SelectionIs` | backend/app/services/analytics.py:49-68 | Those rows are the polygons of the area that pass the filters, each once. |
| `Analytics.MedianHalves` | backend/app/services/analytics.py:212 | The median lies halfway between two areas of the rows: at least half are up to the lower one and fewer than half below it, at least half from the higher one on and fewer than half above it; no row has no median. |
| `Analytics.FiguresAre` | backend/app/services/analytics.py:202-293 | The figures of both queries said from the rows alone: numbers of rows by value, sum, average, median, rates and time of the last change. |
| `Analytics.SizesAre` | backend/app/services/analytics.py:267-270 | The size distribution counts the rows of S, M, L, XL and those without a size. |
| `Analytics.FloorsAre` | backend/app/services/analytics.py:271-274 | The floor distribution counts the rows of UG, EG, OG and those without a floor. |
| `Analytics.StatusesAre` | backend/app/services/analytics.py:275-279 | The status distribution counts the rows of each status, although two of its numbers are differences. |
| `Analytics.BusinessesAre` | backend/app/services/analytics.py:280-284 | The same for the business structure. |
| `Analytics.FirstShown` | backend/app/services/analytics.py:275-284 | For any table, a direct count that is not zero is shown and otherwise the difference. |
| `Analytics.VacantAreaIs` | backend/app/services/analytics.py:213-265 | The vacant area, and its share of the area whose occupancy is known; neither without a vacant row. |
| `Analytics.CompletenessIs` | backend/app/services/analytics.py:285-291 | The share of rows with a category of their own, a size, a floor, a known occupancy and a known business structure. |
| `Analytics.SameFiguresIff` | backend/app/services/analytics.py:202-293 | The differences of counts of one query equal the direct counts of the other exactly when every row has one of the values the CHECK constraints allow. |
| `Analytics.GroupIsSelection` | backend/app/services/analytics.py:49-68 | The joined rows of an area are the rows of the subquery selection, equally often. |
| `Analytics.GroupMetricsPermute` | backend/app/services/analytics.py:402-421 | All figures, median included, do not depend on row order. |
| `Analytics.DistributionsAddUp` | backend/app/services/analytics.py:275-284 | The status and business-structure distributions add up to `polygon_count` for every table meeting the CHECK constraints. |
| `Analytics.SizesAddUpIff` | backend/app/services/analytics.py:267-270 | The size distribution adds up exactly when every stated size is one of the four. |
| `Analytics.CategoriesAddUp` | backend/app/services/analytics.py:77-124 | The category counts add up to the number of polygons, and the shops figure made from them is the number of polygons in a shop category. |
| `ViewportTiles.BucketContains` | backend/app/cache/keys.py:55-74 | The bucket contains every accepted viewport within the Mercator latitudes, overshoots each longitude side by at most one tile width, and each latitude side ends within the first row beyond it. |
| `ViewportTiles.BucketOrdered` | backend/app/cache/keys.py:55-74 | The tile indices of every accepted viewport are ordered and on the map, and the tile zoom is in 13..19. |
| `ViewportTiles.TileZoomIs` | backend/app/cache/keys.py:59 | The tile zoom is two levels finer than the display zoom, 13 at least and 19 at most. |
| `ViewportTiles.AcceptedIff` | backend/app/schemas/osm.py:66-90 | A viewport is accepted exactly when it is on the globe, west before east and south below north, names area and category both or neither, and from zoom 11 on is no wider or higher than 2880 degrees divided by 2 to the whole zoom. |
| `ViewportTiles.FirstComplaint` | backend/app/schemas/osm.py:66-90 | Which of several violations is reported. |
| `ViewportTiles.LongitudeTile` | backend/app/cache/keys.py:31-47 | A longitude lies in its tile, which is one tile width wide and in the row. |
| `ViewportTiles.LatitudeTile` | backend/app/cache/keys.py:36-52 | A latitude on the map lies between the edges of its tile row. |
| `ViewportTiles.TileRoundTrip` | backend/app/cache/keys.py:31-47 | Tile to longitude to tile is the identity. |
| `ViewportTiles.AtMost33Columns` | backend/app/schemas/osm.py:86-89 | Every viewport accepted at zoom 11 or more covers at most 33 tile columns, across all zooms and the clamp of the tile zoom. |
| `ViewportTiles.ThirtyThreeReached` | backend/app/cache/keys.py:55-61 | The bound is tight: some accepted viewport covers 33 columns. |
| `AssistantProvider.Provider.Completion` | backend/app/services/assistant_provider.py:116-213 | The result is the verdict on the last reply, with the number of requests and the time slept given by the course of the replies; the assertion behind the loop is reached only for a negative number of retries. |
| `AssistantProvider.Provider.Plan` | backend/app/services/assistant_provider.py:72-114 | One completion, and one repair exactly when the first text is no plan; the trailing assertion is never reached. |
| `AssistantProvider.CourseOfCompletion` | backend/app/services/assistant_provider.py:134-188 | Every reply before the last was to be retried, and the last was not or used up the attempts. |
| `AssistantProvider.PausesOfCompletion` | backend/app/services/assistant_provider.py:149-171 | The time slept is one pause for each request but the last: the `retry-after` brought between 0 and 2 s, else a quarter second doubled each attempt. |
| `AssistantProvider.VerdictIs` | backend/app/services/assistant_provider.py:148-213 | Which reply is an answer, a rate limit, an invalid answer, or an unavailable provider with or without a later chance. |
| `AssistantProvider.SleptWithinBudget` | backend/app/services/assistant_provider.py:149-171 | Total backoff is at most the sum of max(2, 0.25 * 2^i) over the retries. |
| `AssistantProvider.PlanCost` | backend/app/services/assistant_provider.py:96-213 | A plan costs at most 2 * (retries + 1) requests and twice the backoff budget. |
| `AssistantProvider.ConfiguredCost` | backend/app/core/config.py:130 | With the at most two retries the configuration allows: six requests and eight seconds. |
| `AssistantPlans.Answer` | backend/app/services/assistant.py:107-136 | One query runs at most four tools; the results are those of a prefix of the plan; a failed step's index is in range and is the step after the results; a longer plan runs nothing. |
| `AssistantPlans.LocalPlansFit` | backend/app/services/assistant.py:188-553 | Every plan not made by the provider, refusals included, has at most four steps, for any number of mentioned areas, and a plan of four is a comparison; a provider's plan is its own answer to a question in scope. |
| `AssistantPlans.ProvidedIff` | backend/app/services/assistant.py:188-553 | The provider makes the plan exactly when it answers a question within scope that is of no kind the planner knows. |
| `AssistantPlans.NoSteps` | backend/app/services/assistant.py:188-240 | A refused or unclear question, and one of no known kind without the provider, runs no tool. |
| `AssistantPlans.ComparesResolved` | backend/app/services/assistant.py:283-296 | Areas are compared only two or three at a time, each resolved first: those named, or those of the last comparison when none is. |
| `AssistantPlans.QuestionsToCompare` | backend/app/services/assistant.py:283-296 | A comparison of two or three areas is planned, of any other number refused. |
| `AssistantPlans.AnswerQuery` | backend/app/services/assistant.py:99-145 | Planning and running together: at most four tools, results of a prefix of the plan, and the limit is reported exactly when the provider answered with more than four steps. |

## Left out

- Redis, PostgreSQL and HTTP clients: Redis is a map with expiry, the database is committed rows with row locks, failures are nondeterministic outcomes; statistics, pattern deletion and multi-gets of the cache are not modelled.
- Overlap across processes for the bytes variant of the cache: it polls five times for 50 ms and then computes; `NoOverlap` is about keys used by the JSON variant only.
- Corrupt JSON in the cache: the code deletes the entry and reports a miss, which the model has as an eviction followed by a miss.
- CacheFreshness.LookupWindow: needs a Redis client, because without one the version is always 1 and nothing is said about its age.
- Order of a process's local versions: a slow reader can store an older version over a newer one, so no monotonicity is claimed.
- The cache, the superuser guard and the template editors are transition systems on values rather than classes, because their properties are about interleavings; `CacheService` and `CacheVersions` carry the shape of the code.
- CacheService.Service.GetOrCompute: the model watches the waits for a given number of looks and then returns a call that is still waiting; cancellation is modelled while the call waits for a lock and while it computes, not inside a Redis request.
- `city_metrics`: the loop that sets the record fields is one commit of arbitrary new data.
- SuperuserGuard: deadlocks, session revocation, anonymisation of references, audit rows and notifications; role changes do not touch the superuser flag and are no steps; an administrator judges the target as committed when counting, not as loaded earlier.
- EmailTemplates: subject and the two bodies are one content, the customised flag is left out.
- EmailCampaigns: cleaning and URL checks are an optional cleaned content; worker steps are atomic, the limit on attempts and the 15 minutes before a row is taken up again are free choices, sent and failed counters and welcome mails are left out.
- EmailCampaigns.Store.Create: requires an unused id, which the database generates.
- CacheKeys.CanonicalIff: values are scalars, lists of scalars and nested mappings of these; sets, and lists that hold lists or mappings, are left out, since no call passes them.
- ViewportKeys: the query itself; what it reads of a request is listed, and the answer is taken to depend on nothing else but the data.
- `compare_areas` is not compared with its cached form, because the key sorts the area slugs and the result keeps their order; per-square-kilometre figures are left out.
- OAuthFlow: HMAC and JSON are functions with laws; how the base64 decoder treats text that is not whole groups of digits is a parameter.
- OsmReconcile.OsmDatabase.Run: assumes that no two selected rows map to one feature key, which always holds for nodes, ways and relations; area and Wikidata synchronisation, progress output and the bump of three cache versions (see `CacheVersions`) are left out.
- Analytics: the shared filter clauses are one arbitrary predicate; sums are exact.
- Floating-point error in tiles and figures: arithmetic is exact, rounding is an arbitrary function.
- ViewportTiles: the floor of the zoom is that of a real number, and the trigonometric projection is any strictly decreasing map of the clamped latitudes with its inverse.
- AssistantPlans: matching of natural language is a set of boolean signals; presentation, warnings' wording and exceptions other than tool and validation errors are left out.
- Migrations, middleware, metrics, notifications, passkeys, MFA and the social publication table: they would only add easy members.
