# LinkUp in Dafny

LinkUp is a URL shortener. This project models the five parts of it that carry unbounded properties and
proves those properties for every input, every run and every interleaving. `dafny verify dfyconfig.toml`
checks all of it.

- **The link cache** (`CacheModel`, `RecencyList`, `LinkCache`, `CacheTraces`, `CacheInclusion`). The cache is
  a hash map over a doubly linked ring of heap nodes with a sentinel. `LinkCache` proves the pointer code
  against a most-recent-first sequence (`CacheModel`), and the trace modules prove what that sequence does
  over whole runs.
- **The link store** (`Links`, `LinkKeys`, `LinkStore`, `LinkStoreInvariant`, `LinkStoreSteps`,
  `LinkStoreTheorems`, `LinkStoreLone`, `LinkStoreOneEntry`, `LinkStoreBudgets`, `LinkStoreClicks`,
  `LinkStoreRuns`, `LinkStoreAmbiguity`, `LinkStoreAnswers`, `LinkStoreOverrun`, `LinkEffects`,
  `LinkStoreAtomic`, `LinkStoreRequests`, `LinkService`). `LinkStore` is a transition system over any number
  of goroutines: one read-write lock, the `links` table, the cache, and one step per statement or cache call.
  Lookups of any address overlap; pending clicks, folder deletion and ownership adoption come in between.
  `LinkKeys` says which cache keys a lookup tries and which keys a link can come to sit under. `LinkStoreRuns`
  builds the runs that show each condition exact. `LinkEffects` says what a whole call makes of rows and
  cache: `LinkService`, the same service as sequential code over the cache object, is proved to do that, and
  `LinkStoreAtomic` that the steps of `LinkStore` do it however they are interleaved. `LinkStoreRequests`
  traces every change of a row back to the request for it.
- **Sign-in** (`Sessions`, `SessionsProofs`, `SessionsOutcomes`, `SessionsLogout`). Sessions, API keys and
  logout token ids are tables; the identity provider is an oracle asked in the middle of a check, while
  anything else may happen.
- **The limiters** (`BucketModel`, `BucketTheorems`, `BucketWindows`, `TokenBucket`; `PinModel`, `PinGuard`,
  `PinRuns`, `PinTheorems`, `PinCrowd`). Each is a class over heap entries, proved against a function of its
  table, and theorems about that function over every trace.
- **The cleaner and two loops** (`Texts`, `QueryCodec`, `Cleaner`; `ABTest`; `CsvImport`, `CsvImportProofs`).

## Where the code does not do what it is for

Each of these is proved with the exact condition under which the promise holds.

- A request slug is not validated, so `a:bc` asked at the root, or at host `a`, reads as the cache key of slug
  `bc` at domain `a`. Such a lookup is *ambiguous* and *mistakes* that link: it tries the link's own key while
  asking for another slug. Its click files the link under a further key, which updates and deletions do not
  know of; a link whose further key is tried too *strays*, and one that strays, or is found under its own key
  by a lookup for neither its slug nor its key, *leaks*. For any set of addresses that visitors may ask, over
  all runs: the cache stays coherent exactly when none of them is ambiguous
  (`LinkStoreAmbiguity.CoherentExactlyWhenUnambiguous`); a deleted link never comes back exactly when no link
  strays (`DeletesAreFinalExactlyWhenNothingStrays`), nor a paused one, unless the cache has room for one
  entry only (`PausesAreFinalExactly`); click budgets hold exactly when no link leaks
  (`LinkStoreOverrun.BudgetsHoldExactlyWhenNothingLeaks`); a lookup is answered with current rows exactly when
  it is unambiguous and can find no link that another mistakes (`LinkStoreAnswers.AnswersAreCurrentExactly`).
  With room for one entry the last condition is instead that it can find links under their own keys only, and
  none that *slips*: that some lookup for neither its slug nor its key can find under any key. A single visitor
  brings back a deleted link exactly by asking a host for its own link's key, as `/a:bc` of host `a`
  (`FinalBesideOneMore`). Clicks are conserved all the same, and an unambiguous lookup at the root is always
  answered from the table.
- A larger cache can miss, or answer differently, what a smaller one hits. For any set of addresses looked up
  it never does, on any trace, exactly when all of them are at the root
  (`CacheInclusion.AnomalyFreeExactlyForRootLookups`). No trace goes wrong before the smaller cache has for the
  first time fallen back to the root entry alone (`NoCapacityAnomaly`); after that the larger one may miss root
  lookups too.
- The front page's cleaner is meant to follow the server's rules (internal/web/static/js/app.js:305-308). But
  internal/services/cleaner.go:170 lower-cases U+0130 to an i, and app.js:320 to an i and a combining dot: the
  server strips and reports `s%C4%B0` as the tracker `si`, and the page keeps it (`Cleaner.CleanersDisagree`).
  They agree on a list of pairs exactly when it holds no listed tracker, by no prefix, that is written so
  (`TwoCleanersAgreeExactly`).
- The token bucket drops idle entries by whole seconds. Its rate holds on every trace, and its sweeps are
  invisible, exactly when its window is a whole number of seconds or a nanosecond more
  (`BucketWindows.RateHoldsExactlyWhenIdleMeansFull`, `SweepsAreInvisibleExactlyWhenIdleMeansFull`); the
  server uses a minute.
- `PINGuard.Failed` puts a blank record into its table and sweeps before it stamps the record. With 1023 or
  more other links in the table the sweep takes the blank record for an idle one, and the wrong PIN is
  forgotten: it is remembered exactly when there is room (`PinModel.RecordedExactlyWhenRoom`), and beside 1023
  links with one wrong PIN each, another can be guessed at any number of times at once
  (`PinCrowd.CrowdedOutGuessesAreFree`). The comment at internal/services/limites.go:138-140 promises the lock
  without that condition.
- Weighted A/B selection sums positive weights into its total but all weights into its running sum. Shares
  equal weights exactly when no positive weight but the last variant's stands behind a negative one
  (`ABTest.SharesAreWeightsExactlyWhenUnshadowed`).

## Assumptions

SQL statements succeed and are atomic; rows are unique on (domain, slug); ids, session ids and generated slugs
are fresh; sealing a token loses nothing; clock readings do not decrease in the order in which locks are taken
(the limiters read the clock just before their mutex). Times are integers: nanoseconds in the limiters, one
clock of whole units elsewhere. The bucket's amounts are reals: float rounding and the overflow of durations
are not modelled. The cache has room for at least one entry and a positive time to live, as its constructor
sees to. The domain of a stored link is trimmed and in lower case, as `Create` makes it. Which characters
beyond ASCII are capitals, and what their small letters are, is left open but for this: none of them is a
space, lower-casing leaves no capital, and of them only U+0130 and U+212A become ASCII letters. The two
cleaners are compared on keys in UTF-8, which the browser makes of any other bytes before it cleans, and on one
order of keys: Go orders texts by bytes and the browser by UTF-16 units, which differ only between characters
from U+E000 to U+FFFF and those beyond.

## Model

| member | source | states |
|---|---|---|
| Links.WritingAnEditStoresIt | internal/services/link_service.go:346-482 | the UPDATE statement written from an edited copy makes the row that copy: no edit is lost, and id, domain, slug, click counter and owner survive |
| Links.EditsAreDoneAsAsked | internal/services/link_service.go:346-443 | whatever a request names and leaves out, it is refused exactly for something not acceptable in it or a redirect type that is neither 301 nor 302; otherwise each column is as named, or as it was, hours counting before a date and limits that are not positive being none |
| Links.EndedExactly | internal/models/link.go:43-70 | a link has ended exactly when it is off, from the second of a positive date on, or when its clicks reach a positive budget; the reason given is the first of these that holds |
| Links.AskedColumnsAreStored | internal/services/link_service.go:346-482 | asking on one link for every editable column of another gives it exactly those; asking for its own changes only the time of the update |
| Links.EndedStaysEnded | internal/models/link.go:43-70 | an ended link stays ended as time and clicks grow, and a reason is given exactly when it has ended |
| Links.NormalExactly | internal/services/link_service.go:103 | trimming and lower-casing a request's domain gives exactly the texts with no space of Unicode at either end and no capital of any script |
| Links.StorableExactly | internal/services/link_service.go:20-38 | a slug can be stored exactly when it is 2 to 64 letters, digits, underscores and hyphens, by their codes, and spells no reserved word in any case |
| Links.GeneratedIsStorable | internal/services/link_service.go:526-557 | a generated slug, six legible characters that spell no reserved word or eight of any kind, is one that could be stored on request |
| LinkKeys.AmbiguousExactly | internal/services/cache.go:41-63 | a lookup is ambiguous, a test on its slug, exactly when it tries the own key of some link that can be stored while asking for another slug |
| LinkKeys.StorableIsUnambiguous | internal/services/link_service.go:20-39 | a slug that can be stored is never ambiguous, whatever the domain |
| LinkKeys.UnambiguousFindsTheSlug | internal/services/cache.go:49-63 | under whichever key a link has come to sit, an unambiguous lookup that finds it asked for its slug, and at its domain if nothing mistook the link |
| LinkKeys.RootIsUnmistaken | internal/services/cache.go:41-63 | no lookup whatever mistakes a link of the default host |
| CacheModel.GetKeepsShape | internal/services/cache.go:49-78 | a lookup keeps keys distinct and the length within capacity |
| CacheModel.SetKeepsShape | internal/services/cache.go:81-109 | so does a store |
| CacheModel.DeleteKeepsShape | internal/services/cache.go:112-124 | so does a deletion |
| CacheModel.GetLeavesOthersInOrder | internal/services/cache.go:49-78 | a lookup moves the entry it hits to the front or drops it when stale; every other entry stays where it was relative to the rest |
| CacheModel.SetLeavesOthersInOrder | internal/services/cache.go:81-109 | a store puts its entry in front; the others keep their order, and at most the last of them is lost, only for a new key in a full cache |
| CacheModel.DeleteRemovesBothKeys | internal/services/cache.go:112-124 | exactly the domain's key and the bare slug's key go, and a later lookup misses |
| CacheModel.StoredThenFound | internal/services/cache.go:49-109 | what was just stored is found until its time to live has passed, and not after |
| RecencyList.Unlink | internal/services/cache.go:142-146 | unlinking one heap node leaves the ring of the others, both ways round |
| RecencyList.LinkFront | internal/services/cache.go:102-108 | linking a node behind the sentinel gives the ring with that node first |
| RecencyList.Move | internal/services/cache.go:73-74 | the pointer updates of a move give the ring with the node cut out and put first |
| RecencyList.List.Remove | internal/services/cache.go:142-146 | the list loses exactly the k-th element and its value |
| RecencyList.List.MoveToFront | internal/services/cache.go:74-91 | the element becomes the first, the others keep their order, values unchanged |
| RecencyList.List.PushFront | internal/services/cache.go:107-108 | a fresh element holding the value becomes the first |
| RecencyList.List.Init | internal/services/cache.go:131-132 | the list is empty again and the sentinel points to itself |
| LinkCache.LinkCache.constructor | internal/services/cache.go:26-39 | an empty cache with the default capacity and time to live where none is given |
| LinkCache.LinkCache.Get | internal/services/cache.go:49-78 | map and ring act as the model's lookup: answer and whole new recency sequence |
| LinkCache.LinkCache.Set | internal/services/cache.go:81-109 | map and ring act as the model's store, a missing link changing nothing |
| LinkCache.LinkCache.Delete | internal/services/cache.go:112-124 | map and ring act as the model's deletion of both keys |
| LinkCache.LinkCache.Clear | internal/services/cache.go:127-133 | nothing is left |
| LinkCache.LinkCache.Len | internal/services/cache.go:136-140 | the length is the number of keys in the map, within capacity |
| LinkCache.LinkCache.RemoveElement | internal/services/cache.go:142-146 | the element's entry leaves ring and map together |
| LinkCache.LinkCache.EvictOldest | internal/services/cache.go:148-153 | the least recent entry goes, if there is one |
| LinkCache.OneKeyPerEntry | internal/services/cache.go:11-24 | map and list are in bijection |
| CacheTraces.RunKeepsShape | internal/services/cache.go:49-153 | along every timed trace keys stay distinct and the length within capacity |
| CacheTraces.ListIsSortedByLastUse | internal/services/cache.go:49-153 | along every trace the list is sorted by the last time each key was stored or found, so what is evicted is what was idle longest |
| CacheInclusion.NoCapacityAnomaly | internal/services/cache.go:49-153 | one trace on two capacities: the small list stays a subsequence of the large one with equal links and times, and its hits are the large one's hits, as long as the small cache never falls back to the root alone |
| CacheInclusion.NoCapacityAnomalyForRootLookups | internal/services/cache.go:49-153 | the same inclusion and the same hits, with no side condition, when every lookup is for the root domain |
| CacheInclusion.LoneFallbackIsTheOnlyAnomaly | internal/services/cache.go:53-63 | as long as one cache is included in the other a hit of the smaller differs exactly when it alone falls back to the root entry, which may end the inclusion |
| CacheInclusion.AnomalyFreeExactlyForRootLookups | internal/services/cache.go:49-153 | for any two capacities and any set of addresses looked up, the larger cache repeats every hit of the smaller on all timed traces exactly when all those addresses are at the root |
| LinkStoreSteps.AlwaysInv | internal/services/link_service.go:62-511 | in every reachable state, whatever was asked, locks, table, cache and every goroutine's local data agree, for any number of goroutines |
| LinkStoreSteps.RawPrefersTheDomain | internal/services/link_service.go:286-303 | the ordered query answers with the domain's row if there is one, else with the root's |
| LinkStoreTheorems.CacheIsCoherent | internal/services/link_service.go:42-50 | whatever was asked, a link whose key no lookup of the run mistook for another slug is cached under its own key only, and whenever no writer holds the lock the copy equals its row but for folder and owner |
| LinkStoreTheorems.EntriesAreFiled | internal/services/link_service.go:212-277 | any other entry is a created link under a key that a chain of the run's lookups leads to |
| LinkStoreTheorems.CacheIsBounded | internal/services/cache.go:81-109 | in every run the cache holds at most its capacity of entries, one a key |
| LinkStoreTheorems.AnswersAreJudged | internal/services/link_service.go:212-242 | in every run a lookup answers with a link as found exactly when it is on, not at its date yet and below its budget by the clock reading it was judged at, and as ended otherwise |
| LinkStoreTheorems.RootResolveRefinesTheTable | internal/services/link_service.go:212-242 | an unambiguous lookup at the root answers what the table alone answers (row, ended, absent) under every interleaving, cache content and lookup by others |
| LinkStoreTheorems.CustomResolveRefinesTheTable | internal/services/link_service.go:212-242 | an unambiguous lookup on any host that can find no link another lookup mistakes answers with a current row of the domain or of the root, and nothing exactly when neither exists |
| LinkStoreTheorems.HitIsPreferredExactlyWhenCached | internal/services/link_service.go:216-225 | under the same condition a cache hit is the row the ordered query would give exactly when the domain's own row, if any, is cached |
| LinkStoreTheorems.RowsOutsideTheLock | internal/services/folder_service.go:132-147 | a step outside the write lock changes rows in folder and owner at most |
| LinkStoreTheorems.RowsUnderTheLock | internal/services/link_service.go:62-511 | under the lock an id never returns, is_active is written only as an update's request asks, and click_count grows by exactly the clicks applied |
| LinkStoreRequests.EditsAreAsked | internal/services/link_service.go:338-486 | in every run, whatever changes of a row beyond clicks, folder and owner is written by an update that began with a request of an administrator or the row's owner, and is what that request names; the other columns are as they were when it began |
| LinkStoreRequests.ReactivationsAreAsked | internal/services/link_service.go:429-431 | in every run a link that is off is switched on only by an update whose request asks for that |
| LinkStoreRequests.RemovalsAreAsked | internal/services/link_service.go:488-511 | in every run a row is removed only by a deletion that began with a request of an administrator or the row's owner |
| LinkStoreRequests.InsertionsAreAsked | internal/services/link_service.go:100-198 | in every run a new row comes from a sound request, lies at an address that was free, has a storable slug, and is as the request says in every column: titled by its slug, permanent, dated or hourly only as said |
| LinkStoreRequests.ClicksAreWritten | internal/services/link_service.go:250-265 | in every run a row's click counter and last click change only by a click on that link, by one and to the time it is written, and its variants' counters only by a later statement of it, for the first variant of its name, or by an edit |
| LinkStoreRequests.OthersWriteTheirColumn | internal/services/folder_service.go:132-147 | deleting a folder takes exactly its rows out of it, adoption moves exactly the former owner's rows, and neither touches anything else |
| LinkStoreTheorems.PauseIsFinal | internal/services/link_service.go:338-486 | after a pause, until an update is written whose request asks for an active link, no lookup returns it without error, whatever was pending, edited or asked, as long as the link does not stray |
| LinkStoreTheorems.DeleteIsFinal | internal/services/link_service.go:488-511 | after a deletion no lookup returns the link at all, as long as it does not stray, and no entry under its own key holds it once the lock is free |
| LinkStoreClicks.ClicksAreConserved | internal/services/link_service.go:245-277 | in every run a live link's counter is the clicks issued less those still pending: no update loses one |
| LinkStoreClicks.OvershootIsBounded | internal/handlers/redirect.go:76-118 | the redirects served for a link that does not leak stay within the budget of the last successful lookup plus the clicks in flight just before it, so within the budget when none was |
| LinkStoreBudgets.SpentIsKnown | internal/services/link_service.go:245-277 | in every run, of a link that does not leak the own entry and the copies in readers' hands are spent when the row is, unless a click or update of it is about to settle the cache |
| LinkStoreOverrun.BudgetsHoldExactlyWhenNothingLeaks | internal/handlers/redirect.go:76-118 | for any set of addresses asked and any capacity, no run serves a link beyond the budget of its last grant and the clicks in flight just before it exactly when no link leaks |
| LinkStoreAmbiguity.KeysAreExactlyTheChains | internal/services/link_service.go:212-277 | for any set of addresses asked, the keys a link is ever cached under are exactly those a chain of such lookups leads to |
| LinkStoreAmbiguity.CoherentExactlyWhenUnambiguous | internal/services/link_service.go:212-277 | for any set of addresses asked, all runs keep the cache coherent exactly when none of the addresses is ambiguous |
| LinkStoreAmbiguity.DeletesAreFinalExactlyWhenNothingStrays | internal/services/link_service.go:212-277 | for any set of addresses asked, no run answers with a deleted link exactly when no link strays: none has its key mistaken by one of the lookups and the key that leads to tried by another |
| LinkStoreAmbiguity.PausesAreFinalExactly | internal/services/link_service.go:212-277 | nor does any run find a paused link alive, exactly then or when the cache holds one entry only |
| LinkStoreAmbiguity.FinalBesideOneMore | internal/handlers/redirect.go:68-76 | beside any number of visitors who ask for unambiguous addresses, one more lookup undoes a deletion, or a pause where there is room for two entries, exactly when it asks a host for its own link's key |
| LinkStoreLone.LoneCopiesAgree | internal/services/cache.go:81-109 | in a cache of one entry, in every run, each copy cached or in a reader's hand is as active as its row, unless an update is about to publish that row |
| LinkStoreOneEntry.OneEntryIsLive | internal/services/cache.go:81-124 | in a cache of one entry, in every run, the entry under the own key of a link that does not slip is as its row is now, unless a writer is about to tell the cache, and so is what a lookup has found that can only find such entries |
| LinkStoreAnswers.AnswersAreCurrentExactly | internal/services/link_service.go:212-242 | for any set of addresses asked, all runs answer one of them with current rows exactly when it is unambiguous and can find no link that another mistakes; in a cache of one entry exactly when it is unambiguous and can find links by their own keys only, and none that slips |
| LinkStoreAtomic.CallsAreAtomic | internal/services/link_service.go:62-511 | whatever other goroutines, clocks and services do meanwhile, the statements of a click, creation, edit or deletion under the write lock leave rows and cache as one whole call does, folder and owner columns apart |
| LinkStoreAtomic.LookupsAloneResolve | internal/services/link_service.go:212-242 | the steps of a lookup that has the read lock to itself answer, and leave the cache, as one whole call does |
| LinkService.LinkService.GetBySlugRaw | internal/services/link_service.go:286-303 | the domain's row, failing that the root's, and nothing exactly when neither exists |
| LinkService.LinkService.Resolve | internal/services/link_service.go:212-242 | for every address and cache content, answer and whole new cache: the hit if there is one, else the domain's row, else the root's; found exactly when on, before its date and below its budget; an ended hit is dropped, a live row cached; a cache in step with the table stays so |
| LinkService.CoherentAnswers | internal/services/link_service.go:212-242 | when the cache is in step, that answer is a current row, ended exactly when it has ended, the domain's or the root's for an unambiguous address, and nothing is found only if neither exists |
| LinkService.AskingAgain | internal/services/link_service.go:212-242 | asked again at once, a lookup finds what it found in the cache; what had ended there is there no more, and an ended or missing row was not stored |
| LinkService.LinkService.CountClick | internal/services/link_service.go:250-265 | the two statements add one click to the row and to its first variant of that name, in that row only |
| LinkService.LinkService.RecordClick | internal/services/link_service.go:245-277 | for any address rows and cache are as the click's steps leave them: the row gains the click and the cache is refreshed under that address from the row as it is now; a deleted row changes nothing; under the link's own address the cache stays in step |
| LinkService.LinkService.Create | internal/services/link_service.go:62-209 | rows and cache are as the creation's steps leave them: a row is inserted and cached exactly when the request is sound and the address free; otherwise nothing changes |
| LinkService.LinkService.Update | internal/services/link_service.go:338-486 | rows and cache are as the edit's steps leave them: the row becomes its edited copy and is republished exactly for its owner or an administrator |
| LinkService.LinkService.Delete | internal/services/link_service.go:488-511 | rows and cache are as the deletion's steps leave them: the row and its cache entry go exactly for its owner or an administrator |
| LinkService.TallyVariant | internal/services/link_service.go:256-262 | the loop computes the functional reading below |
| Links.FirstIsCounted | internal/services/link_service.go:256-262 | exactly the first variant of the name gains a click |
| LinkService.TallyAddsOneClick | internal/services/link_service.go:256-264 | the variants' clicks grow by one for a known name and by none otherwise; names, targets and weights stay |
| LinkService.RefreshKeeps | internal/services/link_service.go:245-277 | a changed row with its refreshed or dropped cache entry keeps table and cache coherent |
| SessionsProofs.AlwaysInv | internal/services/auth_revocation.go:89-262 | in every reachable state rows are rows once inserted, and every check in flight holds the row it read |
| SessionsProofs.AdoptionKeepsKeys | internal/services/auth.go:231-260 | adoption changes the owner of untyped keys only |
| SessionsProofs.SuccessHappensWithTheRows | internal/services/auth_revocation.go:150-182 | a success has one instant at which the session row the provider accepted is there unexpired, and for a key the exact key row (id, hash, owner) with it; token expiry and twelve hours from login both lie ahead |
| SessionsProofs.SuccessIsLiveThroughout | internal/services/auth_revocation.go:108-145 | the provider had confirmed that session, naming its subject with readable claims and the required group before its token ran out, and from then to the success its row was never away |
| SessionsProofs.JudgedExactly | internal/services/auth_revocation.go:32-59 | a check is accepted exactly on a reply for its subject, readable and in the required group, with time left; a run-out token or any other reply revokes, and silence does neither |
| SessionsOutcomes.ChecksGoOnExactly | internal/services/auth_revocation.go:108-145 | a check goes on exactly when its row is there, unexpired, with its subject and name, then when the provider confirms, then when the row is still there, unexpired |
| SessionsOutcomes.KeysAreLetInExactly | internal/services/auth_revocation.go:166-182 | a key is let in exactly when in the closing transaction login and key are both there as they were read, the login unexpired |
| SessionsProofs.DeletedSessionNeverSignsIn | internal/services/auth_revocation.go:184-206 | once a session row is gone, by local logout, back-channel logout, denial or expiry, no check succeeds with it |
| SessionsProofs.DeletedKeyNeverSignsIn | internal/services/api_key_service.go:108-129 | once a key is deleted no check succeeds with it, though checks of it were under way |
| SessionsOutcomes.DenialEndsTheSession | internal/services/auth_revocation.go:133-139 | once the provider answers for a session with another subject, unreadable claims or without the required group, or its token has run out, the check never succeeds, and when it ends the session row is gone for every use |
| SessionsOutcomes.SilenceKeepsTheSession | internal/services/auth_revocation.go:132-139 | a provider that does not answer about a token with time left ends the check in refusal and changes nothing else |
| SessionsOutcomes.KeysStandOnTheLongestLogin | internal/services/auth_revocation.go:150-163 | a key is looked into exactly when it is typed, has hash and owner and that owner is signed in, and it is checked by that login of the owner's that lasts longest |
| SessionsOutcomes.OldCookiesAreRefused | internal/services/auth.go:338-344 | a cookie comes before the table exactly when it was made in the last twelve hours |
| SessionsOutcomes.AdoptionMovesWhatWasNamed | internal/services/auth.go:231-261 | each step of an adoption moves to the subject exactly the untyped keys stored under the name it has come to, hashes kept |
| SessionsOutcomes.SessionsEndOnlyFor | internal/services/auth_revocation.go:85-206 | a session row goes only by its own logout, with its time, by the revocation of a check of it, or by a logout token that names its subject and provider session |
| SessionsOutcomes.KeysGoOnRequest | internal/services/api_key_service.go:108-129 | a key is deleted only at the request of its owner or of an administrator |
| SessionsOutcomes.OnlyAcceptedSignInsStoreSessions | internal/services/auth.go:206-222 | every session row added in any run comes from a sign-in the provider accepted earlier, carries its claims and sealed token, neither subject nor token empty, and expires with the token or twelve hours after the sign-in, whichever is first |
| SessionsOutcomes.SignInsGoOnExactly | internal/services/auth_revocation.go:32-94 | a sign-in goes on exactly when the provider confirms its subject, and then when subject and token are there and the token has time left |
| SessionsProofs.TypedKeysKeepTheirOwner | internal/services/auth.go:245-248 | no step of any run, adoption included, changes owner or hash of a typed key |
| SessionsLogout.AlwaysAcceptancesOk | internal/services/auth_revocation.go:238-260 | every acceptance was fresh and its id stays stored for ten minutes, so no token was accepted twice |
| SessionsLogout.LogoutEndsWhatItNames | internal/services/auth_revocation.go:247-261 | in every run, right after a logout token is accepted no session row is left with the subject and the provider session it names (any where it names none), and every other row is there as it was |
| SessionsLogout.LoggedOutNeverSignsIn | internal/services/auth_revocation.go:140-145 | from then on no check of such a session succeeds, though it was under way |
| SessionsLogout.AcceptedTokensAreSound | internal/services/auth_revocation.go:222-245 | a token is accepted only if verified, with the logout event, an id and no nonce, issued in the five minutes before or the minute after the reading, not expired, and naming a subject or a provider session |
| SessionsLogout.SoundTokensAreJudged | internal/services/auth_revocation.go:222-245 | every such token comes before the table, and no other |
| SessionsLogout.JudgedTokensAreAccepted | internal/services/auth_revocation.go:247-256 | there it is accepted exactly when its id is not stored beyond the reading |
| SessionsLogout.NoReplayExactlyWithinDeadline | internal/services/auth_revocation.go:210-262 | no run accepts a logout token twice exactly when commits follow their clock reading by under 240 seconds |
| BucketModel.TableRefinesFluid | internal/services/limites.go:54-96 | where idle means full (the window is whole seconds or a nanosecond more), or unswept, the lazy table holds for every key at every time the level of a bucket refilled continuously |
| BucketModel.AnswersAreServed | internal/services/limites.go:54-82 | a call is granted exactly when that bucket has a token for it, whatever was swept |
| BucketModel.IdleIsFull | internal/services/limites.go:86-96 | a swept entry would have been full |
| BucketModel.InflowIsProduct | internal/services/limites.go:72 | what flows in nanosecond by nanosecond is the elapsed time multiplied by the rate |
| BucketTheorems.HarmlessSweepsConform | internal/services/limites.go:54-96 | for every key, trace and interval at most capacity plus inflow is granted |
| BucketTheorems.RefusedCallsAreInvisible | internal/services/limites.go:69-82 | striking a refused call from a trace changes no other answer, where idle means full |
| BucketTheorems.SweepsAreInvisible | internal/services/limites.go:84-96 | skipping any sweeps changes no answer, where idle means full |
| BucketTheorems.SpacedCallsAreGranted | internal/services/limites.go:54-82 | calls of a key that leave the time of one token between them are always granted, for every window |
| BucketWindows.RateHoldsExactlyWhenIdleMeansFull | internal/services/limites.go:86-96 | on all traces, keys and intervals at most capacity plus inflow is granted exactly when the window is a whole number of seconds or a nanosecond more |
| BucketWindows.SweepsAreInvisibleExactlyWhenIdleMeansFull | internal/services/limites.go:84-96 | skipping sweeps never changes an answer exactly then |
| BucketWindows.RefusalsAreInvisibleExactly | internal/services/limites.go:69-82 | striking a refused call never changes another answer exactly then, or when every nanosecond brings a token |
| BucketWindows.SomeWindowsOverrun | internal/services/limites.go:90-94 | on any other window a trace of two bursts around 1023 other keys gets both within less than the window |
| TokenBucket.TokenBucket.constructor | internal/services/limites.go:39-51 | an empty bucket table with the default capacity and window where none is given |
| TokenBucket.TokenBucket.Allow | internal/services/limites.go:54-82 | answer and whole new table are the model's |
| TokenBucket.BucketEntry.Take | internal/services/limites.go:72-82 | one entry refilled by the seconds elapsed holds the model's level, and gives a token exactly when it has one |
| TokenBucket.TokenBucket.SweepLocked | internal/services/limites.go:86-96 | exactly the idle entries go, and only from a table of 1024 |
| TokenBucket.FullIsWindow | internal/services/limites.go:90 | the sweep's age limit, computed from capacity and rate, is the window cut down to whole seconds |
| PinModel.RecordedExactlyWhenRoom | internal/services/limites.go:141-164 | a wrong PIN is remembered exactly when the link is known or the table stays under 1024 |
| PinModel.CrowdedOutNeverLocks | internal/services/limites.go:141-182 | beside 1023 links in use no number of wrong PINs locks another |
| PinModel.OthersStay | internal/services/limites.go:173-182 | another link's record is never stamped; it is dropped exactly when a new link comes to a table of 1023 or more, its lock is over and its last wrong PIN is over a day ago |
| PinModel.WaitGrows | internal/services/limites.go:156-162 | the wait never shrinks with more failures and never exceeds six hours |
| PinModel.FirstLock | internal/services/limites.go:156-162 | the first lock takes the full period, six hours at most, and every later one is positive |
| PinModel.WaitIsOwed | internal/services/limites.go:138-162 | after any number of wrong PINs the wait is nothing below maxTries and one period more for every maxTries of them, up to six hours |
| PinModel.OneMoreRound | internal/services/limites.go:156-162 | maxTries further wrong PINs lengthen the wait by one period, up to six hours |
| PinModel.RemainingIsExact | internal/services/limites.go:125-137 | a locked link stays locked for exactly the time it says remains |
| PinGuard.PINGuard.constructor | internal/services/limites.go:113-121 | an empty guard with five tries and a quarter of an hour where none is given |
| PinGuard.PINGuard.Locked | internal/services/limites.go:125-137 | locked, and for how long, as the table says |
| PinGuard.PINGuard.Failed | internal/services/limites.go:141-164 | the whole new table is the model's, the stamp on a swept record being lost; its waits are those of `PinModel.WaitIsOwed` |
| PinGuard.PINGuard.Succeeded | internal/services/limites.go:167-171 | exactly this link's record goes |
| PinGuard.PINGuard.SweepLocked | internal/services/limites.go:173-182 | exactly the stale records go, and only from a table of 1024 |
| PinRuns.AlwaysInv | internal/handlers/pin.go:121-154 | in every run of overlapping verifications the record counts the wrong PINs until a sweep or a success forgets the link |
| PinTheorems.DeadlineNeverEarlier | internal/services/limites.go:141-164 | no step of any run moves a link's lock deadline earlier while its record lives |
| PinTheorems.FewPassEachLock | internal/handlers/pin.go:121-154 | with at most c verifications of a link in flight, on others any number, fewer than c wrong PINs slip past each lock, while the link is not forgotten |
| PinTheorems.GuessingTakesTime | internal/services/limites.go:125-164 | with at most c verifications of a link in flight, after the maxTries-th wrong PIN every c further ones take at least the wait then owed: a period for every maxTries wrong PINs so far, up to six hours; while the link is not forgotten |
| PinTheorems.GuessesBeforeTheLock | internal/handlers/pin.go:121-154 | with at most c in flight, at most k - 1 + c wrong PINs are compared before the lock set by the k-th has run out, the first lock being that of the maxTries-th |
| PinCrowd.CrowdedOutGuessesAreFree | internal/services/limites.go:141-182 | whatever the rules, there is a run that reaches the crowded table and then compares any number of wrong PINs on one link, one at a time and all at one instant, with none remembered |
| Texts.SortIsSortedKeys | internal/services/cleaner.go:179-180 | sorting a list without repetitions gives the one ascending list of its elements |
| Texts.AtMostIsByteOrder | internal/services/cleaner.go:179-180 | texts are ordered by the first byte they differ in, a beginning before the whole |
| Texts.ByKeyIsUnique | internal/web/static/js/app.js:331 | a list sorted by key is determined by each key's values in order |
| Texts.StableSortIsStable | internal/web/static/js/app.js:331 | sorting by key keeps each key's values in order |
| QueryCodec.EscapeRoundTrip | internal/services/cleaner.go:183 | unescaping an escaped byte string gives it back |
| QueryCodec.EscapeIsCanonical | internal/services/cleaner.go:183 | escaping leaves the unreserved characters, writes a space as + and every other byte as % and two upper-case digits |
| QueryCodec.CanonicalIsEscaped | internal/services/cleaner.go:183 | and every text written so is the escape of what it reads as |
| QueryCodec.UnreservedAre | internal/services/cleaner.go:183 | the unreserved characters are those of section 2.3 of RFC 3986, by their codes |
| QueryCodec.HexDigitsAreRead | internal/services/cleaner.go:166 | hexadecimal digits of either case read as their values |
| QueryCodec.PartsAreRead | internal/services/cleaner.go:166 | a part of a raw query with = between key and value, or a bare key, reads as that one pair unescaped; an empty part, one with ; and one badly escaped are passed over |
| QueryCodec.BareKeysAreRead | internal/services/cleaner.go:166 | a key without = reads as the key followed by =, with an empty value |
| QueryCodec.QueriesAreReadByParts | internal/services/cleaner.go:166 | parts joined by & read as each key's values in their order, malformed parts costing only themselves |
| QueryCodec.PairsRoundTrip | internal/services/cleaner.go:165-183 | any list of pairs reads back as it was written |
| QueryCodec.QueryRoundTrip | internal/services/cleaner.go:165-183 | any multimap of byte strings reads back as it was written |
| Cleaner.CleanQuery | internal/services/cleaner.go:165-185 | in whatever order the map is ranged over, the query is the survivors' and the report is the sorted trackers, keys folded as strings.ToLower folds them |
| Cleaner.CleanLocally | internal/web/static/js/app.js:321-331 | the loop and the two sorts keep the other pairs, stably sorted, and report each tracker once, keys folded as toLowerCase folds them |
| Cleaner.SameTrackersButContested | internal/web/static/js/app.js:309-322 | the page's lists pick out the keys the server's do, except the contested ones: listed trackers, by no prefix, written with U+0130 for an i |
| Cleaner.DeletingIsFiltering | internal/services/cleaner.go:165-183 | grouping, deleting keys and writing by sorted key is filtering and sorting stably, for any set of keys to delete |
| Cleaner.DeletingIsIdempotent | internal/services/cleaner.go:165-183 | deleting the same keys again strips nothing and changes nothing |
| Cleaner.TwoCleanersAgreeExactly | internal/services/cleaner.go:165-185 | on any list of pairs the server and the page keep the same pairs in the same order exactly when no key is contested, and report the same keys exactly then |
| Cleaner.CleanersDisagree | internal/web/static/js/app.js:318-324 | the key s followed by U+0130 is a tracker to the server and none to the page |
| Cleaner.CleaningKeepsTheRest | internal/services/cleaner.go:169-199 | on the parts of the raw and of the cleaned query: every key that is no tracker keeps the values its parts say, in order, bare keys and keys beside malformed parts included, and trackers keep none |
| Cleaner.NoTrackerSurvives | internal/services/cleaner.go:169-199 | no tracker is left in whatever case its letters are written |
| Cleaner.TrackersInAnyCase | internal/services/cleaner.go:187-200 | to both programs a key in any case of its ASCII letters is a tracker exactly when in lower case it is listed or begins with a prefix |
| Cleaner.CleaningIsIdempotent | internal/services/cleaner.go:165-185 | cleaning a cleaned query strips nothing and returns it unchanged |
| Cleaner.RemovedAreTheTrackers | internal/services/cleaner.go:166-180 | the report is exactly the trackers that some part of the raw query names, each once, ascending |
| ABTest.EvaluateABTest | internal/services/router_engine.go:102-138 | the variant whose part of the running sum holds the draw, the last one failing that, and nothing only without variants |
| ABTest.SelectionIsUnique | internal/services/router_engine.go:127-134 | a draw selects one variant |
| ABTest.ShareIsTheRise | internal/services/router_engine.go:107-137 | a variant gets as many draws as its sum rises above everything reached before it |
| ABTest.SharesAreWeightsExactlyWhenUnshadowed | internal/services/router_engine.go:107-137 | every variant gets exactly its weight in draws, and none for zero, exactly when no positive weight but the last variant's stands behind a negative one |
| ABTest.FallbackIsUnreachable | internal/services/router_engine.go:136-137 | with no negative weight every draw is settled inside the loop |
| CsvImport.ColumnOf | internal/services/csv_service.go:45-50 | a column is the last header of that name, in any case and with any padding |
| CsvImportProofs.RowsAreRead | internal/services/csv_service.go:40-89 | an import fails as a whole exactly without a data row or a header for the target; otherwise each row is passed over without a target, or asks for the slug in the last column under the first of the slug headers there is |
| CsvImportProofs.AlwaysInv | internal/services/csv_service.go:71-136 | in every interleaving counters, errors, slugs and the rows' progress agree |
| CsvImportProofs.AtMostTenInFlight | internal/services/csv_service.go:76-113 | never more than ten rows are in flight |
| CsvImportProofs.TotalsAddUp | internal/services/csv_service.go:71-136 | created, skipped and blank rows make up the file, and each skipped row has its one error line |
| CsvImportProofs.ErrorsNameTheLines | internal/services/csv_service.go:119-124 | the report's error lines are those of the skipped rows, counted from the header as line 1 |
| CsvImportProofs.CreatedIsScheduleIndependent | internal/services/csv_service.go:71-132 | every schedule creates the same number: each new valid slug once, and each acceptable row that leaves its slug open |
| CsvImportProofs.ReportOnFile | internal/services/csv_service.go:36-136 | for the rows read from a file: created, skipped and blank lines make up its data rows, and every run creates the same number |
| CsvImportProofs.OneRowPerSlug | internal/services/link_service.go:104-112 | no two rows are created with the same custom slug |
| CsvImportProofs.SomeoneCanMove | internal/services/csv_service.go:103-135 | until the import is complete the loop or some worker can go on: the semaphore never deadlocks |

## Left out

- LinkStoreTheorems.CustomResolveRefinesTheTable: does not claim the domain's row is preferred, because a cached root entry can stand in its way; `HitIsPreferredExactlyWhenCached` says exactly when.
- LinkStoreTheorems.CacheIsCoherent: speaks of links whose key no lookup mistook; `LinkStoreAmbiguity.CoherentExactlyWhenUnambiguous` and `KeysAreExactlyTheChains` say what becomes of the others.
- LinkStoreClicks.OvershootIsBounded: speaks of links that do not leak; `LinkStoreOverrun` shows that the others can be served beyond their budget.
- LinkStoreAmbiguity.FinalBesideOneMore: speaks of hosts without a colon, which is what the handlers cut from the Host header.
- LinkService.LinkService.RecordClick: keeps the cache in step only under the address of the clicked link, because under another it does not.
- PinTheorems.GuessingTakesTime: asks that the first wrong PIN found room and that the link was still remembered at each later one; a sweep drops a record that was idle for a day, and a success drops it.
- Cleaner.CleanLocally: works on byte strings in byte order, the common order named above.
- The fairness of locks and the scheduler, and hence that a waiting request is served in the end.
- The writing and reading of tags, routing tables and variants as JSON columns, taken as faithful; generating a random slug until one is free, taken as one choice of a fresh slug.
- Parsing and refusing requests outside the query string: url.Parse, hosts, blocked domains, address ranges. They enter as whether a request is accepted.
- Cryptography, token verification and the transport of UserInfo: oracles. The oauth2 library's ten-second margin on token expiry, and sign-in without a configured provider.
- What a failing SQL statement leaves behind.
- Which columns an import fills besides the slug, since totals do not depend on them.
- The serializer of the browser's URLSearchParams, which escapes a few characters differently; the agreement of the two cleaners is on pairs.
- Statistics, webhooks, folders and domains, listing and export, QR codes, device and locale routing, pages and cookies: they add only easy members.
