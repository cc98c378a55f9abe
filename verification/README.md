# nostr-zap-view core, modelled in Dafny

nostr-zap-view is a web component. It shows the Nostr zaps (kind 9735
events) sent to a profile or a note in a dialog. This project models its
bookkeeping:

- **Per-view event cache (`ZapManager`).** Each dialog (view) has a
  `ViewState` with:
  - a zap event list sorted newest first;
  - an `isLoading` flag;
  - a pagination cursor (`lastEventTime`);
  - an `isInitialFetchComplete` flag.

  Live events pass a duplicate gate: same id, or same kind, pubkey, content
  and created_at. Events from the initial subscription move the cursor to
  the oldest time seen. End of stored events (EOSE) either shows the
  "no zaps" message or arms infinite scroll. `loadMoreZaps` fetches a page
  of strictly older events.
- **Relay pool (`ZapPool`).** A reference processor settles batches of
  requested note ids: found, null on EOSE, null on timeout, null on error
  or when relays are missing. The pool manager keeps:
  - one subscription per view, with an idempotent close flag;
  - a cache-aside reference lookup;
  - a connect-once flag.
- **Profile pool (`Profiles`).** A singleton profile cache:
  - a 30-minute freshness test decides between serving from the cache and
    fetching;
  - results come back in input order;
  - every failure becomes one "anonymous" default;
  - NIP-05 verification runs single-flight and strips the leading `_` of an
    `_@` address.
- **Settings (`AppSettings`).** How `ViewerConfig` is built from a button's
  attributes, plus the zap amount tier table.
- **Dialog helpers (`UIManager`).**
  - amount-to-tier colouring;
  - the colour-mode attribute;
  - parsing of the sats text;
  - the sort-and-slice used to render the cache;
  - order-preserving pubkey dedup for profile prefetch;
  - msats to sats flooring;
  - the `theme`/`max-count` attribute guards.

Relay traffic is a sequence of method calls on the state. A relay event,
EOSE or timeout is one call. The events delivered to a page request are a
sequence parameter. `Date.now()` is a `now` parameter. Foreign helpers
(identifier decoding, `verifyNip05`, `escapeHTML`, display names,
`JSON.parse`, the count validator) are function parameters or outcome
values. JavaScript's `NaN` and `undefined` are written out where the code's
behaviour depends on them:

- `parseInt` gives an `Option`;
- `slice` takes a `NumberValue`;
- a zero cursor or a zero `_lastUpdated` is falsy.

Files:

- `wrappers.dfy`: `Option` and `Result`.
- `app_settings.dfy`: `AppSettings`.
- `zap_events.dfy`: event ordering and insertion, shared by the others.
- `zap_pool.dfy`: `ZapPool`.
- `zap_manager.dfy`: `ZapManager`.
- `profile_pool.dfy`: `Profiles`.
- `ui_manager.dfy`: `UIManager`.

## Model

| member | source | states |
|---|---|---|
| AppSettings.ThresholdsWellFormed | src/AppSettings.js:39-49 | The tier thresholds strictly decrease, their class names are pairwise distinct, and none is the empty "no colour" class |
| AppSettings.LowerCase | src/AppSettings.js:101 | Lower-casing keeps the length and lower-cases each character in place |
| AppSettings.TrueIgnoringCaseIffSpelled | src/AppSettings.js:101 | The lower-case comparison with "true" holds exactly for the 16 upper/lower spellings of t-r-u-e |
| AppSettings.Split | src/AppSettings.js:116 | Splitting on "," always gives at least one piece, and no piece contains a comma |
| AppSettings.JoinSplit | src/AppSettings.js:116 | Joining the pieces of a split with "," gives back the original string |
| AppSettings.SplitJoin | src/AppSettings.js:116 | Splitting a join of comma-free pieces gives back those pieces (the inverse round trip) |
| AppSettings.NewViewerConfig | src/AppSettings.js:95-102 | Identifier and relay list are stored unchanged; a null colour mode gives the default (true); otherwise colour mode is on iff the string spells "true" ignoring case |
| AppSettings.DetermineColorMode | src/AppSettings.js:104-109 | A missing button or attribute gives the default; otherwise the case-insensitive "true" test |
| AppSettings.FromButton | src/AppSettings.js:111-119 | A missing button fails with the button-not-found error; a button without `data-relay-urls` fails; otherwise it succeeds with the identifier and colour mode from the button and a relay list that rejoins with "," to the attribute |
| ZapEvents.InsertByTime | src/ZapManager.js:55-58 | Inserting an event grows the list by one and adds exactly that event to its multiset |
| ZapEvents.SortByTimeDesc | src/ZapManager.js:57-58 | The sort yields a permutation of its input ordered by created_at descending |
| ZapEvents.MultisetOfLast | src/ZapManager.js:57-58 | A list's multiset is its front's multiset plus its last element |
| ZapEvents.SortedSuffix | src/ZapManager.js:57-58 | Every suffix of a newest-first list is newest-first |
| ZapEvents.SortedCons | src/ZapManager.js:57-58 | Putting an event no older than the head in front keeps the list newest-first |
| ZapEvents.InsertKeepsSorted | src/ZapManager.js:55-58 | Insertion into a newest-first list keeps it newest-first |
| ZapEvents.InsertPos | src/ZapManager.js:55-58 | The insertion position is within the list |
| ZapEvents.InsertPosBounds | src/ZapManager.js:55-58 | Everything before the insertion position is at least as recent as the new event, and the element at it is strictly older |
| ZapEvents.InsertByTimeSplits | src/ZapManager.js:55-58 | Insertion is the old prefix, the event, then the old suffix |
| ZapEvents.InsertByTimeAt | src/ZapManager.js:55-58 | The event lands at some position k; elements before k are unchanged and no older; elements from k on shift by one |
| ZapEvents.InsertByTimePlace | src/ZapManager.js:55-58 | As above, and in a newest-first cache the new event goes in front of exactly the strictly older zaps |
| ZapEvents.InsertOldestAppends | src/ZapManager.js:150-151 | An event no newer than every cached one is appended at the end |
| ZapEvents.SortSortedIsIdentity | src/ZapManager.js:57-58 | Sorting an already newest-first list leaves it unchanged (stable sort) |
| ZapEvents.SortedPrefix | src/ZapManager.js:57-58 | Dropping the last element keeps a list newest-first, and the last element is the oldest |
| ZapEvents.AppendThenSortIsInsert | src/ZapManager.js:55-58 | push followed by the stable sort equals inserting the event in place |
| ZapEvents.InsertKeepsUniqueIds | src/ZapManager.js:47-58 | Inserting an event whose id is not cached keeps ids unique |
| ZapEvents.IsDuplicate | src/ZapManager.js:47-53 | Definition of the duplicate gate: some cached event has the same id, or the same kind, pubkey, content and created_at (its effect is stated by ZapManager.HandleResult) |
| ZapEvents.FindETag | src/ZapManager.js:82 | Returns the first tag named "e": it is some tag at index i and no tag before i is named "e"; none iff no tag is named "e" |
| ZapManager.HandleResult | src/ZapManager.js:47-61 | A duplicate (same id, or same kind/pubkey/content/created_at) leaves the cache unchanged; otherwise the cache grows by exactly one and gains exactly that event; order and unique ids are kept |
| ZapManager.HandleResultIsAppendThenSort | src/ZapManager.js:55-58 | An accepted event's cache is the old cache plus the event, sorted newest first |
| ZapManager.StoreKeepsWellOrdered | src/ZapManager.js:16-26 | Storing a well-ordered view state keeps every view's cache newest-first with unique ids |
| ZapManager.CursorAfter | src/ZapManager.js:154-156 | After an event, the cursor is set and never later than a truthy previous cursor |
| ZapManager.Min | src/ZapManager.js:154-156 | The minimum is one of the times and is at most every time |
| ZapManager.CursorIsOldest | src/ZapManager.js:144-156 | Over positive created_at values, the cursor after the initial events is the minimum seen |
| ZapManager.ZeroCursorIsReplaced | src/ZapManager.js:154 | A falsy zero cursor is replaced by the next event's time even though that time is larger |
| ZapManager.ReferenceUpdate | src/ZapManager.js:81-102 | The reference is attached iff the identifier is not a note id, the event has an "e" tag naming a non-empty id, a config exists and a reference was fetched; otherwise the event is unchanged; id, kind, pubkey, content and created_at are always kept |
| ZapManager.ReferencedId | src/ZapManager.js:82-92 | Definition: the id in the first "e" tag, empty when there is no tag or no id (used by ZapManager.ReferenceUpdate) |
| ZapManager.InitialAccept | src/ZapManager.js:144-156 | A new initial event is inserted in time order and the cursor moves to it if it is older; nothing else changes |
| ZapManager.InitialAcceptIsPushThenSort | src/ZapManager.js:145-156 | Same state as pushing, re-sorting and taking the smaller created_at (or the event's time when the cursor is falsy) |
| ZapManager.EoseDecision | src/ZapManager.js:165-171 | The "no zaps" message iff the cache is empty; armed pagination iff the cache has at least 15 events; otherwise nothing; never both |
| ZapManager.EoseDecisionAsWritten | src/ZapManager.js:165-171 | Definition of the EOSE branch with the undefined threshold as written: `>=` and `<` against undefined are false (stated by ZapManager.EoseNeverArmsAsWritten) |
| ZapManager.BelowAsWritten | src/ZapManager.js:242 | Definition of the infinite-scroll guard as written, comparing with the undefined threshold (stated by ZapManager.ArmGuardAsWrittenNeverSkips) |
| ZapManager.EoseNeverArmsAsWritten | src/ZapManager.js:168 | The lookup as written never arms pagination, whereas the intended threshold arms it for 15 or more events |
| ZapManager.ArmGuardAsWrittenNeverSkips | src/ZapManager.js:242 | The guard before infinite scroll, as written, does not skip even a one-event cache, which the intended threshold skips |
| ZapManager.PageStep | src/ZapManager.js:207-213 | Definition of the page subscription's handling of one event: strictly older than the cursor, it is resolved, gated, counted and becomes the cursor; otherwise ignored (stated by ZapManager.PageFollowsScan and ZapManager.PageCachesProcessed) |
| ZapManager.Page | src/ZapManager.js:206-214 | Definition: PageStep over the deliveries in order (stated by ZapManager.PageScanDescends, PageFollowsScan, PageCursorDecreases, PageKeepsCache and PageCachesProcessed) |
| ZapManager.PageScanDescends | src/ZapManager.js:207-213 | The deliveries processed in a page are all older than the starting cursor and strictly descending in time |
| ZapManager.PageFollowsScan | src/ZapManager.js:207-213 | The page count is the number of processed deliveries, and the cursor ends at the last processed event's time |
| ZapManager.PageCursorDecreases | src/ZapManager.js:207-213 | The cursor never increases, and strictly decreases when anything was processed |
| ZapManager.PageWithNothingOlder | src/ZapManager.js:207-213 | When no delivery is older than the cursor, the page changes nothing and counts 0 |
| ZapManager.PageKeepsCache | src/ZapManager.js:207-213 | A page keeps the cache newest-first with unique ids, keeps every cached event, and grows it by at most the count |
| ZapManager.DuplicateSurvives | src/ZapManager.js:47-53 | An event the cache covers by id or tuple stays covered when events are only added |
| ZapManager.HandleResultCovers | src/ZapManager.js:42-79 | After `handleZapEvent` the cache covers the event by id or tuple, accepted or not, and loses nothing |
| ZapManager.PageCachesProcessed | src/ZapManager.js:207-213 | Every delivery a page processes is in the cache afterwards, by id or by (kind, pubkey, content, created_at), and nothing cached before is lost |
| ZapManager.PagedStateStep | src/ZapManager.js:206-214 | A page is its first delivery's step followed by the page of the rest, for both state and count |
| ZapManager.LoadMoreThroughLoading | src/ZapManager.js:191-236 | When the guard passes and the identifier decodes, the outcome is the paged state with `isLoading` false, the page count and the rearm decision |
| ZapManager.LoadMoreIsSafe | src/ZapManager.js:178-237 | A subscription is opened iff config exists, not loading, cursor truthy and the identifier decodes; otherwise nothing changes and 0 is returned; `isLoading` is restored; cached events are kept and every processed delivery is cached afterwards; the count is the number of processed deliveries; the cursor never increases and strictly decreases when the count is positive; pagination re-arms iff something was loaded into a cache of at least 15 events |
| ZapManager.LoadMore | src/ZapManager.js:178-236 | Definition of one `loadMoreZaps` call on a view state (stated by ZapManager.LoadMoreIsSafe and LoadMoreThroughLoading; the class methods are proved equal to it) |
| ZapManager.ZapSubscriptionManager.constructor | src/ZapManager.js:11-14 | Starts with no view states and no configs |
| ZapManager.ZapSubscriptionManager.SetViewConfig | src/ZapManager.js:28-30 | Records the view's config |
| ZapManager.ZapSubscriptionManager.GetOrCreateViewState | src/ZapManager.js:16-26 | An existing state is returned and nothing changes; an absent view gets a fresh state (empty cache, not complete, no stats) |
| ZapManager.ZapSubscriptionManager.ClearCache | src/ZapManager.js:36-40 | Empties the view's events and nulls its stats; other fields and views are unchanged |
| ZapManager.ZapSubscriptionManager.HandleZapEvent | src/ZapManager.js:42-79 | Accepted iff not a duplicate; the view's cache becomes the gated insertion result and nothing else changes |
| ZapManager.ZapSubscriptionManager.InitializeSubscriptions | src/ZapManager.js:130-143 | An undecodable identifier fails before any state changes; otherwise the flags are reset, the cursor cleared, and the view resubscribed with its close flag false |
| ZapManager.ZapSubscriptionManager.OnInitialEvent | src/ZapManager.js:144-158 | An event with a new id is accepted and applied by InitialAccept (after the reference decision); a known id changes nothing |
| ZapManager.ZapSubscriptionManager.OnInitialEose | src/ZapManager.js:159-173 | Marks the initial fetch complete and returns the EOSE decision; the empty message iff the cache is empty |
| ZapManager.ZapSubscriptionManager.OnPageEvent | src/ZapManager.js:206-214 | A page event is processed iff strictly older than the cursor; the view's state becomes that step's result |
| ZapManager.ZapSubscriptionManager.RunPage | src/ZapManager.js:204-217 | Feeding a page's deliveries one by one yields the page's count and paged state |
| ZapManager.ZapSubscriptionManager.LoadMoreZaps | src/ZapManager.js:178-189 | The result, new view state and subscription change are exactly those of LoadMore |
| ZapManager.ZapSubscriptionManager.LoadOlder | src/ZapManager.js:191-236 | Past the guard, the same agreement with LoadMore, including release of `isLoading` on the decode-failure path |
| ZapManager.ZapSubscriptionManager.FetchPage | src/ZapManager.js:204-236 | Returns the page count and rearm decision; the state is the paged state with `isLoading` false |
| ZapPool.ReferenceProcessor.constructor | src/ZapPool.js:12-20 | No relays, no pending ids, nothing settled |
| ZapPool.ReferenceProcessor.SetRelayUrls | src/ZapPool.js:22-25 | Stores the relay list |
| ZapPool.ReferenceProcessor.Request | src/ZapPool.js:184 | A request joins an existing pending id or registers it |
| ZapPool.ReferenceProcessor.ResolveItem | src/ZapPool.js:52 | A pending id is settled with the value and stops pending; a non-pending id changes nothing |
| ZapPool.ReferenceProcessor.SettleUnseen | src/ZapPool.js:63-67 | Every requested, unseen, pending id settles to null; nothing else is settled |
| ZapPool.ReferenceProcessor.OnBatchProcess | src/ZapPool.js:27-48 | Without relays every requested pending id settles to null and the batch is done; with relays the batch opens and nothing settles |
| ZapPool.ReferenceProcessor.OnBatchEvent | src/ZapPool.js:50-60 | An event settles its own id with itself; once every requested id has been seen the batch closes and completes |
| ZapPool.ReferenceProcessor.OnBatchEose | src/ZapPool.js:61-69 | Every unseen pending id of the batch settles to null and the batch completes |
| ZapPool.ReferenceProcessor.OnBatchTimeout | src/ZapPool.js:74-82 | Closes the batch and settles every unseen pending id to null |
| ZapPool.ReferenceProcessor.OnBatchError | src/ZapPool.js:86-88 | Every pending item of the batch settles to null |
| ZapPool.ResubscribeKeepsHandlesConsistent | src/ZapPool.js:124-170 | Closing then resubscribing keeps handles distinct and issued, closes each handle at most once, and keeps a close flag set exactly for closed handles |
| ZapPool.ZapPoolManager.constructor | src/ZapPool.js:92-100 | No subscriptions, no references, not connected |
| ZapPool.ZapPoolManager.ConnectToRelays | src/ZapPool.js:103-122 | A no-op once connected; otherwise attempts every profile and zap relay, then sets the flag |
| ZapPool.ZapPoolManager.CloseSubscription | src/ZapPool.js:124-132 | Closes only an existing open subscription and sets its flag; a second call is a no-op |
| ZapPool.ZapPoolManager.SubscribeToZaps | src/ZapPool.js:134-170 | Closes any open subscription of the view, then installs a fresh handle with the flag cleared |
| ZapPool.ZapPoolManager.FetchReference | src/ZapPool.js:174-194 | Null for a missing id or relays; a cache hit returns without fetching; otherwise the fetch result is returned and cached only when non-null |
| Profiles.DefaultNeverFresh | src/ProfilePool.js:179-184 | The default profile is "anonymous"/"anonymous" and is never fresh |
| Profiles.DefaultProfile | src/ProfilePool.js:179-184 | Definition of the anonymous default (stated by Profiles.DefaultNeverFresh) |
| Profiles.IsFresh | src/ProfilePool.js:75 | Definition of the freshness test: a non-zero stamp under 30 minutes old (stated by Profiles.ResolvedFreshness and RefetchAfterFetch) |
| Profiles.NameOrNameless | src/ProfilePool.js:93 | The stored name is never empty and is the display name when that is not empty |
| Profiles.ResolveProfile | src/ProfilePool.js:86-101 | A missing event, bad content or failed fetch gives the default; otherwise the content's fields with name, `_lastUpdated` = now and `_eventCreatedAt` |
| Profiles.ResolvedFreshness | src/ProfilePool.js:75-96 | A resolved profile is fresh later iff it was parsed, now was nonzero and less than 30 minutes passed |
| Profiles.ProfileFor | src/ProfilePool.js:71-101 | Definition of `results[i]`: the fresh cached profile, else what the fetch yields (stated by Profiles.ProfilePool.FetchProfiles) |
| Profiles.StaleIndices | src/ProfilePool.js:71-80 | The fetch queue holds, in increasing order, exactly the indices whose key is not fresh in the cache |
| Profiles.CacheAfterFetchEntries | src/ProfilePool.js:107-110 | After a fetch the cache holds old and requested keys; fresh or unrequested entries are untouched; stale requested keys hold their resolved profile |
| Profiles.RefetchAfterFetch | src/ProfilePool.js:75-110 | A key is fresh after the fetch iff its reply parsed and the age test passes, so keys that got the default are refetched next time |
| Profiles.QueuedKeysAreStale | src/ProfilePool.js:71-80 | A key is queued iff it is requested and not fresh |
| Profiles.CacheAfterFetch | src/ProfilePool.js:107-110 | Definition of the cache after a fetch (stated by Profiles.CacheAfterFetchEntries, RefetchAfterFetch and CacheAfterFetchUnique) |
| Profiles.CacheAfterFetchUnique | src/ProfilePool.js:107-110 | The cache after a fetch is the unique map with those entries |
| Profiles.StoredEntries | src/ProfilePool.js:107-110 | Writing the fetched profiles key by key gives each written key its resolved profile |
| Profiles.StoredIsCacheAfterFetch | src/ProfilePool.js:107-110 | Writing the queued keys one by one gives the cache after fetch |
| Profiles.StripUnderscore | src/ProfilePool.js:148-149 | Removes exactly the leading `_` of an `_@` prefix, leaves other strings alone, and never yields a `_@` prefix |
| Profiles.StripUnderscoreIdempotent | src/ProfilePool.js:148-149 | Stripping twice equals stripping once |
| Profiles.Nip05Result | src/ProfilePool.js:131-152 | A value iff there is an address and the verifier returned a non-empty result; the value is the escaped, stripped result |
| Profiles.FailedProfileCachesNull | src/ProfilePool.js:131-184 | A profile that resolved to the default always caches null for NIP-05 |
| Profiles.ResolvedNip05IsContentNip05 | src/ProfilePool.js:91-96 | The address verified for a fetched profile is the non-empty `nip05` of its content; a profile that fell back to the default has none |
| Profiles.ProfilePool.constructor | src/ProfilePool.js:22-45 | Empty caches and no pending work; the processor gets the configured profile relays |
| Profiles.ProfilePool.FetchProfiles | src/ProfilePool.js:61-114 | Results have the input's length and position i holds the profile for pubkey i; only stale keys are fetched; the cache becomes the cache after fetch |
| Profiles.ProfilePool.ServeCached | src/ProfilePool.js:71-80 | Fresh keys are served from the cache at their index; the queue is the stale indices |
| Profiles.ProfilePool.StoreFetched | src/ProfilePool.js:103-110 | Queued positions get their resolved profile, others stay; the cache gets every fetched key |
| Profiles.ProfilePool.VerifyNip05Async | src/ProfilePool.js:116-126 | Cached value (including null) first; else joins a pending fetch; else registers exactly one new pending fetch |
| Profiles.ProfilePool.ProcessNip05Verification | src/ProfilePool.js:128-161 | Caches the NIP-05 result on every path (null on failure), removes the pending entry, and fetches the profile as FetchProfiles would |
| Profiles.ProfilePoolSingleton.constructor | src/ProfilePool.js:20 | No instance yet |
| Profiles.ProfilePoolSingleton.Construct | src/ProfilePool.js:22-45 | Returns the existing instance if any; fails when the relay pool cannot ensure relays; otherwise creates and records one fresh, empty pool |
| UIManager.IsColorModeEnabled | src/UIManager.js:162-168 | "true" enables, "false" disables, anything else gives the default |
| UIManager.ColorModeParsersAgreement | src/UIManager.js:162-168 | The dialog's parser and the settings' parser agree exactly when the value spells "true" ignoring case or is exactly "false"; on anything else ("FALSE", "yes", "") the dialog turns colour mode on and the settings turn it off |
| UIManager.AmountColorClass | src/UIManager.js:146-160 | Colour mode off or no amount gives ""; otherwise the tier class of the amount |
| UIManager.TierClass | src/UIManager.js:152-159 | Definition of the chain of threshold tests (stated by UIManager.TierIsLargestThresholdReached and TierMonotone) |
| UIManager.TierIsLargestThresholdReached | src/UIManager.js:152-159 | The class is that of the largest threshold ≤ amount, and "" below the smallest (100) |
| UIManager.TierMonotone | src/UIManager.js:152-159 | A larger amount never gets a lower tier |
| UIManager.DigitChar | src/UIManager.js:103 | Produces the digit character of a digit value |
| UIManager.SkipSpace | src/UIManager.js:103 | Drops exactly the leading whitespace run: every dropped character is whitespace and the rest does not start with whitespace |
| UIManager.LeadingDigits | src/UIManager.js:103 | The longest all-digit prefix |
| UIManager.NatToString | src/UIManager.js:103 | A non-empty all-digit rendering |
| UIManager.NatToStringValue | src/UIManager.js:103 | The digits' value is the number rendered |
| UIManager.LeadingDigitsOfDigits | src/UIManager.js:103 | An all-digit string is its own leading-digit prefix |
| UIManager.ParseIntOfDigits | src/UIManager.js:103 | parseInt of a digit string is its value |
| UIManager.NoSpaceBeforeDigits | src/UIManager.js:103 | A string starting with a digit has no leading space |
| UIManager.NoSignBeforeDigits | src/UIManager.js:103 | A string starting with a digit has no sign |
| UIManager.ParseIntNatToString | src/UIManager.js:103 | parseInt inverts the decimal rendering |
| UIManager.ParseInt | src/UIManager.js:31 | Definition of `parseInt(s, 10)`: leading whitespace, an optional sign, then digits; no digits is NaN (stated by UIManager.ParseIntNatToString and ParseIntOfDigits) |
| UIManager.RemoveCommas | src/UIManager.js:103 | The result has no commas and only characters of the input |
| UIManager.RemoveCommasAppend | src/UIManager.js:103 | Comma removal distributes over concatenation |
| UIManager.ParseSatsReadsAmount | src/UIManager.js:103 | The sats text "<n with commas anywhere> <unit>" parses to n |
| UIManager.ParseSats | src/UIManager.js:103 | Definition of the sats read-back (stated by UIManager.ParseSatsReadsAmount) |
| UIManager.SliceEnd | src/UIManager.js:212 | The slice end for undefined, NaN, non-negative and negative `maxCount`, always within the length |
| UIManager.RenderedZaps | src/UIManager.js:212 | Definition of the rendered list (stated by UIManager.RenderedZapsAreMostRecent and RenderedZapsOfOrderedCache) |
| UIManager.RenderedZapsAreMostRecent | src/UIManager.js:212 | The rendered list has the slice length, is newest-first, is a sub-multiset of the cache, and nothing left out is newer than anything rendered |
| UIManager.CutMultisets | src/UIManager.js:212 | A prefix is a sub-multiset and the rest is the suffix |
| UIManager.SortedCutSeparates | src/UIManager.js:212 | In a newest-first list, the prefix is no older than anything in the suffix |
| UIManager.SortedPrefixOf | src/UIManager.js:212 | A prefix of a newest-first list is newest-first |
| UIManager.RenderedZapsOfOrderedCache | src/UIManager.js:212 | For a newest-first cache, rendering is just the prefix |
| UIManager.FirstIndex | src/UIManager.js:338 | The first position holding a key |
| UIManager.UniquePubkeys | src/UIManager.js:338 | Definition of the prefetch key list (stated by UIManager.UniquePubkeysSpec) |
| UIManager.UniquePubkeysSpec | src/UIManager.js:338 | The deduped list holds exactly the truthy keys present, no duplicates, in first-occurrence order |
| UIManager.FirstIndexOfPrefix | src/UIManager.js:338 | Appending does not move a key's first occurrence |
| UIManager.ProfileMap | src/UIManager.js:344 | Definition of the key-to-profile lookup (stated by UIManager.ProfileMapPairs) |
| UIManager.ProfileMapPairs | src/UIManager.js:344 | The map's keys are the pubkeys and pubkey i maps to profile i |
| UIManager.PrefetchPairsEveryKey | src/UIManager.js:338-344 | Every truthy sender key maps to its own profile after prefetch |
| UIManager.MsatsToSats | src/UIManager.js:328 | The result is floor(msats / 1000) |
| UIManager.MsatsToSatsMonotone | src/UIManager.js:328-331 | Flooring keeps order |
| UIManager.DisplayStats | src/UIManager.js:319-334 | Count unchanged; total and max sats are the floors of msats / 1000 |
| UIManager.DisplayedMaxAtMostTotal | src/UIManager.js:328-331 | Displayed max never exceeds displayed total when max ≤ total msats |
| UIManager.ThemeClass | src/UIManager.js:50 | Definition: "dark-theme" for the dark theme, "light-theme" otherwise (used by UIManager.ZapDialog.UpdateTheme) |
| UIManager.ZapDialog.constructor | src/UIManager.js:12-16 | Default theme, undefined max count, not initialised |
| UIManager.ZapDialog.UpdateTheme | src/UIManager.js:36-41 | Stores the theme; a host class is applied only once initialised |
| UIManager.ZapDialog.UpdateMaxCount | src/UIManager.js:43-47 | `maxCount` changes only when the count is valid |
| UIManager.ZapDialog.AttributeChanged | src/UIManager.js:23-34 | Equal old and new values or another attribute change nothing; theme changes go to UpdateTheme; max-count changes parse the string (null as "null") and go to UpdateMaxCount |
| UIManager.ZapDialog.UpdateDisplayIdentifiers | src/UIManager.js:351-371 | One answer per pubkey; an empty key is skipped; otherwise cached iff in the NIP-05 cache; new pending fetches exactly for uncached non-empty keys, each started by its first occurrence |
| UIManager.ZapDialog.PrefetchProfiles | src/UIManager.js:337-353 | No keys change nothing; otherwise the profile map is built from the deduped keys and the pool cache is updated as FetchProfiles does |

## Left out

- Rendering: DOM and shadow-root construction, templates, dialog show/close, the IntersectionObserver wiring and `src/UIStatus.js`. Only the arm/skip threshold of `setupInfiniteScroll` is modelled.
- Network I/O: subscriptions, `ensureRelay`, timers and `Promise.race`. A relay event, EOSE or timeout is a method call; a page's deliveries are a parameter; a fetch result is an outcome parameter.
- Promise concurrency: every callback runs atomically in the order it is called. A `loadMoreZaps` page whose EOSE never arrives is modelled as a finished page, so the stuck-`isLoading` case is not represented.
- Exceptions and `catch` paths that only log are not modelled. `fetchReference` falling back to the cache on error is the cache-hit case, because errors only come from the fetch.
- The background reference fetch and stats update in `handleZapEvent`, `updateEventReferenceBatch` and `StatsManager` are not part of this model. Their code is not shown.
- `CacheManager`, `BatchProcessor` and `ProfileManager` are not part of this model. The caches are maps on the classes, and `ProfilePool` stands in for the profile manager used by the dialog.
- ProfilePool's `_initialize`, `getNip05`, `clearCache`, `_resolvePromise` and `_handleFetchError` are not modelled. They are relay setup, a lookup and resets.
- Console logging is not modelled.
- `isEventIdentifier`, `decodeIdentifier`, `getProfileDisplayName`, `escapeHTML`, `verifyNip05`, `JSON.parse`, `formatNumber` and the count validator are parameters.
- Profile content is a map of string members.
- Non-array inputs are excluded by typing.
- AppSettings.LowerCase: lower-cases ASCII letters only, not all of Unicode.
- UIManager.SkipSpace: treats space, tab, line feed, vertical tab, form feed and carriage return as whitespace, not the non-ASCII white space and line terminators JavaScript also skips.
- UIManager.ParseInt: returns an unbounded integer; JavaScript rounds parsed values above 2^53 to the nearest double, which is not modelled.
- UIManager.ParseSatsReadsAmount: states the parse for the text the dialog is given. `formatNumber` is opaque, so grouping commas may sit anywhere.
- Configuration lookups use the values nested in `APP_CONFIG` (src/AppSettings.js:5-92): the page threshold 15, the profile relays, the error strings. Only the threshold read at src/ZapManager.js:168 and :242 is also modelled as written (ZapManager.EoseDecisionAsWritten, ZapManager.BelowAsWritten; see Findings).
- src/AppSettings.js exports only `APP_CONFIG` and `ViewerConfig`. The named imports `ZAP_CONFIG`, `REQUEST_CONFIG`, `PROFILE_CONFIG` and `BATCH_CONFIG` at src/ZapPool.js:2-7, `PROFILE_CONFIG` at src/ProfilePool.js:2 and `ZAP_CONFIG` at src/ZapManager.js:6 do not resolve against it. The model assumes they stand for the nested values; what the unresolved imports do at load time is not modelled.
- The dialog's default `maxCount` is undefined because its defaults carry none.
- UIManager.ZapDialog.UpdateMaxCount: src/UIManager.js:44 calls `TypeChecker.isValidCount`, but `TypeChecker` is not imported in that file. The model takes the validator as a parameter, so the failure a missing binding would raise on every max-count change is not modelled.
- src/ZapManager.js:64 and :152 pass the view id where `renderZapListFromCache` expects `maxCount`. The slice end then comes from the id: a non-numeric id gives NaN and renders nothing. UIManager.SliceEnd covers that value, but the call itself is not modelled.
- ZapManager.ReferenceUpdate: the fetched reference is an input. The model only requires that it is ignored when the tag names no id; it does not tie the value to the id fetched.
- ZapPool.ReferenceProcessor.Request: models the join of pending requests, but ZapPool.ZapPoolManager.FetchReference takes the settled outcome of its request as a parameter and does not call it.
- UIManager.ZapDialog.UpdateTheme: `isInitialized` is never set to true in `src/UIManager.js`, so the host class is never applied in practice.
- Supported event kinds and batch sizes are not modelled.

## Findings

| source | as written | input that shows it | evidently intended | confidence | as-written member | corrected member |
|---|---|---|---|---|---|---|
| src/ZapManager.js:168 | the EOSE handler compares the cache length with `APP_CONFIG.INITIAL_LOAD_COUNT`, which is undefined because the constant sits under `REQ_CONFIG` (src/AppSettings.js:15-18) | a cache of 15 or more zaps at EOSE never arms pagination | arm pagination at 15 or more events, from `REQ_CONFIG.INITIAL_LOAD_COUNT` | not executed | ZapManager.EoseNeverArmsAsWritten | ZapManager.EoseDecision |
| src/ZapManager.js:242 | the guard before infinite scroll compares with the same undefined constant | a one-event cache is not skipped | skip infinite scroll below 15 events | not executed | ZapManager.ArmGuardAsWrittenNeverSkips | ZapManager.LoadMoreIsSafe |
