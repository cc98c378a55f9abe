/**
 * The zap subscription manager: one `ViewState` per view id, holding the cached zaps
 * (unique by id, most recent first), the loading flag, the pagination cursor
 * `lastEventTime` and the initial-fetch flag. Relay callbacks of the initial
 * subscription are the methods `OnInitialEvent` and `OnInitialEose`; a backward page
 * load is `LoadMoreZaps`, given the events its subscription delivers before
 * end-of-stored-events.
 */
module ZapManager {
  import opened Wrappers
  import opened ZapEvents
  import opened AppSettings
  import ZapPool

  /** Aggregate statistics of a view (computed elsewhere; here only cleared). */
  datatype Stats = Stats(count: nat, msats: int, maxMsats: int)

  /** The per-view record; `lastEventTime == None` stands for null and undefined alike. */
  datatype ViewState = ViewState(
    events: seq<Event>,
    isInitialFetchComplete: bool,
    currentStats: Option<Stats>,
    isLoading: bool,
    lastEventTime: Option<int>)

  /** The record `getOrCreateViewState` creates (`isLoading` starts out undefined, i.e. falsy). */
  function FreshViewState(): ViewState
  {
    ViewState([], false, None, false, None)
  }

  /** The state a view has, or would be given by `getOrCreateViewState`. */
  function StateOf(states: map<string, ViewState>, viewId: string): ViewState
  {
    if viewId in states then states[viewId] else FreshViewState()
  }

  /** `!state.lastEventTime`: null, undefined and 0 are all falsy. */
  predicate CursorFalsy(t: Option<int>)
  {
    t.None? || t.value == 0
  }

  // ---------------------------------------------------------------------------
  // The cache operations
  // ---------------------------------------------------------------------------

  /**
   * The cache after `handleZapEvent(e)`: unchanged for a duplicate, else `e` spliced in
   * behind every cached zap at least as recent (on an ordered cache this is what
   * appending and sorting does; see `HandleResultIsAppendThenSort`).
   */
  function HandleResult(cache: seq<Event>, e: Event): (r: seq<Event>)
    ensures IsDuplicate(cache, e) ==> r == cache
    ensures !IsDuplicate(cache, e) ==> |r| == |cache| + 1 && multiset(r) == multiset(cache) + multiset{e}
    ensures SortedByTimeDesc(cache) && UniqueIds(cache) ==> SortedByTimeDesc(r) && UniqueIds(r)
  {
    if IsDuplicate(cache, e) then cache
    else
      assert !HasId(cache, e.id);
      if SortedByTimeDesc(cache) && UniqueIds(cache) then
        InsertKeepsSorted(cache, e);
        InsertKeepsUniqueIds(cache, e);
        InsertByTime(cache, e)
      else InsertByTime(cache, e)
  }

  /** On an ordered cache, `handleZapEvent`'s push-then-sort of a new zap is `HandleResult`. */
  lemma HandleResultIsAppendThenSort(cache: seq<Event>, e: Event)
    requires SortedByTimeDesc(cache) && !IsDuplicate(cache, e)
    ensures HandleResult(cache, e) == SortByTimeDesc(cache + [e])
  {
    AppendThenSortIsInsert(cache, e);
  }

  /** The invariant every view's cache keeps: most recent first, each id at most once. */
  predicate WellOrdered(events: seq<Event>)
  {
    SortedByTimeDesc(events) && UniqueIds(events)
  }

  /** Every view's cache is well ordered. */
  ghost predicate AllWellOrdered(states: map<string, ViewState>)
  {
    forall v :: v in states ==> WellOrdered(states[v].events)
  }

  /** Storing a view whose cache is well ordered keeps every cache well ordered. */
  lemma StoreKeepsWellOrdered(states: map<string, ViewState>, viewId: string, s: ViewState)
    requires AllWellOrdered(states) && WellOrdered(s.events)
    ensures AllWellOrdered(states[viewId := s])
  {
  }

  /** The cursor after the initial subscription accepts an event created at `t`. */
  function CursorAfter(cursor: Option<int>, t: int): (r: Option<int>)
    ensures r.Some?
    ensures !CursorFalsy(cursor) ==> r.value <= cursor.value
  {
    if CursorFalsy(cursor) || t < cursor.value then Some(t) else cursor
  }

  /** The cursor after accepting events created at `times`, in that order. */
  function CursorAfterAll(cursor: Option<int>, times: seq<int>): Option<int>
    decreases |times|
  {
    if times == [] then cursor else CursorAfter(CursorAfterAll(cursor, times[..|times| - 1]), times[|times| - 1])
  }

  function Min(times: seq<int>): (m: int)
    requires |times| > 0
    ensures m in times && forall i :: 0 <= i < |times| ==> m <= times[i]
    decreases |times|
  {
    if |times| == 1 then times[0]
    else
      var m := Min(times[..|times| - 1]);
      assert forall i :: 0 <= i < |times| - 1 ==> times[..|times| - 1][i] == times[i];
      if times[|times| - 1] < m then times[|times| - 1] else m
  }

  /**
   * With real (positive) timestamps, the cursor the initial subscription leaves is the
   * oldest `created_at` it accepted.
   */
  lemma {:induction false} CursorIsOldest(times: seq<int>)
    requires |times| > 0
    requires forall i :: 0 <= i < |times| ==> times[i] > 0
    ensures CursorAfterAll(None, times) == Some(Min(times))
    decreases |times|
  {
    if |times| > 1 {
      var front := times[..|times| - 1];
      CursorIsOldest(front);
      assert Min(times) == if times[|times| - 1] < Min(front) then times[|times| - 1] else Min(front);
    }
  }

  /** A zero timestamp is falsy, so the next event replaces it even though it is newer. */
  lemma ZeroCursorIsReplaced()
    ensures CursorAfterAll(None, [0, 5]) == Some(5)
  {
    assert [0, 5][..1] == [0];
    assert [0][..0] == [];
  }

  /** `config?.identifier || ''` */
  function IdentifierOf(config: Option<ViewerConfig>): string
  {
    if config.Some? && config.value.identifier.Some? then config.value.identifier.value else ""
  }

  /** The id the event's first `e` tag points to, the empty string when there is none. */
  function ReferencedId(e: Event): string
  {
    match FindETag(e.tags)
    case None => ""
    case Some(tag) => TagValue(tag)
  }

  /**
   * `updateEventReference(event, viewId)`: skipped for event-pointer identifiers; with an
   * `e` tag and a configuration, the event takes the reference `fetchReference` returned,
   * when there is one. `fetchReference` returns null for an empty id, so `fetched` is
   * only looked at when the tag names a non-empty id. The boolean is the function's
   * return value.
   */
  function ReferenceUpdate(config: Option<ViewerConfig>, isEventIdentifier: string -> bool, e: Event, fetched: Option<Event>): (r: (Event, bool))
    ensures r.1 <==> !isEventIdentifier(IdentifierOf(config)) && FindETag(e.tags).Some? && ReferencedId(e) != ""
                     && config.Some? && fetched.Some?
    ensures r.1 ==> r.0 == e.(reference := fetched)
    ensures !r.1 ==> r.0 == e
    ensures r.0.id == e.id && SameTuple(r.0, e)
  {
    if isEventIdentifier(IdentifierOf(config)) then (e, false)
    else if FindETag(e.tags).Some? && ReferencedId(e) != "" && config.Some? && fetched.Some? then (e.(reference := fetched), true)
    else (e, false)
  }

  /**
   * A view state after the initial subscription accepts `e` (whose id is not cached):
   * `e` is inserted at its place by time and the cursor follows `CursorAfter`.
   */
  function InitialAccept(s: ViewState, e: Event): (r: ViewState)
    requires WellOrdered(s.events) && !HasId(s.events, e.id)
    ensures WellOrdered(r.events)
    ensures r.events == InsertByTime(s.events, e)
    ensures r == s.(events := r.events, lastEventTime := CursorAfter(s.lastEventTime, e.createdAt))
  {
    InsertKeepsSorted(s.events, e);
    InsertKeepsUniqueIds(s.events, e);
    s.(events := InsertByTime(s.events, e), lastEventTime := CursorAfter(s.lastEventTime, e.createdAt))
  }

  /** The initial `onevent`'s push, sort and cursor update is `InitialAccept`. */
  lemma InitialAcceptIsPushThenSort(s: ViewState, e: Event)
    requires WellOrdered(s.events) && !HasId(s.events, e.id)
    ensures InitialAccept(s, e) == s.(events := SortByTimeDesc(s.events + [e]),
                                      lastEventTime := if CursorFalsy(s.lastEventTime) || e.createdAt < s.lastEventTime.value
                                                       then Some(e.createdAt) else s.lastEventTime)
  {
    AppendThenSortIsInsert(s.events, e);
  }

  // ---------------------------------------------------------------------------
  // End of stored events, and the pagination threshold
  // ---------------------------------------------------------------------------

  datatype EoseOutcome = ShowEmpty | ArmPagination | Idle

  /** The threshold guard of `setupInfiniteScroll`. */
  predicate ShouldArm(cacheLength: nat)
  {
    cacheLength >= INITIAL_LOAD_COUNT
  }

  /** What the initial `oneose` does after marking the fetch complete. */
  function EoseDecision(cacheLength: nat): (r: EoseOutcome)
    ensures r == ShowEmpty <==> cacheLength == 0
    ensures r == ArmPagination <==> cacheLength >= INITIAL_LOAD_COUNT
    ensures r == Idle <==> 0 < cacheLength < INITIAL_LOAD_COUNT
  {
    if cacheLength == 0 then ShowEmpty
    else if cacheLength >= INITIAL_LOAD_COUNT && ShouldArm(cacheLength) then ArmPagination
    else Idle
  }

  /**
   * As written, the threshold is read as `APP_CONFIG.INITIAL_LOAD_COUNT`, which does not
   * exist (the value sits under `APP_CONFIG.REQ_CONFIG`): the read gives undefined.
   */
  const THRESHOLD_AS_READ: Option<nat> := None

  /** `n >= t` in JavaScript, where `t` may be undefined (then the comparison is false). */
  predicate AtLeastAsWritten(n: nat, t: Option<nat>)
  {
    t.Some? && n >= t.value
  }

  /** `n < t` in JavaScript, where `t` may be undefined (then the comparison is false). */
  predicate BelowAsWritten(n: nat, t: Option<nat>)
  {
    t.Some? && n < t.value
  }

  /** The EOSE branch as written: the `>=` test against undefined, then the guard of `setupInfiniteScroll`. */
  function EoseDecisionAsWritten(cacheLength: nat): EoseOutcome
  {
    if cacheLength == 0 then ShowEmpty
    else if AtLeastAsWritten(cacheLength, THRESHOLD_AS_READ) && !BelowAsWritten(cacheLength, THRESHOLD_AS_READ) then ArmPagination
    else Idle
  }

  /** As written, no initial fetch ever arms pagination, however many zaps it brings. */
  lemma EoseNeverArmsAsWritten(cacheLength: nat)
    ensures EoseDecisionAsWritten(cacheLength) != ArmPagination
    ensures cacheLength >= INITIAL_LOAD_COUNT ==> EoseDecision(cacheLength) == ArmPagination
  {
  }

  /** As written, the guard of `setupInfiniteScroll` lets a one-zap cache through. */
  lemma ArmGuardAsWrittenNeverSkips()
    ensures !BelowAsWritten(1, THRESHOLD_AS_READ)
    ensures !ShouldArm(1)
  {
  }

  // ---------------------------------------------------------------------------
  // Backward pagination
  // ---------------------------------------------------------------------------

  /** One event delivered to the page subscription, with what `fetchReference` returned for it. */
  datatype Delivery = Delivery(event: Event, fetched: Option<Event>)

  datatype PageResult = PageResult(events: seq<Event>, cursor: int, count: nat)

  /**
   * The page subscription's `onevent` for one delivery: an event strictly older than
   * the cursor is resolved, handed to `handleZapEvent`, counted once, and becomes the
   * cursor; any other event is ignored.
   */
  function PageStep(config: Option<ViewerConfig>, isEventIdentifier: string -> bool,
                    events: seq<Event>, cursor: int, d: Delivery): PageResult
  {
    if d.event.createdAt < cursor then
      var e := ReferenceUpdate(config, isEventIdentifier, d.event, d.fetched).0;
      PageResult(HandleResult(events, e), d.event.createdAt, 1)
    else PageResult(events, cursor, 0)
  }

  /** `PageStep` applied to the deliveries in order, counting the processed ones. */
  function Page(config: Option<ViewerConfig>, isEventIdentifier: string -> bool,
                events: seq<Event>, cursor: int, ds: seq<Delivery>): PageResult
    decreases |ds|
  {
    if ds == [] then PageResult(events, cursor, 0)
    else
      var st := PageStep(config, isEventIdentifier, events, cursor, ds[0]);
      var rest := Page(config, isEventIdentifier, st.events, st.cursor, ds[1..]);
      rest.(count := rest.count + st.count)
  }

  /** The deliveries the page handler processes: each strictly older than the one before. */
  function PageScan(cursor: int, ds: seq<Delivery>): seq<Delivery>
    decreases |ds|
  {
    if ds == [] then []
    else if ds[0].event.createdAt < cursor then [ds[0]] + PageScan(ds[0].event.createdAt, ds[1..])
    else PageScan(cursor, ds[1..])
  }

  /** The processed deliveries are strictly older than the starting cursor, and strictly decreasing. */
  lemma {:induction false} PageScanDescends(cursor: int, ds: seq<Delivery>)
    ensures var scan := PageScan(cursor, ds);
            && |scan| <= |ds|
            && (forall i :: 0 <= i < |scan| ==> scan[i].event.createdAt < cursor)
            && (forall i, j :: 0 <= i < j < |scan| ==> scan[i].event.createdAt > scan[j].event.createdAt)
    decreases |ds|
  {
    if ds != [] {
      if ds[0].event.createdAt < cursor {
        var tail := PageScan(ds[0].event.createdAt, ds[1..]);
        PageScanDescends(ds[0].event.createdAt, ds[1..]);
        assert PageScan(cursor, ds) == [ds[0]] + tail;
        assert forall i :: 0 < i <= |tail| ==> ([ds[0]] + tail)[i] == tail[i - 1];
      } else {
        PageScanDescends(cursor, ds[1..]);
      }
    }
  }

  /**
   * The page's count is the number of processed deliveries, duplicates of cached zaps
   * included, and its cursor is the `created_at` of the last of them.
   */
  lemma {:induction false} PageFollowsScan(config: Option<ViewerConfig>, isEventIdentifier: string -> bool,
                                           events: seq<Event>, cursor: int, ds: seq<Delivery>)
    ensures var r := Page(config, isEventIdentifier, events, cursor, ds);
            var scan := PageScan(cursor, ds);
            && r.count == |scan|
            && r.cursor == (if scan == [] then cursor else scan[|scan| - 1].event.createdAt)
    decreases |ds|
  {
    if ds != [] {
      var st := PageStep(config, isEventIdentifier, events, cursor, ds[0]);
      PageFollowsScan(config, isEventIdentifier, st.events, st.cursor, ds[1..]);
    }
  }

  /** The cursor never moves forward, and moves strictly back when anything was processed. */
  lemma PageCursorDecreases(config: Option<ViewerConfig>, isEventIdentifier: string -> bool,
                            events: seq<Event>, cursor: int, ds: seq<Delivery>)
    ensures var r := Page(config, isEventIdentifier, events, cursor, ds);
            r.cursor <= cursor && (r.count > 0 ==> r.cursor < cursor)
  {
    PageFollowsScan(config, isEventIdentifier, events, cursor, ds);
    PageScanDescends(cursor, ds);
  }

  /** When nothing delivered is older than the cursor, the page loads nothing and changes nothing. */
  lemma {:induction false} PageWithNothingOlder(config: Option<ViewerConfig>, isEventIdentifier: string -> bool,
                                                events: seq<Event>, cursor: int, ds: seq<Delivery>)
    requires forall i :: 0 <= i < |ds| ==> ds[i].event.createdAt >= cursor
    ensures Page(config, isEventIdentifier, events, cursor, ds) == PageResult(events, cursor, 0)
    decreases |ds|
  {
    if ds != [] {
      PageWithNothingOlder(config, isEventIdentifier, events, cursor, ds[1..]);
    }
  }

  /** A page keeps the cache ordered and its ids unique, and only ever adds events. */
  lemma {:induction false} PageKeepsCache(config: Option<ViewerConfig>, isEventIdentifier: string -> bool,
                                          events: seq<Event>, cursor: int, ds: seq<Delivery>)
    requires SortedByTimeDesc(events) && UniqueIds(events)
    ensures var r := Page(config, isEventIdentifier, events, cursor, ds);
            SortedByTimeDesc(r.events) && UniqueIds(r.events) && multiset(events) <= multiset(r.events)
            && |r.events| <= |events| + r.count
    decreases |ds|
  {
    if ds != [] {
      var st := PageStep(config, isEventIdentifier, events, cursor, ds[0]);
      PageKeepsCache(config, isEventIdentifier, st.events, st.cursor, ds[1..]);
    }
  }

  /** A cache that covers an event by id or by tuple still covers it once events are added. */
  lemma DuplicateSurvives(a: seq<Event>, b: seq<Event>, x: Event)
    requires multiset(a) <= multiset(b) && IsDuplicate(a, x)
    ensures IsDuplicate(b, x)
  {
    var i :| 0 <= i < |a| && (a[i].id == x.id || SameTuple(a[i], x));
    assert a[i] in multiset(a);
    assert a[i] in multiset(b);
    var j :| 0 <= j < |b| && b[j] == a[i];
  }

  /**
   * After `handleZapEvent` the cache covers the event, by id or by tuple, whether it
   * was accepted or turned away as a duplicate; so does it every event with the same
   * id and tuple.
   */
  lemma HandleResultCovers(cache: seq<Event>, e: Event, x: Event)
    requires x.id == e.id && SameTuple(x, e)
    ensures multiset(cache) <= multiset(HandleResult(cache, e))
    ensures IsDuplicate(HandleResult(cache, e), x)
  {
    var r := HandleResult(cache, e);
    if !IsDuplicate(cache, e) {
      assert e in multiset(r);
      var j :| 0 <= j < |r| && r[j] == e;
    }
  }

  /**
   * Every delivery the page processes ends up in the cache: afterwards some cached
   * event has its id or its (kind, pubkey, content, created_at) tuple. Nothing cached
   * before is lost.
   */
  lemma {:induction false} PageCachesProcessed(config: Option<ViewerConfig>, isEventIdentifier: string -> bool,
                                               events: seq<Event>, cursor: int, ds: seq<Delivery>)
    ensures var r := Page(config, isEventIdentifier, events, cursor, ds);
            && multiset(events) <= multiset(r.events)
            && forall d :: d in PageScan(cursor, ds) ==> IsDuplicate(r.events, d.event)
    decreases |ds|
  {
    if ds != [] {
      var st := PageStep(config, isEventIdentifier, events, cursor, ds[0]);
      PageCachesProcessed(config, isEventIdentifier, st.events, st.cursor, ds[1..]);
      var r := Page(config, isEventIdentifier, events, cursor, ds);
      if ds[0].event.createdAt < cursor {
        var e := ReferenceUpdate(config, isEventIdentifier, ds[0].event, ds[0].fetched).0;
        HandleResultCovers(events, e, ds[0].event);
        DuplicateSurvives(st.events, r.events, ds[0].event);
      }
    }
  }

  /** The view once the page subscription delivered `ds`: the page's cache and cursor, everything else as it was. */
  function PagedState(config: Option<ViewerConfig>, isEventIdentifier: string -> bool,
                      s: ViewState, ds: seq<Delivery>): ViewState
    requires s.lastEventTime.Some?
  {
    var p := Page(config, isEventIdentifier, s.events, s.lastEventTime.value, ds);
    s.(events := p.events, lastEventTime := Some(p.cursor))
  }

  /** Delivering a page is delivering its first event, then the rest from the state that step leaves. */
  lemma PagedStateStep(config: Option<ViewerConfig>, isEventIdentifier: string -> bool,
                       s: ViewState, ds: seq<Delivery>)
    requires s.lastEventTime.Some? && ds != []
    ensures var st := PageStep(config, isEventIdentifier, s.events, s.lastEventTime.value, ds[0]);
            var s1 := s.(events := st.events, lastEventTime := Some(st.cursor));
            && PagedState(config, isEventIdentifier, s, ds) == PagedState(config, isEventIdentifier, s1, ds[1..])
            && Page(config, isEventIdentifier, s.events, s.lastEventTime.value, ds).count
               == Page(config, isEventIdentifier, s1.events, st.cursor, ds[1..]).count + st.count
  {
  }

  /** What one `loadMoreZaps` call does to a view: its new state, its result, whether it re-arms pagination and subscribes. */
  datatype LoadOutcome = LoadOutcome(state: ViewState, count: nat, rearmed: bool, subscribed: bool)

  /**
   * `loadMoreZaps` on a view in state `s`: nothing happens without a configuration,
   * while a load is running, with a falsy cursor, or when the identifier does not
   * decode; otherwise the page is applied and `isLoading` is released.
   */
  function LoadMore(config: Option<ViewerConfig>, isEventIdentifier: string -> bool,
                    s: ViewState, decoded: bool, ds: seq<Delivery>): LoadOutcome
  {
    if config.None? || s.isLoading || CursorFalsy(s.lastEventTime) || !decoded then LoadOutcome(s, 0, false, false)
    else
      var p := Page(config, isEventIdentifier, s.events, s.lastEventTime.value, ds);
      LoadOutcome(PagedState(config, isEventIdentifier, s, ds), p.count, p.count > 0 && ShouldArm(|p.events|), true)
  }

  /** Past the guard, `loadMoreZaps` pages from its state with `isLoading` set, then releases the flag. */
  lemma LoadMoreThroughLoading(config: Option<ViewerConfig>, isEventIdentifier: string -> bool,
                               s: ViewState, ds: seq<Delivery>)
    requires config.Some? && !s.isLoading && !CursorFalsy(s.lastEventTime)
    ensures var p := Page(config, isEventIdentifier, s.events, s.lastEventTime.value, ds);
            LoadMore(config, isEventIdentifier, s, true, ds)
              == LoadOutcome(PagedState(config, isEventIdentifier, s.(isLoading := true), ds).(isLoading := false),
                             p.count, p.count > 0 && ShouldArm(|p.events|), true)
  {
  }

  /**
   * One `loadMoreZaps` call: it subscribes exactly when the guard passes and the
   * identifier decodes; otherwise it changes nothing. It never leaves `isLoading` set,
   * keeps the cache ordered and unique and only adds to it, counts each processed
   * older event and leaves each of them in the cache, moves the cursor back only, and
   * re-arms pagination exactly when it loaded something into a cache that reached the
   * threshold.
   */
  lemma LoadMoreIsSafe(config: Option<ViewerConfig>, isEventIdentifier: string -> bool,
                       s: ViewState, decoded: bool, ds: seq<Delivery>)
    requires WellOrdered(s.events)
    ensures var o := LoadMore(config, isEventIdentifier, s, decoded, ds);
            && (o.subscribed <==> config.Some? && !s.isLoading && !CursorFalsy(s.lastEventTime) && decoded)
            && (!o.subscribed ==> o.state == s && o.count == 0 && !o.rearmed)
            && o.state.isLoading == s.isLoading
            && o.state.isInitialFetchComplete == s.isInitialFetchComplete && o.state.currentStats == s.currentStats
            && WellOrdered(o.state.events) && multiset(s.events) <= multiset(o.state.events)
            && (o.subscribed ==>
                  && o.count == |PageScan(s.lastEventTime.value, ds)|
                  && o.state.lastEventTime.Some? && o.state.lastEventTime.value <= s.lastEventTime.value
                  && (o.count > 0 ==> o.state.lastEventTime.value < s.lastEventTime.value))
            && (o.subscribed ==> forall d :: d in PageScan(s.lastEventTime.value, ds) ==> IsDuplicate(o.state.events, d.event))
            && (o.rearmed <==> o.subscribed && o.count > 0 && |o.state.events| >= INITIAL_LOAD_COUNT)
  {
    if config.Some? && !s.isLoading && !CursorFalsy(s.lastEventTime) && decoded {
      var cursor := s.lastEventTime.value;
      PageFollowsScan(config, isEventIdentifier, s.events, cursor, ds);
      PageCursorDecreases(config, isEventIdentifier, s.events, cursor, ds);
      PageKeepsCache(config, isEventIdentifier, s.events, cursor, ds);
      PageCachesProcessed(config, isEventIdentifier, s.events, cursor, ds);
    }
  }

  // ---------------------------------------------------------------------------
  // The manager
  // ---------------------------------------------------------------------------

  class ZapSubscriptionManager {
    var viewStates: map<string, ViewState>
    var configStore: map<string, ViewerConfig>
    /** The shared relay pool (`poolManager`). */
    const pool: ZapPool.ZapPoolManager
    /** `isEventIdentifier`, the identifier classifier, which is not part of this model. */
    const isEventIdentifier: string -> bool

    /** Every cache is ordered most recent first and holds each event id at most once. */
    ghost predicate Valid()
      reads this`viewStates
    {
      AllWellOrdered(viewStates)
    }

    constructor (pool: ZapPool.ZapPoolManager, isEventIdentifier: string -> bool)
      ensures Valid()
      ensures viewStates == map[] && configStore == map[]
      ensures this.pool == pool && this.isEventIdentifier == isEventIdentifier
    {
      viewStates := map[];
      configStore := map[];
      this.pool := pool;
      this.isEventIdentifier := isEventIdentifier;
    }

    /** `getViewConfig(viewId)` */
    function ViewConfig(viewId: string): Option<ViewerConfig>
      reads this`configStore
    {
      if viewId in configStore then Some(configStore[viewId]) else None
    }

    /** `setViewConfig(viewId, config)` */
    method SetViewConfig(viewId: string, config: ViewerConfig)
      modifies this`configStore
      ensures configStore == old(configStore)[viewId := config]
    {
      configStore := configStore[viewId := config];
    }

    /** `getOrCreateViewState(viewId)`: an existing state is returned untouched; a fresh one only for a new id. */
    method GetOrCreateViewState(viewId: string) returns (state: ViewState)
      requires Valid()
      modifies this`viewStates
      ensures Valid()
      ensures viewId in old(viewStates) ==> viewStates == old(viewStates) && state == old(viewStates)[viewId]
      ensures viewId !in old(viewStates) ==> viewStates == old(viewStates)[viewId := FreshViewState()] && state == FreshViewState()
    {
      if viewId !in viewStates {
        viewStates := viewStates[viewId := FreshViewState()];
      }
      state := viewStates[viewId];
    }

    /** `clearCache(viewId)`: empties the cache and drops the stats; the flags and cursor stay. */
    method ClearCache(viewId: string)
      requires Valid()
      modifies this`viewStates
      ensures Valid()
      ensures viewStates == old(viewStates)[viewId := StateOf(old(viewStates), viewId).(events := [], currentStats := None)]
    {
      var state := GetOrCreateViewState(viewId);
      viewStates := viewStates[viewId := state.(events := [], currentStats := None)];
    }

    /**
     * `handleZapEvent(event, viewId)`: a duplicate (same id, or same kind, author, content
     * and timestamp as a cached event) leaves the cache alone; otherwise the event is
     * spliced in at its place by time. Returns whether it was accepted.
     */
    method HandleZapEvent(event: Event, viewId: string) returns (accepted: bool)
      requires Valid()
      modifies this`viewStates
      ensures Valid()
      ensures var s := StateOf(old(viewStates), viewId);
              && (accepted <==> !IsDuplicate(s.events, event))
              && viewStates == old(viewStates)[viewId := s.(events := HandleResult(s.events, event))]
    {
      var state := GetOrCreateViewState(viewId);
      assert WellOrdered(state.events);
      accepted := !IsDuplicate(state.events, event);
      if accepted {
        var updated := HandleResult(state.events, event);
        viewStates := viewStates[viewId := state.(events := updated)];
      }
    }

    /**
     * The synchronous part of `initializeSubscriptions(config, viewId)`: an identifier
     * that does not decode fails before anything changes; otherwise the view's flags
     * and cursor are reset and a new zap subscription replaces the old one.
     */
    method InitializeSubscriptions(config: ViewerConfig, viewId: string, decoded: bool) returns (r: Result<nat, string>)
      requires Valid() && pool.Valid()
      modifies this`viewStates, pool
      ensures Valid() && pool.Valid()
      ensures !decoded ==> r == Failure(DECODE_FAILED) && viewStates == old(viewStates)
                           && pool.subscriptions == old(pool.subscriptions) && pool.closeLog == old(pool.closeLog)
      ensures decoded ==>
                && r == Success(old(pool.nextHandle))
                && viewStates == old(viewStates)[viewId := StateOf(old(viewStates), viewId).(
                     isInitialFetchComplete := false, lastEventTime := None, isLoading := false)]
                && pool.subscriptions == old(pool.subscriptions)[viewId := old(pool.nextHandle)]
                && !pool.zapClosed[viewId]
    {
      if !decoded {
        return Failure(DECODE_FAILED);
      }
      var state := GetOrCreateViewState(viewId);
      viewStates := viewStates[viewId := state.(isInitialFetchComplete := false, lastEventTime := None, isLoading := false)];
      var handle := pool.SubscribeToZaps(viewId);
      r := Success(handle);
    }

    /**
     * The initial subscription's `onevent`: an event whose id is not cached yet takes its
     * reference, is added at its place by time, and pulls the cursor back to its
     * `created_at` when that is older (or the cursor is falsy).
     */
    method OnInitialEvent(viewId: string, event: Event, fetched: Option<Event>) returns (accepted: bool)
      requires Valid() && viewId in viewStates
      modifies this`viewStates
      ensures Valid()
      ensures accepted <==> !HasId(old(viewStates[viewId]).events, event.id)
      ensures accepted ==> viewStates == old(viewStates)[viewId := InitialAccept(
                old(viewStates[viewId]), ReferenceUpdate(ViewConfig(viewId), isEventIdentifier, event, fetched).0)]
      ensures !accepted ==> viewStates == old(viewStates)
    {
      var state := viewStates[viewId];
      assert WellOrdered(state.events);
      accepted := !HasId(state.events, event.id);
      if accepted {
        var e := ReferenceUpdate(ViewConfig(viewId), isEventIdentifier, event, fetched).0;
        InitialAcceptIsPushThenSort(state, e);
        var events := SortByTimeDesc(state.events + [e]);
        var cursor := state.lastEventTime;
        if CursorFalsy(cursor) || event.createdAt < cursor.value {
          cursor := Some(event.createdAt);
        }
        StoreKeepsWellOrdered(viewStates, viewId, InitialAccept(state, e));
        viewStates := viewStates[viewId := state.(events := events, lastEventTime := cursor)];
      }
    }

    /** The initial subscription's `oneose`: the fetch is complete; show the empty message or arm pagination. */
    method OnInitialEose(viewId: string) returns (outcome: EoseOutcome)
      requires Valid() && viewId in viewStates
      modifies this`viewStates
      ensures Valid()
      ensures viewStates == old(viewStates)[viewId := old(viewStates[viewId]).(isInitialFetchComplete := true)]
      ensures outcome == EoseDecision(|viewStates[viewId].events|)
      ensures outcome == ShowEmpty <==> viewStates[viewId].events == []
    {
      var state := viewStates[viewId];
      viewStates := viewStates[viewId := state.(isInitialFetchComplete := true)];
      if |state.events| == 0 {
        outcome := ShowEmpty;
      } else if |state.events| >= INITIAL_LOAD_COUNT {
        outcome := if ShouldArm(|state.events|) then ArmPagination else Idle;
      } else {
        outcome := Idle;
      }
    }

    /**
     * The page subscription's `onevent`: an event strictly older than the cursor takes
     * its reference, goes through `handleZapEvent` and becomes the cursor.
     */
    method OnPageEvent(viewId: string, d: Delivery) returns (processed: bool)
      requires Valid() && viewId in viewStates && viewStates[viewId].lastEventTime.Some?
      modifies this`viewStates
      ensures Valid()
      ensures var s := old(viewStates[viewId]);
              var st := PageStep(ViewConfig(viewId), isEventIdentifier, s.events, s.lastEventTime.value, d);
              && (processed <==> d.event.createdAt < s.lastEventTime.value)
              && viewStates == old(viewStates)[viewId := s.(events := st.events, lastEventTime := Some(st.cursor))]
    {
      var s := viewStates[viewId];
      processed := d.event.createdAt < s.lastEventTime.value;
      if processed {
        var e := ReferenceUpdate(ViewConfig(viewId), isEventIdentifier, d.event, d.fetched).0;
        var _ := HandleZapEvent(e, viewId);
        var handled := viewStates[viewId];
        assert handled == s.(events := HandleResult(s.events, e));
        StoreKeepsWellOrdered(viewStates, viewId, handled.(lastEventTime := Some(d.event.createdAt)));
        viewStates := viewStates[viewId := handled.(lastEventTime := Some(d.event.createdAt))];
      } else {
        assert s.(events := s.events, lastEventTime := Some(s.lastEventTime.value)) == s;
      }
    }

    /** The page subscription's events, delivered one by one before its end-of-stored-events. */
    method RunPage(viewId: string, deliveries: seq<Delivery>) returns (count: nat)
      requires Valid() && viewId in viewStates && viewStates[viewId].lastEventTime.Some?
      modifies this`viewStates
      ensures Valid()
      ensures var s := old(viewStates[viewId]);
              && count == Page(ViewConfig(viewId), isEventIdentifier, s.events, s.lastEventTime.value, deliveries).count
              && viewStates == old(viewStates)[viewId := PagedState(ViewConfig(viewId), isEventIdentifier, s, deliveries)]
      decreases |deliveries|
    {
      if deliveries == [] {
        assert PagedState(ViewConfig(viewId), isEventIdentifier, viewStates[viewId], []) == viewStates[viewId];
        return 0;
      }
      PagedStateStep(ViewConfig(viewId), isEventIdentifier, viewStates[viewId], deliveries);
      var processed := OnPageEvent(viewId, deliveries[0]);
      var rest := RunPage(viewId, deliveries[1..]);
      count := rest + if processed then 1 else 0;
    }

    /**
     * `loadMoreZaps(viewId)`, given whether the identifier decodes with the cursor and the
     * events the page subscription delivers before its end-of-stored-events. Without a
     * configuration, while loading, or with a falsy cursor it returns 0 and changes
     * nothing (beyond creating the view's state). Otherwise it returns the number of
     * events older than the cursor it processed, leaves `isLoading` false, and says
     * whether `setupInfiniteScroll` re-arms pagination.
     */
    method LoadMoreZaps(viewId: string, decoded: bool, deliveries: seq<Delivery>) returns (count: nat, rearmed: bool)
      requires Valid() && pool.Valid()
      modifies this`viewStates, pool
      ensures Valid() && pool.Valid()
      ensures var o := LoadMore(ViewConfig(viewId), isEventIdentifier, StateOf(old(viewStates), viewId), decoded, deliveries);
              && count == o.count && rearmed == o.rearmed
              && viewStates == old(viewStates)[viewId := o.state]
              && pool.subscriptions == if o.subscribed then old(pool.subscriptions)[viewId := old(pool.nextHandle)]
                                       else old(pool.subscriptions)
    {
      var state := GetOrCreateViewState(viewId);
      if ViewConfig(viewId).None? || state.isLoading || CursorFalsy(state.lastEventTime) {
        return 0, false;
      }
      count, rearmed := LoadOlder(viewId, decoded, deliveries);
    }

    /** The body of `loadMoreZaps` past its guard: `isLoading` is set, and released in the `finally`. */
    method LoadOlder(viewId: string, decoded: bool, deliveries: seq<Delivery>) returns (count: nat, rearmed: bool)
      requires Valid() && pool.Valid() && viewId in viewStates
      requires ViewConfig(viewId).Some? && !viewStates[viewId].isLoading && !CursorFalsy(viewStates[viewId].lastEventTime)
      modifies this`viewStates, pool
      ensures Valid() && pool.Valid()
      ensures var o := LoadMore(ViewConfig(viewId), isEventIdentifier, old(viewStates[viewId]), decoded, deliveries);
              && count == o.count && rearmed == o.rearmed
              && viewStates == old(viewStates)[viewId := o.state]
              && pool.subscriptions == if o.subscribed then old(pool.subscriptions)[viewId := old(pool.nextHandle)]
                                       else old(pool.subscriptions)
    {
      var state := viewStates[viewId];
      viewStates := viewStates[viewId := state.(isLoading := true)];
      if !decoded {
        viewStates := viewStates[viewId := state];
        return 0, false;
      }
      LoadMoreThroughLoading(ViewConfig(viewId), isEventIdentifier, state, deliveries);
      var _ := pool.SubscribeToZaps(viewId);
      count, rearmed := FetchPage(viewId, deliveries);
    }

    /** Takes the page subscription's events and releases `isLoading`. */
    method FetchPage(viewId: string, deliveries: seq<Delivery>) returns (count: nat, rearmed: bool)
      requires Valid() && viewId in viewStates && viewStates[viewId].lastEventTime.Some?
      modifies this`viewStates
      ensures Valid()
      ensures var s := old(viewStates[viewId]);
              var p := Page(ViewConfig(viewId), isEventIdentifier, s.events, s.lastEventTime.value, deliveries);
              && count == p.count && rearmed == (p.count > 0 && ShouldArm(|p.events|))
              && viewStates == old(viewStates)[viewId := PagedState(ViewConfig(viewId), isEventIdentifier, s, deliveries).(isLoading := false)]
    {
      count := RunPage(viewId, deliveries);
      var paged := viewStates[viewId];
      rearmed := count > 0 && ShouldArm(|paged.events|);
      viewStates := viewStates[viewId := paged.(isLoading := false)];
    }
  }
}
