/**
 * The profile pool: kind-0 profiles cached per public key with a thirty-minute
 * freshness window, one canonical "anonymous" profile for every failed fetch, and
 * the NIP-05 verification cache with its single-flight pending table.
 */
module Profiles {
  import opened Wrappers
  import AppSettings

  /** The members of a profile's JSON content, as name/value strings. */
  type ProfileContent = map<string, string>

  /**
   * A cached profile: the content's members, plus `_lastUpdated` and
   * `_eventCreatedAt`, which only a successfully fetched profile carries.
   */
  datatype Profile = Profile(fields: map<string, string>, lastUpdated: Option<int>, eventCreatedAt: Option<int>)

  /** The age in milliseconds below which a cached profile is served without fetching (30 minutes). */
  const FRESHNESS_MS: int := 1800000

  /** The profile every failed fetch yields: name and display name "anonymous", and no stamps. */
  function DefaultProfile(): Profile
  {
    Profile(map["name" := "anonymous", "display_name" := "anonymous"], None, None)
  }

  /**
   * A cached profile is served without fetching when it carries a non-zero fetch stamp
   * that is less than 30 minutes old (a zero stamp is falsy).
   */
  predicate IsFresh(p: Profile, now: int)
  {
    p.lastUpdated.Some? && p.lastUpdated.value != 0 && now - p.lastUpdated.value < FRESHNESS_MS
  }

  /** The cache holds a fresh profile for `key`. */
  predicate FreshIn(cache: map<string, Profile>, key: string, now: int)
  {
    key in cache && IsFresh(cache[key], now)
  }

  /** The default profile carries no `_lastUpdated`, so it is never fresh. */
  lemma DefaultNeverFresh(now: int)
    ensures !IsFresh(DefaultProfile(), now)
    ensures DefaultProfile().fields["name"] == "anonymous" && DefaultProfile().fields["display_name"] == "anonymous"
  {
  }

  /**
   * How the fetch of one queued key settled: no event, an event whose content
   * `JSON.parse` rejected, an event with parsed content, or a rejected promise.
   */
  datatype ProfileFetch = NoEvent | Unparsable | Parsed(content: ProfileContent, createdAt: int) | Rejected

  /** The stored name: the display name the content yields, or "nameless" when that is empty. */
  function NameOrNameless(displayName: string): (name: string)
    ensures name != ""
    ensures displayName != "" ==> name == displayName
  {
    if displayName != "" then displayName else "nameless"
  }

  /** The profile a settled fetch yields: parsed content stamped with `now`, else the default. */
  function ResolveProfile(f: ProfileFetch, now: int, displayNameOf: ProfileContent -> string): (p: Profile)
    ensures !f.Parsed? ==> p == DefaultProfile()
    ensures f.Parsed? ==>
              && p.lastUpdated == Some(now) && p.eventCreatedAt == Some(f.createdAt)
              && "name" in p.fields && p.fields["name"] == NameOrNameless(displayNameOf(f.content))
              && forall k :: k in f.content && k != "name" && k !in {"_lastUpdated", "_eventCreatedAt"} ==>
                               k in p.fields && p.fields[k] == f.content[k]
  {
    match f
    case Parsed(content, createdAt) =>
      var members := content - {"_lastUpdated", "_eventCreatedAt"};
      Profile(members["name" := NameOrNameless(displayNameOf(content))], Some(now), Some(createdAt))
    case _ => DefaultProfile()
  }

  /** A resolved profile is fresh later exactly when it was parsed, stamped non-zero, and is under 30 minutes old. */
  lemma ResolvedFreshness(f: ProfileFetch, now: int, later: int, displayNameOf: ProfileContent -> string)
    ensures IsFresh(ResolveProfile(f, now, displayNameOf), later) <==> f.Parsed? && now != 0 && later - now < FRESHNESS_MS
  {
    if !f.Parsed? {
      DefaultNeverFresh(later);
    }
  }

  /** What `results[i]` is for key `key`: the fresh cached profile, otherwise what its fetch yields. */
  function ProfileFor(cache: map<string, Profile>, key: string, now: int, reply: string -> ProfileFetch,
                      displayNameOf: ProfileContent -> string): Profile
  {
    if FreshIn(cache, key, now) then cache[key] else ResolveProfile(reply(key), now, displayNameOf)
  }

  /** The indices among the first `n` keys whose cached profile is not fresh, in input order: the fetch queue. */
  function StaleIndices(cache: map<string, Profile>, keys: seq<string>, now: int, n: nat): (q: seq<nat>)
    requires n <= |keys|
    ensures forall j :: 0 <= j < |q| ==> q[j] < n && !FreshIn(cache, keys[q[j]], now)
    ensures forall i :: 0 <= i < n && !FreshIn(cache, keys[i], now) ==> i in q
    ensures forall j, j' :: 0 <= j < j' < |q| ==> q[j] < q[j']
  {
    if n == 0 then []
    else
      var q := StaleIndices(cache, keys, now, n - 1);
      if FreshIn(cache, keys[n - 1], now) then q else q + [n - 1]
  }

  /** The keys at the given indices. */
  function KeysAt(keys: seq<string>, q: seq<nat>): (r: seq<string>)
    requires forall j :: 0 <= j < |q| ==> q[j] < |keys|
    ensures |r| == |q|
    ensures forall j :: 0 <= j < |q| ==> r[j] == keys[q[j]]
  {
    seq(|q|, j requires 0 <= j < |q| => keys[q[j]])
  }

  /** The keys of the input whose cached profile is not fresh. */
  function StaleKeys(cache: map<string, Profile>, keys: seq<string>, now: int): set<string>
  {
    set i | 0 <= i < |keys| && !FreshIn(cache, keys[i], now) :: keys[i]
  }

  /** The profiles the fetch writes back, one per fetched key. */
  function FetchedMap(ks: set<string>, now: int, reply: string -> ProfileFetch,
                      displayNameOf: ProfileContent -> string): map<string, Profile>
  {
    map k | k in ks :: ResolveProfile(reply(k), now, displayNameOf)
  }

  /** The profile cache after `fetchProfiles(keys)`. */
  function CacheAfterFetch(cache: map<string, Profile>, keys: seq<string>, now: int, reply: string -> ProfileFetch,
                           displayNameOf: ProfileContent -> string): map<string, Profile>
  {
    cache + FetchedMap(StaleKeys(cache, keys, now), now, reply, displayNameOf)
  }

  /**
   * The cache after a fetch: every requested key is present; a fresh entry is not rewritten;
   * every stale key holds what its fetch yielded, default profiles included; other keys are untouched.
   */
  lemma CacheAfterFetchEntries(cache: map<string, Profile>, keys: seq<string>, now: int, reply: string -> ProfileFetch,
                               displayNameOf: ProfileContent -> string)
    ensures var r := CacheAfterFetch(cache, keys, now, reply, displayNameOf);
            forall k :: k in r <==> k in cache || k in keys
    ensures var r := CacheAfterFetch(cache, keys, now, reply, displayNameOf);
            forall k :: k in r && (k !in keys || FreshIn(cache, k, now)) ==> r[k] == cache[k]
    ensures var r := CacheAfterFetch(cache, keys, now, reply, displayNameOf);
            forall k :: k in keys && !FreshIn(cache, k, now) ==> r[k] == ResolveProfile(reply(k), now, displayNameOf)
  {
    var stale := StaleKeys(cache, keys, now);
    forall k | k in keys
      ensures k in stale || FreshIn(cache, k, now)
    {
      var i :| 0 <= i < |keys| && keys[i] == k;
      assert !FreshIn(cache, keys[i], now) ==> keys[i] in stale;
    }
  }

  /**
   * A key whose fetch failed is cached with the default profile and therefore fetched again
   * on every later call, while a parsed profile is served from the cache for the next 30 minutes.
   */
  lemma RefetchAfterFetch(cache: map<string, Profile>, keys: seq<string>, now: int, later: int,
                          reply: string -> ProfileFetch, displayNameOf: ProfileContent -> string, k: string)
    requires k in keys && !FreshIn(cache, k, now)
    ensures FreshIn(CacheAfterFetch(cache, keys, now, reply, displayNameOf), k, later) <==>
              reply(k).Parsed? && now != 0 && later - now < FRESHNESS_MS
  {
    CacheAfterFetchEntries(cache, keys, now, reply, displayNameOf);
    ResolvedFreshness(reply(k), now, later, displayNameOf);
  }

  /** A key is queued for fetching exactly when it is requested and its cached profile is not fresh. */
  lemma QueuedKeysAreStale(cache: map<string, Profile>, keys: seq<string>, now: int)
    ensures forall k :: k in KeysAt(keys, StaleIndices(cache, keys, now, |keys|)) <==> k in keys && !FreshIn(cache, k, now)
  {
    var q := StaleIndices(cache, keys, now, |keys|);
    var r := KeysAt(keys, q);
    forall k | k in keys && !FreshIn(cache, k, now)
      ensures k in r
    {
      var i :| 0 <= i < |keys| && keys[i] == k;
      var j :| 0 <= j < |q| && q[j] == i;
      assert r[j] == k;
    }
  }

  /** A map that agrees with the cache-after-fetch entry by entry is that map. */
  lemma CacheAfterFetchUnique(m: map<string, Profile>, cache: map<string, Profile>, keys: seq<string>, now: int,
                              reply: string -> ProfileFetch, displayNameOf: ProfileContent -> string)
    requires forall k :: k in m <==> k in cache || (k in keys && !FreshIn(cache, k, now))
    requires forall k :: k in m ==>
               m[k] == if k in keys && !FreshIn(cache, k, now) then ResolveProfile(reply(k), now, displayNameOf) else cache[k]
    ensures m == CacheAfterFetch(cache, keys, now, reply, displayNameOf)
  {
    var r := CacheAfterFetch(cache, keys, now, reply, displayNameOf);
    CacheAfterFetchEntries(cache, keys, now, reply, displayNameOf);
    forall k | k in keys && !FreshIn(cache, k, now)
      ensures k in StaleKeys(cache, keys, now)
    {
      var i :| 0 <= i < |keys| && keys[i] == k;
    }
    assert m.Keys == r.Keys;
  }

  /** The cache after writing back the fetched profiles of `ks`, one after the other. */
  function Stored(cache: map<string, Profile>, ks: seq<string>, now: int, reply: string -> ProfileFetch,
                  displayNameOf: ProfileContent -> string): map<string, Profile>
  {
    if ks == [] then cache
    else Stored(cache, ks[..|ks| - 1], now, reply, displayNameOf)[ks[|ks| - 1] := ResolveProfile(reply(ks[|ks| - 1]), now, displayNameOf)]
  }

  /** Writing back `ks` adds exactly those keys, each with what its fetch yielded. */
  lemma {:induction false} StoredEntries(cache: map<string, Profile>, ks: seq<string>, now: int,
                                         reply: string -> ProfileFetch, displayNameOf: ProfileContent -> string)
    ensures forall k :: k in Stored(cache, ks, now, reply, displayNameOf) <==> k in cache || k in ks
    ensures forall k :: k in Stored(cache, ks, now, reply, displayNameOf) ==>
              Stored(cache, ks, now, reply, displayNameOf)[k] ==
                if k in ks then ResolveProfile(reply(k), now, displayNameOf) else cache[k]
  {
    if ks != [] {
      StoredEntries(cache, ks[..|ks| - 1], now, reply, displayNameOf);
      assert ks == ks[..|ks| - 1] + [ks[|ks| - 1]];
    }
  }

  /** Writing back the queued keys one by one yields the cache-after-fetch. */
  lemma StoredIsCacheAfterFetch(cache: map<string, Profile>, keys: seq<string>, ks: seq<string>, now: int,
                                 reply: string -> ProfileFetch, displayNameOf: ProfileContent -> string)
    requires forall k :: k in ks <==> k in keys && !FreshIn(cache, k, now)
    ensures Stored(cache, ks, now, reply, displayNameOf) == CacheAfterFetch(cache, keys, now, reply, displayNameOf)
  {
    StoredEntries(cache, ks, now, reply, displayNameOf);
    CacheAfterFetchUnique(Stored(cache, ks, now, reply, displayNameOf), cache, keys, now, reply, displayNameOf);
  }

  // ---------------------------------------------------------------------------
  // NIP-05
  // ---------------------------------------------------------------------------

  /** The profile's NIP-05 address, when it has a non-empty one. */
  function Nip05Of(p: Profile): (r: Option<string>)
    ensures r.Some? <==> "nip05" in p.fields && p.fields["nip05"] != ""
    ensures r.Some? ==> r.value == p.fields["nip05"]
  {
    if "nip05" in p.fields && p.fields["nip05"] != "" then Some(p.fields["nip05"]) else None
  }

  /** The formatting of a verified address: a leading underscore before `@` is dropped. */
  function StripUnderscore(s: string): (r: string)
    ensures |s| >= 2 && s[..2] == "_@" ==> s == "_" + r
    ensures !(|s| >= 2 && s[..2] == "_@") ==> r == s
    ensures !(|r| >= 2 && r[..2] == "_@")
  {
    if |s| >= 2 && s[..2] == "_@" then
      assert s[1..][0] == '@';
      s[1..]
    else s
  }

  /** Formatting a formatted address again changes nothing. */
  lemma StripUnderscoreIdempotent(s: string)
    ensures StripUnderscore(StripUnderscore(s)) == StripUnderscore(s)
  {
  }

  /** How `verifyNip05` settled: a value (`None` for null), or an error or the 5-second timeout. */
  datatype VerifyOutcome = Verified(value: Option<string>) | Failed

  /** The value `#processNip05Verification` caches and returns, given the profile's address and the verdict. */
  function Nip05Result(address: Option<string>, verdict: VerifyOutcome, escape: string -> string): (r: Option<string>)
    ensures r.Some? <==> address.Some? && verdict.Verified? && verdict.value.Some? && verdict.value.value != ""
    ensures r.Some? ==> r.value == escape(StripUnderscore(verdict.value.value))
  {
    if address.None? then None
    else match verdict
      case Failed => None
      case Verified(v) =>
        if v.None? || v.value == "" then None else Some(escape(StripUnderscore(v.value)))
  }

  /**
   * The address verified for a fetched profile is the `nip05` member of its kind-0
   * content, when that is non-empty; a profile that fell back to the default has none.
   */
  lemma ResolvedNip05IsContentNip05(f: ProfileFetch, now: int, displayNameOf: ProfileContent -> string)
    ensures f.Parsed? ==> Nip05Of(ResolveProfile(f, now, displayNameOf))
                            == if "nip05" in f.content && f.content["nip05"] != "" then Some(f.content["nip05"]) else None
    ensures !f.Parsed? ==> Nip05Of(ResolveProfile(f, now, displayNameOf)) == None
  {
    if f.Parsed? {
      assert "nip05" != "name" && "nip05" !in {"_lastUpdated", "_eventCreatedAt"};
    } else {
      assert "nip05" !in DefaultProfile().fields;
    }
  }

  /** A profile whose fetch failed is the default, which has no address, so null is cached whatever the verdict. */
  lemma FailedProfileCachesNull(verdict: VerifyOutcome, escape: string -> string)
    ensures Nip05Result(Nip05Of(DefaultProfile()), verdict, escape) == None
  {
    assert "nip05" !in DefaultProfile().fields;
  }

  /** What `verifyNip05Async` hands back: the cached value, the pending fetch, or a fetch it has just started. */
  datatype Nip05Answer = Cached(value: Option<string>) | JoinedPending | Started

  /**
   * The relay list handed to the profile processor: the configured list when there is
   * one (an array, even an empty one, is truthy), otherwise no relays.
   */
  function ProfileRelays(configured: Option<seq<string>>): seq<string>
  {
    if configured.Some? then configured.value else []
  }

  /**
   * The pool. The profile cache, the NIP-05 cache (`None` standing for a cached null)
   * and the pending NIP-05 fetches are fields; `fetchRequests` records, in order, the
   * keys handed to the profile processor.
   */
  class ProfilePool {
    var profiles: map<string, Profile>
    var nip05: map<string, Option<string>>
    var nip05Pending: set<string>
    var fetchRequests: seq<string>
    var isInitialized: bool
    const relays: seq<string>
    /** `getProfileDisplayName` */
    const displayNameOf: ProfileContent -> string
    /** `escapeHTML` */
    const escape: string -> string

    /** A key is never both cached and pending: a fetch starts only for an uncached key and ends by caching it. */
    predicate Valid()
      reads this`nip05, this`nip05Pending
    {
      forall k :: k in nip05Pending ==> k !in nip05
    }

    constructor (displayNameOf: ProfileContent -> string, escape: string -> string)
      ensures Valid()
      ensures profiles == map[] && nip05 == map[] && nip05Pending == {} && fetchRequests == []
      ensures !isInitialized && relays == AppSettings.PROFILE_RELAYS
      ensures this.displayNameOf == displayNameOf && this.escape == escape
    {
      profiles := map[];
      nip05 := map[];
      nip05Pending := {};
      fetchRequests := [];
      isInitialized := false;
      relays := ProfileRelays(Some(AppSettings.PROFILE_RELAYS));
      this.displayNameOf := displayNameOf;
      this.escape := escape;
    }

    /**
     * `fetchProfiles(pubkeys)` at time `now`; `reply(k)` is how the fetch of `k` settles
     * (one shared fetch per key, as the processor hands out one promise per key).
     */
    method FetchProfiles(pubkeys: seq<string>, now: int, reply: string -> ProfileFetch) returns (results: seq<Profile>)
      modifies this`profiles, this`fetchRequests
      ensures |results| == |pubkeys|
      ensures forall i :: 0 <= i < |pubkeys| ==> results[i] == ProfileFor(old(profiles), pubkeys[i], now, reply, displayNameOf)
      ensures fetchRequests == old(fetchRequests) + KeysAt(pubkeys, StaleIndices(old(profiles), pubkeys, now, |pubkeys|))
      ensures profiles == CacheAfterFetch(old(profiles), pubkeys, now, reply, displayNameOf)
    {
      if |pubkeys| == 0 {
        assert StaleKeys(profiles, pubkeys, now) == {};
        assert profiles + FetchedMap({}, now, reply, displayNameOf) == profiles;
        return [];
      }
      var arr := new Profile[|pubkeys|](_ => DefaultProfile());
      var queue := ServeCached(profiles, pubkeys, now, arr);
      var requested := KeysAt(pubkeys, queue);
      QueuedKeysAreStale(profiles, pubkeys, now);
      fetchRequests := fetchRequests + requested;
      var fetched := seq(|queue|, j requires 0 <= j < |queue| => ResolveProfile(reply(requested[j]), now, displayNameOf));
      ghost var cache := profiles;
      StoreFetched(pubkeys, now, reply, queue, requested, fetched, arr);
      results := arr[..];
      StoredIsCacheAfterFetch(cache, pubkeys, requested, now, reply, displayNameOf);
    }

    /** The first loop of `fetchProfiles`: fresh cached profiles go straight into `results`, the rest into the queue. */
    static method ServeCached(cache: map<string, Profile>, pubkeys: seq<string>, now: int, arr: array<Profile>)
      returns (queue: seq<nat>)
      requires arr.Length == |pubkeys|
      modifies arr
      ensures queue == StaleIndices(cache, pubkeys, now, |pubkeys|)
      ensures forall i :: 0 <= i < |pubkeys| && FreshIn(cache, pubkeys[i], now) ==> arr[i] == cache[pubkeys[i]]
    {
      queue := [];
      for i := 0 to |pubkeys|
        invariant queue == StaleIndices(cache, pubkeys, now, i)
        invariant forall j :: 0 <= j < i && FreshIn(cache, pubkeys[j], now) ==> arr[j] == cache[pubkeys[j]]
      {
        if FreshIn(cache, pubkeys[i], now) {
          arr[i] := cache[pubkeys[i]];
        } else {
          queue := queue + [i];
        }
      }
    }

    /** The write-back of `fetchProfiles`: each fetched profile goes to its result slot and into the cache. */
    method StoreFetched(pubkeys: seq<string>, now: int, reply: string -> ProfileFetch, queue: seq<nat>,
                        requested: seq<string>, fetched: seq<Profile>, arr: array<Profile>)
      requires arr.Length == |pubkeys| && |requested| == |queue| && |fetched| == |queue|
      requires forall j :: 0 <= j < |queue| ==> queue[j] < |pubkeys| && requested[j] == pubkeys[queue[j]]
      requires forall j :: 0 <= j < |queue| ==> fetched[j] == ResolveProfile(reply(requested[j]), now, displayNameOf)
      modifies this`profiles, arr
      ensures forall i :: 0 <= i < arr.Length ==>
                arr[i] == if i in queue then ResolveProfile(reply(pubkeys[i]), now, displayNameOf) else old(arr[i])
      ensures profiles == Stored(old(profiles), requested, now, reply, displayNameOf)
    {
      ghost var cache := profiles;
      for j := 0 to |queue|
        invariant forall i :: 0 <= i < arr.Length ==>
                    arr[i] == if i in queue[..j] then ResolveProfile(reply(pubkeys[i]), now, displayNameOf) else old(arr[i])
        invariant profiles == Stored(cache, requested[..j], now, reply, displayNameOf)
      {
        arr[queue[j]] := fetched[j];
        profiles := profiles[requested[j] := fetched[j]];
        assert queue[..j + 1] == queue[..j] + [queue[j]];
        assert requested[..j + 1][..j] == requested[..j];
      }
      assert queue[..|queue|] == queue;
      assert requested[..|queue|] == requested;
    }

    /** `verifyNip05Async(pubkey)`: the cached value if any, else the pending fetch, else a new pending fetch. */
    method VerifyNip05Async(pubkey: string) returns (a: Nip05Answer)
      requires Valid()
      modifies this`nip05Pending
      ensures Valid()
      ensures pubkey in nip05 ==> a == Cached(nip05[pubkey]) && nip05Pending == old(nip05Pending)
      ensures pubkey !in nip05 && pubkey in old(nip05Pending) ==> a == JoinedPending && nip05Pending == old(nip05Pending)
      ensures pubkey !in nip05 && pubkey !in old(nip05Pending) ==> a == Started && nip05Pending == old(nip05Pending) + {pubkey}
    {
      if pubkey in nip05 {
        return Cached(nip05[pubkey]);
      }
      if pubkey in nip05Pending {
        return JoinedPending;
      }
      nip05Pending := nip05Pending + {pubkey};
      a := Started;
    }

    /**
     * `#processNip05Verification(pubkey)`: fetch the profile, verify its address
     * (`verdict` is how `verifyNip05` or its timeout settled), cache and return the
     * formatted address or null, and drop the pending entry on every path.
     */
    method ProcessNip05Verification(pubkey: string, now: int, reply: string -> ProfileFetch, verdict: VerifyOutcome)
      returns (r: Option<string>)
      requires Valid()
      modifies this`profiles, this`fetchRequests, this`nip05, this`nip05Pending
      ensures Valid()
      ensures r == Nip05Result(Nip05Of(ProfileFor(old(profiles), pubkey, now, reply, displayNameOf)), verdict, escape)
      ensures nip05 == old(nip05)[pubkey := r]
      ensures nip05Pending == old(nip05Pending) - {pubkey}
      ensures profiles == CacheAfterFetch(old(profiles), [pubkey], now, reply, displayNameOf)
      ensures fetchRequests == old(fetchRequests) + KeysAt([pubkey], StaleIndices(old(profiles), [pubkey], now, 1))
    {
      var fetched := FetchProfiles([pubkey], now, reply);
      var profile := fetched[0];
      var address := Nip05Of(profile);
      if address.None? {
        r := None;
      } else if verdict.Failed? {
        r := None;
      } else if verdict.value.None? || verdict.value.value == "" {
        r := None;
      } else {
        r := Some(escape(StripUnderscore(verdict.value.value)));
      }
      nip05 := nip05[pubkey := r];
      nip05Pending := nip05Pending - {pubkey};
    }
  }

  /** The class-level `ProfilePool.instance`, and the constructor that fills it once. */
  class ProfilePoolSingleton {
    var instance: ProfilePool?

    constructor ()
      ensures instance == null
    {
      instance := null;
    }

    /**
     * `new ProfilePool()`: the existing instance when there is one; otherwise a new pool,
     * unless the relay pool has no `ensureRelay`, which throws and leaves no instance.
     */
    method Construct(poolHasEnsureRelay: bool, displayNameOf: ProfileContent -> string, escape: string -> string)
      returns (r: Result<ProfilePool, string>)
      modifies this
      ensures old(instance) != null ==> r == Success(old(instance)) && instance == old(instance)
      ensures old(instance) == null && !poolHasEnsureRelay ==> r == Failure(POOL_INIT_FAILED) && instance == null
      ensures old(instance) == null && poolHasEnsureRelay ==>
                && r.Success? && fresh(r.value) && instance == r.value && r.value.Valid()
                && r.value.profiles == map[] && r.value.nip05 == map[] && r.value.nip05Pending == {}
                && !r.value.isInitialized && r.value.relays == AppSettings.PROFILE_RELAYS
    {
      if instance != null {
        return Success(instance);
      }
      if !poolHasEnsureRelay {
        return Failure(POOL_INIT_FAILED);
      }
      var p := new ProfilePool(displayNameOf, escape);
      instance := p;
      r := Success(p);
    }
  }

  /** The message thrown when the relay pool lacks `ensureRelay`. */
  const POOL_INIT_FAILED: string := "Failed to initialize SimplePool"
}
