/**
 * The computations of the zap dialog: the amount tier of a zap, the colour-mode
 * attribute, the sats amount read back from its display text, the order and number
 * of zaps rendered, the public keys whose profiles are prefetched, the stats
 * arithmetic, and the dialog's own attribute state.
 */
module UIManager {
  import opened Wrappers
  import opened AppSettings
  import opened ZapEvents
  import ZapManager
  import Profiles

  /** APP_CONFIG.DEFAULT_OPTIONS.theme */
  const DEFAULT_THEME: string := "light"

  /** APP_CONFIG.DEFAULT_OPTIONS.colorMode */
  const DEFAULT_OPTIONS_COLOR_MODE: bool := true

  // ---------------------------------------------------------------------------
  // Colour mode and amount tiers
  // ---------------------------------------------------------------------------

  /**
   * `#isColorModeEnabled()`, given the colour-mode attribute of the first button
   * with an identifier (`None` when there is no button or no attribute).
   */
  function IsColorModeEnabled(attr: Option<string>): (enabled: bool)
    ensures attr == Some("true") ==> enabled
    ensures attr == Some("false") ==> !enabled
    ensures attr != Some("true") && attr != Some("false") ==> enabled == DEFAULT_OPTIONS_COLOR_MODE
  {
    if attr.None? || attr.value == "" || attr.value !in ["true", "false"] then DEFAULT_OPTIONS_COLOR_MODE
    else attr.value == "true"
  }

  /**
   * The dialog's parse and `ViewerConfig.determineColorMode` read the same attribute
   * alike exactly when it is some spelling of "true" or exactly "false"; on anything
   * else ("FALSE", "yes", the empty string) the dialog falls back to colour mode on
   * while the configuration turns it off.
   */
  lemma ColorModeParsersAgreement(s: string)
    ensures IsColorModeEnabled(Some(s)) == DetermineColorMode(Some(Button(map[COLOR_MODE_ATTRIBUTE := s])))
            <==> SpellsTrue(s) || s == "false"
  {
    var b := Button(map[COLOR_MODE_ATTRIBUTE := s]);
    assert b.GetAttribute(COLOR_MODE_ATTRIBUTE) == Some(s);
    assert SpellsTrue("true");
  }

  /** The chain of `amount >=` tests of `#getAmountColorClass` with colour mode on. */
  function TierClass(amount: int): string
  {
    if amount >= 10000 then "zap-amount-10k"
    else if amount >= 5000 then "zap-amount-5k"
    else if amount >= 2000 then "zap-amount-2k"
    else if amount >= 1000 then "zap-amount-1k"
    else if amount >= 500 then "zap-amount-500"
    else if amount >= 200 then "zap-amount-200"
    else if amount >= 100 then "zap-amount-100"
    else ""
  }

  /** `#getAmountColorClass(amount)`; `None` is `NaN`, which every comparison rejects. */
  function AmountColorClass(colorModeAttr: Option<string>, amount: Option<int>): (c: string)
    ensures !IsColorModeEnabled(colorModeAttr) ==> c == DISABLED_CLASS
    ensures amount.None? ==> c == DISABLED_CLASS
    ensures IsColorModeEnabled(colorModeAttr) && amount.Some? ==> c == TierClass(amount.value)
  {
    if !IsColorModeEnabled(colorModeAttr) then ""
    else if amount.None? then ""
    else TierClass(amount.value)
  }

  /**
   * The tier is the class of the largest threshold of the configured table that the
   * amount reaches, and no class below the smallest threshold.
   */
  lemma TierIsLargestThresholdReached(amount: int)
    ensures TierClass(amount) == DISABLED_CLASS <==> amount < THRESHOLDS[|THRESHOLDS| - 1].value
    ensures forall i :: 0 <= i < |THRESHOLDS| ==>
              (TierClass(amount) == THRESHOLDS[i].className <==>
                 THRESHOLDS[i].value <= amount && (i == 0 || amount < THRESHOLDS[i - 1].value))
  {
    ThresholdsWellFormed();
    forall i | 0 <= i < |THRESHOLDS|
      ensures TierClass(amount) == THRESHOLDS[i].className <==>
                THRESHOLDS[i].value <= amount && (i == 0 || amount < THRESHOLDS[i - 1].value)
    {
      if i == 0 {} else if i == 1 {} else if i == 2 {} else if i == 3 {} else if i == 4 {} else if i == 5 {} else {}
    }
  }

  /** The position of a tier class among the tiers, 0 for no class. */
  function TierRank(c: string): nat
  {
    if c == "zap-amount-10k" then 7
    else if c == "zap-amount-5k" then 6
    else if c == "zap-amount-2k" then 5
    else if c == "zap-amount-1k" then 4
    else if c == "zap-amount-500" then 3
    else if c == "zap-amount-200" then 2
    else if c == "zap-amount-100" then 1
    else 0
  }

  /** A larger amount never gets a lower tier. */
  lemma TierMonotone(a: int, b: int)
    requires a <= b
    ensures TierRank(TierClass(a)) <= TierRank(TierClass(b))
  {
  }

  // ---------------------------------------------------------------------------
  // Reading the sats amount back from its display text
  // ---------------------------------------------------------------------------

  predicate IsDigit(c: char)
  {
    '0' <= c <= '9'
  }

  /** The white space `parseInt` skips before the number (the ASCII part, see README). */
  predicate IsSpace(c: char)
  {
    c == ' ' || c == '\t' || c == '\n' || c == '\r' || c == 11 as char || c == 12 as char
  }

  function DigitValue(c: char): nat
    requires IsDigit(c)
  {
    c as int - '0' as int
  }

  function DigitChar(d: nat): (c: char)
    requires d < 10
    ensures IsDigit(c) && DigitValue(c) == d
  {
    ('0' as int + d) as char
  }

  /** `s` without its leading white space. */
  function SkipSpace(s: string): (r: string)
    ensures |r| <= |s| && r == s[|s| - |r|..]
    ensures forall i :: 0 <= i < |s| - |r| ==> IsSpace(s[i])
    ensures r == [] || !IsSpace(r[0])
  {
    if s != [] && IsSpace(s[0]) then SkipSpace(s[1..]) else s
  }

  /** The longest prefix of `s` made of decimal digits. */
  function LeadingDigits(s: string): (r: string)
    ensures |r| <= |s| && r == s[..|r|]
    ensures forall i :: 0 <= i < |r| ==> IsDigit(r[i])
    ensures |r| == |s| || !IsDigit(s[|r|])
  {
    if s != [] && IsDigit(s[0]) then [s[0]] + LeadingDigits(s[1..]) else []
  }

  /** The value of a decimal numeral. */
  function DigitsValue(ds: string): nat
    requires forall i :: 0 <= i < |ds| ==> IsDigit(ds[i])
  {
    if ds == [] then 0 else DigitsValue(ds[..|ds| - 1]) * 10 + DigitValue(ds[|ds| - 1])
  }

  /** The value of the leading digits of `s`, `None` when there are none. */
  function ParseDigits(s: string): Option<nat>
  {
    var ds := LeadingDigits(s);
    if ds == [] then None else Some(DigitsValue(ds))
  }

  /** An optional sign, then digits. */
  function ParseSigned(t: string): Option<int>
  {
    if t != [] && t[0] == '-' then
      match ParseDigits(t[1..])
      case None => None
      case Some(m) => Some(0 - m)
    else if t != [] && t[0] == '+' then
      match ParseDigits(t[1..])
      case None => None
      case Some(m) => Some(m)
    else
      match ParseDigits(t)
      case None => None
      case Some(m) => Some(m)
  }

  /** `parseInt(s, 10)`: leading white space skipped, then a sign and digits; `None` is `NaN`. */
  function ParseInt(s: string): Option<int>
  {
    ParseSigned(SkipSpace(s))
  }

  /** The decimal numeral of a natural number. */
  function NatToString(n: nat): (s: string)
    ensures s != [] && forall i :: 0 <= i < |s| ==> IsDigit(s[i])
  {
    if n < 10 then [DigitChar(n)] else NatToString(n / 10) + [DigitChar(n % 10)]
  }

  lemma {:induction false} NatToStringValue(n: nat)
    ensures DigitsValue(NatToString(n)) == n
  {
    var s := NatToString(n);
    if n >= 10 {
      NatToStringValue(n / 10);
      assert s[..|s| - 1] == NatToString(n / 10);
    }
  }

  /** A string of digits is its own longest digit prefix. */
  lemma {:induction false} LeadingDigitsOfDigits(s: string)
    requires forall i :: 0 <= i < |s| ==> IsDigit(s[i])
    ensures LeadingDigits(s) == s
  {
    if s != [] {
      LeadingDigitsOfDigits(s[1..]);
    }
  }

  /** `parseInt` reads a non-empty string of digits as its value. */
  lemma ParseIntOfDigits(s: string)
    requires s != [] && forall i :: 0 <= i < |s| ==> IsDigit(s[i])
    ensures ParseInt(s) == Some(DigitsValue(s))
  {
    NoSpaceBeforeDigits(s);
    NoSignBeforeDigits(s);
    LeadingDigitsOfDigits(s);
  }

  lemma NoSpaceBeforeDigits(s: string)
    requires s != [] && IsDigit(s[0])
    ensures SkipSpace(s) == s
  {
  }

  lemma NoSignBeforeDigits(s: string)
    requires s != [] && IsDigit(s[0])
    ensures ParseSigned(s) == ParseDigits(s)
  {
  }

  /** `parseInt` reads a numeral back as the number it spells. */
  lemma ParseIntNatToString(n: nat)
    ensures ParseInt(NatToString(n)) == Some(n)
  {
    ParseIntOfDigits(NatToString(n));
    NatToStringValue(n);
  }

  /** `s.replace(/,/g, "")` */
  function RemoveCommas(s: string): (r: string)
    ensures ',' !in r
    ensures forall c :: c in r ==> c in s
  {
    if s == [] then [] else (if s[0] == ',' then [] else [s[0]]) + RemoveCommas(s[1..])
  }

  lemma {:induction false} RemoveCommasAppend(a: string, b: string)
    ensures RemoveCommas(a + b) == RemoveCommas(a) + RemoveCommas(b)
  {
    if a == [] {
      assert a + b == b;
    } else {
      assert (a + b)[0] == a[0];
      assert (a + b)[1..] == a[1..] + b;
      RemoveCommasAppend(a[1..], b);
    }
  }

  /** The sats amount read from its display text: commas removed, the first space-separated token parsed in base 10. */
  function ParseSats(satsText: string): Option<int>
  {
    ParseInt(Split(RemoveCommas(satsText), ' ')[0])
  }

  /**
   * A display text made of the amount's numeral with commas put anywhere, a space and
   * a unit reads back as the amount.
   */
  lemma ParseSatsReadsAmount(n: nat, grouped: string, unit: string)
    requires RemoveCommas(grouped) == NatToString(n)
    ensures ParseSats(grouped + " " + unit) == Some(n)
  {
    RemoveCommasAppend(grouped, " " + unit);
    RemoveCommasAppend(" ", unit);
    assert grouped + " " + unit == grouped + (" " + unit);
    var digits := NatToString(n);
    assert RemoveCommas(grouped + " " + unit) == digits + [' '] + RemoveCommas(unit);
    assert ' ' !in digits by {
      forall i | 0 <= i < |digits| ensures digits[i] != ' ' { assert IsDigit(digits[i]); }
    }
    SplitPiece(digits, ' ', RemoveCommas(unit));
    ParseIntNatToString(n);
  }

  // ---------------------------------------------------------------------------
  // The zaps rendered from the cache
  // ---------------------------------------------------------------------------

  /** A JavaScript value used as a number: `undefined`, `NaN`, or an integer. */
  datatype NumberValue = Undefined | NotANumber | Number(value: int)

  /** The end index `Array.prototype.slice(0, end)` uses on an array of length `len`. */
  function SliceEnd(len: nat, end: NumberValue): (k: nat)
    ensures k <= len
    ensures end.Undefined? ==> k == len
    ensures end.NotANumber? ==> k == 0
    ensures end.Number? && end.value >= 0 ==> k == if end.value < len then end.value else len
    ensures end.Number? && end.value < 0 ==> k == if len + end.value < 0 then 0 else len + end.value
  {
    match end
    case Undefined => len
    case NotANumber => 0
    case Number(m) =>
      if m < 0 then (if len + m < 0 then 0 else len + m)
      else if m < len then m else len
  }

  /** The zaps rendered from the cache: a newest-first sorted copy, cut after `maxCount`. */
  function RenderedZaps(cache: seq<Event>, maxCount: NumberValue): seq<Event>
  {
    var sorted := SortByTimeDesc(cache);
    sorted[..SliceEnd(|sorted|, maxCount)]
  }

  /**
   * The rendered zaps are as many as the slice bound allows, ordered most recent first,
   * drawn from the cache, and no zap left out is more recent than a rendered one.
   */
  lemma RenderedZapsAreMostRecent(cache: seq<Event>, maxCount: NumberValue)
    ensures |RenderedZaps(cache, maxCount)| == SliceEnd(|cache|, maxCount)
    ensures SortedByTimeDesc(RenderedZaps(cache, maxCount))
    ensures multiset(RenderedZaps(cache, maxCount)) <= multiset(cache)
    ensures forall y, i :: y in multiset(cache) - multiset(RenderedZaps(cache, maxCount)) && 0 <= i < |RenderedZaps(cache, maxCount)| ==>
              RenderedZaps(cache, maxCount)[i].createdAt >= y.createdAt
  {
    var sorted := SortByTimeDesc(cache);
    var k := SliceEnd(|sorted|, maxCount);
    assert RenderedZaps(cache, maxCount) == sorted[..k];
    CutMultisets(sorted, k);
    SortedPrefixOf(sorted, k);
    SortedCutSeparates(sorted, k);
  }

  /** Cutting a sequence splits its multiset between the prefix and the rest. */
  lemma CutMultisets(s: seq<Event>, k: nat)
    requires k <= |s|
    ensures multiset(s[..k]) <= multiset(s)
    ensures multiset(s) - multiset(s[..k]) == multiset(s[k..])
  {
    assert s == s[..k] + s[k..];
  }

  /** In an ordered sequence, nothing after a cut is more recent than anything before it. */
  lemma SortedCutSeparates(s: seq<Event>, k: nat)
    requires SortedByTimeDesc(s) && k <= |s|
    ensures forall y, i :: y in multiset(s[k..]) && 0 <= i < |s[..k]| ==> s[..k][i].createdAt >= y.createdAt
  {
    forall y, i | y in multiset(s[k..]) && 0 <= i < |s[..k]|
      ensures s[..k][i].createdAt >= y.createdAt
    {
      var j :| 0 <= j < |s[k..]| && s[k..][j] == y;
      assert AtLeastAsRecent(s[i], s[k + j]);
    }
  }

  /** A prefix of an ordered sequence is ordered. */
  lemma SortedPrefixOf(s: seq<Event>, k: nat)
    requires SortedByTimeDesc(s) && k <= |s|
    ensures SortedByTimeDesc(s[..k])
  {
    forall i, j | 0 <= i < j < k ensures AtLeastAsRecent(s[..k][i], s[..k][j]) {
      assert AtLeastAsRecent(s[i], s[j]);
    }
  }

  /** The view caches are kept ordered, so the rendered zaps are simply the first ones of the cache. */
  lemma RenderedZapsOfOrderedCache(cache: seq<Event>, maxCount: NumberValue)
    requires SortedByTimeDesc(cache)
    ensures RenderedZaps(cache, maxCount) == cache[..SliceEnd(|cache|, maxCount)]
  {
    SortSortedIsIdentity(cache);
  }

  // ---------------------------------------------------------------------------
  // Profile prefetch
  // ---------------------------------------------------------------------------

  /** JavaScript truthiness of an optional string. */
  predicate Truthy(p: Option<string>)
  {
    p.Some? && p.value != ""
  }

  /** The keys to prefetch: the truthy sender keys, each once, in order of first occurrence. */
  function UniquePubkeys(keys: seq<Option<string>>): seq<string>
  {
    if keys == [] then []
    else
      var seen := UniquePubkeys(keys[..|keys| - 1]);
      var k := keys[|keys| - 1];
      if !Truthy(k) || k.value in seen then seen else seen + [k.value]
  }

  /** The position of the first occurrence of `Some(k)`. */
  function FirstIndex(keys: seq<Option<string>>, k: string): (i: nat)
    requires Some(k) in keys
    ensures i < |keys| && keys[i] == Some(k)
    ensures forall j :: 0 <= j < i ==> keys[j] != Some(k)
  {
    if keys[0] == Some(k) then 0 else 1 + FirstIndex(keys[1..], k)
  }

  /**
   * The prefetch list holds every truthy key and nothing else, has no duplicates,
   * and lists keys in the order of their first occurrence.
   */
  lemma {:induction false} UniquePubkeysSpec(keys: seq<Option<string>>)
    ensures forall k :: k in UniquePubkeys(keys) <==> Truthy(Some(k)) && Some(k) in keys
    ensures forall i, j :: 0 <= i < j < |UniquePubkeys(keys)| ==> UniquePubkeys(keys)[i] != UniquePubkeys(keys)[j]
    ensures forall i, j :: 0 <= i < j < |UniquePubkeys(keys)| ==>
              FirstIndex(keys, UniquePubkeys(keys)[i]) < FirstIndex(keys, UniquePubkeys(keys)[j])
  {
    if keys != [] {
      var front := keys[..|keys| - 1];
      var k := keys[|keys| - 1];
      var seen := UniquePubkeys(front);
      UniquePubkeysSpec(front);
      assert keys == front + [k];
      forall x | Some(x) in front ensures FirstIndex(keys, x) == FirstIndex(front, x) {
        FirstIndexOfPrefix(front, k, x);
      }
      if Truthy(k) && k.value !in seen {
        var r := seen + [k.value];
        assert Some(k.value) !in front;
        assert FirstIndex(keys, k.value) == |front|;
        forall i, j | 0 <= i < j < |r| ensures r[i] != r[j] && FirstIndex(keys, r[i]) < FirstIndex(keys, r[j]) {
          if j == |seen| {
            assert r[i] in seen;
          } else {
            assert r[i] == seen[i] && r[j] == seen[j];
          }
        }
      }
    }
  }

  /** Appending an element does not move the first occurrence of a key already present. */
  lemma {:induction false} FirstIndexOfPrefix(front: seq<Option<string>>, last: Option<string>, x: string)
    requires Some(x) in front
    ensures FirstIndex(front + [last], x) == FirstIndex(front, x)
  {
    if front[0] != Some(x) {
      assert (front + [last])[1..] == front[1..] + [last];
      FirstIndexOfPrefix(front[1..], last, x);
    }
  }

  /** The lookup built from the fetched profiles: each key paired with the profile at its position, later entries winning. */
  function ProfileMap(pubkeys: seq<string>, profiles: seq<Profiles.Profile>): map<string, Profiles.Profile>
    requires |profiles| == |pubkeys|
  {
    if pubkeys == [] then map[]
    else ProfileMap(pubkeys[..|pubkeys| - 1], profiles[..|profiles| - 1])[pubkeys[|pubkeys| - 1] := profiles[|profiles| - 1]]
  }

  /** With distinct keys the map pairs each key with the profile at its own position, and holds no other key. */
  lemma {:induction false} ProfileMapPairs(pubkeys: seq<string>, profiles: seq<Profiles.Profile>)
    requires |profiles| == |pubkeys|
    requires forall i, j :: 0 <= i < j < |pubkeys| ==> pubkeys[i] != pubkeys[j]
    ensures forall k :: k in ProfileMap(pubkeys, profiles) <==> k in pubkeys
    ensures forall i :: 0 <= i < |pubkeys| ==> ProfileMap(pubkeys, profiles)[pubkeys[i]] == profiles[i]
  {
    if pubkeys != [] {
      var n := |pubkeys| - 1;
      ProfileMapPairs(pubkeys[..n], profiles[..n]);
      assert pubkeys == pubkeys[..n] + [pubkeys[n]];
      forall i | 0 <= i < n ensures ProfileMap(pubkeys, profiles)[pubkeys[i]] == profiles[i] {
        assert pubkeys[..n][i] == pubkeys[i];
      }
    }
  }

  /** The profiles `fetchProfiles(pubkeys)` returns, position by position. */
  function FetchedProfiles(cache: map<string, Profiles.Profile>, pubkeys: seq<string>, now: int,
                           reply: string -> Profiles.ProfileFetch,
                           displayNameOf: Profiles.ProfileContent -> string): (r: seq<Profiles.Profile>)
    ensures |r| == |pubkeys|
    ensures forall i :: 0 <= i < |pubkeys| ==> r[i] == Profiles.ProfileFor(cache, pubkeys[i], now, reply, displayNameOf)
  {
    seq(|pubkeys|, i requires 0 <= i < |pubkeys| => Profiles.ProfileFor(cache, pubkeys[i], now, reply, displayNameOf))
  }

  /** After a prefetch, every truthy key of the zaps maps to the profile fetched for it. */
  lemma PrefetchPairsEveryKey(keys: seq<Option<string>>, cache: map<string, Profiles.Profile>, now: int,
                              reply: string -> Profiles.ProfileFetch, displayNameOf: Profiles.ProfileContent -> string)
    ensures var pks := UniquePubkeys(keys);
            var m := ProfileMap(pks, FetchedProfiles(cache, pks, now, reply, displayNameOf));
            forall k :: Truthy(Some(k)) && Some(k) in keys ==>
              k in m && m[k] == Profiles.ProfileFor(cache, k, now, reply, displayNameOf)
  {
    var pks := UniquePubkeys(keys);
    var profiles := FetchedProfiles(cache, pks, now, reply, displayNameOf);
    UniquePubkeysSpec(keys);
    ProfileMapPairs(pks, profiles);
    forall k | Truthy(Some(k)) && Some(k) in keys
      ensures k in ProfileMap(pks, profiles) && ProfileMap(pks, profiles)[k] == Profiles.ProfileFor(cache, k, now, reply, displayNameOf)
    {
      var i :| 0 <= i < |pks| && pks[i] == k;
    }
  }

  // ---------------------------------------------------------------------------
  // Stats
  // ---------------------------------------------------------------------------

  /** `Math.floor(msats / 1000)` */
  function MsatsToSats(msats: int): (sats: int)
    ensures 1000 * sats <= msats < 1000 * sats + 1000
  {
    msats / 1000
  }

  /** A larger amount of millisats never shows fewer sats. */
  lemma MsatsToSatsMonotone(a: int, b: int)
    requires a <= b
    ensures MsatsToSats(a) <= MsatsToSats(b)
  {
  }

  /** The three numbers `displayZapStats` shows. */
  datatype DisplayedStats = DisplayedStats(count: nat, totalSats: int, maxSats: int)

  function DisplayStats(stats: ZapManager.Stats): (d: DisplayedStats)
    ensures d.count == stats.count
    ensures 1000 * d.totalSats <= stats.msats < 1000 * d.totalSats + 1000
    ensures 1000 * d.maxSats <= stats.maxMsats < 1000 * d.maxSats + 1000
  {
    DisplayedStats(stats.count, MsatsToSats(stats.msats), MsatsToSats(stats.maxMsats))
  }

  /** The largest zap shown never exceeds the total shown. */
  lemma DisplayedMaxAtMostTotal(stats: ZapManager.Stats)
    requires stats.maxMsats <= stats.msats
    ensures DisplayStats(stats).maxSats <= DisplayStats(stats).totalSats
  {
    MsatsToSatsMonotone(stats.maxMsats, stats.msats);
  }

  // ---------------------------------------------------------------------------
  // The dialog element's state
  // ---------------------------------------------------------------------------

  /** The class `#applyTheme` puts on the host. */
  function ThemeClass(theme: Option<string>): string
  {
    if theme == Some("dark") then "dark-theme" else "light-theme"
  }

  /** The number a parse gave, as a value: `NaN` or an integer. */
  function FromParse(p: Option<int>): (v: NumberValue)
    ensures p.None? <==> v.NotANumber?
    ensures p.Some? ==> v == Number(p.value)
  {
    if p.None? then NotANumber else Number(p.value)
  }

  /** The observed attributes. */
  const THEME_ATTRIBUTE: string := "data-theme"
  const MAX_COUNT_ATTRIBUTE: string := "data-max-count"

  /**
   * The `zap-dialog` element's `#state` (`maxCount` starts undefined, as the default
   * options name no count), the classes put on its host, and the profile lookup the
   * last prefetch installed.
   */
  class ZapDialog {
    var isInitialized: bool
    var theme: Option<string>
    var maxCount: NumberValue
    var hostClasses: set<string>
    var profileMap: Option<map<string, Profiles.Profile>>
    /** `TypeChecker.isValidCount`, applied to a parse result. */
    const isValidCount: Option<int> -> bool

    /** A count other than the initial undefined one has passed the validity test. */
    predicate Valid()
      reads this`maxCount
    {
      match maxCount
      case Undefined => true
      case NotANumber => isValidCount(None)
      case Number(v) => isValidCount(Some(v))
    }

    constructor (isValidCount: Option<int> -> bool)
      ensures Valid()
      ensures !isInitialized && theme == Some(DEFAULT_THEME) && maxCount == Undefined
      ensures hostClasses == {} && profileMap == None && this.isValidCount == isValidCount
    {
      isInitialized := false;
      theme := Some(DEFAULT_THEME);
      maxCount := Undefined;
      hostClasses := {};
      profileMap := None;
      this.isValidCount := isValidCount;
    }

    /** `#updateTheme(theme)`: record the theme, and apply it once the dialog is initialised. */
    method UpdateTheme(newTheme: Option<string>)
      modifies this`theme, this`hostClasses
      ensures theme == newTheme
      ensures hostClasses == if isInitialized then old(hostClasses) + {ThemeClass(newTheme)} else old(hostClasses)
    {
      theme := newTheme;
      if isInitialized {
        hostClasses := hostClasses + {ThemeClass(newTheme)};
      }
    }

    /** `#updateMaxCount(count)`: only a valid count replaces the current one. */
    method UpdateMaxCount(count: Option<int>)
      requires Valid()
      modifies this`maxCount
      ensures Valid()
      ensures maxCount == if isValidCount(count) then FromParse(count) else old(maxCount)
    {
      if isValidCount(count) {
        maxCount := FromParse(count);
      }
    }

    /** `attributeChangedCallback(name, oldValue, newValue)`; `None` is a null attribute value. */
    method AttributeChanged(name: string, oldValue: Option<string>, newValue: Option<string>)
      requires Valid()
      modifies this`theme, this`hostClasses, this`maxCount
      ensures Valid()
      ensures oldValue == newValue || (name != THEME_ATTRIBUTE && name != MAX_COUNT_ATTRIBUTE) ==>
                theme == old(theme) && hostClasses == old(hostClasses) && maxCount == old(maxCount)
      ensures oldValue != newValue && name == THEME_ATTRIBUTE ==>
                && theme == newValue && maxCount == old(maxCount)
                && hostClasses == if isInitialized then old(hostClasses) + {ThemeClass(newValue)} else old(hostClasses)
      ensures oldValue != newValue && name == MAX_COUNT_ATTRIBUTE ==>
                var parsed := ParseInt(if newValue.None? then "null" else newValue.value);
                && theme == old(theme) && hostClasses == old(hostClasses)
                && maxCount == if isValidCount(parsed) then FromParse(parsed) else old(maxCount)
    {
      if oldValue == newValue {
        return;
      }
      if name == THEME_ATTRIBUTE {
        UpdateTheme(newValue);
      } else if name == MAX_COUNT_ATTRIBUTE {
        UpdateMaxCount(ParseInt(if newValue.None? then "null" else newValue.value));
      }
    }

    /**
     * `#updateDisplayIdentifier` for each key, all started before any settles: an empty
     * key is skipped (`None`); any other key asks the pool for its NIP-05 address, so
     * every uncached non-empty key ends up with exactly one pending verification,
     * started by its first occurrence.
     */
    method UpdateDisplayIdentifiers(pubkeys: seq<string>, pool: Profiles.ProfilePool)
      returns (answers: seq<Option<Profiles.Nip05Answer>>)
      requires pool.Valid()
      modifies pool`nip05Pending
      ensures pool.Valid()
      ensures pool.nip05Pending == old(pool.nip05Pending) + (set k | k in pubkeys && k != "" && k !in pool.nip05)
      ensures |answers| == |pubkeys|
      ensures forall i :: 0 <= i < |pubkeys| ==> (answers[i].None? <==> pubkeys[i] == "")
      ensures forall i :: 0 <= i < |pubkeys| && answers[i].Some? ==> (answers[i].value.Cached? <==> pubkeys[i] in pool.nip05)
      ensures forall i :: 0 <= i < |pubkeys| && answers[i].Some? && answers[i].value.Started? ==>
                pubkeys[i] !in old(pool.nip05Pending) && forall j :: 0 <= j < i ==> pubkeys[j] != pubkeys[i]
    {
      answers := [];
      for i := 0 to |pubkeys|
        invariant pool.Valid()
        invariant pool.nip05Pending == old(pool.nip05Pending) + (set k | k in pubkeys[..i] && k != "" && k !in pool.nip05)
        invariant |answers| == i
        invariant forall j :: 0 <= j < i ==> (answers[j].None? <==> pubkeys[j] == "")
        invariant forall j :: 0 <= j < i && answers[j].Some? ==> (answers[j].value.Cached? <==> pubkeys[j] in pool.nip05)
        invariant forall j :: 0 <= j < i && answers[j].Some? && answers[j].value.Started? ==>
                    pubkeys[j] !in old(pool.nip05Pending) && forall l :: 0 <= l < j ==> pubkeys[l] != pubkeys[j]
      {
        assert pubkeys[..i + 1] == pubkeys[..i] + [pubkeys[i]];
        if pubkeys[i] == "" {
          answers := answers + [None];
        } else {
          var a := pool.VerifyNip05Async(pubkeys[i]);
          answers := answers + [Some(a)];
        }
      }
      assert pubkeys[..|pubkeys|] == pubkeys;
    }

    /**
     * `#prefetchProfiles(zaps)`, given the sender key each zap's description names:
     * with no truthy key nothing happens; otherwise the unique keys' profiles are
     * fetched, paired with the keys, and their NIP-05 verifications started.
     */
    method PrefetchProfiles(senderKeys: seq<Option<string>>, pool: Profiles.ProfilePool, now: int,
                            reply: string -> Profiles.ProfileFetch)
      requires pool.Valid()
      modifies this`profileMap, pool`profiles, pool`fetchRequests, pool`nip05Pending
      ensures pool.Valid()
      ensures UniquePubkeys(senderKeys) == [] ==>
                && profileMap == old(profileMap) && pool.profiles == old(pool.profiles)
                && pool.fetchRequests == old(pool.fetchRequests) && pool.nip05Pending == old(pool.nip05Pending)
      ensures var pks := UniquePubkeys(senderKeys);
              pks != [] ==>
                && profileMap == Some(ProfileMap(pks, FetchedProfiles(old(pool.profiles), pks, now, reply, pool.displayNameOf)))
                && pool.profiles == Profiles.CacheAfterFetch(old(pool.profiles), pks, now, reply, pool.displayNameOf)
                && pool.nip05Pending == old(pool.nip05Pending) + (set k | k in pks && k !in pool.nip05)
    {
      var pubkeys := UniquePubkeys(senderKeys);
      if |pubkeys| > 0 {
        var profiles := pool.FetchProfiles(pubkeys, now, reply);
        assert profiles == FetchedProfiles(old(pool.profiles), pubkeys, now, reply, pool.displayNameOf);
        profileMap := Some(ProfileMap(pubkeys, profiles));
        UniquePubkeysSpec(senderKeys);
        var _ := UpdateDisplayIdentifiers(pubkeys, pool);
        assert (set k | k in pubkeys && k != "" && k !in pool.nip05) == (set k | k in pubkeys && k !in pool.nip05);
      }
    }
  }
}
