/**
 * Application settings: the constants the core reads, and `ViewerConfig`, the
 * configuration a zap view is built from (identifier, relay list, colour mode).
 */
module AppSettings {
  import opened Wrappers

  /** ZAP_CONFIG.DEFAULT_COLOR_MODE */
  const DEFAULT_COLOR_MODE: bool := true

  /** REQ_CONFIG.INITIAL_LOAD_COUNT: the number of cached zaps that makes a view paginate. */
  const INITIAL_LOAD_COUNT: nat := 15

  /** REQ_CONFIG.ADDITIONAL_LOAD_COUNT: the page size of one backward load. */
  const ADDITIONAL_LOAD_COUNT: nat := 20

  /** PROFILE_CONFIG.RELAYS */
  const PROFILE_RELAYS: seq<string> := [
    "wss://relay.nostr.band",
    "wss://purplepag.es",
    "wss://relay.damus.io",
    "wss://nostr.wine",
    "wss://directory.yabu.me"
  ]

  /** The error messages of ZAP_CONFIG.ERRORS. */
  const BUTTON_NOT_FOUND: string := "Fetch button not found"
  const DECODE_FAILED: string := "Failed to decode identifier"

  /** One row of ZAP_AMOUNT_CONFIG.THRESHOLDS. */
  datatype AmountThreshold = AmountThreshold(value: int, className: string)

  /** ZAP_AMOUNT_CONFIG.THRESHOLDS, largest amount first. */
  const THRESHOLDS: seq<AmountThreshold> := [
    AmountThreshold(10000, "zap-amount-10k"),
    AmountThreshold(5000, "zap-amount-5k"),
    AmountThreshold(2000, "zap-amount-2k"),
    AmountThreshold(1000, "zap-amount-1k"),
    AmountThreshold(500, "zap-amount-500"),
    AmountThreshold(200, "zap-amount-200"),
    AmountThreshold(100, "zap-amount-100")
  ]

  /** ZAP_AMOUNT_CONFIG.DISABLED_CLASS */
  const DISABLED_CLASS: string := ""

  /** The table is ordered strictly by decreasing amount and no two rows share a class. */
  lemma ThresholdsWellFormed()
    ensures forall i, j :: 0 <= i < j < |THRESHOLDS| ==> THRESHOLDS[i].value > THRESHOLDS[j].value
    ensures forall i, j :: 0 <= i < j < |THRESHOLDS| ==> THRESHOLDS[i].className != THRESHOLDS[j].className
    ensures forall i :: 0 <= i < |THRESHOLDS| ==> THRESHOLDS[i].className != DISABLED_CLASS
  {
  }

  // ---------------------------------------------------------------------------
  // Case-insensitive "true"
  // ---------------------------------------------------------------------------

  /** `toLowerCase` on one character; only ASCII letters are mapped (see README). */
  function ToLower(c: char): char
  {
    if 'A' <= c <= 'Z' then (c as int + 32) as char else c
  }

  /** `String.prototype.toLowerCase`, character by character. */
  function LowerCase(s: string): (r: string)
    ensures |r| == |s|
    ensures forall i :: 0 <= i < |s| ==> r[i] == ToLower(s[i])
  {
    if s == [] then [] else [ToLower(s[0])] + LowerCase(s[1..])
  }

  /** The test `String(x).toLowerCase() === "true"`. */
  predicate IsTrueIgnoringCase(s: string)
  {
    LowerCase(s) == "true"
  }

  /** An independent description of the same test: four letters, each in either case. */
  predicate SpellsTrue(s: string)
  {
    |s| == 4 && s[0] in "tT" && s[1] in "rR" && s[2] in "uU" && s[3] in "eE"
  }

  lemma TrueIgnoringCaseIffSpelled(s: string)
    ensures IsTrueIgnoringCase(s) <==> SpellsTrue(s)
  {
    var l := LowerCase(s);
    if SpellsTrue(s) {
      assert l[0] == 't' && l[1] == 'r' && l[2] == 'u' && l[3] == 'e';
      assert l == "true";
    }
    if IsTrueIgnoringCase(s) {
      assert |s| == 4;
      assert ToLower(s[0]) == 't' && ToLower(s[1]) == 'r';
      assert ToLower(s[2]) == 'u' && ToLower(s[3]) == 'e';
    }
  }

  // ---------------------------------------------------------------------------
  // Splitting a relay list on ','
  // ---------------------------------------------------------------------------

  /** `s.split(sep)` for a one-character separator: the pieces between separators. */
  function Split(s: string, sep: char): (parts: seq<string>)
    ensures |parts| >= 1
    ensures forall i :: 0 <= i < |parts| ==> sep !in parts[i]
    decreases |s|
  {
    if s == [] then [""]
    else
      var rest := Split(s[1..], sep);
      if s[0] == sep then [""] + rest
      else [[s[0]] + rest[0]] + rest[1..]
  }

  /** `parts.join(sep)`. */
  function Join(parts: seq<string>, sep: char): string
    requires |parts| >= 1
    decreases |parts|
  {
    if |parts| == 1 then parts[0] else parts[0] + [sep] + Join(parts[1..], sep)
  }

  /** Joining the pieces back with the separator gives back the attribute string. */
  lemma {:induction false} JoinSplit(s: string, sep: char)
    ensures Join(Split(s, sep), sep) == s
    decreases |s|
  {
    if s != [] {
      var rest := Split(s[1..], sep);
      JoinSplit(s[1..], sep);
      if s[0] == sep {
        assert Split(s, sep) == [""] + rest;
        assert ([""] + rest)[1..] == rest;
      } else {
        var parts := Split(s, sep);
        assert parts == [[s[0]] + rest[0]] + rest[1..];
        if |rest| == 1 {
          assert Join(parts, sep) == [s[0]] + rest[0];
        } else {
          assert parts[1..] == rest[1..];
          assert Join(rest, sep) == rest[0] + [sep] + Join(rest[1..], sep);
        }
        assert s == [s[0]] + s[1..];
      }
    }
  }

  /** A piece without the separator splits to itself, and is cut at a following separator. */
  lemma {:induction false} SplitPiece(p: string, sep: char, t: string)
    requires sep !in p
    ensures Split(p, sep) == [p]
    ensures Split(p + [sep] + t, sep) == [p] + Split(t, sep)
    decreases |p|
  {
    if p == [] {
      assert [sep] + t == p + [sep] + t;
      assert ([sep] + t)[1..] == t;
    } else {
      SplitPiece(p[1..], sep, t);
      assert (p + [sep] + t)[1..] == p[1..] + [sep] + t;
      assert [p[0]] + p[1..] == p;
    }
  }

  /** Splitting a join of separator-free pieces gives back the pieces. */
  lemma {:induction false} SplitJoin(parts: seq<string>, sep: char)
    requires |parts| >= 1
    requires forall i :: 0 <= i < |parts| ==> sep !in parts[i]
    ensures Split(Join(parts, sep), sep) == parts
    decreases |parts|
  {
    if |parts| == 1 {
      SplitPiece(parts[0], sep, "");
      assert parts == [parts[0]];
    } else {
      SplitJoin(parts[1..], sep);
      SplitPiece(parts[0], sep, Join(parts[1..], sep));
      assert parts == [parts[0]] + parts[1..];
    }
  }

  // ---------------------------------------------------------------------------
  // ViewerConfig
  // ---------------------------------------------------------------------------

  /** A fetch button, reduced to its attributes (`getAttribute` gives `None` for a missing one). */
  datatype Button = Button(attributes: map<string, string>)
  {
    function GetAttribute(name: string): Option<string>
    {
      if name in attributes then Some(attributes[name]) else None
    }
  }

  /** Why `fromButton` throws: no button, or `getAttribute("data-relay-urls")` was null and `.split` failed. */
  datatype ConfigError = ButtonNotFound | RelayUrlsMissing

  datatype ViewerConfig = ViewerConfig(identifier: Option<string>, relayUrls: seq<string>, isColorModeEnabled: bool)

  /**
   * `new ViewerConfig(identifier, relayUrls, colorMode)`. `colorMode` is given as
   * `String(colorMode)`, with `None` for null (an omitted argument defaults to null).
   */
  function NewViewerConfig(identifier: Option<string>, relayUrls: seq<string>, colorMode: Option<string>): (c: ViewerConfig)
    ensures c.identifier == identifier && c.relayUrls == relayUrls
    ensures colorMode.None? ==> c.isColorModeEnabled == DEFAULT_COLOR_MODE
    ensures colorMode.Some? ==> (c.isColorModeEnabled <==> SpellsTrue(colorMode.value))
  {
    var enabled := if colorMode.None? then DEFAULT_COLOR_MODE else IsTrueIgnoringCase(colorMode.value);
    TrueIgnoringCaseIffSpelled(if colorMode.None? then "" else colorMode.value);
    ViewerConfig(identifier, relayUrls, enabled)
  }

  /** The name of the colour-mode attribute on the button. */
  const COLOR_MODE_ATTRIBUTE: string := "data-zap-color-mode"

  /** `ViewerConfig.determineColorMode(button)` */
  function DetermineColorMode(button: Option<Button>): (enabled: bool)
    ensures (button.None? || button.value.GetAttribute(COLOR_MODE_ATTRIBUTE).None?) ==> enabled == DEFAULT_COLOR_MODE
    ensures button.Some? && button.value.GetAttribute(COLOR_MODE_ATTRIBUTE).Some? ==>
              (enabled <==> SpellsTrue(button.value.GetAttribute(COLOR_MODE_ATTRIBUTE).value))
  {
    if button.None? then DEFAULT_COLOR_MODE
    else
      match button.value.GetAttribute(COLOR_MODE_ATTRIBUTE)
      case None => DEFAULT_COLOR_MODE
      case Some(attr) =>
        TrueIgnoringCaseIffSpelled(attr);
        IsTrueIgnoringCase(attr)
  }

  /** `String(b)` for a boolean. */
  function BoolToString(b: bool): string
  {
    if b then "true" else "false"
  }

  /** `ViewerConfig.fromButton(button)` */
  function FromButton(button: Option<Button>): (r: Result<ViewerConfig, ConfigError>)
    ensures button.None? ==> r == Failure(ButtonNotFound)
    ensures button.Some? && button.value.GetAttribute("data-relay-urls").None? ==> r == Failure(RelayUrlsMissing)
    ensures button.Some? && button.value.GetAttribute("data-relay-urls").Some? ==> r.Success?
    ensures r.Success? ==>
              && button.Some?
              && r.value.identifier == button.value.GetAttribute("data-nzv-id")
              && r.value.isColorModeEnabled == DetermineColorMode(button)
              && |r.value.relayUrls| >= 1
              && Join(r.value.relayUrls, ',') == button.value.GetAttribute("data-relay-urls").value
              && forall i :: 0 <= i < |r.value.relayUrls| ==> ',' !in r.value.relayUrls[i]
  {
    if button.None? then Failure(ButtonNotFound)
    else
      var colorMode := DetermineColorMode(button);
      match button.value.GetAttribute("data-relay-urls")
      case None => Failure(RelayUrlsMissing)
      case Some(urls) =>
        JoinSplit(urls, ',');
        Success(NewViewerConfig(button.value.GetAttribute("data-nzv-id"), Split(urls, ','), Some(BoolToString(colorMode))))
  }
}
