/** The Apple exposure forecast's fold over advisories and its overall level
    (mac_audit_agent/cve_radar.py, class AppleSecurityForecastEngine). What is
    read off an advisory's text (family, evidence, date, score) is an input, and
    version comparison is an oracle. */
module SecurityForecast {
  import opened Common

  datatype Level = Clear | Watch | Elevated | Urgent | Critical
  datatype Severity = InfoSeverity | LowSeverity | MediumSeverity | HighSeverity | CriticalSeverity

  function LevelRank(l: Level): nat {
    match l case Clear => 0 case Watch => 1 case Elevated => 2 case Urgent => 3 case Critical => 4
  }

  function SeverityRank(s: Severity): nat {
    match s case InfoSeverity => 0 case LowSeverity => 1 case MediumSeverity => 2 case HighSeverity => 3 case CriticalSeverity => 4
  }

  /** `_forecast_level_max`. */
  function LevelMax(a: Level, b: Level): Level {
    if LevelRank(a) >= LevelRank(b) then a else b
  }

  /** `_severity_max`. */
  function SeverityMax(a: Severity, b: Severity): Severity {
    if SeverityRank(a) >= SeverityRank(b) then a else b
  }

  function LevelForSeverity(s: Severity): Level {
    match s
    case CriticalSeverity => Urgent
    case HighSeverity => Elevated
    case MediumSeverity => Watch
    case LowSeverity => Watch
    case InfoSeverity => Clear
  }

  /** `_severity_from_cvss`. */
  function SeverityFromCvss(score: real): Severity {
    if score >= 9.0 then CriticalSeverity
    else if score >= 7.0 then HighSeverity
    else if score >= 4.0 then MediumSeverity
    else if score > 0.0 then LowSeverity
    else InfoSeverity
  }

  /** The bands of the score; a higher score is never less severe. */
  lemma SeverityBands(score: real, higher: real)
    requires score <= higher
    ensures SeverityRank(SeverityFromCvss(score)) <= SeverityRank(SeverityFromCvss(higher))
    ensures SeverityFromCvss(score) == CriticalSeverity <==> score >= 9.0
    ensures SeverityFromCvss(score) == HighSeverity <==> 7.0 <= score < 9.0
    ensures SeverityFromCvss(score) == MediumSeverity <==> 4.0 <= score < 7.0
    ensures SeverityFromCvss(score) == LowSeverity <==> 0.0 < score < 4.0
  {}

  // ---------- advisories ----------

  datatype Family = MacOS | Osx | Safari | WebKit | Xcode | CommandLineTools | CommandLineTool | AppleDevice | OtherFamily

  predicate MacFocused(f: Family) {
    f in {MacOS, Osx, Safari, WebKit, Xcode, CommandLineTools, CommandLineTool}
  }

  /** `primaryFamily` is the first recognisable family of the advisory; `family`
      that of its first affected product; dates are microseconds since 1970. */
  datatype Advisory = Advisory(
    cveId: string, appleRelated: bool, releaseEvidence: bool, primaryFamily: Family, family: Family,
    date: Option<int>, fixedVersion: string, cvss: real)

  /** `olderThan` answers `_version_is_older`: None where it cannot tell. The
      Safari and Xcode versions are the first non-empty ones of each family. */
  datatype Inventory = Inventory(
    macosVersion: string, macosBuild: string, safariVersion: string, xcodeVersion: string, updateAvailable: bool,
    olderThan: (string, string) -> Option<bool>)

  datatype Catalog = Catalog(advisories: seq<Advisory>, kev: set<string>, epss: map<string, real>)

  datatype Config = Config(includeEcosystem: bool, showReviewNeeded: bool)

  const DAY: int := 86400000000
  const YEAR_2020: int := 1577836800000000
  const MAX_ACTIVE_DAYS: int := 180
  const DEFAULT_ACTIVE_DAYS: int := 90

  datatype Filter = Keep | NonApple | NoEvidence | EcosystemOnly | UnsupportedFamily | MissingDate | FutureDate | Pre2020 | Historical

  /** `_active_apple_advisory_filter_reason`. */
  function FilterReason(cfg: Config, now: int, a: Advisory): Filter {
    if !a.appleRelated then NonApple
    else if !a.releaseEvidence then NoEvidence
    else if a.primaryFamily == AppleDevice && !cfg.includeEcosystem then EcosystemOnly
    else if !MacFocused(a.primaryFamily) then UnsupportedFamily
    else if a.date == None then MissingDate
    else if a.date.value > now + DAY then FutureDate
    else if a.date.value < YEAR_2020 then Pre2020
    else if (now - a.date.value) / DAY > MAX_ACTIVE_DAYS then Historical
    else Keep
  }

  datatype Applicability = Confirmed | Likely | ReviewNeeded | NotApplicable
  datatype Category = MacOSCategory | SafariCategory | XcodeCategory | AppleApp | UpdateAvailable

  datatype Match = Match(category: Category, applicability: Applicability, fixedVersion: string)

  /** Applicability of a detected product, before known exploitation counts. */
  function VersionApplicability(inv: Inventory, detected: bool, version: string, fixed: string): Applicability {
    if !detected then ReviewNeeded
    else
      var older := if version == "" || fixed == "" then None else inv.olderThan(version, fixed);
      if older == Some(true) then Confirmed
      else if older == Some(false) then NotApplicable
      else Likely
  }

  /** The text that says which macOS was detected. */
  function MacOSText(inv: Inventory): string {
    Strip(inv.macosVersion + " (" + inv.macosBuild + ")")
  }

  /** `_match_apple_item`. */
  function MatchItem(inv: Inventory, kev: set<string>, a: Advisory): Match {
    var (category, base) :=
      if a.family in {MacOS, Osx} then (MacOSCategory, VersionApplicability(inv, MacOSText(inv) != "", inv.macosVersion, a.fixedVersion))
      else if a.family in {Safari, WebKit} then (SafariCategory, VersionApplicability(inv, inv.safariVersion != "", inv.safariVersion, a.fixedVersion))
      else if a.family in {Xcode, CommandLineTools} then (XcodeCategory, VersionApplicability(inv, inv.xcodeVersion != "", inv.xcodeVersion, a.fixedVersion))
      else (AppleApp, ReviewNeeded);
    Match(category, if a.cveId in kev && base == Likely then Confirmed else base, a.fixedVersion)
  }

  // ---------- what counts as detected ----------

  /** The test for a detected macOS never fails: its text has parentheses. */
  lemma MacOSIsAlwaysDetected(inv: Inventory)
    ensures MacOSText(inv) != ""
  {
    var text := inv.macosVersion + " (" + inv.macosBuild + ")";
    assert text[|inv.macosVersion| + 1] == '(' && !IsSpace('(');
  }

  /** The inventory has a version for the advisory's own product family. */
  predicate VersionKnown(inv: Inventory, f: Family) {
    || (f in {MacOS, Osx} && inv.macosVersion != "")
    || (f in {Safari, WebKit} && inv.safariVersion != "")
    || (f in {Xcode, CommandLineTools} && inv.xcodeVersion != "")
  }

  /** An advisory is left for review exactly when its family is not macOS and no
      version of it is known. An unknown macOS is not left for review. */
  lemma ReviewNeededIff(inv: Inventory, kev: set<string>, a: Advisory)
    ensures MatchItem(inv, kev, a).applicability == ReviewNeeded <==> a.family !in {MacOS, Osx} && !VersionKnown(inv, a.family)
  {
    MacOSIsAlwaysDetected(inv);
  }

  /** A product of unknown version awaits review, as the branch for undetected
      products intends, if and only if it is not macOS. An unknown macOS counts
      as confirmed for an exploited CVE and as likely for any other. */
  lemma UnknownVersionAwaitsReviewIff(inv: Inventory, kev: set<string>, a: Advisory)
    requires !VersionKnown(inv, a.family)
    ensures MatchItem(inv, kev, a).applicability == ReviewNeeded <==> a.family !in {MacOS, Osx}
    ensures a.family in {MacOS, Osx} ==> MatchItem(inv, kev, a).applicability == if a.cveId in kev then Confirmed else Likely
  {
    MacOSIsAlwaysDetected(inv);
  }

  /** Nothing is known of this macOS, and an exploited CVE is confirmed for it. */
  lemma UnknownMacOSIsConfirmed()
    ensures var inv := Inventory("", "", "", "", false, (installed, fixed) => None);
            var a := Advisory("CVE-1", true, true, MacOS, MacOS, None, "1", 9.8);
            MatchItem(inv, {"CVE-1"}, a).applicability == Confirmed
  {
    var inv := Inventory("", "", "", "", false, (installed, fixed) => None);
    var a := Advisory("CVE-1", true, true, MacOS, MacOS, None, "1", 9.8);
    UnknownVersionAwaitsReviewIff(inv, {"CVE-1"}, a);
  }

  // ---------- which advisories apply ----------

  /** The version the inventory has for the family's product, "" when it has
      none. */
  function Installed(inv: Inventory, f: Family): string {
    match f
    case MacOS => inv.macosVersion
    case Osx => inv.macosVersion
    case Safari => inv.safariVersion
    case WebKit => inv.safariVersion
    case Xcode => inv.xcodeVersion
    case CommandLineTools => inv.xcodeVersion
    case _ => ""
  }

  /** Is the installed version older than the fixed one? None where either is
      unknown or they cannot be compared. */
  function InstalledIsOlder(inv: Inventory, a: Advisory): Option<bool> {
    if Installed(inv, a.family) == "" || a.fixedVersion == "" then None else inv.olderThan(Installed(inv, a.family), a.fixedVersion)
  }

  /** macOS always counts as detected, the other products by their version. */
  predicate Detected(inv: Inventory, f: Family) {
    f in {MacOS, Osx} || Installed(inv, f) != ""
  }

  lemma OneOfThree(o: Option<bool>)
    ensures o == None || o == Some(true) || o == Some(false)
  {
    if o.Some? { if o.value { assert o == Some(true); } else { assert o == Some(false); } }
  }

  /** Applicability follows the comparison of the installed version with the
      fixed one, and without an answer, detection and known exploitation. */
  lemma ApplicabilityIff(inv: Inventory, kev: set<string>, a: Advisory)
    ensures var m, older, detected := MatchItem(inv, kev, a), InstalledIsOlder(inv, a), Detected(inv, a.family);
            && (m.applicability == NotApplicable <==> older == Some(false))
            && (m.applicability == Confirmed <==> older == Some(true) || (older == None && detected && a.cveId in kev))
            && (m.applicability == Likely <==> older == None && detected && a.cveId !in kev)
            && (m.applicability == ReviewNeeded <==> older == None && !detected)
  {
    MacOSIsAlwaysDetected(inv);
    OneOfThree(InstalledIsOlder(inv, a));
    match a.family
    case MacOS => case Osx => case Safari => case WebKit => case Xcode => case CommandLineTools => case _ =>
  }

  /** The card an advisory goes to is that of its family's product. */
  lemma CategoryIff(inv: Inventory, kev: set<string>, a: Advisory)
    ensures var m := MatchItem(inv, kev, a);
            && (m.category == MacOSCategory <==> a.family in {MacOS, Osx})
            && (m.category == SafariCategory <==> a.family in {Safari, WebKit})
            && (m.category == XcodeCategory <==> a.family in {Xcode, CommandLineTools})
            && (m.category == AppleApp <==> a.family in {CommandLineTool, AppleDevice, OtherFamily})
            && m.category != UpdateAvailable && m.fixedVersion == a.fixedVersion
  {
    match a.family
    case MacOS => case Osx => case Safari => case WebKit => case Xcode => case CommandLineTools => case _ =>
  }

  // ---------- cards and counters ----------

  datatype Card = Card(
    category: Category, level: Level, applicability: Applicability, cves: seq<string>, kevCves: seq<string>,
    epssHigh: seq<string>, highestSeverity: Severity)

  datatype Counters = Counters(
    downloaded: nat, parsed: nat, within90: nat, invalid: nat, filtered: nat, historical: nat, nonMacHidden: nat,
    ecosystem: nat, reviewHidden: nat, applicable: nat)

  datatype Fold = Fold(cards: map<Category, Card>, counters: Counters)

  function NewCard(m: Match): Card {
    Card(m.category, Clear, m.applicability, [], [], [], InfoSeverity)
  }

  function EpssHigh(catalog: Catalog, cve: string): bool {
    cve in catalog.epss && catalog.epss[cve] >= 0.90
  }

  /** The level of a card after one more advisory, its severity already raised. */
  function RaisedLevel(card: Card, catalog: Catalog, cve: string, m: Match, severity: Severity): Level {
    if cve in catalog.kev then
      LevelMax(card.level, if card.applicability == Confirmed && m.fixedVersion != "" then Critical else Urgent)
    else if EpssHigh(catalog, cve) then LevelMax(card.level, Elevated)
    else if card.applicability in {Confirmed, Likely} then LevelMax(card.level, LevelForSeverity(severity))
    else card.level
  }

  /** One applicable advisory added to its card. */
  function AddToCard(card: Card, catalog: Catalog, a: Advisory, m: Match): Card {
    var severity := SeverityMax(card.highestSeverity, SeverityFromCvss(a.cvss));
    card.(cves := card.cves + [a.cveId],
          kevCves := card.kevCves + (if a.cveId in catalog.kev then [a.cveId] else []),
          epssHigh := card.epssHigh + (if EpssHigh(catalog, a.cveId) then [a.cveId] else []),
          highestSeverity := severity,
          level := RaisedLevel(card, catalog, a.cveId, m, severity))
  }

  /** What the fold decides about one advisory. */
  datatype Fate = FateInvalid | FateHistorical | FateNonMac | FateFiltered | FateReviewHidden | FateApplicable

  function FateOf(cfg: Config, now: int, inv: Inventory, catalog: Catalog, a: Advisory): Fate {
    match FilterReason(cfg, now, a)
    case MissingDate => FateInvalid
    case FutureDate => FateInvalid
    case Pre2020 => FateInvalid
    case Historical => FateHistorical
    case EcosystemOnly => FateNonMac
    case UnsupportedFamily => FateNonMac
    case NonApple => FateFiltered
    case NoEvidence => FateFiltered
    case Keep =>
      var m := MatchItem(inv, catalog.kev, a);
      if m.applicability == NotApplicable then FateFiltered
      else if m.applicability == ReviewNeeded && !cfg.showReviewNeeded then FateReviewHidden
      else FateApplicable
  }

  // ---------- the fold ----------

  /** The fixed inputs of one fold. */
  datatype Setting = Setting(cfg: Config, now: int, inventory: Inventory, catalog: Catalog)

  function Fated(s: Setting, a: Advisory): Fate {
    FateOf(s.cfg, s.now, s.inventory, s.catalog, a)
  }

  function Count(s: Setting, c: Counters, a: Advisory): Counters {
    var reason := FilterReason(s.cfg, s.now, a);
    var fate := Fated(s, a);
    c.(invalid := c.invalid + (if fate == FateInvalid then 1 else 0),
       historical := c.historical + (if fate == FateHistorical then 1 else 0),
       nonMacHidden := c.nonMacHidden + (if fate == FateNonMac then 1 else 0),
       ecosystem := c.ecosystem + (if reason == EcosystemOnly then 1 else 0),
       filtered := c.filtered + (if fate == FateFiltered then 1 else 0),
       reviewHidden := c.reviewHidden + (if fate == FateReviewHidden then 1 else 0),
       applicable := c.applicable + (if fate == FateApplicable then 1 else 0),
       parsed := c.parsed + (if reason == Keep then 1 else 0),
       within90 := c.within90 + (if reason == Keep && (s.now - a.date.value) / DAY <= DEFAULT_ACTIVE_DAYS then 1 else 0))
  }

  function Place(s: Setting, cards: map<Category, Card>, a: Advisory): map<Category, Card> {
    if Fated(s, a) != FateApplicable then cards
    else
      var m := MatchItem(s.inventory, s.catalog.kev, a);
      var card := if m.category in cards then cards[m.category] else NewCard(m);
      cards[m.category := AddToCard(card, s.catalog, a, m)]
  }

  function StartFold(s: Setting): Fold {
    Fold(map[], Counters(|s.catalog.advisories|, 0, 0, 0, 0, 0, 0, 0, 0, 0))
  }

  /** The fold after the first k advisories. */
  function FoldUpTo(s: Setting, k: nat): Fold
    requires k <= |s.catalog.advisories|
  {
    if k == 0 then StartFold(s)
    else
      var f, a := FoldUpTo(s, k - 1), s.catalog.advisories[k - 1];
      Fold(Place(s, f.cards, a), Count(s, f.counters, a))
  }

  function UpdateCard(): Card {
    Card(MacOSCategory, Elevated, Likely, [], [], [], HighSeverity)
  }

  /** The cards the display gets: the fold's, and one for a pending update. */
  function FinalCards(s: Setting): map<Category, Card> {
    var cards := FoldUpTo(s, |s.catalog.advisories|).cards;
    if s.inventory.updateAvailable then cards[UpdateAvailable := UpdateCard()] else cards
  }

  /** The first half of the loop body: filter, match and count one advisory. */
  method Screen(s: Setting, before: Counters, a: Advisory) returns (counters: Counters, match': Option<Match>)
    ensures counters == Count(s, before, a)
    ensures match' == if Fated(s, a) == FateApplicable then Some(MatchItem(s.inventory, s.catalog.kev, a)) else None
  {
    counters := before;
    var reason := FilterReason(s.cfg, s.now, a);
    if reason != Keep {
      if reason == FutureDate || reason == Pre2020 || reason == MissingDate {
        counters := counters.(invalid := counters.invalid + 1);
      } else if reason == Historical {
        counters := counters.(historical := counters.historical + 1);
      } else if reason == EcosystemOnly {
        counters := counters.(ecosystem := counters.ecosystem + 1, nonMacHidden := counters.nonMacHidden + 1);
      } else if reason == UnsupportedFamily {
        counters := counters.(nonMacHidden := counters.nonMacHidden + 1);
      } else {
        counters := counters.(filtered := counters.filtered + 1);
      }
      return counters, None;
    }
    counters := counters.(parsed := counters.parsed + 1);
    if (s.now - a.date.value) / DAY <= DEFAULT_ACTIVE_DAYS {
      counters := counters.(within90 := counters.within90 + 1);
    }
    var m := MatchItem(s.inventory, s.catalog.kev, a);
    if m.applicability == NotApplicable {
      counters := counters.(filtered := counters.filtered + 1);
      return counters, None;
    }
    if m.applicability == ReviewNeeded && !s.cfg.showReviewNeeded {
      counters := counters.(reviewHidden := counters.reviewHidden + 1);
      return counters, None;
    }
    counters := counters.(applicable := counters.applicable + 1);
    return counters, Some(m);
  }

  /** `_build_cards`. */
  method BuildCards(s: Setting) returns (cards: map<Category, Card>, counters: Counters)
    ensures cards == FinalCards(s)
    ensures counters == FoldUpTo(s, |s.catalog.advisories|).counters
  {
    NoUpdateKey(s, |s.catalog.advisories|);
    cards := map[];
    counters := Counters(|s.catalog.advisories|, 0, 0, 0, 0, 0, 0, 0, 0, 0);
    for k := 0 to |s.catalog.advisories|
      invariant Fold(cards, counters) == FoldUpTo(s, k)
    {
      var a := s.catalog.advisories[k];
      var found;
      counters, found := Screen(s, counters, a);
      if found.Some? {
        var m := found.value;
        if m.category !in cards {
          cards := cards[m.category := NewCard(m)];
        }
        cards := cards[m.category := AddToCard(cards[m.category], s.catalog, a, m)];
      }
    }
    if s.inventory.updateAvailable {
      if UpdateAvailable !in cards {
        cards := cards[UpdateAvailable := UpdateCard()];
      }
      var card := cards[UpdateAvailable];
      cards := cards[UpdateAvailable := card.(level := LevelMax(card.level, Elevated))];
    }
  }

  lemma {:induction false} NoUpdateKey(s: Setting, k: nat)
    requires k <= |s.catalog.advisories|
    ensures UpdateAvailable !in FoldUpTo(s, k).cards
  {
    if k > 0 { NoUpdateKey(s, k - 1); }
  }

  // ---------- which advisories are kept ----------

  /** The advisory has the flaw the filter's reason names. */
  predicate Flawed(r: Filter, cfg: Config, now: int, a: Advisory) {
    match r
    case NonApple => !a.appleRelated
    case NoEvidence => !a.releaseEvidence
    case EcosystemOnly => a.primaryFamily == AppleDevice && !cfg.includeEcosystem
    case UnsupportedFamily => a.primaryFamily in {AppleDevice, OtherFamily}
    case MissingDate => a.date == None
    case FutureDate => a.date.Some? && a.date.value > now + 24 * 3600 * 1000000
    case Pre2020 => a.date.Some? && a.date.value < YEAR_2020
    case Historical => a.date.Some? && now - a.date.value >= 181 * 24 * 3600 * 1000000
    case Keep => false
  }

  /** The order in which flaws are looked for. */
  function Turn(r: Filter): nat {
    match r
    case NonApple => 0 case NoEvidence => 1 case EcosystemOnly => 2 case UnsupportedFamily => 3
    case MissingDate => 4 case FutureDate => 5 case Pre2020 => 6 case Historical => 7 case Keep => 8
  }

  lemma WholeDays(elapsed: int)
    ensures elapsed / DAY > MAX_ACTIVE_DAYS <==> elapsed >= 181 * 24 * 3600 * 1000000
  {}

  /** The filter names the first flaw, and keeps what has none. */
  lemma FilterNamesFirstFlaw(cfg: Config, now: int, a: Advisory)
    ensures var r := FilterReason(cfg, now, a);
            (r == Keep || Flawed(r, cfg, now, a)) && forall other :: Turn(other) < Turn(r) ==> !Flawed(other, cfg, now, a)
  {
    if a.date.Some? { WholeDays(now - a.date.value); }
  }

  /** An advisory reaches a card exactly when it is an evidenced Apple advisory
      for a Mac family, dated from 2020 on, at most a day ahead and less than
      181 days old, that this Mac is not known to be past, and that is for a
      detected product unless unclear ones are asked for. */
  lemma ApplicableIff(s: Setting, a: Advisory)
    ensures Fated(s, a) == FateApplicable <==>
              && a.appleRelated && a.releaseEvidence && MacFocused(a.primaryFamily)
              && a.date.Some? && YEAR_2020 <= a.date.value <= s.now + DAY && s.now - a.date.value < 181 * DAY
              && InstalledIsOlder(s.inventory, a) != Some(false)
              && (Detected(s.inventory, a.family) || s.cfg.showReviewNeeded)
  {
    ApplicabilityIff(s.inventory, s.catalog.kev, a);
    if a.date.Some? { WholeDays(s.now - a.date.value); }
  }

  /** The other fates, by the filter's reason and the match. */
  lemma OtherFates(s: Setting, a: Advisory)
    ensures var reason, fate, older := FilterReason(s.cfg, s.now, a), Fated(s, a), InstalledIsOlder(s.inventory, a);
            && (fate == FateInvalid <==> reason in {MissingDate, FutureDate, Pre2020})
            && (fate == FateHistorical <==> reason == Historical)
            && (fate == FateNonMac <==> reason in {EcosystemOnly, UnsupportedFamily})
            && (fate == FateFiltered <==> reason in {NonApple, NoEvidence} || (reason == Keep && older == Some(false)))
            && (fate == FateReviewHidden <==> reason == Keep && !Detected(s.inventory, a.family) && !s.cfg.showReviewNeeded)
  {
    ApplicabilityIff(s.inventory, s.catalog.kev, a);
  }

  // ---------- the option for Apple's other devices ----------

  function WithEcosystem(s: Setting, others: bool): Setting {
    s.(cfg := s.cfg.(includeEcosystem := others))
  }

  lemma OptionDecidesNoFate(s: Setting, others: bool, a: Advisory)
    ensures Fated(WithEcosystem(s, others), a) == Fated(s, a)
  {}

  lemma OptionMovesNothing(s: Setting, others: bool, f: Fold, g: Fold, a: Advisory)
    requires f.cards == g.cards && f.counters == g.counters.(ecosystem := f.counters.ecosystem)
    requires Fated(WithEcosystem(s, others), a) == Fated(s, a)
    ensures var more := Count(WithEcosystem(s, others), f.counters, a);
            Place(WithEcosystem(s, others), f.cards, a) == Place(s, g.cards, a) && more == Count(s, g.counters, a).(ecosystem := more.ecosystem)
  {
    assert FilterReason(WithEcosystem(s, others).cfg, s.now, a) == Keep <==> FilterReason(s.cfg, s.now, a) == Keep;
  }

  /** Asking for advisories of Apple's other devices shows none: the next test
      hides them. The option changes what one counter reads and no card. */
  lemma {:induction false} EcosystemOptionShowsNothing(s: Setting, others: bool, k: nat)
    requires k <= |s.catalog.advisories|
    ensures var with, without := FoldUpTo(WithEcosystem(s, others), k), FoldUpTo(s, k);
            with.cards == without.cards && with.counters == without.counters.(ecosystem := with.counters.ecosystem)
  {
    if k > 0 {
      EcosystemOptionShowsNothing(s, others, k - 1);
      OptionDecidesNoFate(s, others, s.catalog.advisories[k - 1]);
      OptionMovesNothing(s, others, FoldUpTo(WithEcosystem(s, others), k - 1), FoldUpTo(s, k - 1), s.catalog.advisories[k - 1]);
    }
  }

  // ---------- what the counters count ----------

  /** How many of the first k advisories satisfy p. */
  function Tally(advisories: seq<Advisory>, k: nat, p: Advisory -> bool): nat
    requires k <= |advisories|
  {
    if k == 0 then 0 else Tally(advisories, k - 1, p) + if p(advisories[k - 1]) then 1 else 0
  }

  function Meets(s: Setting, fate: Fate): Advisory -> bool {
    a => Fated(s, a) == fate
  }

  function Reads(s: Setting, reason: Filter): Advisory -> bool {
    a => FilterReason(s.cfg, s.now, a) == reason
  }

  function Recent(s: Setting): Advisory -> bool {
    a => FilterReason(s.cfg, s.now, a) == Keep && a.date.Some? && s.now - a.date.value < 91 * 24 * 3600 * 1000000
  }

  lemma KeptIsRecent(s: Setting, a: Advisory)
    ensures FilterReason(s.cfg, s.now, a) == Keep ==> a.date.Some? && ((s.now - a.date.value) / DAY <= DEFAULT_ACTIVE_DAYS <==> Recent(s)(a))
  {}

  /** Every counter is the number of advisories of its kind. */
  lemma {:induction false} CountersAreTallies(s: Setting, k: nat)
    requires k <= |s.catalog.advisories|
    ensures var c, all := FoldUpTo(s, k).counters, s.catalog.advisories;
            && c.invalid == Tally(all, k, Meets(s, FateInvalid)) && c.historical == Tally(all, k, Meets(s, FateHistorical))
            && c.nonMacHidden == Tally(all, k, Meets(s, FateNonMac)) && c.filtered == Tally(all, k, Meets(s, FateFiltered))
            && c.reviewHidden == Tally(all, k, Meets(s, FateReviewHidden)) && c.applicable == Tally(all, k, Meets(s, FateApplicable))
            && c.ecosystem == Tally(all, k, Reads(s, EcosystemOnly)) && c.parsed == Tally(all, k, Reads(s, Keep))
            && c.within90 == Tally(all, k, Recent(s))
  {
    if k > 0 {
      CountersAreTallies(s, k - 1);
      KeptIsRecent(s, s.catalog.advisories[k - 1]);
    }
  }

  // ---------- every advisory is counted once ----------

  function Cves(cards: map<Category, Card>, c: Category): nat {
    if c in cards then |cards[c].cves| else 0
  }

  /** The number of CVEs on all cards. */
  function TotalCves(cards: map<Category, Card>): nat {
    Cves(cards, MacOSCategory) + Cves(cards, SafariCategory) + Cves(cards, XcodeCategory) + Cves(cards, AppleApp) + Cves(cards, UpdateAvailable)
  }

  predicate Conserved(f: Fold, k: nat) {
    && k == f.counters.invalid + f.counters.historical + f.counters.nonMacHidden + f.counters.filtered + f.counters.reviewHidden + f.counters.applicable
    && TotalCves(f.cards) == f.counters.applicable
    && f.counters.ecosystem <= f.counters.nonMacHidden
    && f.counters.within90 <= f.counters.parsed && f.counters.reviewHidden + f.counters.applicable <= f.counters.parsed
  }

  lemma OneCardGrows(cards: map<Category, Card>, c: Category, card: Card)
    requires |card.cves| == Cves(cards, c) + 1
    ensures TotalCves(cards[c := card]) == TotalCves(cards) + 1
  {}

  lemma PlaceAddsOne(s: Setting, cards: map<Category, Card>, a: Advisory)
    ensures TotalCves(Place(s, cards, a)) == TotalCves(cards) + if Fated(s, a) == FateApplicable then 1 else 0
  {
    if Fated(s, a) == FateApplicable {
      var m := MatchItem(s.inventory, s.catalog.kev, a);
      var card := if m.category in cards then cards[m.category] else NewCard(m);
      OneCardGrows(cards, m.category, AddToCard(card, s.catalog, a, m));
    }
  }

  lemma CountsOnce(s: Setting, c: Counters, a: Advisory)
    ensures var r := Count(s, c, a);
            && r.invalid + r.historical + r.nonMacHidden + r.filtered + r.reviewHidden + r.applicable
               == c.invalid + c.historical + c.nonMacHidden + c.filtered + c.reviewHidden + c.applicable + 1
            && r.applicable == c.applicable + (if Fated(s, a) == FateApplicable then 1 else 0)
            && r.ecosystem - c.ecosystem <= r.nonMacHidden - c.nonMacHidden
            && r.within90 - c.within90 <= r.parsed - c.parsed
            && r.reviewHidden + r.applicable - c.reviewHidden - c.applicable <= r.parsed - c.parsed
            && r.downloaded == c.downloaded
  {}

  lemma {:induction false} EveryAdvisoryIsCounted(s: Setting, k: nat)
    requires k <= |s.catalog.advisories|
    ensures Conserved(FoldUpTo(s, k), k)
    ensures FoldUpTo(s, k).counters.downloaded == |s.catalog.advisories|
  {
    if k > 0 {
      EveryAdvisoryIsCounted(s, k - 1);
      PlaceAddsOne(s, FoldUpTo(s, k - 1).cards, s.catalog.advisories[k - 1]);
      CountsOnce(s, FoldUpTo(s, k - 1).counters, s.catalog.advisories[k - 1]);
    }
  }

  // ---------- what every card is ----------

  /** The known-exploited among some CVEs, in order. */
  function KnownExploited(cves: seq<string>, kev: set<string>): seq<string> {
    if cves == [] then []
    else KnownExploited(cves[..|cves| - 1], kev) + if cves[|cves| - 1] in kev then [cves[|cves| - 1]] else []
  }

  lemma {:induction false} KnownExploitedIsPart(cves: seq<string>, kev: set<string>)
    ensures multiset(KnownExploited(cves, kev)) <= multiset(cves)
    ensures forall c :: c in KnownExploited(cves, kev) <==> c in cves && c in kev
  {
    if cves != [] {
      var rest, last := cves[..|cves| - 1], cves[|cves| - 1];
      KnownExploitedIsPart(rest, kev);
      assert cves == rest + [last];
    }
  }

  /** Known-exploited CVEs make a card at least urgent; only a confirmed card
      with a known-exploited CVE is critical. */
  predicate CardSound(card: Card, kev: set<string>) {
    && card.cves != []
    && card.kevCves == KnownExploited(card.cves, kev)
    && (card.kevCves != [] ==> LevelRank(card.level) >= LevelRank(Urgent))
    && (card.level == Critical ==> card.applicability == Confirmed && card.kevCves != [])
    && card.applicability != NotApplicable
  }

  ghost predicate CardsSound(s: Setting, cards: map<Category, Card>) {
    forall c :: c in cards ==> cards[c].category == c && CardSound(cards[c], s.catalog.kev)
  }

  lemma AddKeepsSound(card: Card, catalog: Catalog, a: Advisory, m: Match)
    requires CardSound(card, catalog.kev) || (card == NewCard(m) && m.applicability != NotApplicable)
    ensures CardSound(AddToCard(card, catalog, a, m), catalog.kev)
    ensures LevelRank(AddToCard(card, catalog, a, m).level) >= LevelRank(card.level)
    ensures SeverityRank(AddToCard(card, catalog, a, m).highestSeverity) >= SeverityRank(card.highestSeverity)
    ensures AddToCard(card, catalog, a, m).applicability == card.applicability
  {
    assert (card.cves + [a.cveId])[..|card.cves|] == card.cves;
  }

  /** The card has not changed its applicability or fallen in level or severity. */
  predicate CardGrows(was: Card, now: Card) {
    && now.applicability == was.applicability && was.cves <= now.cves
    && LevelRank(now.level) >= LevelRank(was.level) && SeverityRank(now.highestSeverity) >= SeverityRank(was.highestSeverity)
  }

  ghost predicate CardsGrow(was: map<Category, Card>, now: map<Category, Card>) {
    forall c :: c in was ==> c in now && CardGrows(was[c], now[c])
  }

  lemma ReplacedCardKeeps(s: Setting, cards: map<Category, Card>, c: Category, card: Card)
    requires CardsSound(s, cards) && card.category == c && CardSound(card, s.catalog.kev)
    requires c in cards ==> CardGrows(cards[c], card)
    ensures CardsSound(s, cards[c := card]) && CardsGrow(cards, cards[c := card])
  {}

  lemma PlaceKeepsCards(s: Setting, cards: map<Category, Card>, a: Advisory)
    requires CardsSound(s, cards)
    ensures CardsSound(s, Place(s, cards, a)) && CardsGrow(cards, Place(s, cards, a))
  {
    if Fated(s, a) == FateApplicable {
      var m := MatchItem(s.inventory, s.catalog.kev, a);
      var card := if m.category in cards then cards[m.category] else NewCard(m);
      AddKeepsSound(card, s.catalog, a, m);
      ReplacedCardKeeps(s, cards, m.category, AddToCard(card, s.catalog, a, m));
    }
  }

  /** After every advisory: all cards are sound, no card's level or severity has
      fallen, and no card has gone or changed its applicability. */
  lemma {:induction false} FoldKeepsCards(s: Setting, k: nat)
    requires k <= |s.catalog.advisories|
    ensures CardsSound(s, FoldUpTo(s, k).cards)
    ensures k > 0 ==> CardsGrow(FoldUpTo(s, k - 1).cards, FoldUpTo(s, k).cards)
  {
    if k > 0 {
      FoldKeepsCards(s, k - 1);
      PlaceKeepsCards(s, FoldUpTo(s, k - 1).cards, s.catalog.advisories[k - 1]);
    }
  }

  // ---------- a card depends on its own advisories alone ----------

  predicate Belongs(s: Setting, a: Advisory, c: Category) {
    Fated(s, a) == FateApplicable && MatchItem(s.inventory, s.catalog.kev, a).category == c
  }

  /** The applicable advisories of category c among the first k, in order. */
  function Own(s: Setting, k: nat, c: Category): seq<Advisory>
    requires k <= |s.catalog.advisories|
  {
    if k == 0 then []
    else
      var a := s.catalog.advisories[k - 1];
      Own(s, k - 1, c) + if Belongs(s, a, c) then [a] else []
  }

  /** The card built from a list of advisories and nothing else. */
  function CardFrom(s: Setting, own: seq<Advisory>): Card
    requires own != []
  {
    var n := |own| - 1;
    var m := MatchItem(s.inventory, s.catalog.kev, own[n]);
    AddToCard(if n == 0 then NewCard(m) else CardFrom(s, own[..n]), s.catalog, own[n], m)
  }

  lemma CardFromOneMore(s: Setting, own: seq<Advisory>, a: Advisory)
    ensures var m := MatchItem(s.inventory, s.catalog.kev, a);
            CardFrom(s, own + [a]) == AddToCard(if own == [] then NewCard(m) else CardFrom(s, own), s.catalog, a, m)
  {
    assert (own + [a])[..|own|] == own;
  }

  lemma PlacedCard(s: Setting, cards: map<Category, Card>, a: Advisory, c: Category)
    ensures c in Place(s, cards, a) <==> c in cards || Belongs(s, a, c)
    ensures Belongs(s, a, c) ==>
              Place(s, cards, a)[c] == AddToCard(if c in cards then cards[c] else NewCard(MatchItem(s.inventory, s.catalog.kev, a)),
                                                 s.catalog, a, MatchItem(s.inventory, s.catalog.kev, a))
    ensures c in cards && !Belongs(s, a, c) ==> Place(s, cards, a)[c] == cards[c]
  {}

  lemma PlacedIsFold(s: Setting, cards: map<Category, Card>, own: seq<Advisory>, a: Advisory, c: Category)
    requires (c in cards <==> own != []) && (c in cards ==> cards[c] == CardFrom(s, own))
    ensures var after, more := Place(s, cards, a), own + if Belongs(s, a, c) then [a] else [];
            (c in after <==> more != []) && (c in after ==> after[c] == CardFrom(s, more))
  {
    PlacedCard(s, cards, a, c);
    if Belongs(s, a, c) {
      CardFromOneMore(s, own, a);
    } else {
      assert own + [] == own;
    }
  }

  /** The cards are the advisories grouped by category, each card the fold of
      its own group; in particular its applicability is that of its first one. */
  lemma {:induction false} CardIsItsOwnFold(s: Setting, k: nat, c: Category)
    requires k <= |s.catalog.advisories|
    ensures c in FoldUpTo(s, k).cards <==> Own(s, k, c) != []
    ensures c in FoldUpTo(s, k).cards ==> FoldUpTo(s, k).cards[c] == CardFrom(s, Own(s, k, c))
  {
    if k > 0 {
      CardIsItsOwnFold(s, k - 1, c);
      PlacedIsFold(s, FoldUpTo(s, k - 1).cards, Own(s, k - 1, c), s.catalog.advisories[k - 1], c);
    }
  }

  /** The CVEs of high exploit probability among some, in order. */
  function Probable(cves: seq<string>, epss: map<string, real>): seq<string> {
    if cves == [] then []
    else
      var n := |cves| - 1;
      Probable(cves[..n], epss) + if cves[n] in epss && epss[cves[n]] * 10.0 >= 9.0 then [cves[n]] else []
  }

  /** A card lists the CVEs of its own advisories, in order, and separately
      the known-exploited ones and those of a percentile of nine tenths or more. */
  lemma {:induction false} CardLists(s: Setting, own: seq<Advisory>)
    requires own != []
    ensures var card := CardFrom(s, own);
            && |card.cves| == |own| && (forall i :: 0 <= i < |own| ==> card.cves[i] == own[i].cveId)
            && card.kevCves == KnownExploited(card.cves, s.catalog.kev) && card.epssHigh == Probable(card.cves, s.catalog.epss)
  {
    var n := |own| - 1;
    var a := own[n];
    var m := MatchItem(s.inventory, s.catalog.kev, a);
    if n > 0 { CardLists(s, own[..n]); }
    ListsGrow(s.catalog, if n == 0 then NewCard(m) else CardFrom(s, own[..n]), a, m);
  }

  lemma ListsGrow(catalog: Catalog, card: Card, a: Advisory, m: Match)
    requires card.kevCves == KnownExploited(card.cves, catalog.kev) && card.epssHigh == Probable(card.cves, catalog.epss)
    ensures var after := AddToCard(card, catalog, a, m);
            && after.cves == card.cves + [a.cveId]
            && after.kevCves == KnownExploited(after.cves, catalog.kev) && after.epssHigh == Probable(after.cves, catalog.epss)
  {
    assert (card.cves + [a.cveId])[..|card.cves|] == card.cves;
  }

  /** A known-exploited advisory with a fixed version. */
  predicate Exploits(s: Setting, a: Advisory) {
    a.cveId in s.catalog.kev && a.fixedVersion != ""
  }

  predicate SomeExploits(s: Setting, own: seq<Advisory>) {
    exists i :: 0 <= i < |own| && Exploits(s, own[i])
  }

  lemma SomeExploitsNext(s: Setting, own: seq<Advisory>, a: Advisory)
    ensures SomeExploits(s, own + [a]) <==> SomeExploits(s, own) || Exploits(s, a)
  {
    var more := own + [a];
    assert more[|own|] == a && forall i :: 0 <= i < |own| ==> more[i] == own[i];
  }

  lemma AddMakesCritical(s: Setting, card: Card, a: Advisory)
    ensures var after := AddToCard(card, s.catalog, a, MatchItem(s.inventory, s.catalog.kev, a));
            && after.applicability == card.applicability
            && (after.level == Critical <==> card.level == Critical || (card.applicability == Confirmed && Exploits(s, a)))
  {}

  /** A card is critical exactly when its first advisory was confirmed and some
      advisory of it is known exploited and has a fixed version. */
  lemma {:induction false} FirstAdvisoryDecidesCritical(s: Setting, own: seq<Advisory>)
    requires own != []
    ensures CardFrom(s, own).applicability == MatchItem(s.inventory, s.catalog.kev, own[0]).applicability
    ensures CardFrom(s, own).level == Critical
            <==> MatchItem(s.inventory, s.catalog.kev, own[0]).applicability == Confirmed && SomeExploits(s, own)
  {
    var n := |own| - 1;
    assert own == own[..n] + [own[n]];
    SomeExploitsNext(s, own[..n], own[n]);
    if n == 0 {
      AddMakesCritical(s, NewCard(MatchItem(s.inventory, s.catalog.kev, own[0])), own[0]);
    } else {
      FirstAdvisoryDecidesCritical(s, own[..n]);
      AddMakesCritical(s, CardFrom(s, own[..n]), own[n]);
    }
  }

  /** The same of the cards the fold builds. */
  lemma CardIsCriticalIff(s: Setting, k: nat, c: Category)
    requires k <= |s.catalog.advisories| && c in FoldUpTo(s, k).cards
    ensures var own := Own(s, k, c);
            && own != [] && CardSound(FoldUpTo(s, k).cards[c], s.catalog.kev)
            && FoldUpTo(s, k).cards[c].applicability == MatchItem(s.inventory, s.catalog.kev, own[0]).applicability
            && (FoldUpTo(s, k).cards[c].level == Critical
                <==> MatchItem(s.inventory, s.catalog.kev, own[0]).applicability == Confirmed && SomeExploits(s, own))
  {
    CardIsItsOwnFold(s, k, c);
    FoldKeepsCards(s, k);
    FirstAdvisoryDecidesCritical(s, Own(s, k, c));
  }

  /** A likely advisory without a fixed version, and a confirmed exploited one. */
  function LikelyOne(): Advisory {
    Advisory("CVE-1", true, true, Safari, Safari, Some(YEAR_2020), "", 5.0)
  }

  function ConfirmedOne(): Advisory {
    Advisory("CVE-2", true, true, Safari, Safari, Some(YEAR_2020), "2", 9.8)
  }

  function Catalogued(advisories: seq<Advisory>): Setting {
    Setting(Config(false, false), YEAR_2020, Inventory("", "", "1", "", false, (installed, fixed) => Some(true)),
            Catalog(advisories, {"CVE-2"}, map[]))
  }

  lemma ExampleMatches(advisories: seq<Advisory>)
    ensures var s := Catalogued(advisories);
            && Belongs(s, LikelyOne(), SafariCategory) && Belongs(s, ConfirmedOne(), SafariCategory)
            && MatchItem(s.inventory, s.catalog.kev, LikelyOne()).applicability == Likely
            && MatchItem(s.inventory, s.catalog.kev, ConfirmedOne()).applicability == Confirmed
            && Exploits(s, ConfirmedOne())
  {
    assert "CVE-1"[4] != "CVE-2"[4];
  }

  /** Coming second, the confirmed exploited advisory does not make its card
      critical; coming first, it does. */
  lemma LateConfirmationIsNotCritical()
    ensures var late, early := Catalogued([LikelyOne(), ConfirmedOne()]), Catalogued([ConfirmedOne(), LikelyOne()]);
            && SafariCategory in FoldUpTo(late, 2).cards && FoldUpTo(late, 2).cards[SafariCategory].level != Critical
            && SafariCategory in FoldUpTo(early, 2).cards && FoldUpTo(early, 2).cards[SafariCategory].level == Critical
  {
    TwoAdvisories(LikelyOne(), ConfirmedOne());
    TwoAdvisories(ConfirmedOne(), LikelyOne());
  }

  lemma TwoAdvisories(x: Advisory, y: Advisory)
    requires (x == LikelyOne() && y == ConfirmedOne()) || (x == ConfirmedOne() && y == LikelyOne())
    ensures var s := Catalogued([x, y]);
            SafariCategory in FoldUpTo(s, 2).cards && (FoldUpTo(s, 2).cards[SafariCategory].level == Critical <==> x == ConfirmedOne())
  {
    var s := Catalogued([x, y]);
    ExampleMatches([x, y]);
    assert Own(s, 1, SafariCategory) == [x] by {
      assert Own(s, 0, SafariCategory) == [] && s.catalog.advisories[0] == x;
    }
    assert Own(s, 2, SafariCategory) == [x, y];
    CardIsItsOwnFold(s, 2, SafariCategory);
    FirstAdvisoryDecidesCritical(s, [x, y]);
    assert Exploits(s, if x == ConfirmedOne() then [x, y][0] else [x, y][1]);
  }

  // ---------- the overall level ----------

  /** `_forecast_level`. */
  function ForecastLevel(cards: seq<Card>, updateAvailable: bool): Level {
    if cards == [] then Clear
    else if exists i :: 0 <= i < |cards| && cards[i].level == Critical then Critical
    else if exists i :: 0 <= i < |cards| && cards[i].level == Urgent then Urgent
    else if exists i :: 0 <= i < |cards| && cards[i].level == Elevated then Elevated
    else if exists i :: 0 <= i < |cards| && cards[i].applicability == ReviewNeeded then Watch
    else if updateAvailable then Elevated
    else Watch
  }

  /** l is the level of some card and none is higher. */
  predicate IsHighest(cards: seq<Card>, l: Level) {
    && (exists i :: 0 <= i < |cards| && cards[i].level == l)
    && (forall i :: 0 <= i < |cards| ==> LevelRank(cards[i].level) <= LevelRank(l))
  }

  /** The overall level is the highest card level when that is elevated or
      above; below that it is watch, or elevated for a pending update when no
      card awaits review. It is clear only for no cards at all. */
  lemma OverallIsHighest(cards: seq<Card>, updateAvailable: bool, highest: Level)
    requires IsHighest(cards, highest)
    ensures LevelRank(highest) >= LevelRank(Elevated) ==> ForecastLevel(cards, updateAvailable) == highest
    ensures LevelRank(highest) < LevelRank(Elevated) ==>
              (if updateAvailable && forall i :: 0 <= i < |cards| ==> cards[i].applicability != ReviewNeeded
               then ForecastLevel(cards, updateAvailable) == Elevated else ForecastLevel(cards, updateAvailable) == Watch)
  {}

  /** The cards displayed are those of the fold and, for a pending update, one
      elevated card without CVEs. */
  lemma FinalCardsAre(s: Setting)
    ensures var final, built := FinalCards(s), FoldUpTo(s, |s.catalog.advisories|).cards;
            && (forall c :: c != UpdateAvailable ==> (c in final <==> c in built) && (c in final ==> final[c] == built[c]))
            && (UpdateAvailable in final <==> s.inventory.updateAvailable)
            && (UpdateAvailable in final ==> final[UpdateAvailable] == Card(MacOSCategory, Elevated, Likely, [], [], [], HighSeverity))
  {
    NoUpdateKey(s, |s.catalog.advisories|);
  }

  /** With a pending update the cards built are never overall below elevated. */
  lemma PendingUpdateElevates(s: Setting, cards: seq<Card>)
    requires s.inventory.updateAvailable && forall c :: c in FinalCards(s) ==> FinalCards(s)[c] in cards
    ensures LevelRank(ForecastLevel(cards, true)) >= LevelRank(Elevated)
  {
    assert FinalCards(s)[UpdateAvailable] == UpdateCard();
  }
}
