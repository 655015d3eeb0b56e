/** How far a forecast card's level depends on the order of its advisories
    (mac_audit_agent/cve_radar.py, the loop of `_build_cards`). The first one
    gives the card its applicability; the others raise it in turn. */
module ForecastOrder {
  import opened Common
  import opened SecurityForecast

  /** What of an advisory a card's level and severity depend on. A plain one is
      neither known exploited nor of high exploit probability. */
  datatype Kind = KnownFixed | KnownOpen | Probable | Plain
  datatype Sign = Sign(kind: Kind, severity: Severity)

  function SignOf(s: Setting, a: Advisory): Sign {
    var kind :=
      if a.cveId in s.catalog.kev then (if a.fixedVersion != "" then KnownFixed else KnownOpen)
      else if EpssHigh(s.catalog, a.cveId) then Probable
      else Plain;
    Sign(kind, SeverityFromCvss(a.cvss))
  }

  datatype Rating = Rating(level: Level, severity: Severity)

  predicate RaisedBySeverity(applies: Applicability) {
    applies == Confirmed || applies == Likely
  }

  /** One more advisory on a card of the given applicability. */
  function Rate(applies: Applicability, r: Rating, x: Sign): Rating {
    var severity := SeverityMax(r.severity, x.severity);
    var raised :=
      match x.kind
      case KnownFixed => if applies == Confirmed then Critical else Urgent
      case KnownOpen => Urgent
      case Probable => Elevated
      case Plain => if RaisedBySeverity(applies) then LevelForSeverity(severity) else Clear;
    Rating(LevelMax(r.level, raised), severity)
  }

  function RateAll(applies: Applicability, xs: seq<Sign>): Rating {
    if xs == [] then Rating(Clear, InfoSeverity) else Rate(applies, RateAll(applies, xs[..|xs| - 1]), xs[|xs| - 1])
  }

  function Signs(s: Setting, own: seq<Advisory>): (r: seq<Sign>)
    ensures |r| == |own| && forall i :: 0 <= i < |own| ==> r[i] == SignOf(s, own[i])
  {
    if own == [] then [] else Signs(s, own[..|own| - 1]) + [SignOf(s, own[|own| - 1])]
  }

  lemma AddRates(s: Setting, card: Card, a: Advisory)
    ensures var after := AddToCard(card, s.catalog, a, MatchItem(s.inventory, s.catalog.kev, a));
            after.applicability == card.applicability
            && Rating(after.level, after.highestSeverity) == Rate(card.applicability, Rating(card.level, card.highestSeverity), SignOf(s, a))
  {}

  /** A card's level and severity are the rating of its advisories' signs. */
  lemma {:induction false} CardIsRated(s: Setting, own: seq<Advisory>)
    requires own != []
    ensures var card := CardFrom(s, own);
            && card.applicability == MatchItem(s.inventory, s.catalog.kev, own[0]).applicability
            && Rating(card.level, card.highestSeverity) == RateAll(card.applicability, Signs(s, own))
  {
    var n := |own| - 1;
    var m := MatchItem(s.inventory, s.catalog.kev, own[n]);
    assert Signs(s, own)[..n] == Signs(s, own[..n]);
    if n == 0 {
      AddRates(s, NewCard(m), own[0]);
    } else {
      CardIsRated(s, own[..n]);
      AddRates(s, CardFrom(s, own[..n]), own[n]);
    }
  }

  // ---------- the level, in terms of what occurs ----------

  predicate Occurs(xs: seq<Sign>, kind: Kind) {
    exists x :: x in xs && x.kind == kind
  }

  predicate OccursSevere(xs: seq<Sign>, kind: Kind) {
    Sign(kind, CriticalSeverity) in xs
  }

  predicate Known(xs: seq<Sign>) {
    Occurs(xs, KnownFixed) || Occurs(xs, KnownOpen)
  }

  /** A plain advisory at or after one of critical severity. */
  predicate PlainAfterSevere(xs: seq<Sign>) {
    exists i, j :: 0 <= i <= j < |xs| && xs[i].severity == CriticalSeverity && xs[j].kind == Plain
  }

  predicate IsTop(xs: seq<Sign>, v: Severity) {
    && (forall x :: x in xs ==> SeverityRank(x.severity) <= SeverityRank(v))
    && (v == InfoSeverity || exists x :: x in xs && x.severity == v)
  }

  lemma OccursNext(xs: seq<Sign>, x: Sign, kind: Kind)
    ensures Occurs(xs + [x], kind) <==> Occurs(xs, kind) || x.kind == kind
  {
    assert x in xs + [x];
  }

  lemma TopNext(xs: seq<Sign>, x: Sign, v: Severity)
    requires IsTop(xs, v)
    ensures IsTop(xs + [x], SeverityMax(v, x.severity))
  {
    assert x in xs + [x] && forall y :: y in xs ==> y in xs + [x];
  }

  lemma PlainAfterSevereNext(xs: seq<Sign>, x: Sign, v: Severity)
    requires IsTop(xs, v)
    ensures PlainAfterSevere(xs + [x]) <==> PlainAfterSevere(xs) || (x.kind == Plain && SeverityMax(v, x.severity) == CriticalSeverity)
  {
    var ys := xs + [x];
    var n := |xs|;
    assert ys[n] == x && forall i :: 0 <= i < n ==> ys[i] == xs[i];
    if x.kind == Plain && v == CriticalSeverity {
      var y :| y in xs && y.severity == CriticalSeverity;
      var i :| 0 <= i < n && xs[i] == y;
      assert ys[i].severity == CriticalSeverity && ys[n].kind == Plain;
    }
  }

  /** The rating of some advisories: its level is decided by what occurs among
      them, and only between elevated and urgent also by their order. */
  predicate Rated(applies: Applicability, xs: seq<Sign>, r: Rating) {
    && IsTop(xs, r.severity)
    && (Known(xs) ==> r.level == if applies == Confirmed && Occurs(xs, KnownFixed) then Critical else Urgent)
    && (!Known(xs) ==> LevelRank(r.level) <= LevelRank(Urgent)
                       && (r.level == Urgent <==> RaisedBySeverity(applies) && PlainAfterSevere(xs)))
    && (!Known(xs) && Occurs(xs, Probable) ==> LevelRank(r.level) >= LevelRank(Elevated))
    && (!Known(xs) && !Occurs(xs, Probable) ==> r.level == if RaisedBySeverity(applies) then LevelForSeverity(r.severity) else Clear)
  }

  lemma RatedNext(applies: Applicability, xs: seq<Sign>, r: Rating, x: Sign)
    requires Rated(applies, xs, r)
    ensures Rated(applies, xs + [x], Rate(applies, r, x))
  {
    OccursNext(xs, x, KnownFixed);
    OccursNext(xs, x, KnownOpen);
    OccursNext(xs, x, Probable);
    TopNext(xs, x, r.severity);
    PlainAfterSevereNext(xs, x, r.severity);
  }

  lemma {:induction false} RatedLevel(applies: Applicability, xs: seq<Sign>)
    ensures Rated(applies, xs, RateAll(applies, xs))
  {
    if xs != [] {
      var n := |xs| - 1;
      RatedLevel(applies, xs[..n]);
      RatedNext(applies, xs[..n], RateAll(applies, xs[..n]), xs[n]);
      assert xs == xs[..n] + [xs[n]];
    }
  }

  // ---------- when the order matters ----------

  /** No advisory is known exploited, severity raises the card, and there are
      plain advisories, but only high-probability ones are of critical severity. */
  predicate Mixed(applies: Applicability, xs: seq<Sign>) {
    && RaisedBySeverity(applies) && !Known(xs) && Occurs(xs, Plain) && !OccursSevere(xs, Plain) && OccursSevere(xs, Probable)
  }

  predicate SameSigns(xs: seq<Sign>, ys: seq<Sign>) {
    (forall x :: x in xs ==> x in ys) && (forall y :: y in ys ==> y in xs)
  }

  lemma KindsAreSame(xs: seq<Sign>, ys: seq<Sign>)
    requires SameSigns(xs, ys)
    ensures forall kind :: Occurs(xs, kind) <==> Occurs(ys, kind)
    ensures forall v, w :: IsTop(xs, v) && IsTop(ys, w) ==> v == w
  {}

  /** Unless mixed, plain after severe does not depend on the order. */
  lemma PlainAfterSevereByOccurrence(applies: Applicability, xs: seq<Sign>)
    requires RaisedBySeverity(applies) && !Known(xs) && !Mixed(applies, xs)
    ensures PlainAfterSevere(xs) <==> OccursSevere(xs, Plain)
  {
    if OccursSevere(xs, Plain) {
      var i :| 0 <= i < |xs| && xs[i] == Sign(Plain, CriticalSeverity);
      assert xs[i].severity == CriticalSeverity && xs[i].kind == Plain;
    }
    if PlainAfterSevere(xs) {
      var i, j :| 0 <= i <= j < |xs| && xs[i].severity == CriticalSeverity && xs[j].kind == Plain;
      assert xs[i] in xs && xs[j] in xs;
    }
  }

  /** Two orders give the same level, when the applicabilities they start from
      agree in what matters: whether severity raises the card and, for an
      exploited advisory with a fix, whether the card is confirmed. */
  lemma OrderIsImmaterial(applies: Applicability, other: Applicability, xs: seq<Sign>, ys: seq<Sign>)
    requires SameSigns(xs, ys) && !Mixed(applies, xs)
    requires RaisedBySeverity(applies) <==> RaisedBySeverity(other)
    requires Occurs(xs, KnownFixed) ==> (applies == Confirmed <==> other == Confirmed)
    ensures RateAll(applies, xs).level == RateAll(other, ys).level
  {
    RatedLevel(applies, xs);
    RatedLevel(other, ys);
    KindsAreSame(xs, ys);
    if RaisedBySeverity(applies) && !Known(xs) {
      PlainAfterSevereByOccurrence(applies, xs);
      PlainAfterSevereByOccurrence(other, ys);
    }
  }

  /** The plain advisories, and the others, in order. */
  function Part(xs: seq<Sign>, plain: bool): (r: seq<Sign>)
    ensures forall x :: x in r <==> x in xs && (x.kind == Plain) == plain
  {
    if xs == [] then []
    else
      var n := |xs| - 1;
      assert xs == xs[..n] + [xs[n]];
      Part(xs[..n], plain) + if (xs[n].kind == Plain) == plain then [xs[n]] else []
  }

  lemma {:induction false} PartsAreAll(xs: seq<Sign>)
    ensures multiset(Part(xs, true)) + multiset(Part(xs, false)) == multiset(xs)
  {
    if xs != [] {
      var n := |xs| - 1;
      PartsAreAll(xs[..n]);
      assert xs == xs[..n] + [xs[n]];
    }
  }

  /** A mixed card is elevated with its plain advisories first, urgent with them
      last. */
  lemma OrderMatters(applies: Applicability, xs: seq<Sign>)
    requires Mixed(applies, xs)
    ensures var first, last := Part(xs, true) + Part(xs, false), Part(xs, false) + Part(xs, true);
            && multiset(first) == multiset(xs) == multiset(last)
            && RateAll(applies, first).level == Elevated && RateAll(applies, last).level == Urgent
  {
    PartsAreAll(xs);
    PlainFirst(xs);
    PlainLast(xs);
    MixedLevel(applies, xs, Part(xs, true) + Part(xs, false));
    MixedLevel(applies, xs, Part(xs, false) + Part(xs, true));
  }

  lemma MixedLevel(applies: Applicability, xs: seq<Sign>, ys: seq<Sign>)
    requires Mixed(applies, xs) && forall x :: x in ys <==> x in xs
    ensures RateAll(applies, ys).level == if PlainAfterSevere(ys) then Urgent else Elevated
  {
    MixedEitherWay(xs, ys);
    RatedLevel(applies, ys);
  }

  lemma MixedEitherWay(xs: seq<Sign>, ys: seq<Sign>)
    requires forall x :: x in ys <==> x in xs
    ensures Known(ys) <==> Known(xs)
    ensures OccursSevere(xs, Probable) ==> Occurs(ys, Probable)
  {
    KindsAreSame(xs, ys);
  }

  lemma PlainFirst(xs: seq<Sign>)
    requires !OccursSevere(xs, Plain)
    ensures !PlainAfterSevere(Part(xs, true) + Part(xs, false))
  {
    var plain, ys := Part(xs, true), Part(xs, true) + Part(xs, false);
    assert forall k :: |plain| <= k < |ys| ==> ys[k] in Part(xs, false);
    assert forall k :: 0 <= k < |plain| ==> ys[k] in plain;
  }

  lemma PlainLast(xs: seq<Sign>)
    requires Occurs(xs, Plain) && OccursSevere(xs, Probable)
    ensures PlainAfterSevere(Part(xs, false) + Part(xs, true))
  {
    var rest, plain := Part(xs, false), Part(xs, true);
    var ys := rest + plain;
    var x :| x in xs && x.kind == Plain;
    var i :| 0 <= i < |rest| && rest[i] == Sign(Probable, CriticalSeverity);
    var j :| 0 <= j < |plain| && plain[j] == x;
    assert ys[i] == rest[i] && ys[|rest| + j] == plain[j];
  }

  lemma SameBag(xs: seq<Sign>, ys: seq<Sign>)
    requires multiset(xs) == multiset(ys)
    ensures SameSigns(xs, ys)
  {
    assert forall x :: x in ys <==> x in multiset(ys);
    assert forall x :: x in xs <==> x in multiset(xs);
  }

  /** Under one applicability the order of the signs is immaterial to the level
      exactly when they are not mixed. */
  lemma OrderIsImmaterialIff(applies: Applicability, xs: seq<Sign>)
    ensures (forall ys :: multiset(ys) == multiset(xs) ==> RateAll(applies, ys).level == RateAll(applies, xs).level) <==> !Mixed(applies, xs)
  {
    if Mixed(applies, xs) {
      OrderMatters(applies, xs);
    } else {
      forall ys | multiset(ys) == multiset(xs) ensures RateAll(applies, ys).level == RateAll(applies, xs).level {
        SameBag(xs, ys);
        OrderIsImmaterial(applies, applies, xs, ys);
      }
    }
  }

  // ---------- the cards of one category ----------

  function AppliesTo(s: Setting, a: Advisory): Applicability {
    MatchItem(s.inventory, s.catalog.kev, a).applicability
  }

  predicate AllBelong(s: Setting, own: seq<Advisory>, c: Category) {
    forall i :: 0 <= i < |own| ==> Belongs(s, own[i], c)
  }

  /** In one category either every advisory's severity raises the card or none's. */
  lemma OneCategoryRaisesAlike(s: Setting, a: Advisory, b: Advisory, c: Category)
    requires Belongs(s, a, c) && Belongs(s, b, c)
    ensures RaisedBySeverity(AppliesTo(s, a)) <==> RaisedBySeverity(AppliesTo(s, b))
  {
    MacOSIsAlwaysDetected(s.inventory);
  }

  /** An exploited advisory with a fix, and advisories that are confirmed and
      others that are not: the first one decides whether the card is critical. */
  predicate FirstDecides(s: Setting, own: seq<Advisory>) {
    && SomeExploits(s, own)
    && (exists i :: 0 <= i < |own| && AppliesTo(s, own[i]) == Confirmed)
    && (exists i :: 0 <= i < |own| && AppliesTo(s, own[i]) != Confirmed)
  }

  /** The mixtures of one category whose order decides the level. */
  predicate OrderCounts(s: Setting, own: seq<Advisory>)
    requires own != []
  {
    Mixed(AppliesTo(s, own[0]), Signs(s, own)) || FirstDecides(s, own)
  }

  lemma ExploitsAreFixed(s: Setting, own: seq<Advisory>)
    ensures SomeExploits(s, own) <==> Occurs(Signs(s, own), KnownFixed)
  {
    if SomeExploits(s, own) {
      var i :| 0 <= i < |own| && Exploits(s, own[i]);
      assert Signs(s, own)[i] in Signs(s, own);
    }
    if Occurs(Signs(s, own), KnownFixed) {
      var x :| x in Signs(s, own) && x.kind == KnownFixed;
      var i :| 0 <= i < |own| && Signs(s, own)[i] == x;
      assert Exploits(s, own[i]);
    }
  }

  lemma CardLevel(s: Setting, own: seq<Advisory>)
    requires own != []
    ensures CardFrom(s, own).level == RateAll(AppliesTo(s, own[0]), Signs(s, own)).level
  {
    CardIsRated(s, own);
  }

  lemma {:induction false} SignsOfSame(s: Setting, own: seq<Advisory>, other: seq<Advisory>)
    requires multiset(own) == multiset(other)
    ensures forall x :: x in Signs(s, own) ==> x in Signs(s, other)
  {
    assert forall a :: a in own ==> a in multiset(own);
    forall x | x in Signs(s, own) ensures x in Signs(s, other) {
      var i :| 0 <= i < |own| && Signs(s, own)[i] == x;
      assert own[i] in multiset(other);
      var j :| 0 <= j < |other| && other[j] == own[i];
      assert Signs(s, other)[j] == x;
    }
  }

  lemma Shuffled(own: seq<Advisory>, other: seq<Advisory>, i: nat)
    requires multiset(own) == multiset(other) && i < |other|
    ensures exists j :: 0 <= j < |own| && own[j] == other[i]
  {
    assert other[i] in multiset(other);
    assert other[i] in own;
  }

  /** Unless the order counts, every order of a category's advisories gives the
      level. */
  lemma CardOrderIsImmaterial(s: Setting, own: seq<Advisory>, other: seq<Advisory>, c: Category)
    requires own != [] && other != [] && multiset(own) == multiset(other)
    requires AllBelong(s, own, c) && !OrderCounts(s, own)
    ensures CardFrom(s, own).level == CardFrom(s, other).level
  {
    CardLevel(s, own);
    CardLevel(s, other);
    SignsOfSame(s, own, other);
    SignsOfSame(s, other, own);
    ExploitsAreFixed(s, own);
    Shuffled(own, other, 0);
    var j :| 0 <= j < |own| && own[j] == other[0];
    OneCategoryRaisesAlike(s, own[0], own[j], c);
    assert AppliesTo(s, own[0]) == Confirmed && AppliesTo(s, own[j]) != Confirmed && SomeExploits(s, own) ==> FirstDecides(s, own);
    assert AppliesTo(s, own[0]) != Confirmed && AppliesTo(s, own[j]) == Confirmed && SomeExploits(s, own) ==> FirstDecides(s, own);
    OrderIsImmaterial(AppliesTo(s, own[0]), AppliesTo(s, other[0]), Signs(s, own), Signs(s, other));
  }

  // ---------- reordering a card ----------

  /** Advisory j brought to the front. */
  function ToFront(own: seq<Advisory>, j: nat): (r: seq<Advisory>)
    requires j < |own|
    ensures multiset(r) == multiset(own) && r != [] && r[0] == own[j]
  {
    assert own == own[..j] + [own[j]] + own[j + 1..];
    [own[j]] + own[..j] + own[j + 1..]
  }

  lemma SomeExploitsAnyway(s: Setting, own: seq<Advisory>, other: seq<Advisory>)
    requires multiset(own) == multiset(other) && SomeExploits(s, own)
    ensures SomeExploits(s, other)
  {
    var i :| 0 <= i < |own| && Exploits(s, own[i]);
    Shuffled(other, own, i);
  }

  /** When the first one decides, another first one gives another level. */
  lemma AnotherFirst(s: Setting, own: seq<Advisory>) returns (other: seq<Advisory>)
    requires own != [] && FirstDecides(s, own)
    ensures other != [] && multiset(other) == multiset(own) && CardFrom(s, other).level != CardFrom(s, own).level
  {
    var j: nat :| j < |own| && (AppliesTo(s, own[j]) == Confirmed <==> AppliesTo(s, own[0]) != Confirmed);
    other := ToFront(own, j);
    SomeExploitsAnyway(s, own, other);
    FirstAdvisoryDecidesCritical(s, own);
    FirstAdvisoryDecidesCritical(s, other);
  }

  /** The plain advisories, or the others, in order. */
  function PlainPart(s: Setting, own: seq<Advisory>, plain: bool): (r: seq<Advisory>)
    ensures forall a :: a in r ==> a in own
  {
    if own == [] then []
    else
      var n := |own| - 1;
      PlainPart(s, own[..n], plain) + if (SignOf(s, own[n]).kind == Plain) == plain then [own[n]] else []
  }

  lemma {:induction false} SignsAppend(s: Setting, a: seq<Advisory>, b: seq<Advisory>)
    ensures Signs(s, a + b) == Signs(s, a) + Signs(s, b)
  {}

  lemma {:induction false} PlainPartIsPart(s: Setting, own: seq<Advisory>, plain: bool)
    ensures Signs(s, PlainPart(s, own, plain)) == Part(Signs(s, own), plain)
  {
    if own != [] {
      var n := |own| - 1;
      PlainPartIsPart(s, own[..n], plain);
      assert Signs(s, own)[..n] == Signs(s, own[..n]);
      SignsAppend(s, PlainPart(s, own[..n], plain), if (SignOf(s, own[n]).kind == Plain) == plain then [own[n]] else []);
    }
  }

  lemma {:induction false} PlainPartsAreAll(s: Setting, own: seq<Advisory>)
    ensures multiset(PlainPart(s, own, true)) + multiset(PlainPart(s, own, false)) == multiset(own)
  {
    if own != [] {
      var n := |own| - 1;
      PlainPartsAreAll(s, own[..n]);
      assert own == own[..n] + [own[n]];
    }
  }

  /** One of the two orders, plain ones first or last, on advisories. */
  function PlainOrder(s: Setting, own: seq<Advisory>, first: bool): seq<Advisory> {
    PlainPart(s, own, first) + PlainPart(s, own, !first)
  }

  lemma PlainOrderIsOrder(s: Setting, own: seq<Advisory>, first: bool)
    ensures multiset(PlainOrder(s, own, first)) == multiset(own) && |PlainOrder(s, own, first)| == |own|
    ensures Signs(s, PlainOrder(s, own, first)) == Part(Signs(s, own), first) + Part(Signs(s, own), !first)
  {
    PlainPartsAreAll(s, own);
    assert |multiset(PlainOrder(s, own, first))| == |PlainOrder(s, own, first)| && |multiset(own)| == |own|;
    PlainPartIsPart(s, own, first);
    PlainPartIsPart(s, own, !first);
    SignsAppend(s, PlainPart(s, own, first), PlainPart(s, own, !first));
  }

  /** A mixed card is elevated with its plain advisories first and urgent with
      them last, whichever applicability comes first. */
  lemma MixedCardTurns(s: Setting, own: seq<Advisory>, c: Category, first: bool)
    requires own != [] && AllBelong(s, own, c) && Mixed(AppliesTo(s, own[0]), Signs(s, own))
    ensures PlainOrder(s, own, first) != [] && CardFrom(s, PlainOrder(s, own, first)).level == if first then Elevated else Urgent
  {
    var other := PlainOrder(s, own, first);
    PlainOrderIsOrder(s, own, first);
    Shuffled(own, other, 0);
    var j :| 0 <= j < |own| && own[j] == other[0];
    OneCategoryRaisesAlike(s, own[0], own[j], c);
    OrderMatters(AppliesTo(s, other[0]), Signs(s, own));
    CardLevel(s, other);
  }

  /** A category's advisories give its card the same level in every order if and
      only if they are not one of the two mixtures. */
  lemma CardOrderIff(s: Setting, own: seq<Advisory>, c: Category)
    requires own != [] && AllBelong(s, own, c)
    ensures (forall other :: other != [] && multiset(other) == multiset(own) ==> CardFrom(s, other).level == CardFrom(s, own).level)
            <==> !OrderCounts(s, own)
  {
    if !OrderCounts(s, own) {
      forall other | other != [] && multiset(other) == multiset(own) ensures CardFrom(s, other).level == CardFrom(s, own).level {
        CardOrderIsImmaterial(s, own, other, c);
      }
    } else {
      var other := AnotherOrder(s, own, c);
    }
  }

  lemma AnotherOrder(s: Setting, own: seq<Advisory>, c: Category) returns (other: seq<Advisory>)
    requires own != [] && AllBelong(s, own, c) && OrderCounts(s, own)
    ensures other != [] && multiset(other) == multiset(own) && CardFrom(s, other).level != CardFrom(s, own).level
  {
    if FirstDecides(s, own) {
      other := AnotherFirst(s, own);
    } else {
      var first := CardFrom(s, own).level != Elevated;
      PlainOrderIsOrder(s, own, first);
      MixedCardTurns(s, own, c, first);
      other := PlainOrder(s, own, first);
    }
  }

  // ---------- reordering the catalog ----------

  /** t is s with its advisories in another order. */
  ghost predicate Reordered(s: Setting, t: Setting) {
    t == s.(catalog := s.catalog.(advisories := t.catalog.advisories)) && multiset(t.catalog.advisories) == multiset(s.catalog.advisories)
  }

  lemma SameJudgement(s: Setting, t: Setting, a: Advisory, c: Category)
    requires t == s.(catalog := s.catalog.(advisories := t.catalog.advisories))
    ensures Belongs(t, a, c) <==> Belongs(s, a, c)
    ensures SignOf(t, a) == SignOf(s, a) && AppliesTo(t, a) == AppliesTo(s, a) && (Exploits(t, a) <==> Exploits(s, a))
  {}

  lemma {:induction false} SameCard(s: Setting, t: Setting, own: seq<Advisory>)
    requires own != [] && t == s.(catalog := s.catalog.(advisories := t.catalog.advisories))
    ensures CardFrom(t, own) == CardFrom(s, own)
  {
    if |own| > 1 { SameCard(s, t, own[..|own| - 1]); }
  }

  // Filtering, on any sequence.

  function Filter<T>(xs: seq<T>, p: T -> bool): seq<T> {
    if xs == [] then [] else Filter(xs[..|xs| - 1], p) + if p(xs[|xs| - 1]) then [xs[|xs| - 1]] else []
  }

  lemma {:induction false} FilterKeeps<T>(xs: seq<T>, p: T -> bool)
    ensures forall i :: 0 <= i < |Filter(xs, p)| ==> p(Filter(xs, p)[i])
  {
    if xs != [] { FilterKeeps(xs[..|xs| - 1], p); }
  }

  lemma {:induction false} FilterCounted<T>(xs: seq<T>, p: T -> bool, x: T)
    ensures multiset(Filter(xs, p))[x] == if p(x) then multiset(xs)[x] else 0
  {
    if xs != [] {
      FilterCounted(xs[..|xs| - 1], p, x);
      assert xs == xs[..|xs| - 1] + [xs[|xs| - 1]];
    }
  }

  lemma FilterBag(xs: seq<Advisory>, ys: seq<Advisory>, p: Advisory -> bool)
    requires multiset(xs) == multiset(ys)
    ensures multiset(Filter(xs, p)) == multiset(Filter(ys, p))
  {
    forall x ensures multiset(Filter(xs, p))[x] == multiset(Filter(ys, p))[x] {
      FilterCounted(xs, p, x);
      FilterCounted(ys, p, x);
    }
  }

  lemma FilterParts(xs: seq<Advisory>, p: Advisory -> bool, q: Advisory -> bool)
    requires forall x :: q(x) <==> !p(x)
    ensures multiset(Filter(xs, p)) + multiset(Filter(xs, q)) == multiset(xs)
  {
    forall x ensures (multiset(Filter(xs, p)) + multiset(Filter(xs, q)))[x] == multiset(xs)[x] {
      FilterCounted(xs, p, x);
      FilterCounted(xs, q, x);
    }
  }

  lemma {:induction false} FilterAll<T>(xs: seq<T>, p: T -> bool)
    requires forall i :: 0 <= i < |xs| ==> p(xs[i])
    ensures Filter(xs, p) == xs
  {
    if xs != [] { FilterAll(xs[..|xs| - 1], p); }
  }

  /** What comes first and is kept comes out in its order. */
  lemma {:induction false} FilterFront<T>(xs: seq<T>, rest: seq<T>, p: T -> bool)
    requires (forall i :: 0 <= i < |xs| ==> p(xs[i])) && forall i :: 0 <= i < |rest| ==> !p(rest[i])
    ensures Filter(xs + rest, p) == xs
  {
    if rest == [] {
      FilterAll(xs, p);
      assert xs + rest == xs;
    } else {
      var n := |rest| - 1;
      FilterFront(xs, rest[..n], p);
      assert (xs + rest)[..|xs + rest| - 1] == xs + rest[..n];
    }
  }

  lemma {:induction false} FilterAgrees<T>(xs: seq<T>, p: T -> bool, q: T -> bool)
    requires forall x :: p(x) <==> q(x)
    ensures Filter(xs, p) == Filter(xs, q)
  {
    if xs != [] { FilterAgrees(xs[..|xs| - 1], p, q); }
  }

  // A category's advisories are filtered from the catalog.

  function In(s: Setting, c: Category): Advisory -> bool {
    a => Belongs(s, a, c)
  }

  function NotIn(s: Setting, c: Category): Advisory -> bool {
    a => !Belongs(s, a, c)
  }

  lemma {:induction false} OwnIsFiltered(s: Setting, k: nat, c: Category)
    requires k <= |s.catalog.advisories|
    ensures Own(s, k, c) == Filter(s.catalog.advisories[..k], In(s, c))
  {
    if k > 0 {
      OwnIsFiltered(s, k - 1, c);
      assert s.catalog.advisories[..k][..k - 1] == s.catalog.advisories[..k - 1];
    }
  }

  /** All of a catalog's advisories of category c, in order. */
  function Whole(s: Setting, c: Category): (r: seq<Advisory>)
    ensures r == Own(s, |s.catalog.advisories|, c)
  {
    OwnIsFiltered(s, |s.catalog.advisories|, c);
    assert s.catalog.advisories[..|s.catalog.advisories|] == s.catalog.advisories;
    Filter(s.catalog.advisories, In(s, c))
  }

  lemma WholeBelong(s: Setting, c: Category)
    ensures AllBelong(s, Whole(s, c), c)
  {
    FilterKeeps(s.catalog.advisories, In(s, c));
  }

  lemma SameIn(s: Setting, t: Setting, c: Category)
    requires t == s.(catalog := s.catalog.(advisories := t.catalog.advisories))
    ensures forall a :: In(t, c)(a) <==> In(s, c)(a)
  {
    forall a ensures In(t, c)(a) <==> In(s, c)(a) { SameJudgement(s, t, a, c); }
  }

  /** Reordering the catalog reorders the advisories of every category. */
  lemma WholeReordered(s: Setting, t: Setting, c: Category)
    requires Reordered(s, t)
    ensures multiset(Whole(t, c)) == multiset(Whole(s, c)) && |Whole(t, c)| == |Whole(s, c)|
  {
    SameIn(s, t, c);
    FilterAgrees(t.catalog.advisories, In(t, c), In(s, c));
    FilterBag(s.catalog.advisories, t.catalog.advisories, In(s, c));
    assert |multiset(Whole(t, c))| == |Whole(t, c)| && |multiset(Whole(s, c))| == |Whole(s, c)|;
  }

  /** The catalog with category c's advisories first, in the given order. */
  function Fronted(s: Setting, c: Category, own: seq<Advisory>): Setting {
    s.(catalog := s.catalog.(advisories := own + Filter(s.catalog.advisories, NotIn(s, c))))
  }

  lemma FrontedIsReordered(s: Setting, c: Category, own: seq<Advisory>)
    requires multiset(own) == multiset(Whole(s, c))
    ensures Reordered(s, Fronted(s, c, own)) && Whole(Fronted(s, c, own), c) == own
  {
    var t, rest := Fronted(s, c, own), Filter(s.catalog.advisories, NotIn(s, c));
    FilterParts(s.catalog.advisories, In(s, c), NotIn(s, c));
    SameIn(s, t, c);
    FilterKeeps(s.catalog.advisories, NotIn(s, c));
    WholeBelong(s, c);
    forall i | 0 <= i < |own| ensures In(s, c)(own[i]) { Shuffled(Whole(s, c), own, i); }
    FilterFront(own, rest, In(s, c));
    FilterAgrees(own + rest, In(t, c), In(s, c));
  }

  /** The level of category c's card after the whole catalog. */
  function FinalLevel(s: Setting, c: Category): Option<Level> {
    var cards := FoldUpTo(s, |s.catalog.advisories|).cards;
    if c in cards then Some(cards[c].level) else None
  }

  lemma FinalLevelIsOwn(s: Setting, c: Category)
    ensures FinalLevel(s, c) == if Whole(s, c) == [] then None else Some(CardFrom(s, Whole(s, c)).level)
  {
    CardIsItsOwnFold(s, |s.catalog.advisories|, c);
  }

  ghost predicate OrderFree(s: Setting, c: Category) {
    forall t :: Reordered(s, t) ==> FinalLevel(t, c) == FinalLevel(s, c)
  }

  /** Every order of the catalog gives category c's card the same level if and
      only if its advisories are not one of the two mixtures. */
  lemma CatalogOrderIff(s: Setting, c: Category)
    requires FinalLevel(s, c) != None
    ensures Whole(s, c) != [] && (OrderFree(s, c) <==> !OrderCounts(s, Whole(s, c)))
  {
    FinalLevelIsOwn(s, c);
    if OrderCounts(s, Whole(s, c)) {
      var t := AnotherCatalog(s, c);
    } else {
      forall t | Reordered(s, t) ensures FinalLevel(t, c) == FinalLevel(s, c) {
        ReorderedKeepsLevel(s, t, c);
      }
    }
  }

  lemma AnotherCatalog(s: Setting, c: Category) returns (t: Setting)
    requires Whole(s, c) != [] && OrderCounts(s, Whole(s, c))
    ensures Reordered(s, t) && FinalLevel(t, c) != FinalLevel(s, c)
  {
    WholeBelong(s, c);
    var other := AnotherOrder(s, Whole(s, c), c);
    t := Fronted(s, c, other);
    FrontedIsReordered(s, c, other);
    FinalLevelIsOwn(s, c);
    FinalLevelIsOwn(t, c);
    SameCard(s, t, other);
  }

  lemma ReorderedKeepsLevel(s: Setting, t: Setting, c: Category)
    requires Reordered(s, t) && Whole(s, c) != [] && !OrderCounts(s, Whole(s, c))
    ensures FinalLevel(t, c) == FinalLevel(s, c)
  {
    FinalLevelIsOwn(s, c);
    FinalLevelIsOwn(t, c);
    WholeBelong(s, c);
    WholeReordered(s, t, c);
    CardOrderIsImmaterial(s, Whole(s, c), Whole(t, c), c);
    SameCard(s, t, Whole(t, c));
  }

  // ---------- an example ----------

  /** A probable severe advisory and a plain mild one, of one likely product. */
  function SevereOne(): Advisory {
    Advisory("CVE-1", true, true, Safari, Safari, Some(YEAR_2020), "", 9.5)
  }

  function MildOne(): Advisory {
    Advisory("CVE-2", true, true, Safari, Safari, Some(YEAR_2020), "", 1.0)
  }

  function Listing(advisories: seq<Advisory>): Setting {
    Setting(Config(false, false), YEAR_2020, Inventory("", "", "1", "", false, (installed, fixed) => None),
            Catalog(advisories, {}, map["CVE-1" := 0.95]))
  }

  lemma ExampleSigns(advisories: seq<Advisory>)
    ensures var s := Listing(advisories);
            && SignOf(s, SevereOne()) == Sign(Probable, CriticalSeverity) && SignOf(s, MildOne()) == Sign(Plain, LowSeverity)
            && AppliesTo(s, SevereOne()) == Likely && AppliesTo(s, MildOne()) == Likely
            && Belongs(s, SevereOne(), SafariCategory) && Belongs(s, MildOne(), SafariCategory)
  {
    assert "CVE-1"[4] != "CVE-2"[4];
  }

  lemma PairIsWhole(s: Setting, a: Advisory, b: Advisory, c: Category)
    requires s.catalog.advisories == [a, b] && Belongs(s, a, c) && Belongs(s, b, c)
    ensures Whole(s, c) == [a, b]
  {
    FilterAll([a, b], In(s, c));
  }

  lemma TwoRated(s: Setting, a: Advisory, b: Advisory, x: Sign, y: Sign)
    requires s.catalog.advisories == [a, b] && Belongs(s, a, SafariCategory) && Belongs(s, b, SafariCategory)
    requires AppliesTo(s, a) == Likely && SignOf(s, a) == x && SignOf(s, b) == y
    ensures FinalLevel(s, SafariCategory) == Some(RateAll(Likely, [x, y]).level)
  {
    PairIsWhole(s, a, b, SafariCategory);
    FinalLevelIsOwn(s, SafariCategory);
    CardLevel(s, [a, b]);
    assert Signs(s, [a, b]) == [x, y];
  }

  lemma RatedInTurn(x: Sign, y: Sign)
    ensures RateAll(Likely, [x, y]) == Rate(Likely, Rate(Likely, Rating(Clear, InfoSeverity), x), y)
  {
    assert [x, y][..1] == [x] && [x][..0] == [];
    assert RateAll(Likely, [x]) == Rate(Likely, RateAll(Likely, []), x);
    assert RateAll(Likely, [x, y]) == Rate(Likely, RateAll(Likely, [x]), y);
  }

  /** The two signs in the two orders. */
  lemma ExampleRates()
    ensures RateAll(Likely, [Sign(Probable, CriticalSeverity), Sign(Plain, LowSeverity)]).level == Urgent
    ensures RateAll(Likely, [Sign(Plain, LowSeverity), Sign(Probable, CriticalSeverity)]).level == Elevated
  {
    RatedInTurn(Sign(Probable, CriticalSeverity), Sign(Plain, LowSeverity));
    RatedInTurn(Sign(Plain, LowSeverity), Sign(Probable, CriticalSeverity));
  }

  lemma SevereFirst()
    ensures FinalLevel(Listing([SevereOne(), MildOne()]), SafariCategory) == Some(Urgent)
  {
    ExampleSigns([SevereOne(), MildOne()]);
    TwoRated(Listing([SevereOne(), MildOne()]), SevereOne(), MildOne(), Sign(Probable, CriticalSeverity), Sign(Plain, LowSeverity));
    ExampleRates();
  }

  lemma MildFirst()
    ensures FinalLevel(Listing([MildOne(), SevereOne()]), SafariCategory) == Some(Elevated)
  {
    ExampleSigns([MildOne(), SevereOne()]);
    TwoRated(Listing([MildOne(), SevereOne()]), MildOne(), SevereOne(), Sign(Plain, LowSeverity), Sign(Probable, CriticalSeverity));
    ExampleRates();
  }

  /** Two advisories that make their card urgent in one order of the catalog and
      elevated in the other. */
  lemma SameAdvisoriesOtherLevel()
    ensures Reordered(Listing([SevereOne(), MildOne()]), Listing([MildOne(), SevereOne()]))
    ensures FinalLevel(Listing([SevereOne(), MildOne()]), SafariCategory) == Some(Urgent)
    ensures FinalLevel(Listing([MildOne(), SevereOne()]), SafariCategory) == Some(Elevated)
  {
    SevereFirst();
    MildFirst();
  }
}
