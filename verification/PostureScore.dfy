/** Continuous posture scoring (mac_audit_agent/continuous_security_assurance.py):
    two stages of rounding, the impact recorded for a change, and the trust
    decision. Statuses and observed values are inputs. */
module PostureScore {
  import opened Common
  import opened Rounding

  datatype Domain = Identity | Software | Configuration | Threat | Recovery | Other(name: string)

  const DOMAINS: seq<Domain> := [Identity, Software, Configuration, Threat, Recovery]

  function DomainWeight(d: Domain): int {
    match d
    case Identity => 20
    case Software => 20
    case Configuration => 25
    case Threat => 25
    case Recovery => 10
    case Other(_) => 0
  }

  datatype Healthy = WhenTrue | WhenZero | Otherwise(rule: string)
  datatype Severity = Critical | High | Medium | Low | Info
  datatype Status = Validated | Concern | Unknown

  datatype Definition = Definition(key: string, domain: Domain, weight: int, healthy: Healthy, severity: Severity)

  /** One evaluated signal; `observed` is the canonical text of the value seen. */
  datatype Signal = Signal(def: Definition, status: Status, observed: string)

  // ---------- validation ----------

  predicate Valid(defs: seq<Definition>) {
    && (forall i, j :: 0 <= i < j < |defs| ==> defs[i].key != defs[j].key)
    && (forall i :: 0 <= i < |defs| ==> !defs[i].domain.Other? && !defs[i].healthy.Otherwise? && defs[i].weight > 0)
  }

  /** `_validate_definitions`: false where the source raises. */
  method ValidateDefinitions(defs: seq<Definition>) returns (ok: bool)
    ensures ok <==> Valid(defs)
  {
    var keys: set<string> := {};
    for i := 0 to |defs|
      invariant Valid(defs[..i])
      invariant keys == set k | 0 <= k < i :: defs[k].key
    {
      var item := defs[i];
      if item.key in keys || item.domain.Other? || item.healthy.Otherwise? || item.weight <= 0 {
        return false;
      }
      keys := keys + {item.key};
    }
    assert defs[..|defs|] == defs;
    ok := true;
  }

  function Defs(signals: seq<Signal>): seq<Definition> {
    seq(|signals|, i requires 0 <= i < |signals| => signals[i].def)
  }

  // ---------- scores ----------

  function Clamp(v: int): int {
    if v > 100 then 100 else if v < 0 then 0 else v
  }

  function Credit(s: Signal): int {
    if s.status == Validated then s.def.weight else 0
  }

  function DomainTotal(signals: seq<Signal>, d: Domain): int {
    if signals == [] then 0
    else DomainTotal(signals[1..], d) + if signals[0].def.domain == d then signals[0].def.weight else 0
  }

  function DomainCredit(signals: seq<Signal>, d: Domain): int {
    if signals == [] then 0
    else DomainCredit(signals[1..], d) + if signals[0].def.domain == d then Credit(signals[0]) else 0
  }

  function KnownWeight(signals: seq<Signal>): int {
    if signals == [] then 0
    else KnownWeight(signals[1..]) + if signals[0].status != Unknown then signals[0].def.weight else 0
  }

  function TotalWeight(signals: seq<Signal>): int {
    if signals == [] then 0 else TotalWeight(signals[1..]) + signals[0].def.weight
  }

  /** `_domain_score` of a domain with the given weight sums. */
  function Percent(credit: int, total: int): int {
    if total <= 0 then 0 else Clamp(Round(100 * credit, total))
  }

  function DomainScore(signals: seq<Signal>, d: Domain): int {
    Percent(DomainCredit(signals, d), DomainTotal(signals, d))
  }

  function WeightedSum(signals: seq<Signal>): int {
    DomainScore(signals, Identity) * 20 + DomainScore(signals, Software) * 20 + DomainScore(signals, Configuration) * 25
    + DomainScore(signals, Threat) * 25 + DomainScore(signals, Recovery) * 10
  }

  function SecurityScore(signals: seq<Signal>): int {
    Clamp(Round(WeightedSum(signals), 100))
  }

  function Coverage(signals: seq<Signal>): int {
    Percent(KnownWeight(signals), TotalWeight(signals))
  }

  datatype Trust = InsufficientEvidence | RestrictedTrust | ConditionalTrust | VerifiedTrust

  function TrustRank(t: Trust): int {
    match t case InsufficientEvidence => 0 case RestrictedTrust => 1 case ConditionalTrust => 2 case VerifiedTrust => 3
  }

  predicate CriticalConcern(signals: seq<Signal>) {
    exists i :: 0 <= i < |signals| && signals[i].status == Concern && signals[i].def.severity == Critical
  }

  function TrustDecision(score: int, coverage: int, signals: seq<Signal>): Trust {
    if coverage < 60 then InsufficientEvidence
    else if CriticalConcern(signals) then RestrictedTrust
    else if score >= 90 then VerifiedTrust
    else if score >= 70 then ConditionalTrust
    else RestrictedTrust
  }

  function TrustOf(signals: seq<Signal>): Trust {
    TrustDecision(SecurityScore(signals), Coverage(signals), signals)
  }

  /** What each decision takes: enough evidence for any but the lowest, no
      critical concern for trust, and a score of 70 or 90. */
  lemma TrustTakes(score: int, coverage: int, signals: seq<Signal>)
    ensures var t, sound := TrustDecision(score, coverage, signals), coverage >= 60 && !CriticalConcern(signals);
            && (t == InsufficientEvidence <==> coverage < 60)
            && (t == VerifiedTrust <==> sound && score >= 90)
            && (TrustRank(t) >= TrustRank(ConditionalTrust) <==> sound && score >= 70)
  {}

  // ---------- the exact weighted percentage ----------

  function ExactShare(signals: seq<Signal>, d: Domain): real {
    if DomainTotal(signals, d) <= 0 then 0.0 else (100 * DomainCredit(signals, d)) as real / DomainTotal(signals, d) as real
  }

  /** The weighted percentage with no rounding at all. */
  function ExactScore(signals: seq<Signal>): real {
    (ExactShare(signals, Identity) * 20.0 + ExactShare(signals, Software) * 20.0 + ExactShare(signals, Configuration) * 25.0
     + ExactShare(signals, Threat) * 25.0 + ExactShare(signals, Recovery) * 10.0) / 100.0
  }

  lemma {:induction false} CreditWithinTotal(signals: seq<Signal>, d: Domain)
    requires forall i :: 0 <= i < |signals| ==> signals[i].def.weight > 0
    ensures 0 <= DomainCredit(signals, d) <= DomainTotal(signals, d)
  {
    if signals != [] { CreditWithinTotal(signals[1..], d); }
  }

  /** Clamping never acts: the rounded percentage is in range by itself. */
  lemma PercentInRange(credit: int, total: int)
    requires 0 <= credit <= total
    ensures 0 <= Percent(credit, total) <= 100
    ensures total > 0 ==> Percent(credit, total) == Round(100 * credit, total)
  {
    if total > 0 {
      RoundMonotone(0, 100 * credit, total);
      RoundMonotone(100 * credit, 100 * total, total);
      RoundExact(0, total);
      RoundExact(100, total);
    }
  }

  lemma PercentIsNear(credit: int, total: int)
    requires 0 <= credit <= total && total > 0
    ensures -0.5 <= Percent(credit, total) as real - (100 * credit) as real / total as real <= 0.5
  {
    PercentInRange(credit, total);
    RoundIsNear(100 * credit, total);
    var p := Percent(credit, total);
    var x := (100 * credit) as real / total as real;
    assert x * total as real == (100 * credit) as real;
    NearByProduct(p, 100 * credit, total, x);
  }

  /** A domain's rounded score is within 1/2 of its exact share. */
  lemma DomainIsNear(signals: seq<Signal>, d: Domain)
    requires forall i :: 0 <= i < |signals| ==> signals[i].def.weight > 0
    ensures 0 <= DomainScore(signals, d) <= 100
    ensures -0.5 <= DomainScore(signals, d) as real - ExactShare(signals, d) <= 0.5
  {
    CreditWithinTotal(signals, d);
    PercentInRange(DomainCredit(signals, d), DomainTotal(signals, d));
    if DomainTotal(signals, d) > 0 {
      PercentIsNear(DomainCredit(signals, d), DomainTotal(signals, d));
    }
  }

  lemma WeightedSumInRange(signals: seq<Signal>)
    requires forall i :: 0 <= i < |signals| ==> signals[i].def.weight > 0
    ensures 0 <= WeightedSum(signals) <= 10000
    ensures SecurityScore(signals) == Round(WeightedSum(signals), 100)
    ensures 0 <= SecurityScore(signals) <= 100
  {
    DomainIsNear(signals, Identity);
    DomainIsNear(signals, Software);
    DomainIsNear(signals, Configuration);
    DomainIsNear(signals, Threat);
    DomainIsNear(signals, Recovery);
    var w := WeightedSum(signals);
    RoundMonotone(0, w, 100);
    RoundMonotone(w, 10000, 100);
    RoundExact(0, 100);
    RoundExact(100, 100);
  }

  /** Two roundings together move the score by at most one point. */
  lemma ScoreIsNearExact(signals: seq<Signal>)
    requires Valid(Defs(signals))
    ensures 0 <= SecurityScore(signals) <= 100
    ensures -1.0 <= SecurityScore(signals) as real - ExactScore(signals) <= 1.0
  {
    WeightsPositive(signals);
    DomainIsNear(signals, Identity);
    DomainIsNear(signals, Software);
    DomainIsNear(signals, Configuration);
    DomainIsNear(signals, Threat);
    DomainIsNear(signals, Recovery);
    WeightedSumInRange(signals);
    RoundIsNear(WeightedSum(signals), 100);
    var w := WeightedSum(signals) as real;
    assert -50.0 <= w - 100.0 * ExactScore(signals) <= 50.0;
  }

  lemma WeightsPositive(signals: seq<Signal>)
    requires Valid(Defs(signals))
    ensures forall i :: 0 <= i < |signals| ==> signals[i].def.weight > 0 && !signals[i].def.domain.Other?
    ensures forall i, j :: 0 <= i < j < |signals| ==> signals[i].def.key != signals[j].def.key
  {
    assert forall i :: 0 <= i < |signals| ==> Defs(signals)[i] == signals[i].def;
  }

  // ---------- changes between two snapshots ----------

  datatype ChangeType = Regression | Improvement | Changed

  datatype Change = Change(key: string, changeType: ChangeType, severity: Severity, impact: int)

  /** `_overall_signal_impact`. */
  function Impact(signals: seq<Signal>, def: Definition): int
    requires DomainTotal(signals, def.domain) > 0
  {
    var points := Round(DomainWeight(def.domain) * def.weight, DomainTotal(signals, def.domain));
    if points > 1 then points else 1
  }

  /** The dictionary of the earlier signals: the last one with a key wins. */
  function Lookup(signals: seq<Signal>, key: string): Option<Signal> {
    if signals == [] then None
    else if signals[|signals| - 1].def.key == key then Some(signals[|signals| - 1])
    else Lookup(signals[..|signals| - 1], key)
  }

  /** The change reported for one signal, if any. */
  function ChangeOf(previous: seq<Signal>, current: seq<Signal>, now: Signal): seq<Change>
    requires DomainTotal(current, now.def.domain) > 0
  {
    var found := Lookup(previous, now.def.key);
    if found == None || found.value.status == Unknown || now.status == Unknown then []
    else
      var was := found.value;
      if was.observed == now.observed && was.status == now.status then []
      else if was.status == Validated && now.status == Concern then
        [Change(now.def.key, Regression, now.def.severity, -Impact(current, now.def))]
      else if was.status == Concern && now.status == Validated then
        [Change(now.def.key, Improvement, Info, Impact(current, now.def))]
      else [Change(now.def.key, Changed, Low, 0)]
  }

  ghost predicate WellFormed(signals: seq<Signal>) {
    Valid(Defs(signals))
  }

  lemma TotalCovers(signals: seq<Signal>, i: nat)
    requires i < |signals| && forall j :: 0 <= j < |signals| ==> signals[j].def.weight > 0
    ensures DomainTotal(signals, signals[i].def.domain) >= signals[i].def.weight
  {
    if i == 0 {
      CreditWithinTotal(signals[1..], signals[0].def.domain);
    } else {
      TotalCovers(signals[1..], i - 1);
    }
  }

  ghost function ChangesUpTo(previous: seq<Signal>, current: seq<Signal>, k: nat): seq<Change>
    requires WellFormed(current) && k <= |current|
  {
    if k == 0 then []
    else
      WeightsPositive(current);
      TotalCovers(current, k - 1);
      ChangesUpTo(previous, current, k - 1) + ChangeOf(previous, current, current[k - 1])
  }

  /** What `compare` reports. */
  ghost function Changes(previous: seq<Signal>, current: seq<Signal>): seq<Change>
    requires WellFormed(current)
  {
    ChangesUpTo(previous, current, |current|)
  }

  /** `compare`, appending as it goes. */
  method Compare(previous: seq<Signal>, current: seq<Signal>) returns (changes: seq<Change>)
    requires WellFormed(current)
    ensures changes == Changes(previous, current)
  {
    changes := [];
    for k := 0 to |current|
      invariant changes == ChangesUpTo(previous, current, k)
    {
      var now := current[k];
      WeightsPositive(current);
      TotalCovers(current, k);
      ghost var before := changes;
      var was := Lookup(previous, now.def.key);
      if was == None || was.value.status == Unknown || now.status == Unknown { continue; }
      if was.value.observed == now.observed && was.value.status == now.status { continue; }
      var regression := was.value.status == Validated && now.status == Concern;
      var improvement := was.value.status == Concern && now.status == Validated;
      var impact := if regression then -Impact(current, now.def) else if improvement then Impact(current, now.def) else 0;
      var severity := if regression then now.def.severity else if improvement then Info else Low;
      changes := changes + [Change(now.def.key, if regression then Regression else if improvement then Improvement else Changed, severity, impact)];
      assert changes == before + ChangeOf(previous, current, now);
    }
  }

  // ---------- what is reported between any two snapshots ----------

  /** previous[j] is the last signal with the key. */
  predicate LastWith(previous: seq<Signal>, key: string, j: int) {
    0 <= j < |previous| && previous[j].def.key == key && forall l :: j < l < |previous| ==> previous[l].def.key != key
  }

  lemma {:induction false} LookupIsLast(previous: seq<Signal>, key: string)
    ensures forall j :: LastWith(previous, key, j) ==> Lookup(previous, key) == Some(previous[j])
    ensures Lookup(previous, key).Some? ==> exists j :: LastWith(previous, key, j)
  {
    if previous != [] {
      var n := |previous| - 1;
      LookupIsLast(previous[..n], key);
      if previous[n].def.key == key {
        assert LastWith(previous, key, n);
      } else {
        assert forall j :: LastWith(previous, key, j) <==> LastWith(previous[..n], key, j);
      }
    }
  }

  /** Both statuses are known, and the status or the value seen has changed. */
  predicate Moved(was: Signal, now: Signal) {
    was.status != Unknown && now.status != Unknown && (was.status != now.status || was.observed != now.observed)
  }

  /** c is what a signal that moved from was to now is reported as. */
  predicate Describes(c: Change, current: seq<Signal>, was: Signal, now: Signal)
    requires DomainTotal(current, now.def.domain) > 0
  {
    && c.key == now.def.key
    && (c.changeType == Regression <==> was.status == Validated && now.status == Concern)
    && (c.changeType == Improvement <==> was.status == Concern && now.status == Validated)
    && (match c.changeType
        case Regression => c.severity == now.def.severity && c.impact == -Impact(current, now.def)
        case Improvement => c.severity == Info && c.impact == Impact(current, now.def)
        case Changed => c.severity == Low && c.impact == 0)
  }

  lemma OneSignalReported(previous: seq<Signal>, current: seq<Signal>, now: Signal, c: Change)
    requires DomainTotal(current, now.def.domain) > 0
    ensures c in ChangeOf(previous, current, now)
            <==> exists j :: LastWith(previous, now.def.key, j) && Moved(previous[j], now) && Describes(c, current, previous[j], now)
    ensures |ChangeOf(previous, current, now)| <= 1
  {
    LookupIsLast(previous, now.def.key);
    if j :| LastWith(previous, now.def.key, j) && Moved(previous[j], now) && Describes(c, current, previous[j], now) {
      assert ChangeOf(previous, current, now)[0] == c;
    }
  }

  /** The change is warranted by signal i of the current snapshot. */
  ghost predicate Warranted(previous: seq<Signal>, current: seq<Signal>, i: int, c: Change)
    requires WellFormed(current)
  {
    0 <= i < |current| && DomainTotal(current, current[i].def.domain) > 0
    && exists j :: LastWith(previous, current[i].def.key, j) && Moved(previous[j], current[i]) && Describes(c, current, previous[j], current[i])
  }

  lemma {:induction false} ReportedUpTo(previous: seq<Signal>, current: seq<Signal>, k: nat, c: Change)
    requires WellFormed(current) && k <= |current|
    ensures c in ChangesUpTo(previous, current, k) <==> exists i :: i < k && Warranted(previous, current, i, c)
  {
    if k > 0 {
      WeightsPositive(current);
      TotalCovers(current, k - 1);
      ReportedUpTo(previous, current, k - 1, c);
      OneSignalReported(previous, current, current[k - 1], c);
      assert Warranted(previous, current, k - 1, c) <==> c in ChangeOf(previous, current, current[k - 1]);
    }
  }

  /** Between any two snapshots, exactly the signals that moved are reported,
      each as what it is. */
  lemma ReportedIff(previous: seq<Signal>, current: seq<Signal>, c: Change)
    requires WellFormed(current)
    ensures c in Changes(previous, current) <==> exists i :: Warranted(previous, current, i, c)
  {
    ReportedUpTo(previous, current, |current|, c);
  }

  predicate KeysDiffer(changes: seq<Change>) {
    forall a, b :: 0 <= a < b < |changes| ==> changes[a].key != changes[b].key
  }

  lemma KeysDifferNext(changes: seq<Change>, c: Change)
    requires KeysDiffer(changes) && forall a :: 0 <= a < |changes| ==> changes[a].key != c.key
    ensures KeysDiffer(changes + [c])
  {}

  /** No signal is reported twice. */
  lemma {:induction false} ReportedOnce(previous: seq<Signal>, current: seq<Signal>, k: nat)
    requires WellFormed(current) && k <= |current|
    ensures KeysDiffer(ChangesUpTo(previous, current, k))
  {
    if k > 0 {
      WeightsPositive(current);
      TotalCovers(current, k - 1);
      ReportedOnce(previous, current, k - 1);
      var before, more := ChangesUpTo(previous, current, k - 1), ChangeOf(previous, current, current[k - 1]);
      forall a | 0 <= a < |before| ensures before[a].key != current[k - 1].def.key {
        ReportedUpTo(previous, current, k - 1, before[a]);
        assert before[a] in before;
      }
      if more == [] {
        assert before + more == before;
      } else {
        assert more == [more[0]] && more[0].key == current[k - 1].def.key;
        KeysDifferNext(before, more[0]);
      }
    }
  }

  // ---------- one signal turns ----------

  /** The same snapshot but for signal i. */
  function Turn(signals: seq<Signal>, i: nat, status: Status, observed: string): seq<Signal>
    requires i < |signals|
  {
    signals[i := signals[i].(status := status, observed := observed)]
  }

  lemma {:induction false} TurnSums(signals: seq<Signal>, i: nat, status: Status, observed: string, d: Domain)
    requires i < |signals|
    ensures var after := Turn(signals, i, status, observed);
            && DomainTotal(after, d) == DomainTotal(signals, d)
            && DomainCredit(after, d) == DomainCredit(signals, d)
                 + (if signals[i].def.domain == d then Credit(after[i]) - Credit(signals[i]) else 0)
            && TotalWeight(after) == TotalWeight(signals)
            && KnownWeight(after) == KnownWeight(signals) + (if status != Unknown then signals[i].def.weight else 0)
                                       - (if signals[i].status != Unknown then signals[i].def.weight else 0)
  {
    var after := Turn(signals, i, status, observed);
    if i == 0 {
      assert after[1..] == signals[1..];
    } else {
      assert after[1..] == Turn(signals[1..], i - 1, status, observed);
      TurnSums(signals[1..], i - 1, status, observed, d);
    }
  }

  lemma {:induction false} TurnKeepsDefs(signals: seq<Signal>, i: nat, status: Status, observed: string)
    requires i < |signals|
    ensures Defs(Turn(signals, i, status, observed)) == Defs(signals)
  {}

  /** The arithmetic core. p and q are a domain's percentage before and after
      losing weight w of total t, s and r the overall scores, W the domain's
      share of the score: the rounded impact and the drop differ by less than 2. */
  lemma {:induction false} DropIsNearImpact(W: int, w: int, t: int, p: int, q: int, c: int, rest: int, s: int, r: int)
    requires 0 < W <= 25 && 0 < w && 0 < t
    requires 200 * c - t <= 2 * (t * p) <= 200 * c + t
    requires 200 * (c - w) - t <= 2 * (t * q) <= 200 * (c - w) + t
    requires s == Round(rest + p * W, 100) && r == Round(rest + q * W, 100)
    ensures -2 < Round(W * w, t) - (s - r) < 2
  {
    var x := Round(W * w, t);
    RoundIsNear(W * w, t);
    RoundIsNear(rest + p * W, 100);
    RoundIsNear(rest + q * W, 100);
    assert -100 <= 100 * (s - r) - (p - q) * W <= 100 by {
      assert (p - q) * W == p * W - q * W;
    }
    ScaledDrop(W, w, t, p, q, c);
    ScaledGap(W, w, t, (p - q) * W, x, s - r);
  }

  lemma {:induction false} ScaledDrop(W: int, w: int, t: int, p: int, q: int, c: int)
    requires 0 < W && 0 < t
    requires 200 * c - t <= 2 * (t * p) <= 200 * c + t
    requires 200 * (c - w) - t <= 2 * (t * q) <= 200 * (c - w) + t
    ensures 100 * (W * w) - W * t <= t * ((p - q) * W) <= 100 * (W * w) + W * t
  {
    var g := t * (p - q);
    assert g == t * p - t * q;
    assert 100 * w - t <= g <= 100 * w + t;
    MulLe(100 * w - t, g, W);
    MulLe(g, 100 * w + t, W);
    assert g * W == t * ((p - q) * W);
    assert (100 * w - t) * W == 100 * (W * w) - W * t;
    assert (100 * w + t) * W == 100 * (W * w) + W * t;
  }

  lemma {:induction false} ScaledGap(W: int, w: int, t: int, d: int, x: int, drop: int)
    requires 0 < W <= 25 && 0 < t
    requires 2 * (W * w) - t <= 2 * (t * x) <= 2 * (W * w) + t
    requires -100 <= 100 * drop - d <= 100
    requires 100 * (W * w) - W * t <= t * d <= 100 * (W * w) + W * t
    ensures -2 < x - drop < 2
  {
    MulLe(d - 100, 100 * drop, t);
    MulLe(100 * drop, d + 100, t);
    MulLe(W, 25, t);
    GapProducts(t, d, x, drop);
    SmallMultiple(x - drop, t);
  }

  lemma {:induction false} GapProducts(t: int, d: int, x: int, drop: int)
    ensures t * (x - drop) == t * x - t * drop
    ensures (d - 100) * t == t * d - 100 * t && (d + 100) * t == t * d + 100 * t
    ensures 100 * drop * t == 100 * (t * drop)
  {}

  lemma {:induction false} SmallMultiple(e: int, t: int)
    requires t > 0 && -175 * t <= 100 * (t * e) <= 175 * t
    ensures -2 < e < 2
  {
    if e >= 2 {
      MulLe(2, e, t);
      assert false;
    }
    if e <= -2 {
      MulLe(e, -2, t);
      assert false;
    }
  }

  lemma {:induction false} LookupUnique(signals: seq<Signal>, k: nat, key: string)
    requires k < |signals| && signals[k].def.key == key
    requires forall j :: 0 <= j < |signals| && j != k ==> signals[j].def.key != key
    ensures Lookup(signals, key) == Some(signals[k])
  {
    if k < |signals| - 1 {
      LookupUnique(signals[..|signals| - 1], k, key);
    }
  }

  /** Only the signal that turned is reported. */
  lemma {:induction false} OnlyTheTurnedSignal(signals: seq<Signal>, i: nat, status: Status, observed: string, k: nat)
    requires i < |signals| && WellFormed(signals) && k <= |signals|
    requires WellFormed(Turn(signals, i, status, observed))
    requires DomainTotal(Turn(signals, i, status, observed), signals[i].def.domain) > 0
    ensures var after := Turn(signals, i, status, observed);
            ChangesUpTo(signals, after, k) == if k <= i then [] else ChangeOf(signals, after, after[i])
  {
    if k > 0 {
      var after := Turn(signals, i, status, observed);
      WeightsPositive(signals);
      WeightsPositive(after);
      TotalCovers(after, k - 1);
      OnlyTheTurnedSignal(signals, i, status, observed, k - 1);
      LookupUnique(signals, k - 1, signals[k - 1].def.key);
    }
  }

  lemma {:induction false} TurnedReport(signals: seq<Signal>, i: nat, status: Status, observed: string)
    requires i < |signals| && WellFormed(signals)
    ensures var after := Turn(signals, i, status, observed);
            && WellFormed(after)
            && DomainTotal(after, signals[i].def.domain) == DomainTotal(signals, signals[i].def.domain) >= signals[i].def.weight > 0
            && Changes(signals, after) == ChangeOf(signals, after, after[i])
            && Lookup(signals, signals[i].def.key) == Some(signals[i])
  {
    var after := Turn(signals, i, status, observed);
    TurnKeepsDefs(signals, i, status, observed);
    WeightsPositive(signals);
    TotalCovers(signals, i);
    TurnSums(signals, i, status, observed, signals[i].def.domain);
    OnlyTheTurnedSignal(signals, i, status, observed, |signals|);
    LookupUnique(signals, i, signals[i].def.key);
  }

  lemma {:induction false} WeightedSumTurns(a: seq<Signal>, b: seq<Signal>, d: Domain)
    requires !d.Other? && forall e :: e in DOMAINS && e != d ==> DomainScore(a, e) == DomainScore(b, e)
    ensures WeightedSum(a) - DomainScore(a, d) * DomainWeight(d) == WeightedSum(b) - DomainScore(b, d) * DomainWeight(d)
  {
    assert DOMAINS[0] == Identity && DOMAINS[1] == Software && DOMAINS[2] == Configuration && DOMAINS[3] == Threat && DOMAINS[4] == Recovery;
  }

  lemma {:induction false} TurnMovesOneDomain(signals: seq<Signal>, i: nat, status: Status, observed: string)
    requires i < |signals| && !signals[i].def.domain.Other?
    ensures var after, d := Turn(signals, i, status, observed), signals[i].def.domain;
            WeightedSum(signals) - DomainScore(signals, d) * DomainWeight(d) == WeightedSum(after) - DomainScore(after, d) * DomainWeight(d)
  {
    var after, d := Turn(signals, i, status, observed), signals[i].def.domain;
    forall e | e in DOMAINS && e != d
      ensures DomainScore(signals, e) == DomainScore(after, e)
    {
      TurnSums(signals, i, status, observed, e);
    }
    WeightedSumTurns(signals, after, d);
  }

  /** A validated signal that becomes a concern, or is no longer known, lowers
      the score, never raises it, by about its impact. */
  lemma {:induction false} LosingASignalCosts(signals: seq<Signal>, i: nat, status: Status, observed: string)
    requires i < |signals| && WellFormed(signals) && signals[i].status == Validated && status != Validated
    requires DomainTotal(signals, signals[i].def.domain) > 0
    ensures var drop := SecurityScore(signals) - SecurityScore(Turn(signals, i, status, observed));
            drop >= 0 && -1 <= Impact(signals, signals[i].def) - drop <= 1
  {
    var after, def := Turn(signals, i, status, observed), signals[i].def;
    var d, t, c := def.domain, DomainTotal(signals, def.domain), DomainCredit(signals, def.domain);
    TurnKeepsDefs(signals, i, status, observed);
    WeightsPositive(signals);
    WeightsPositive(after);
    TurnSums(signals, i, status, observed, d);
    CreditWithinTotal(signals, d);
    CreditWithinTotal(after, d);
    PercentInRange(c, t);
    PercentInRange(c - def.weight, t);
    RoundIsNear(100 * c, t);
    RoundIsNear(100 * (c - def.weight), t);
    RoundMonotone(100 * (c - def.weight), 100 * c, t);
    TurnMovesOneDomain(signals, i, status, observed);
    WeightedSumInRange(signals);
    WeightedSumInRange(after);
    var p, q, W := DomainScore(signals, d), DomainScore(after, d), DomainWeight(d);
    MulLe(q, p, W);
    RoundMonotone(WeightedSum(after), WeightedSum(signals), 100);
    DropIsNearImpact(W, def.weight, t, p, q, c, WeightedSum(signals) - p * W, SecurityScore(signals), SecurityScore(after));
  }

  /** When one signal alone goes from validated to concern, exactly that
      regression is reported, its recorded impact is within one point of the
      score's actual drop; and the way back reports the mirror improvement. */
  lemma {:induction false} RecordedImpactIsNearDrop(signals: seq<Signal>, i: nat, observed: string)
    requires i < |signals| && WellFormed(signals) && signals[i].status == Validated
    ensures var after, def := Turn(signals, i, Concern, observed), signals[i].def;
            && WellFormed(after) && DomainTotal(signals, def.domain) > 0
            && Changes(signals, after) == [Change(def.key, Regression, def.severity, -Impact(signals, def))]
            && Changes(after, signals) == [Change(def.key, Improvement, Info, Impact(signals, def))]
            && Impact(signals, def) >= 1
            && SecurityScore(after) <= SecurityScore(signals)
            && -1 <= Impact(signals, def) - (SecurityScore(signals) - SecurityScore(after)) <= 1
  {
    ReportedBothWays(signals, i, observed);
    LosingASignalCosts(signals, i, Concern, observed);
  }

  lemma {:induction false} ReportedBothWays(signals: seq<Signal>, i: nat, observed: string)
    requires i < |signals| && WellFormed(signals) && signals[i].status == Validated
    ensures var after, def := Turn(signals, i, Concern, observed), signals[i].def;
            && WellFormed(after) && DomainTotal(signals, def.domain) > 0
            && Changes(signals, after) == [Change(def.key, Regression, def.severity, -Impact(signals, def))]
            && Changes(after, signals) == [Change(def.key, Improvement, Info, Impact(signals, def))]
  {
    var after := Turn(signals, i, Concern, observed);
    TurnedReport(signals, i, Concern, observed);
    TurnedReport(after, i, Validated, signals[i].observed);
    assert Turn(after, i, Validated, signals[i].observed) == signals;
  }

  /** Credit is withheld alike for a concern and for missing evidence. */
  lemma {:induction false} UnknownCostsAsConcern(signals: seq<Signal>, i: nat, observed: string)
    requires i < |signals|
    ensures SecurityScore(Turn(signals, i, Unknown, observed)) == SecurityScore(Turn(signals, i, Concern, observed))
  {
    forall d
      ensures DomainScore(Turn(signals, i, Unknown, observed), d) == DomainScore(Turn(signals, i, Concern, observed), d)
    {
      TurnSums(signals, i, Unknown, observed, d);
      TurnSums(signals, i, Concern, observed, d);
    }
  }

  /** A signal that can no longer be observed costs the score as much, yet no
      change is reported for it. */
  lemma {:induction false} LostEvidenceIsSilent(signals: seq<Signal>, i: nat, observed: string)
    requires i < |signals| && WellFormed(signals) && signals[i].status == Validated
    ensures var after := Turn(signals, i, Unknown, observed);
            && WellFormed(after) && Changes(signals, after) == []
            && SecurityScore(after) == SecurityScore(Turn(signals, i, Concern, observed)) <= SecurityScore(signals)
  {
    TurnedReport(signals, i, Unknown, observed);
    RecordedImpactIsNearDrop(signals, i, observed);
    UnknownCostsAsConcern(signals, i, observed);
  }

  /** When one signal alone turns, its change is reported unless one of its two
      statuses is unknown or nothing of it changed. */
  lemma {:induction false} TurnIsReportedIff(signals: seq<Signal>, i: nat, status: Status, observed: string)
    requires i < |signals| && WellFormed(signals)
    ensures var after := Turn(signals, i, status, observed);
            && WellFormed(after) && |Changes(signals, after)| <= 1
            && (Changes(signals, after) == [] <==>
                  signals[i].status == Unknown || status == Unknown || (signals[i].status == status && signals[i].observed == observed))
  {
    TurnedReport(signals, i, status, observed);
  }

  /** A regression with a gap in the evidence is never reported: neither of the
      two comparisons reports it, though one across the gap does. */
  lemma {:induction false} RegressionThroughAGapIsSilent(signals: seq<Signal>, i: nat, lost: string, found: string)
    requires i < |signals| && WellFormed(signals) && signals[i].status == Validated
    ensures var gap := Turn(signals, i, Unknown, lost);
            var after := Turn(gap, i, Concern, found);
            && WellFormed(gap) && WellFormed(after) && Changes(signals, gap) == [] && Changes(gap, after) == []
            && DomainTotal(signals, signals[i].def.domain) > 0
            && Changes(signals, after) == [Change(signals[i].def.key, Regression, signals[i].def.severity, -Impact(signals, signals[i].def))]
  {
    var gap := Turn(signals, i, Unknown, lost);
    TurnIsReportedIff(signals, i, Unknown, lost);
    TurnIsReportedIff(gap, i, Concern, found);
    RecordedImpactIsNearDrop(signals, i, found);
    assert Turn(gap, i, Concern, found) == Turn(signals, i, Concern, found);
  }

  /** The coverage is within one half of the exact share of the known weight. */
  lemma CoverageIsNear(signals: seq<Signal>)
    requires Valid(Defs(signals)) && signals != []
    ensures TotalWeight(signals) > 0
    ensures -0.5 <= Coverage(signals) as real - (100 * KnownWeight(signals)) as real / TotalWeight(signals) as real <= 0.5
  {
    WeightsPositive(signals);
    KnownWithinTotal(signals);
    PercentIsNear(KnownWeight(signals), TotalWeight(signals));
  }

  lemma {:induction false} KnownWithinTotal(signals: seq<Signal>)
    requires forall i :: 0 <= i < |signals| ==> signals[i].def.weight > 0
    ensures 0 <= KnownWeight(signals) <= TotalWeight(signals) && (signals != [] ==> TotalWeight(signals) > 0)
  {
    if signals != [] { KnownWithinTotal(signals[1..]); }
  }

  /** The critical concern at i is the only one. */
  predicate OnlyCriticalConcern(signals: seq<Signal>, i: nat)
    requires i < |signals|
  {
    && signals[i].status == Concern && signals[i].def.severity == Critical
    && forall k :: 0 <= k < |signals| && k != i ==> !(signals[k].status == Concern && signals[k].def.severity == Critical)
  }

  predicate Weighed(signals: seq<Signal>) {
    forall i :: 0 <= i < |signals| ==> signals[i].def.weight > 0
  }

  /** Losing sight of a concern leaves the score alone and lowers the coverage. */
  lemma {:induction false} SightLost(signals: seq<Signal>, i: nat, observed: string)
    requires i < |signals| && Weighed(signals) && signals[i].status == Concern
    ensures var after := Turn(signals, i, Unknown, observed);
            && SecurityScore(after) == SecurityScore(signals) && Coverage(after) <= Coverage(signals)
            && (CriticalConcern(after) <==> CriticalConcern(signals) && !OnlyCriticalConcern(signals, i))
  {
    var after := Turn(signals, i, Unknown, observed);
    assert Weighed(after);
    forall d ensures DomainScore(after, d) == DomainScore(signals, d) { TurnSums(signals, i, Unknown, observed, d); }
    TurnSums(signals, i, Unknown, observed, Identity);
    KnownWithinTotal(signals);
    KnownWithinTotal(after);
    RoundMonotone(100 * KnownWeight(after), 100 * KnownWeight(signals), TotalWeight(signals));
    assert forall k :: 0 <= k < |signals| && k != i ==> after[k] == signals[k];
    assert after[i].status == Unknown;
    if CriticalConcern(signals) && !OnlyCriticalConcern(signals, i) {
      var k :| 0 <= k < |signals| && k != i && signals[k].status == Concern && signals[k].def.severity == Critical;
      assert after[k] == signals[k];
    }
  }

  /** Losing sight of a concern raises the trust decision exactly when it is the
      only critical one, enough is still known, and the score is 70 or more. */
  lemma {:induction false} LosingSightRaisesTrustIff(signals: seq<Signal>, i: nat, observed: string)
    requires i < |signals| && Weighed(signals) && signals[i].status == Concern
    ensures var after := Turn(signals, i, Unknown, observed);
            TrustRank(TrustOf(after)) > TrustRank(TrustOf(signals))
            <==> OnlyCriticalConcern(signals, i) && Coverage(after) >= 60 && SecurityScore(signals) >= 70
  {
    SightLost(signals, i, observed);
    assert OnlyCriticalConcern(signals, i) ==> CriticalConcern(signals);
  }

  /** A regression never improves the trust decision. */
  lemma {:induction false} RegressionNeverRaisesTrust(signals: seq<Signal>, i: nat, observed: string)
    requires i < |signals| && WellFormed(signals) && signals[i].status == Validated
    ensures TrustRank(TrustOf(Turn(signals, i, Concern, observed))) <= TrustRank(TrustOf(signals))
    ensures signals[i].def.severity == Critical ==> TrustOf(Turn(signals, i, Concern, observed)) in {InsufficientEvidence, RestrictedTrust}
  {
    var after := Turn(signals, i, Concern, observed);
    RecordedImpactIsNearDrop(signals, i, observed);
    TurnSums(signals, i, Concern, observed, signals[i].def.domain);
    assert after[i].status == Concern;
    if CriticalConcern(signals) {
      var k :| 0 <= k < |signals| && signals[k].status == Concern && signals[k].def.severity == Critical;
      assert after[k] == signals[k];
    }
  }

  // ---------- the shipped definitions ----------

  const IDENTITY_SIGNALS := [
    Definition("identity_accounts_authorized", Identity, 10, WhenTrue, Critical),
    Definition("authentication_anomalies", Identity, 8, WhenZero, High),
    Definition("ssh_identity_changes", Identity, 7, WhenZero, Critical)]

  const SOFTWARE_SIGNALS := [
    Definition("unapproved_applications", Software, 8, WhenZero, High),
    Definition("unsigned_applications", Software, 8, WhenZero, High),
    Definition("modified_trusted_applications", Software, 10, WhenZero, Critical),
    Definition("known_vulnerabilities", Software, 7, WhenZero, High)]

  const CONFIGURATION_SIGNALS := [
    Definition("firewall_enabled", Configuration, 7, WhenTrue, High),
    Definition("filevault_enabled", Configuration, 8, WhenTrue, Critical),
    Definition("sip_enabled", Configuration, 7, WhenTrue, Critical),
    Definition("gatekeeper_enabled", Configuration, 5, WhenTrue, High),
    Definition("privacy_controls_compliant", Configuration, 5, WhenTrue, High)]

  const THREAT_SIGNALS := [
    Definition("suspicious_persistence", Threat, 10, WhenZero, Critical),
    Definition("ransomware_indicators", Threat, 10, WhenZero, Critical),
    Definition("suspicious_network_activity", Threat, 7, WhenZero, High)]

  const RECOVERY_SIGNALS := [
    Definition("backup_healthy", Recovery, 8, WhenTrue, Critical),
    Definition("evidence_collection_ready", Recovery, 6, WhenTrue, High),
    Definition("response_workflow_ready", Recovery, 6, WhenTrue, High)]

  function Healthful(defs: seq<Definition>): seq<Signal> {
    if defs == [] then [] else [Signal(defs[0], Validated, "")] + Healthful(defs[1..])
  }

  /** The shipped signals, all validated. */
  function AllHealthy(): seq<Signal> {
    Healthful(CONFIGURATION_SIGNALS)
    + (Healthful(IDENTITY_SIGNALS) + (Healthful(SOFTWARE_SIGNALS) + (Healthful(THREAT_SIGNALS) + Healthful(RECOVERY_SIGNALS))))
  }

  lemma {:induction false} SumsAppend(a: seq<Signal>, b: seq<Signal>, d: Domain)
    ensures DomainTotal(a + b, d) == DomainTotal(a, d) + DomainTotal(b, d)
    ensures DomainCredit(a + b, d) == DomainCredit(a, d) + DomainCredit(b, d)
  {
    if a == [] {
      assert a + b == b;
    } else {
      assert (a + b)[1..] == a[1..] + b;
      SumsAppend(a[1..], b, d);
    }
  }

  lemma {:induction false} HealthfulSums(defs: seq<Definition>, home: Domain, d: Domain)
    requires forall i :: 0 <= i < |defs| ==> defs[i].domain == home
    ensures |Healthful(defs)| == |defs|
    ensures DomainCredit(Healthful(defs), d) == DomainTotal(Healthful(defs), d)
    ensures d != home ==> DomainTotal(Healthful(defs), d) == 0
    ensures defs != [] ==> Healthful(defs)[0] == Signal(defs[0], Validated, "")
  {
    if defs != [] { HealthfulSums(defs[1..], home, d); }
  }

  lemma {:induction false} FirstSums(def: Definition, rest: seq<Definition>, d: Domain)
    ensures DomainTotal(Healthful([def] + rest), d) == DomainTotal(Healthful(rest), d) + (if def.domain == d then def.weight else 0)
  {
    assert ([def] + rest)[1..] == rest;
    assert Healthful([def] + rest)[1..] == Healthful(rest);
  }

  lemma {:induction false} ThreeSum(a: Definition, b: Definition, c: Definition, rest: seq<Definition>, d: Domain)
    requires a.domain == b.domain == c.domain == d
    ensures DomainTotal(Healthful([a, b, c] + rest), d) == a.weight + b.weight + c.weight + DomainTotal(Healthful(rest), d)
  {
    FirstSums(a, [b, c] + rest, d);
    FirstSums(b, [c] + rest, d);
    FirstSums(c, rest, d);
    assert [a] + ([b, c] + rest) == [a, b, c] + rest && [b] + ([c] + rest) == [b, c] + rest;
  }

  lemma {:induction false} IdentityTotal()
    ensures DomainTotal(Healthful(IDENTITY_SIGNALS), Identity) == 25
  {
    var x := IDENTITY_SIGNALS;
    ThreeSum(x[0], x[1], x[2], [], Identity);
    assert [x[0], x[1], x[2]] + [] == x;
  }

  lemma {:induction false} SoftwareTotal()
    ensures DomainTotal(Healthful(SOFTWARE_SIGNALS), Software) == 33
  {
    var x := SOFTWARE_SIGNALS;
    ThreeSum(x[0], x[1], x[2], [x[3]], Software);
    FirstSums(x[3], [], Software);
    assert [x[0], x[1], x[2]] + [x[3]] == x && [x[3]] + [] == [x[3]];
  }

  lemma {:induction false} ConfigurationTotal()
    ensures DomainTotal(Healthful(CONFIGURATION_SIGNALS), Configuration) == 32
  {
    var x := CONFIGURATION_SIGNALS;
    ThreeSum(x[0], x[1], x[2], [x[3], x[4]], Configuration);
    FirstSums(x[3], [x[4]], Configuration);
    FirstSums(x[4], [], Configuration);
    assert [x[0], x[1], x[2]] + [x[3], x[4]] == x && [x[3]] + [x[4]] == [x[3], x[4]] && [x[4]] + [] == [x[4]];
  }

  lemma {:induction false} ThreatTotal()
    ensures DomainTotal(Healthful(THREAT_SIGNALS), Threat) == 27
  {
    var x := THREAT_SIGNALS;
    ThreeSum(x[0], x[1], x[2], [], Threat);
    assert [x[0], x[1], x[2]] + [] == x;
  }

  lemma {:induction false} RecoveryTotal()
    ensures DomainTotal(Healthful(RECOVERY_SIGNALS), Recovery) == 20
  {
    var x := RECOVERY_SIGNALS;
    ThreeSum(x[0], x[1], x[2], [], Recovery);
    assert [x[0], x[1], x[2]] + [] == x;
  }

  lemma {:induction false} ShippedDomain(d: Domain)
    requires !d.Other?
    ensures DomainTotal(AllHealthy(), d) == ShippedTotal(d)
    ensures DomainCredit(AllHealthy(), d) == DomainTotal(AllHealthy(), d)
  {
    var i, s, c, t, r := Healthful(IDENTITY_SIGNALS), Healthful(SOFTWARE_SIGNALS), Healthful(CONFIGURATION_SIGNALS),
                         Healthful(THREAT_SIGNALS), Healthful(RECOVERY_SIGNALS);
    IdentityTotal();
    SoftwareTotal();
    ConfigurationTotal();
    ThreatTotal();
    RecoveryTotal();
    HealthfulSums(IDENTITY_SIGNALS, Identity, d);
    HealthfulSums(SOFTWARE_SIGNALS, Software, d);
    HealthfulSums(CONFIGURATION_SIGNALS, Configuration, d);
    HealthfulSums(THREAT_SIGNALS, Threat, d);
    HealthfulSums(RECOVERY_SIGNALS, Recovery, d);
    SumsAppend(t, r, d);
    SumsAppend(s, t + r, d);
    SumsAppend(i, s + (t + r), d);
    SumsAppend(c, i + (s + (t + r)), d);
  }

  lemma {:induction false} FirewallIsFirst()
    ensures |AllHealthy()| > 0 && AllHealthy()[0] == Signal(CONFIGURATION_SIGNALS[0], Validated, "")
  {
    HealthfulSums(CONFIGURATION_SIGNALS, Configuration, Configuration);
  }

  function ShippedTotal(d: Domain): int {
    match d case Identity => 25 case Software => 33 case Configuration => 32 case Threat => 27 case _ => 20
  }

  lemma {:induction false} HealthfulAt(defs: seq<Definition>, i: nat)
    requires i < |defs|
    ensures |Healthful(defs)| == |defs| && Healthful(defs)[i] == Signal(defs[i], Validated, "")
  {
    if i > 0 { HealthfulAt(defs[1..], i - 1); } else if |defs| > 1 { HealthfulAt(defs[1..], 0); }
  }

  /** The shipped definitions, in the order of AllHealthy. */
  function ShippedDefinitions(): seq<Definition> {
    CONFIGURATION_SIGNALS + (IDENTITY_SIGNALS + (SOFTWARE_SIGNALS + (THREAT_SIGNALS + RECOVERY_SIGNALS)))
  }

  lemma {:induction false} HealthfulAppend(a: seq<Definition>, b: seq<Definition>)
    ensures Healthful(a + b) == Healthful(a) + Healthful(b)
  {
    if a == [] {
      assert a + b == b;
    } else {
      assert (a + b)[1..] == a[1..] + b;
      HealthfulAppend(a[1..], b);
    }
  }

  lemma {:induction false} AllHealthyIsShipped()
    ensures AllHealthy() == Healthful(ShippedDefinitions())
  {
    HealthfulAppend(THREAT_SIGNALS, RECOVERY_SIGNALS);
    HealthfulAppend(SOFTWARE_SIGNALS, THREAT_SIGNALS + RECOVERY_SIGNALS);
    HealthfulAppend(IDENTITY_SIGNALS, SOFTWARE_SIGNALS + (THREAT_SIGNALS + RECOVERY_SIGNALS));
    HealthfulAppend(CONFIGURATION_SIGNALS, IDENTITY_SIGNALS + (SOFTWARE_SIGNALS + (THREAT_SIGNALS + RECOVERY_SIGNALS)));
  }

  /** All signals validated, with the shipped weights of each domain. */
  ghost predicate HealthyAsShipped(all: seq<Signal>) {
    && (forall i :: 0 <= i < |all| ==> all[i].status == Validated && !all[i].def.domain.Other?)
    && (forall d: Domain :: !d.Other? ==> DomainCredit(all, d) == DomainTotal(all, d) == ShippedTotal(d))
  }

  /** The domain's score and the whole score without weight w of domain d. */
  function ScoreLeft(d: Domain, w: int): int {
    Percent(ShippedTotal(d) - w, ShippedTotal(d))
  }

  function Cost(d: Domain, w: int): int {
    100 - Clamp(Round(10000 - (100 - ScoreLeft(d, w)) * DomainWeight(d), 100))
  }

  function RecordedImpact(d: Domain, w: int): int {
    var points := Round(DomainWeight(d) * w, ShippedTotal(d));
    if points > 1 then points else 1
  }

  lemma {:induction false} ScoreWithOneDown(signals: seq<Signal>, d: Domain, left: int)
    requires !d.Other? && forall e: Domain :: !e.Other? ==> DomainScore(signals, e) == if e == d then left else 100
    ensures SecurityScore(signals) == Clamp(Round(10000 - (100 - left) * DomainWeight(d), 100))
  {}

  lemma {:induction false} DomainsWithOneDown(all: seq<Signal>, i: nat, status: Status, observed: string, e: Domain)
    requires HealthyAsShipped(all) && i < |all| && status != Validated && !e.Other?
    ensures DomainScore(all, e) == 100
    ensures DomainScore(Turn(all, i, status, observed), e) == if e == all[i].def.domain then ScoreLeft(e, all[i].def.weight) else 100
  {
    TurnSums(all, i, status, observed, e);
  }

  lemma {:induction false} OneDown(all: seq<Signal>, i: nat, status: Status, observed: string)
    requires HealthyAsShipped(all) && i < |all| && status != Validated
    ensures var d, w := all[i].def.domain, all[i].def.weight;
            && SecurityScore(all) == 100 && SecurityScore(all) - SecurityScore(Turn(all, i, status, observed)) == Cost(d, w)
            && DomainTotal(all, d) > 0 && Impact(all, all[i].def) == RecordedImpact(d, w)
  {
    var after, d, w := Turn(all, i, status, observed), all[i].def.domain, all[i].def.weight;
    forall e: Domain | !e.Other?
      ensures DomainScore(all, e) == 100
      ensures DomainScore(after, e) == if e == d then ScoreLeft(d, w) else 100
    {
      DomainsWithOneDown(all, i, status, observed, e);
    }
    ScoreWithOneDown(all, d, 100);
    ScoreWithOneDown(after, d, ScoreLeft(d, w));
  }

  lemma {:induction false} AllHealthyAt(i: nat)
    requires i < |ShippedDefinitions()|
    ensures |AllHealthy()| == |ShippedDefinitions()| && AllHealthy()[i] == Signal(ShippedDefinitions()[i], Validated, "")
  {
    AllHealthyIsShipped();
    HealthfulAt(ShippedDefinitions(), i);
  }

  lemma {:induction false} AllHealthyAsShipped()
    ensures HealthyAsShipped(AllHealthy()) && |AllHealthy()| == 18
  {
    ShippedHaveDomains();
    AllHealthyAt(0);
    forall i | 0 <= i < |AllHealthy()| ensures AllHealthy()[i].status == Validated && !AllHealthy()[i].def.domain.Other? {
      AllHealthyAt(i);
    }
    forall d: Domain | !d.Other? ensures DomainCredit(AllHealthy(), d) == DomainTotal(AllHealthy(), d) == ShippedTotal(d) {
      ShippedDomain(d);
    }
  }

  lemma {:induction false} ShippedHaveDomains()
    ensures |ShippedDefinitions()| == 18 && forall i :: 0 <= i < 18 ==> !ShippedDefinitions()[i].domain.Other?
  {}

  /** Which shipped signals cost other than their impact. */
  predicate Understated(key: string) {
    key == "firewall_enabled" || key == "sip_enabled"
  }

  /** A domain and a weight that occur together in the shipped table. */
  predicate ShippedWeight(d: Domain, w: int) {
    match d
    case Identity => w in {10, 8, 7}
    case Software => w in {8, 10, 7}
    case Configuration => w in {7, 8, 5}
    case Threat => w in {10, 7}
    case Recovery => w in {8, 6}
    case Other(_) => false
  }

  lemma {:induction false} ShippedAt(i: nat)
    requires i < 18
    ensures |ShippedDefinitions()| == 18
    ensures var def := ShippedDefinitions()[i];
            ShippedWeight(def.domain, def.weight) && (Understated(def.key) <==> def.domain == Configuration && def.weight == 7)
  {}

  lemma {:induction false} IdentityCosts(w: int)
    requires ShippedWeight(Identity, w)
    ensures Cost(Identity, w) == if w == 10 then 8 else if w == 8 then 6 else 6
    ensures RecordedImpact(Identity, w) == if w == 10 then 8 else if w == 8 then 6 else 6
  {
    assert ScoreLeft(Identity, w) == if w == 10 then 60 else if w == 8 then 68 else 72;
  }

  lemma {:induction false} SoftwareCosts(w: int)
    requires ShippedWeight(Software, w)
    ensures Cost(Software, w) == if w == 8 then 5 else if w == 10 then 6 else 4
    ensures RecordedImpact(Software, w) == if w == 8 then 5 else if w == 10 then 6 else 4
  {
    assert ScoreLeft(Software, w) == if w == 8 then 76 else if w == 10 then 70 else 79;
  }

  lemma {:induction false} ConfigurationCosts(w: int)
    requires ShippedWeight(Configuration, w)
    ensures Cost(Configuration, w) == if w == 7 then 6 else if w == 8 then 6 else 4
    ensures RecordedImpact(Configuration, w) == if w == 7 then 5 else if w == 8 then 6 else 4
  {
    assert ScoreLeft(Configuration, w) == if w == 7 then 78 else if w == 8 then 75 else 84;
  }

  lemma {:induction false} ThreatCosts(w: int)
    requires ShippedWeight(Threat, w)
    ensures Cost(Threat, w) == if w == 10 then 9 else 6
    ensures RecordedImpact(Threat, w) == if w == 10 then 9 else 6
  {
    assert ScoreLeft(Threat, w) == if w == 10 then 63 else 74;
  }

  lemma {:induction false} RecoveryCosts(w: int)
    requires ShippedWeight(Recovery, w)
    ensures Cost(Recovery, w) == if w == 8 then 4 else 3
    ensures RecordedImpact(Recovery, w) == if w == 8 then 4 else 3
  {
    assert ScoreLeft(Recovery, w) == if w == 8 then 60 else 70;
  }

  lemma {:induction false} CostIsImpactIff(d: Domain, w: int)
    requires ShippedWeight(d, w)
    ensures Cost(d, w) == RecordedImpact(d, w) <==> !(d == Configuration && w == 7)
    ensures d == Configuration && w == 7 ==> Cost(d, w) == 6 && RecordedImpact(d, w) == 5
  {
    match d
    case Identity => IdentityCosts(w);
    case Software => SoftwareCosts(w);
    case Configuration => ConfigurationCosts(w);
    case Threat => ThreatCosts(w);
    case Recovery => RecoveryCosts(w);
  }

  /** With the shipped table, everything else healthy, the impact recorded for a
      signal is the drop of the score if and only if it is not the firewall's or
      system integrity protection's: those two are recorded as 5 and cost 6. */
  lemma {:induction false} ShippedImpactIsDropIff(i: nat, observed: string)
    requires i < 18
    ensures |AllHealthy()| == 18 && DomainTotal(AllHealthy(), AllHealthy()[i].def.domain) > 0
    ensures var all, def := AllHealthy(), AllHealthy()[i].def;
            var drop := SecurityScore(all) - SecurityScore(Turn(all, i, Concern, observed));
            && (Impact(all, def) == drop <==> !Understated(def.key))
            && (Understated(def.key) ==> Impact(all, def) == 5 && drop == 6)
  {
    AllHealthyAsShipped();
    AllHealthyAt(i);
    ShippedAt(i);
    OneDown(AllHealthy(), i, Concern, observed);
    CostIsImpactIff(AllHealthy()[i].def.domain, AllHealthy()[i].def.weight);
  }

  lemma {:induction false} SevenDown(all: seq<Signal>)
    requires HealthyAsShipped(all) && |all| > 0 && all[0].def.domain == Configuration && all[0].def.weight == 7
    ensures SecurityScore(all) == 100 && SecurityScore(Turn(all, 0, Concern, "")) == 94
    ensures DomainTotal(all, Configuration) == 32 && Impact(all, all[0].def) == 5
  {
    OneDown(all, 0, Concern, "");
    ConfigurationCosts(7);
  }

  /** So the one-point bound is reached: with everything else healthy, a disabled
      firewall is recorded as -5 and costs 6 points. */
  lemma {:induction false} DisabledFirewallCostsMore()
    ensures |AllHealthy()| > 0 && AllHealthy()[0].def == CONFIGURATION_SIGNALS[0]
    ensures SecurityScore(AllHealthy()) == 100
    ensures SecurityScore(Turn(AllHealthy(), 0, Concern, "")) == 94
    ensures DomainTotal(AllHealthy(), Configuration) == 32 && Impact(AllHealthy(), AllHealthy()[0].def) == 5
  {
    FirewallIsFirst();
    AllHealthyAsShipped();
    SevenDown(AllHealthy());
  }

  // ---------- losing sight of a shipped concern ----------

  lemma {:induction false} TotalByDomains(signals: seq<Signal>)
    requires forall i :: 0 <= i < |signals| ==> !signals[i].def.domain.Other?
    ensures TotalWeight(signals) == DomainTotal(signals, Identity) + DomainTotal(signals, Software) + DomainTotal(signals, Configuration)
                                    + DomainTotal(signals, Threat) + DomainTotal(signals, Recovery)
  {
    if signals != [] { TotalByDomains(signals[1..]); }
  }

  lemma {:induction false} AllKnown(signals: seq<Signal>)
    requires forall i :: 0 <= i < |signals| ==> signals[i].status == Validated
    ensures KnownWeight(signals) == TotalWeight(signals)
  {
    if signals != [] { AllKnown(signals[1..]); }
  }

  lemma {:induction false} CoverageWithOneUnknown(all: seq<Signal>, i: nat, observed: string)
    requires HealthyAsShipped(all) && i < |all| && 0 < all[i].def.weight <= 10
    ensures Coverage(Turn(all, i, Unknown, observed)) >= 60
  {
    TotalByDomains(all);
    AllKnown(all);
    TurnSums(all, i, Unknown, observed, Identity);
    assert TotalWeight(all) == 137;
    RoundMonotone(100 * 127, 100 * (137 - all[i].def.weight), 137);
    RoundMonotone(100 * (137 - all[i].def.weight), 100 * 137, 137);
    RoundExact(100, 137);
  }

  lemma {:induction false} OneConcernUnseen(all: seq<Signal>, i: nat, seen: string, lost: string)
    requires HealthyAsShipped(all) && Weighed(all) && i < |all| && ShippedWeight(all[i].def.domain, all[i].def.weight)
    requires all[i].def.severity == Critical
    ensures var concern := Turn(all, i, Concern, seen);
            TrustRank(TrustOf(Turn(concern, i, Unknown, lost))) > TrustRank(TrustOf(concern))
  {
    var concern := Turn(all, i, Concern, seen);
    assert Turn(concern, i, Unknown, lost) == Turn(all, i, Unknown, lost);
    assert forall k :: 0 <= k < |all| && k != i ==> concern[k] == all[k];
    assert Weighed(concern) && concern[i].status == Concern;
    OneDown(all, i, Concern, seen);
    CostsAreSmall(all[i].def.domain, all[i].def.weight);
    CoverageWithOneUnknown(all, i, lost);
    LosingSightRaisesTrustIff(concern, i, lost);
  }

  lemma {:induction false} CostsAreSmall(d: Domain, w: int)
    requires ShippedWeight(d, w)
    ensures Cost(d, w) <= 9 && 0 < w <= 10
  {
    match d
    case Identity => IdentityCosts(w);
    case Software => SoftwareCosts(w);
    case Configuration => ConfigurationCosts(w);
    case Threat => ThreatCosts(w);
    case Recovery => RecoveryCosts(w);
  }

  /** With the shipped table, everything else healthy, losing sight of any
      critical concern raises the trust decision. */
  lemma {:induction false} UnseenConcernRaisesTrust(i: nat, seen: string, lost: string)
    requires i < 18
    ensures |AllHealthy()| == 18
    ensures AllHealthy()[i].def.severity == Critical ==>
              var concern := Turn(AllHealthy(), i, Concern, seen);
              TrustRank(TrustOf(Turn(concern, i, Unknown, lost))) > TrustRank(TrustOf(concern))
  {
    AllHealthyAsShipped();
    forall k | 0 <= k < |AllHealthy()|
      ensures AllHealthy()[k].def.weight > 0 && ShippedWeight(AllHealthy()[k].def.domain, AllHealthy()[k].def.weight)
    {
      AllHealthyAt(k);
      ShippedAt(k);
    }
    if AllHealthy()[i].def.severity == Critical {
      OneConcernUnseen(AllHealthy(), i, seen, lost);
    }
  }
}
