/** Preparedness scoring (mac_audit_agent/cyber_resilience.py): controls with
    weights that total 100 in each category, category scores, the overall score
    and the record of changes. */
module ResilienceScore {
  import opened Common
  import opened Rounding

  datatype Category = Detection | Response | Containment | Recovery | Identity | SupplyChain | Vulnerability | Configuration | Unlisted(text: string)

  /** CATEGORY_WEIGHTS. */
  const CATEGORIES: seq<Category> := [Detection, Response, Containment, Recovery, Identity, SupplyChain, Vulnerability, Configuration]

  function CategoryWeight(c: Category): nat {
    match c
    case Detection => 20
    case Response => 18
    case Containment => 12
    case Recovery => 18
    case Identity => 10
    case SupplyChain => 10
    case Vulnerability => 6
    case Configuration => 6
    case Unlisted(_) => 0
  }

  /** `frameworks` is the number of frameworks a control is mapped to. */
  datatype Control = Control(id: string, category: Category, weight: int, evidenceKey: string, frameworks: nat)

  datatype Status = Passed | Failed | NotMeasured

  datatype ControlResult = ControlResult(control: Control, status: Status, credit: int)

  datatype Change = Change(id: string, before: Status, now: Status, scoreChange: int)

  // ---------- validation ----------

  function Weights(controls: seq<Control>, c: Category): int {
    if controls == [] then 0
    else
      var n := |controls| - 1;
      Weights(controls[..n], c) + if controls[n].category == c then controls[n].weight else 0
  }

  predicate WellFormed(controls: seq<Control>) {
    && (forall i, j :: 0 <= i < j < |controls| ==> controls[i].id != controls[j].id)
    && (forall i :: 0 <= i < |controls| ==> !controls[i].category.Unlisted? && controls[i].weight > 0 && controls[i].frameworks > 0)
  }

  ghost predicate Valid(controls: seq<Control>) {
    WellFormed(controls) && forall c: Category :: !c.Unlisted? ==> Weights(controls, c) == 100
  }

  lemma CategoriesAreAll(c: Category)
    ensures c in CATEGORIES <==> !c.Unlisted?
  {
    assert CATEGORIES[0] == Detection && CATEGORIES[1] == Response && CATEGORIES[2] == Containment && CATEGORIES[3] == Recovery;
    assert CATEGORIES[4] == Identity && CATEGORIES[5] == SupplyChain && CATEGORIES[6] == Vulnerability && CATEGORIES[7] == Configuration;
  }

  /** `_validate`: false where the source raises. */
  method ValidateControls(controls: seq<Control>) returns (ok: bool)
    ensures ok <==> Valid(controls)
  {
    var ids: set<string> := {};
    for i := 0 to |controls|
      invariant WellFormed(controls[..i])
      invariant ids == set k | 0 <= k < i :: controls[k].id
    {
      var x := controls[i];
      if x.id in ids || x.category.Unlisted? || x.weight <= 0 || x.frameworks == 0 {
        return false;
      }
      ids := ids + {x.id};
    }
    assert controls[..|controls|] == controls;
    for j := 0 to |CATEGORIES|
      invariant forall k :: 0 <= k < j ==> Weights(controls, CATEGORIES[k]) == 100
    {
      if Weights(controls, CATEGORIES[j]) != 100 {
        CategoriesAreAll(CATEGORIES[j]);
        return false;
      }
    }
    forall c: Category | !c.Unlisted? ensures Weights(controls, c) == 100 {
      CategoriesAreAll(c);
    }
    ok := true;
  }

  // ---------- assessment ----------

  /** What the collected value of a control says; evidence without a reference
      counts for nothing. */
  datatype Verdict = Good | Bad | Unclear
  datatype Observation = Observation(referenced: bool, verdict: Verdict)

  function StatusOf(evidence: map<string, Observation>, c: Control): Status {
    if c.evidenceKey !in evidence || !evidence[c.evidenceKey].referenced then NotMeasured
    else match evidence[c.evidenceKey].verdict
      case Good => Passed
      case Bad => Failed
      case Unclear => NotMeasured
  }

  /** Evidence with a reference says v of the control. */
  predicate Says(evidence: map<string, Observation>, c: Control, v: Verdict) {
    c.evidenceKey in evidence && evidence[c.evidenceKey] == Observation(true, v)
  }

  lemma StatusIff(evidence: map<string, Observation>, c: Control)
    ensures StatusOf(evidence, c) == Passed <==> Says(evidence, c, Good)
    ensures StatusOf(evidence, c) == Failed <==> Says(evidence, c, Bad)
  {}

  function Judge(evidence: map<string, Observation>, c: Control): ControlResult {
    var status := StatusOf(evidence, c);
    ControlResult(c, status, if status == Passed then c.weight else 0)
  }

  function Credits(results: seq<ControlResult>, c: Category): int {
    if results == [] then 0
    else
      var n := |results| - 1;
      Credits(results[..n], c) + if results[n].control.category == c then results[n].credit else 0
  }

  function ResultWeights(results: seq<ControlResult>, c: Category): int {
    if results == [] then 0
    else
      var n := |results| - 1;
      ResultWeights(results[..n], c) + if results[n].control.category == c then results[n].control.weight else 0
  }

  /** `_category_score`. */
  function CategoryScore(results: seq<ControlResult>, c: Category): int
    requires ResultWeights(results, c) > 0
  {
    Round(100 * Credits(results, c), ResultWeights(results, c))
  }

  /** Results for exactly these controls, credited as the source credits them. */
  predicate Judged(controls: seq<Control>, results: seq<ControlResult>) {
    && |results| == |controls|
    && forall i :: 0 <= i < |results| ==>
         results[i].control == controls[i] && results[i].credit == if results[i].status == Passed then controls[i].weight else 0
  }

  lemma {:induction false} JudgedWeights(controls: seq<Control>, results: seq<ControlResult>, c: Category)
    requires Judged(controls, results)
    ensures ResultWeights(results, c) == Weights(controls, c)
  {
    if results != [] {
      var n := |results| - 1;
      JudgedWeights(controls[..n], results[..n], c);
    }
  }

  /** Rounding changes no category score: it is the sum of the credits. */
  lemma CategoryIsExact(controls: seq<Control>, results: seq<ControlResult>, c: Category)
    requires Valid(controls) && Judged(controls, results) && !c.Unlisted?
    ensures ResultWeights(results, c) == 100 && CategoryScore(results, c) == Credits(results, c)
  {
    JudgedWeights(controls, results, c);
    RoundExact(Credits(results, c), 100);
  }

  // ---------- the overall score ----------

  ghost predicate Scorable(results: seq<ControlResult>) {
    forall c: Category :: !c.Unlisted? ==> ResultWeights(results, c) > 0
  }

  ghost function WeightedScores(results: seq<ControlResult>): int
    requires Scorable(results)
  {
    CategoryScore(results, Detection) * 20 + CategoryScore(results, Response) * 18 + CategoryScore(results, Containment) * 12
    + CategoryScore(results, Recovery) * 18 + CategoryScore(results, Identity) * 10 + CategoryScore(results, SupplyChain) * 10
    + CategoryScore(results, Vulnerability) * 6 + CategoryScore(results, Configuration) * 6
  }

  ghost function OverallScore(results: seq<ControlResult>): int
    requires Scorable(results)
  {
    Round(WeightedScores(results), 100)
  }

  /** Each control's credit times the weight of its category. */
  function ExactPoints(results: seq<ControlResult>): int {
    if results == [] then 0
    else
      var n := |results| - 1;
      ExactPoints(results[..n]) + CategoryWeight(results[n].control.category) * results[n].credit
  }

  function CategoryPoints(results: seq<ControlResult>): int {
    Credits(results, Detection) * 20 + Credits(results, Response) * 18 + Credits(results, Containment) * 12
    + Credits(results, Recovery) * 18 + Credits(results, Identity) * 10 + Credits(results, SupplyChain) * 10
    + Credits(results, Vulnerability) * 6 + Credits(results, Configuration) * 6
  }

  lemma {:induction false} PointsByCategory(results: seq<ControlResult>)
    ensures ExactPoints(results) == CategoryPoints(results)
  {
    if results != [] {
      PointsByCategory(results[..|results| - 1]);
    }
  }

  lemma ScoresAreExact(controls: seq<Control>, results: seq<ControlResult>)
    requires Valid(controls) && Judged(controls, results)
    ensures Scorable(results) && WeightedScores(results) == ExactPoints(results)
  {
    forall c: Category | !c.Unlisted? ensures ResultWeights(results, c) == 100 && CategoryScore(results, c) == Credits(results, c) {
      CategoryIsExact(controls, results, c);
    }
    PointsByCategory(results);
  }

  /** The overall score is the exact weighted value to the nearest integer. */
  lemma OverallIsNear(controls: seq<Control>, results: seq<ControlResult>)
    requires Valid(controls) && Judged(controls, results)
    ensures Scorable(results) && ExactPoints(results) - 50 <= 100 * OverallScore(results) <= ExactPoints(results) + 50
  {
    ScoresAreExact(controls, results);
    RoundIsNear(ExactPoints(results), 100);
  }

  // ---------- a perfect score ----------

  function Lost(r: ControlResult): int {
    if r.status == Passed then 0 else CategoryWeight(r.control.category) * r.control.weight
  }

  function AllLost(results: seq<ControlResult>): int {
    if results == [] then 0 else AllLost(results[..|results| - 1]) + Lost(results[|results| - 1])
  }

  function PossiblePoints(controls: seq<Control>): int {
    if controls == [] then 0
    else
      var n := |controls| - 1;
      PossiblePoints(controls[..n]) + CategoryWeight(controls[n].category) * controls[n].weight
  }

  function CategoryTotals(controls: seq<Control>): int {
    Weights(controls, Detection) * 20 + Weights(controls, Response) * 18 + Weights(controls, Containment) * 12
    + Weights(controls, Recovery) * 18 + Weights(controls, Identity) * 10 + Weights(controls, SupplyChain) * 10
    + Weights(controls, Vulnerability) * 6 + Weights(controls, Configuration) * 6
  }

  lemma {:induction false} PossibleByCategory(controls: seq<Control>)
    ensures PossiblePoints(controls) == CategoryTotals(controls)
  {
    if controls != [] {
      PossibleByCategory(controls[..|controls| - 1]);
    }
  }

  lemma {:induction false} PointsAndLosses(controls: seq<Control>, results: seq<ControlResult>)
    requires Judged(controls, results)
    ensures ExactPoints(results) + AllLost(results) == PossiblePoints(controls)
  {
    if results != [] {
      var n := |results| - 1;
      PointsAndLosses(controls[..n], results[..n]);
    }
  }

  lemma {:induction false} EveryLossCounts(controls: seq<Control>, results: seq<ControlResult>)
    requires Judged(controls, results) && forall i :: 0 <= i < |controls| ==> controls[i].weight > 0
    ensures AllLost(results) >= 0 && forall i :: 0 <= i < |results| ==> Lost(results[i]) <= AllLost(results)
    ensures (forall i :: 0 <= i < |results| ==> results[i].status == Passed) ==> AllLost(results) == 0
  {
    if results != [] {
      var n := |results| - 1;
      EveryLossCounts(controls[..n], results[..n]);
      LossIsNatural(results[n]);
      assert forall i :: 0 <= i < n ==> results[..n][i] == results[i];
    }
  }

  lemma LossIsNatural(r: ControlResult)
    requires r.control.weight > 0
    ensures Lost(r) >= 0
  {}

  lemma RoundsToFull(lost: int)
    requires lost >= 0
    ensures Round(10000 - lost, 100) == 100 <==> lost <= 50
  {
    RoundIsNear(10000 - lost, 100);
  }

  /** 100 overall means that at most half a point is lost. */
  lemma PerfectMeansHalfAPoint(controls: seq<Control>, results: seq<ControlResult>)
    requires Valid(controls) && Judged(controls, results)
    ensures Scorable(results) && (OverallScore(results) == 100 <==> AllLost(results) <= 50)
  {
    ScoresAreExact(controls, results);
    PossibleByCategory(controls);
    PointsAndLosses(controls, results);
    EveryLossCounts(controls, results);
    RoundsToFull(AllLost(results));
  }

  predicate AllPassed(results: seq<ControlResult>) {
    forall i :: 0 <= i < |results| ==> results[i].status == Passed
  }

  /** The results with every control passed but the one at i. */
  function AllButOne(controls: seq<Control>, i: nat): (r: seq<ControlResult>)
    ensures Judged(controls, r)
    ensures forall k :: 0 <= k < |r| ==> r[k].status == if k == i then Failed else Passed
  {
    seq(|controls|, k requires 0 <= k < |controls| =>
      if k == i then ControlResult(controls[k], Failed, 0) else ControlResult(controls[k], Passed, controls[k].weight))
  }

  lemma {:induction false} OneLoss(controls: seq<Control>, i: nat, k: nat)
    requires i < |controls| && k <= |controls|
    ensures AllLost(AllButOne(controls, i)[..k]) == if i < k then CategoryWeight(controls[i].category) * controls[i].weight else 0
  {
    if k > 0 {
      OneLoss(controls, i, k - 1);
      assert AllButOne(controls, i)[..k][..k - 1] == AllButOne(controls, i)[..k - 1];
    }
  }

  /** The weight of control i in the overall score, in hundredths. */
  function Worth(controls: seq<Control>, i: nat): int
    requires i < |controls|
  {
    CategoryWeight(controls[i].category) * controls[i].weight
  }

  /** An overall 100 means that every control passed. */
  ghost predicate PerfectIsComplete(controls: seq<Control>)
    requires Valid(controls)
  {
    forall results: seq<ControlResult> :: Judged(controls, results) && Scorable(results) && OverallScore(results) == 100 ==> AllPassed(results)
  }

  lemma AllPassedIsPerfect(controls: seq<Control>, results: seq<ControlResult>)
    requires Valid(controls) && Judged(controls, results) && AllPassed(results)
    ensures Scorable(results) && OverallScore(results) == 100
  {
    PerfectMeansHalfAPoint(controls, results);
    EveryLossCounts(controls, results);
  }

  /** 100 can be trusted exactly when every control is worth more than half a
      point; otherwise a control that failed can be rounded away. */
  lemma PerfectIsCompleteIff(controls: seq<Control>)
    requires Valid(controls)
    ensures PerfectIsComplete(controls) <==> forall i :: 0 <= i < |controls| ==> Worth(controls, i) > 50
  {
    if forall i :: 0 <= i < |controls| ==> Worth(controls, i) > 50 {
      forall results: seq<ControlResult> | Judged(controls, results) && Scorable(results) && OverallScore(results) == 100
        ensures AllPassed(results)
      {
        PerfectMeansHalfAPoint(controls, results);
        EveryLossCounts(controls, results);
        forall i | 0 <= i < |results| ensures results[i].status == Passed {
          assert Lost(results[i]) <= 50 && Worth(controls, i) > 50;
        }
      }
    } else {
      var i :| 0 <= i < |controls| && Worth(controls, i) <= 50;
      var results := AllButOne(controls, i);
      OneLoss(controls, i, |controls|);
      assert results[..|controls|] == results;
      PerfectMeansHalfAPoint(controls, results);
      assert results[i].status == Failed;
    }
  }

  // ---------- changes ----------

  function Keyed(previous: seq<ControlResult>): map<string, ControlResult> {
    if previous == [] then map[]
    else
      var n := |previous| - 1;
      Keyed(previous[..n])[previous[n].control.id := previous[n]]
  }

  function Changes(old': map<string, ControlResult>, results: seq<ControlResult>): seq<Change> {
    if results == [] then []
    else
      var n := |results| - 1;
      var now := results[n];
      Changes(old', results[..n])
      + if now.control.id in old' && old'[now.control.id].status != now.status
        then [Change(now.control.id, old'[now.control.id].status, now.status, now.credit - old'[now.control.id].credit)] else []
  }

  /** `_changes`. */
  method CompareResults(previous: seq<ControlResult>, results: seq<ControlResult>) returns (changes: seq<Change>)
    ensures changes == Changes(Keyed(previous), results)
  {
    var old': map<string, ControlResult> := map[];
    for i := 0 to |previous|
      invariant old' == Keyed(previous[..i])
    {
      assert previous[..i + 1][..i] == previous[..i];
      old' := old'[previous[i].control.id := previous[i]];
    }
    assert previous[..|previous|] == previous;
    changes := [];
    for i := 0 to |results|
      invariant changes == Changes(old', results[..i])
    {
      assert results[..i + 1][..i] == results[..i];
      var now := results[i];
      if now.control.id in old' {
        var before := old'[now.control.id];
        if before.status != now.status {
          changes := changes + [Change(now.control.id, before.status, now.status, now.credit - before.credit)];
        }
      }
    }
    assert results[..|results|] == results;
  }

  predicate BelongsTo(controls: seq<Control>, id: string, c: Category) {
    exists i :: 0 <= i < |controls| && controls[i].id == id && controls[i].category == c
  }

  /** The score changes recorded for controls of one category. */
  function Recorded(controls: seq<Control>, changes: seq<Change>, c: Category): int {
    if changes == [] then 0
    else
      var n := |changes| - 1;
      Recorded(controls, changes[..n], c) + if BelongsTo(controls, changes[n].id, c) then changes[n].scoreChange else 0
  }

  lemma {:induction false} KeyedIsLast(previous: seq<ControlResult>, i: nat)
    requires i < |previous| && forall j, k :: 0 <= j < k < |previous| ==> previous[j].control.id != previous[k].control.id
    ensures previous[i].control.id in Keyed(previous) && Keyed(previous)[previous[i].control.id] == previous[i]
  {
    var n := |previous| - 1;
    if i < n { KeyedIsLast(previous[..n], i); }
  }

  lemma RecordedOneMore(controls: seq<Control>, changes: seq<Change>, extra: Change, c: Category)
    ensures Recorded(controls, changes + [extra], c)
            == Recorded(controls, changes, c) + if BelongsTo(controls, extra.id, c) then extra.scoreChange else 0
  {
    assert (changes + [extra])[..|changes|] == changes;
  }

  lemma OwnCategory(controls: seq<Control>, i: nat, c: Category)
    requires WellFormed(controls) && i < |controls|
    ensures BelongsTo(controls, controls[i].id, c) <==> controls[i].category == c
  {}

  /** One more compared result adds its difference of credit. */
  lemma RecordedNext(controls: seq<Control>, old': map<string, ControlResult>, results: seq<ControlResult>, n: nat, was: ControlResult, c: Category)
    requires n < |results| && results[n].control.id in old' && old'[results[n].control.id] == was
    requires was.status == results[n].status ==> was.credit == results[n].credit
    ensures Recorded(controls, Changes(old', results[..n + 1]), c)
            == Recorded(controls, Changes(old', results[..n]), c)
               + if BelongsTo(controls, results[n].control.id, c) then results[n].credit - was.credit else 0
  {
    assert results[..n + 1][..n] == results[..n];
    var before, now := Changes(old', results[..n]), results[n];
    assert before + [] == before;
    RecordedOneMore(controls, before, Change(now.control.id, was.status, now.status, now.credit - was.credit), c);
  }

  lemma CreditsNext(results: seq<ControlResult>, n: nat, c: Category)
    requires n < |results|
    ensures Credits(results[..n + 1], c) == Credits(results[..n], c) + if results[n].control.category == c then results[n].credit else 0
  {
    assert results[..n + 1][..n] == results[..n];
  }

  lemma {:induction false} ChangesAddUp(controls: seq<Control>, before: seq<ControlResult>, now: seq<ControlResult>, c: Category, k: nat)
    requires WellFormed(controls) && Judged(controls, before) && Judged(controls, now) && k <= |controls|
    ensures Recorded(controls, Changes(Keyed(before), now[..k]), c) == Credits(now[..k], c) - Credits(before[..k], c)
  {
    if k > 0 {
      var n := k - 1;
      ChangesAddUp(controls, before, now, c, n);
      KeyedIsLast(before, n);
      OwnCategory(controls, n, c);
      RecordedNext(controls, Keyed(before), now, n, before[n], c);
      CreditsNext(now, n, c);
      CreditsNext(before, n, c);
    }
  }

  predicate Names(changes: seq<Change>, id: string) {
    exists j :: 0 <= j < |changes| && changes[j].id == id
  }

  lemma NamesOneMore(changes: seq<Change>, extra: Change, id: string)
    ensures Names(changes + [extra], id) <==> Names(changes, id) || extra.id == id
  {
    var more := changes + [extra];
    assert more[|changes|] == extra;
    assert forall j :: 0 <= j < |changes| ==> more[j] == changes[j];
  }

  /** A control is named among the changes exactly when its status changed. */
  lemma {:induction false} EveryStatusChangeIsNamed(controls: seq<Control>, before: seq<ControlResult>, now: seq<ControlResult>, k: nat, i: nat)
    requires WellFormed(controls) && Judged(controls, before) && Judged(controls, now) && k <= |controls| && i < |controls|
    ensures Names(Changes(Keyed(before), now[..k]), controls[i].id) <==> i < k && before[i].status != now[i].status
  {
    if k > 0 {
      var n := k - 1;
      EveryStatusChangeIsNamed(controls, before, now, n, i);
      assert now[..k][..n] == now[..n];
      KeyedIsLast(before, n);
      var was, id := Changes(Keyed(before), now[..n]), controls[n].id;
      assert was + [] == was;
      NamesOneMore(was, Change(id, before[n].status, now[n].status, now[n].credit - before[n].credit), controls[i].id);
    }
  }

  /** The recorded changes of a category are its change of score, no more and
      no less. */
  lemma ChangesTelescope(controls: seq<Control>, before: seq<ControlResult>, now: seq<ControlResult>, c: Category)
    requires Valid(controls) && Judged(controls, before) && Judged(controls, now) && !c.Unlisted?
    ensures ResultWeights(before, c) == ResultWeights(now, c) == 100
    ensures Recorded(controls, Changes(Keyed(before), now), c) == CategoryScore(now, c) - CategoryScore(before, c)
  {
    CategoryIsExact(controls, before, c);
    CategoryIsExact(controls, now, c);
    ChangesAddUp(controls, before, now, c, |controls|);
    assert now[..|controls|] == now && before[..|controls|] == before;
  }

  /** The recorded changes, each weighted by its category. */
  function WeightedChanges(controls: seq<Control>, changes: seq<Change>): int {
    Recorded(controls, changes, Detection) * 20 + Recorded(controls, changes, Response) * 18 + Recorded(controls, changes, Containment) * 12
    + Recorded(controls, changes, Recovery) * 18 + Recorded(controls, changes, Identity) * 10 + Recorded(controls, changes, SupplyChain) * 10
    + Recorded(controls, changes, Vulnerability) * 6 + Recorded(controls, changes, Configuration) * 6
  }

  /** The overall score follows the recorded changes to within one point. */
  lemma OverallFollowsChanges(controls: seq<Control>, before: seq<ControlResult>, now: seq<ControlResult>)
    requires Valid(controls) && Judged(controls, before) && Judged(controls, now)
    ensures Scorable(before) && Scorable(now)
    ensures -100 <= 100 * (OverallScore(now) - OverallScore(before)) - WeightedChanges(controls, Changes(Keyed(before), now)) <= 100
  {
    OverallIsNear(controls, before);
    OverallIsNear(controls, now);
    PointsByCategory(before);
    PointsByCategory(now);
    var changes := Changes(Keyed(before), now);
    forall c: Category ensures Recorded(controls, changes, c) == Credits(now, c) - Credits(before, c) {
      ChangesAddUp(controls, before, now, c, |controls|);
      assert now[..|controls|] == now && before[..|controls|] == before;
    }
  }

  // ---------- one assessment ----------

  function AllWeights(results: seq<ControlResult>): int {
    if results == [] then 0 else AllWeights(results[..|results| - 1]) + results[|results| - 1].control.weight
  }

  function MeasuredWeights(results: seq<ControlResult>): int {
    if results == [] then 0
    else
      var n := |results| - 1;
      MeasuredWeights(results[..n]) + if results[n].status != NotMeasured then results[n].control.weight else 0
  }

  datatype Assessment = Assessment(overall: int, scores: map<Category, int>, results: seq<ControlResult>, changes: seq<Change>, coverage: int)

  method JudgeAll(controls: seq<Control>, evidence: map<string, Observation>) returns (results: seq<ControlResult>)
    ensures Judged(controls, results)
    ensures forall i :: 0 <= i < |controls| ==> results[i].status == StatusOf(evidence, controls[i])
  {
    results := [];
    for i := 0 to |controls|
      invariant |results| == i && forall k :: 0 <= k < i ==> results[k] == Judge(evidence, controls[k])
    {
      results := results + [Judge(evidence, controls[i])];
    }
  }

  method ScoreCategories(ghost controls: seq<Control>, results: seq<ControlResult>) returns (scores: map<Category, int>)
    requires Valid(controls) && Judged(controls, results)
    ensures forall c :: c in scores <==> c in CATEGORIES
    ensures forall c :: c in scores ==> scores[c] == Credits(results, c)
  {
    scores := map[];
    for j := 0 to |CATEGORIES|
      invariant forall c :: c in scores <==> c in CATEGORIES[..j]
      invariant forall c :: c in scores ==> scores[c] == Credits(results, c)
    {
      CategoriesAreAll(CATEGORIES[j]);
      CategoryIsExact(controls, results, CATEGORIES[j]);
      scores := scores[CATEGORIES[j] := CategoryScore(results, CATEGORIES[j])];
    }
    assert CATEGORIES[..|CATEGORIES|] == CATEGORIES;
  }

  /** `assess`, on controls the constructor accepted. */
  method Assess(controls: seq<Control>, evidence: map<string, Observation>, previous: Option<seq<ControlResult>>) returns (a: Assessment)
    requires Valid(controls)
    ensures Judged(controls, a.results) && Scorable(a.results)
    ensures forall i :: 0 <= i < |controls| ==> (a.results[i].status == Passed <==> Says(evidence, controls[i], Good))
    ensures forall i :: 0 <= i < |controls| ==> (a.results[i].status == Failed <==> Says(evidence, controls[i], Bad))
    ensures forall c :: c in a.scores <==> c in CATEGORIES
    ensures forall c :: c in a.scores ==> a.scores[c] == Credits(a.results, c)
    ensures a.overall == OverallScore(a.results) && ExactPoints(a.results) - 50 <= 100 * a.overall <= ExactPoints(a.results) + 50
    ensures a.changes == if previous.Some? then Changes(Keyed(previous.value), a.results) else []
    ensures a.coverage == Round(100 * MeasuredWeights(a.results), 800)
    ensures a.coverage == 100 <==> UnmeasuredWeights(a.results) <= 4
  {
    var results := JudgeAll(controls, evidence);
    forall i | 0 <= i < |controls| ensures results[i].status == Passed <==> Says(evidence, controls[i], Good)
                                   ensures results[i].status == Failed <==> Says(evidence, controls[i], Bad) {
      StatusIff(evidence, controls[i]);
    }
    var scores := ScoreCategories(controls, results);
    var overall := WeighScores(controls, results, scores);
    WeightsTotal800(controls, results);
    var coverage := Round(100 * MeasuredWeights(results), AllWeights(results));
    FullCoverageIff(controls, results);
    var changes := [];
    if previous.Some? {
      changes := CompareResults(previous.value, results);
    }
    a := Assessment(overall, scores, results, changes, coverage);
  }

  /** The overall score, summed over the category scores. */
  method WeighScores(ghost controls: seq<Control>, ghost results: seq<ControlResult>, scores: map<Category, int>) returns (overall: int)
    requires Valid(controls) && Judged(controls, results)
    requires forall c :: c in CATEGORIES ==> c in scores && scores[c] == Credits(results, c)
    ensures Scorable(results) && overall == OverallScore(results)
    ensures ExactPoints(results) - 50 <= 100 * overall <= ExactPoints(results) + 50
  {
    OverallIsNear(controls, results);
    ScoresAreExact(controls, results);
    PointsByCategory(results);
    var sum := 0;
    for j := 0 to |CATEGORIES|
      invariant sum == PartialSum(results, j)
    {
      assert CATEGORIES[j] in CATEGORIES;
      sum := sum + scores[CATEGORIES[j]] * CategoryWeight(CATEGORIES[j]);
    }
    PartialSumIsAll(results);
    overall := Round(sum, 100);
  }

  function PartialSum(results: seq<ControlResult>, j: nat): int
    requires j <= |CATEGORIES|
  {
    if j == 0 then 0 else PartialSum(results, j - 1) + Credits(results, CATEGORIES[j - 1]) * CategoryWeight(CATEGORIES[j - 1])
  }

  lemma PartialSumNext(results: seq<ControlResult>, j: nat, c: Category)
    requires j < |CATEGORIES| && CATEGORIES[j] == c
    ensures PartialSum(results, j + 1) == PartialSum(results, j) + Credits(results, c) * CategoryWeight(c)
  {}

  lemma PartialSumIsAll(results: seq<ControlResult>)
    ensures PartialSum(results, |CATEGORIES|) == CategoryPoints(results)
  {
    PartialSumNext(results, 0, Detection);
    PartialSumNext(results, 1, Response);
    PartialSumNext(results, 2, Containment);
    PartialSumNext(results, 3, Recovery);
    PartialSumNext(results, 4, Identity);
    PartialSumNext(results, 5, SupplyChain);
    PartialSumNext(results, 6, Vulnerability);
    PartialSumNext(results, 7, Configuration);
  }

  function SumByCategory(results: seq<ControlResult>): int {
    ResultWeights(results, Detection) + ResultWeights(results, Response) + ResultWeights(results, Containment)
    + ResultWeights(results, Recovery) + ResultWeights(results, Identity) + ResultWeights(results, SupplyChain)
    + ResultWeights(results, Vulnerability) + ResultWeights(results, Configuration)
  }

  lemma {:induction false} WeightsByCategory(results: seq<ControlResult>)
    requires forall i :: 0 <= i < |results| ==> !results[i].control.category.Unlisted?
    ensures AllWeights(results) == SumByCategory(results)
  {
    if results != [] { WeightsByCategory(results[..|results| - 1]); }
  }

  lemma WeightsTotal800(controls: seq<Control>, results: seq<ControlResult>)
    requires Valid(controls) && Judged(controls, results)
    ensures AllWeights(results) == 800
  {
    WeightsByCategory(results);
    forall c: Category | !c.Unlisted? ensures ResultWeights(results, c) == 100 {
      CategoryIsExact(controls, results, c);
    }
  }

  function UnmeasuredWeights(results: seq<ControlResult>): int {
    if results == [] then 0
    else
      var n := |results| - 1;
      UnmeasuredWeights(results[..n]) + if results[n].status == NotMeasured then results[n].control.weight else 0
  }

  lemma {:induction false} MeasuredOrNot(results: seq<ControlResult>)
    ensures MeasuredWeights(results) + UnmeasuredWeights(results) == AllWeights(results)
  {
    if results != [] { MeasuredOrNot(results[..|results| - 1]); }
  }

  lemma {:induction false} UnmeasuredIsNatural(controls: seq<Control>, results: seq<ControlResult>)
    requires Judged(controls, results) && forall i :: 0 <= i < |controls| ==> controls[i].weight > 0
    ensures UnmeasuredWeights(results) >= 0
  {
    if results != [] {
      var n := |results| - 1;
      UnmeasuredIsNatural(controls[..n], results[..n]);
    }
  }

  /** The evidence coverage is 100 exactly when the controls not measured weigh
      at most 4 of all 800. */
  lemma FullCoverageIff(controls: seq<Control>, results: seq<ControlResult>)
    requires Valid(controls) && Judged(controls, results)
    ensures Round(100 * MeasuredWeights(results), 800) == 100 <==> UnmeasuredWeights(results) <= 4
  {
    WeightsTotal800(controls, results);
    MeasuredOrNot(results);
    UnmeasuredIsNatural(controls, results);
    RoundIsNear(100 * MeasuredWeights(results), 800);
  }

  // ---------- the shipped controls ----------

  function ShippedWeights(c: Category): seq<int> {
    match c
    case Detection => [15, 15, 15, 15, 15, 10, 15]
    case Response => [20, 15, 20, 15, 15, 15]
    case Containment => [25, 20, 20, 15, 20]
    case Recovery => [25, 20, 25, 15, 15]
    case Identity => [25, 25, 20, 20, 10]
    case SupplyChain => [25, 20, 20, 25, 10]
    case Vulnerability => [25, 30, 25, 20]
    case Configuration => [30, 25, 25, 20]
    case Unlisted(_) => []
  }

  function Prefix(c: Category): string {
    match c
    case Detection => "DET"
    case Response => "RSP"
    case Containment => "CON"
    case Recovery => "REC"
    case Identity => "ID"
    case SupplyChain => "SC"
    case Vulnerability => "VUL"
    case Configuration => "CFG"
    case Unlisted(_) => ""
  }

  function Suffixes(c: Category): seq<string> {
    match c
    case Detection => ["LOG", "MON", "PER", "RAN", "ID", "NET", "SIM"]
    case Response => ["EVD", "TIM", "ALT", "CASE", "WF", "EXP"]
    case Containment => ["ERM", "NET", "PROC", "ISO", "AUTH"]
    case Recovery => ["BKP", "PROC", "TEST", "INT", "BASE"]
    case Identity => ["VIS", "AUTH", "SSH", "PRIV", "CRED"]
    case SupplyChain => ["PROV", "SBOM", "DEP", "ATT", "DEV"]
    case Vulnerability => ["PAT", "KEV", "PRI", "REM"]
    case Configuration => ["CIS", "BASE", "DRIFT", "POL"]
    case Unlisted(_) => []
  }

  function ShippedKeys(c: Category): (r: seq<string>)
    ensures |r| == |ShippedWeights(c)|
  {
    match c
    case Detection => ["event_logging", "endpoint_monitoring", "persistence_detection", "ransomware_detection", "identity_detection",
                       "network_monitoring", "simulation_detection"]
    case Response => ["evidence_collection", "timeline_generation", "alert_quality", "case_management", "incident_workflow", "evidence_export"]
    case Containment => ["emergency_response", "network_containment", "process_response", "isolation_workflow", "containment_authorization"]
    case Recovery => ["backup_health", "recovery_procedure", "restore_testing", "integrity_validation", "configuration_baseline"]
    case Identity => ["account_visibility", "authentication_monitoring", "ssh_protection", "privileged_account_health", "credential_exposure_monitoring"]
    case SupplyChain => ["software_provenance", "sbom_coverage", "dependency_visibility", "attestation_coverage", "developer_identity"]
    case Vulnerability => ["patch_status", "kev_readiness", "risk_prioritization", "remediation_tracking"]
    case Configuration => ["control_validation", "security_baseline", "drift_detection", "policy_tracking"]
    case Unlisted(_) => []
  }

  lemma SuffixesFit(c: Category)
    ensures |Suffixes(c)| == |ShippedWeights(c)|
  {}

  function ShippedId(c: Category, i: nat): string
    requires i < |ShippedWeights(c)|
  {
    SuffixesFit(c);
    Prefix(c) + "-" + Suffixes(c)[i]
  }

  lemma PrefixesDiffer(c: Category, d: Category)
    requires !c.Unlisted? && !d.Unlisted? && c != d
    ensures |Prefix(c)| != |Prefix(d)| || Prefix(c)[0] != Prefix(d)[0] || Prefix(c)[1] != Prefix(d)[1]
  {}

  lemma PrefixHasNoDash(c: Category)
    ensures '-' !in Prefix(c)
  {}

  /** Within a category the second parts of the ids differ. */
  lemma SuffixesDiffer(c: Category, i: nat, j: nat)
    requires i < j < |Suffixes(c)|
    ensures Suffixes(c)[i] != Suffixes(c)[j]
  {}

  /** A text before a dash, itself without one, is determined by the whole. */
  lemma DashSplits(a: string, b: string, x: string, y: string)
    requires '-' !in a && '-' !in b && a + "-" + x == b + "-" + y
    ensures a == b && x == y
  {
    var s, t := a + "-" + x, b + "-" + y;
    assert s[|a|] == '-' && t[|b|] == '-';
    assert forall k :: 0 <= k < |a| ==> s[k] == a[k] && a[k] != '-';
    assert forall k :: 0 <= k < |b| ==> t[k] == b[k] && b[k] != '-';
    assert |a| == |b|;
    assert s[..|a|] == a && t[..|b|] == b && s[|a| + 1..] == x && t[|b| + 1..] == y;
  }

  /** No two shipped controls have the same id. */
  lemma ShippedIdsDiffer(c: Category, i: nat, d: Category, j: nat)
    requires i < |ShippedWeights(c)| && j < |ShippedWeights(d)|
    ensures ShippedId(c, i) == ShippedId(d, j) <==> c == d && i == j
  {
    SuffixesFit(c);
    SuffixesFit(d);
    if ShippedId(c, i) == ShippedId(d, j) {
      PrefixHasNoDash(c);
      PrefixHasNoDash(d);
      DashSplits(Prefix(c), Prefix(d), Suffixes(c)[i], Suffixes(d)[j]);
      if c != d { PrefixesDiffer(c, d); }
      if i < j { SuffixesDiffer(c, i, j); }
      if j < i { SuffixesDiffer(c, j, i); }
    }
  }

  function ShippedControl(c: Category, i: nat): Control
    requires i < |ShippedWeights(c)|
  {
    Control(ShippedId(c, i), c, ShippedWeights(c)[i], ShippedKeys(c)[i], if c == Detection && i == 0 then 3 else 2)
  }

  /** The first n shipped controls of a category, which keep their order. */
  function ShippedIn(c: Category, n: nat): (r: seq<Control>)
    requires n <= |ShippedWeights(c)|
    ensures |r| == n && forall i :: 0 <= i < n ==> r[i] == ShippedControl(c, i)
  {
    if n == 0 then [] else ShippedIn(c, n - 1) + [ShippedControl(c, n - 1)]
  }

  function ShippedOf(c: Category): seq<Control> {
    ShippedIn(c, |ShippedWeights(c)|)
  }

  /** The controls of some categories, one category after the other. */
  function Tabled(cs: seq<Category>, of: Category -> seq<Control>): seq<Control> {
    if cs == [] then [] else Tabled(cs[..|cs| - 1], of) + of(cs[|cs| - 1])
  }

  /** CONTROLS. */
  function ShippedControls(): seq<Control> {
    Tabled(CATEGORIES, ShippedTable())
  }

  function ShippedTable(): Category -> seq<Control> {
    c => ShippedOf(c)
  }

  function SumOf(ws: seq<int>): int {
    if ws == [] then 0 else SumOf(ws[..|ws| - 1]) + ws[|ws| - 1]
  }

  lemma {:induction false} WeightsAppend(a: seq<Control>, b: seq<Control>, c: Category)
    ensures Weights(a + b, c) == Weights(a, c) + Weights(b, c)
  {
    if b == [] {
      assert a + b == a;
    } else {
      var n := |b| - 1;
      assert (a + b)[..|a + b| - 1] == a + b[..n];
      WeightsAppend(a, b[..n], c);
    }
  }

  lemma {:induction false} WeightsIn(xs: seq<Control>, ws: seq<int>, home: Category, c: Category)
    requires |xs| == |ws| && forall i :: 0 <= i < |xs| ==> xs[i].category == home && xs[i].weight == ws[i]
    ensures Weights(xs, c) == if c == home then SumOf(ws) else 0
  {
    if xs != [] {
      WeightsIn(xs[..|xs| - 1], ws[..|ws| - 1], home, c);
    }
  }

  /** The shipped weights of a category total 100. */
  lemma ShippedTotal(c: Category)
    requires !c.Unlisted?
    ensures SumOf(ShippedWeights(c)) == 100
  {
    var ws := ShippedWeights(c);
    assert forall k :: 0 <= k < |ws| ==> ws[..k + 1][..k] == ws[..k];
    assert ws[..|ws|] == ws;
    assert SumOf(ws[..4]) == ws[0] + ws[1] + ws[2] + ws[3] by {
      assert SumOf(ws[..2]) == ws[0] + ws[1] by {
        assert SumOf(ws[..1]) == ws[0];
      }
      assert SumOf(ws[..3]) == ws[0] + ws[1] + ws[2];
    }
    assert |ws| > 4 ==> SumOf(ws[..5]) == SumOf(ws[..4]) + ws[4];
    assert |ws| > 5 ==> SumOf(ws[..6]) == SumOf(ws[..5]) + ws[5];
  }

  predicate HasShippedId(x: Control) {
    exists i :: 0 <= i < |ShippedWeights(x.category)| && x.id == ShippedId(x.category, i)
  }

  /** A mapped control of a category among cs, worth more than half a point. */
  predicate Counts(cs: seq<Category>, x: Control) {
    x.category in cs && x.frameworks > 0 && x.weight > 0 && CategoryWeight(x.category) * x.weight > 50
  }

  lemma ShippedCounts(cs: seq<Category>, c: Category, i: nat)
    requires c in cs && !c.Unlisted? && i < |ShippedWeights(c)|
    ensures Counts(cs, ShippedControl(c, i)) && HasShippedId(ShippedControl(c, i)) && ShippedControl(c, i).category == c
  {
    assert ShippedControl(c, i).id == ShippedId(c, i);
  }

  lemma OtherHomeOtherId(x: Control, y: Control)
    requires HasShippedId(x) && HasShippedId(y) && x.category != y.category
    ensures x.id != y.id
  {
    var i :| 0 <= i < |ShippedWeights(x.category)| && x.id == ShippedId(x.category, i);
    var j :| 0 <= j < |ShippedWeights(y.category)| && y.id == ShippedId(y.category, j);
    ShippedIdsDiffer(x.category, i, y.category, j);
  }

  predicate AllShipped(cs: seq<Category>, controls: seq<Control>) {
    forall i :: 0 <= i < |controls| ==> Counts(cs, controls[i]) && HasShippedId(controls[i])
  }

  lemma ShippedOfIsValid(cs: seq<Category>, c: Category)
    requires c in cs && !c.Unlisted?
    ensures WellFormed(ShippedOf(c)) && AllShipped(cs, ShippedOf(c)) && forall i :: 0 <= i < |ShippedOf(c)| ==> ShippedOf(c)[i].category == c
  {
    var xs := ShippedOf(c);
    forall i | 0 <= i < |xs| ensures xs[i] == ShippedControl(c, i) && Counts(cs, xs[i]) && HasShippedId(xs[i]) && xs[i].category == c {
      ShippedCounts(cs, c, i);
    }
    forall i, j | 0 <= i < j < |xs| ensures xs[i].id != xs[j].id {
      ShippedIdsDiffer(c, i, c, j);
    }
  }

  lemma ShippedOfWeights(c: Category)
    ensures |ShippedOf(c)| == |ShippedWeights(c)|
    ensures forall i :: 0 <= i < |ShippedOf(c)| ==> ShippedOf(c)[i].category == c && ShippedOf(c)[i].weight == ShippedWeights(c)[i]
  {
    forall i | 0 <= i < |ShippedOf(c)| ensures ShippedOf(c)[i].category == c && ShippedOf(c)[i].weight == ShippedWeights(c)[i] {
      assert ShippedOf(c)[i] == ShippedControl(c, i);
    }
  }

  lemma WeightsOf(home: Category, c: Category)
    requires !home.Unlisted?
    ensures Weights(ShippedOf(home), c) == if c == home then 100 else 0
  {
    ShippedOfWeights(home);
    WeightsIn(ShippedOf(home), ShippedWeights(home), home, c);
    ShippedTotal(home);
  }

  predicate DistinctListed(cs: seq<Category>) {
    && (forall i, j :: 0 <= i < j < |cs| ==> cs[i] != cs[j])
    && (forall i :: 0 <= i < |cs| ==> !cs[i].Unlisted?)
  }

  lemma WellFormedAppend(a: seq<Control>, b: seq<Control>)
    requires WellFormed(a) && WellFormed(b) && forall i, j :: 0 <= i < |a| && 0 <= j < |b| ==> a[i].id != b[j].id
    ensures WellFormed(a + b)
  {}

  /** of gives every category its own mapped controls with shipped ids. */
  ghost predicate TableOf(of: Category -> seq<Control>) {
    forall c: Category :: !c.Unlisted? ==>
      WellFormed(of(c)) && AllShipped([c], of(c)) && forall d :: Weights(of(c), d) == if d == c then 100 else 0
  }

  lemma OthersAreApart(cs: seq<Category>, c: Category, a: seq<Control>, b: seq<Control>)
    requires c !in cs && AllShipped(cs, a) && AllShipped([c], b)
    ensures forall i, j :: 0 <= i < |a| && 0 <= j < |b| ==> a[i].id != b[j].id
  {
    forall i, j | 0 <= i < |a| && 0 <= j < |b| ensures a[i].id != b[j].id {
      OtherHomeOtherId(a[i], b[j]);
    }
  }

  lemma AllShippedAppend(cs: seq<Category>, c: Category, a: seq<Control>, b: seq<Control>)
    requires AllShipped(cs, a) && AllShipped([c], b)
    ensures AllShipped(cs + [c], a + b)
  {
    forall i | 0 <= i < |a + b| ensures Counts(cs + [c], (a + b)[i]) && HasShippedId((a + b)[i]) {
      if i < |a| { assert (a + b)[i] == a[i]; } else { assert (a + b)[i] == b[i - |a|]; }
    }
  }

  lemma {:induction false} TabledIsValid(cs: seq<Category>, of: Category -> seq<Control>)
    requires DistinctListed(cs) && TableOf(of)
    ensures WellFormed(Tabled(cs, of)) && AllShipped(cs, Tabled(cs, of))
  {
    if cs != [] {
      var n := |cs| - 1;
      var a, b := Tabled(cs[..n], of), of(cs[n]);
      TabledIsValid(cs[..n], of);
      assert cs == cs[..n] + [cs[n]] && cs[n] !in cs[..n];
      OthersAreApart(cs[..n], cs[n], a, b);
      WellFormedAppend(a, b);
      AllShippedAppend(cs[..n], cs[n], a, b);
    }
  }

  lemma {:induction false} TabledWeights(cs: seq<Category>, of: Category -> seq<Control>, c: Category)
    requires DistinctListed(cs) && TableOf(of)
    ensures Weights(Tabled(cs, of), c) == if c in cs then 100 else 0
  {
    if cs != [] {
      var n := |cs| - 1;
      TabledWeights(cs[..n], of, c);
      WeightsAppend(Tabled(cs[..n], of), of(cs[n]), c);
      assert cs == cs[..n] + [cs[n]] && cs[n] !in cs[..n];
    }
  }

  lemma ShippedTableIsOne()
    ensures TableOf(ShippedTable())
  {
    forall c: Category | !c.Unlisted?
      ensures WellFormed(ShippedOf(c)) && AllShipped([c], ShippedOf(c)) && forall d :: Weights(ShippedOf(c), d) == if d == c then 100 else 0
    {
      ShippedOfIsValid([c], c);
      forall d ensures Weights(ShippedOf(c), d) == if d == c then 100 else 0 { WeightsOf(c, d); }
    }
  }

  lemma CategoriesAreDistinct()
    ensures DistinctListed(CATEGORIES)
  {}

  /** The shipped table is accepted by the validation: distinct ids, mapped
      controls, and weights that total 100 in every category. */
  lemma ShippedIsValid()
    ensures Valid(ShippedControls())
    ensures AllShipped(CATEGORIES, ShippedControls())
  {
    var of := ShippedTable();
    ShippedTableIsOne();
    CategoriesAreDistinct();
    TabledIsValid(CATEGORIES, of);
    forall c: Category | !c.Unlisted? ensures Weights(Tabled(CATEGORIES, of), c) == 100 {
      TabledWeights(CATEGORIES, of, c);
      CategoriesAreAll(c);
    }
  }

  /** With the shipped table an overall 100 means that every control passed. */
  lemma ShippedPerfectIsComplete(results: seq<ControlResult>)
    requires Judged(ShippedControls(), results)
    ensures Scorable(results) && (OverallScore(results) == 100 <==> AllPassed(results))
  {
    var controls := ShippedControls();
    ShippedIsValid();
    forall i | 0 <= i < |controls| ensures Worth(controls, i) > 50 {
      assert Counts(CATEGORIES, controls[i]);
    }
    PerfectIsCompleteIff(controls);
    PerfectMeansHalfAPoint(controls, results);
    if AllPassed(results) { AllPassedIsPerfect(controls, results); }
  }
}
