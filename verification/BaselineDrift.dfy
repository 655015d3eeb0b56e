/** Comparison of a trusted baseline with the current state
    (mac_audit_agent/baseline_drift.py). A value other than null is represented
    by its stable JSON text, which is all the comparison looks at; a missing key
    reads as null. */
module BaselineDrift {
  import opened Common

  datatype Value = Null | Json(text: string)

  type Items = map<string, Value>
  type State = map<string, Items>

  const TRACKED_CATEGORIES: seq<string> := [
    "launchagents", "launchdaemons", "login_items", "users_admins", "sudoers", "installed_apps", "running_services",
    "listening_ports", "dns_servers", "vpn_state", "firewall_status", "filevault_status", "ssh_remote_login",
    "screen_sharing", "profiles_mdm", "hosts_file"]

  datatype ChangeType = Added | Removed | Changed

  datatype Finding = Finding(driftId: string, category: string, key: string, change: ChangeType, previous: Value, current: Value)

  function ItemsOf(s: State, category: string): Items {
    if category in s then s[category] else map[]
  }

  function Get(s: State, category: string, key: string): Value {
    var items := ItemsOf(s, category);
    if key in items then items[key] else Null
  }

  // ---------- key order ----------

  /** Strings in code point order. */
  predicate Leq(a: string, b: string) {
    a == "" || (b != "" && (a[0] < b[0] || (a[0] == b[0] && Leq(a[1..], b[1..]))))
  }

  lemma LeqTotal(a: string, b: string)
    ensures Leq(a, b) || Leq(b, a)
    ensures Leq(a, b) && Leq(b, a) ==> a == b
  {
    if a != "" && b != "" {
      LeqTotal(a[1..], b[1..]);
      assert a == [a[0]] + a[1..] && b == [b[0]] + b[1..];
    }
  }

  lemma {:induction false} LeqTransitive(a: string, b: string, c: string)
    requires Leq(a, b) && Leq(b, c)
    ensures Leq(a, c)
  {
    if a != "" && a[0] == c[0] { LeqTransitive(a[1..], b[1..], c[1..]); }
  }

  predicate IsLeast(k: string, s: set<string>) {
    k in s && forall j :: j in s ==> Leq(k, j)
  }

  lemma {:induction false} LeastExists(s: set<string>)
    requires s != {}
    ensures exists k :: IsLeast(k, s)
    decreases |s|
  {
    var x :| x in s;
    var rest := s - {x};
    if rest == {} {
      LeqTotal(x, x);
      assert s == {x};
      assert IsLeast(x, s);
    } else {
      LeastExists(rest);
      var k :| IsLeast(k, rest);
      LeqTotal(k, x);
      if Leq(k, x) {
        assert IsLeast(k, s);
      } else {
        forall j | j in s
          ensures Leq(x, j)
        {
          LeqTotal(x, x);
          if j != x { LeqTransitive(x, k, j); }
        }
        assert IsLeast(x, s);
      }
    }
  }

  lemma LeastIsUnique(a: string, b: string, s: set<string>)
    requires IsLeast(a, s) && IsLeast(b, s)
    ensures a == b
  {
    LeqTotal(a, b);
  }

  function Least(s: set<string>): (k: string)
    requires s != {}
    ensures IsLeast(k, s)
  {
    LeastExists(s);
    assert forall a, b :: IsLeast(a, s) && IsLeast(b, s) ==> a == b by {
      forall a, b | IsLeast(a, s) && IsLeast(b, s)
        ensures a == b
      {
        LeastIsUnique(a, b, s);
      }
    }
    var k :| IsLeast(k, s);
    k
  }

  /** `sorted(set)`. */
  function Sorted(s: set<string>): (keys: seq<string>)
    ensures forall k :: k in keys <==> k in s
    ensures |keys| == |s|
    decreases |s|
  {
    if s == {} then []
    else [Least(s)] + Sorted(s - {Least(s)})
  }

  lemma {:induction false} SortedIsStrict(s: set<string>)
    ensures forall i, j :: 0 <= i < j < |Sorted(s)| ==> Sorted(s)[i] != Sorted(s)[j] && Leq(Sorted(s)[i], Sorted(s)[j])
    decreases |s|
  {
    if s != {} { SortedIsStrict(s - {Least(s)}); }
  }

  // ---------- drift ids ----------

  function ChangeText(c: ChangeType): string {
    match c case Added => "added" case Removed => "removed" case Changed => "changed"
  }

  function DriftId(category: string, key: string, change: ChangeType): string {
    category + ":" + ChangeText(change) + ":" + key
  }

  lemma ColonSplits(a: string, b: string, x: string, y: string)
    requires ':' !in a && ':' !in b && a + ":" + x == b + ":" + y
    ensures a == b && x == y
  {
    var s, t := a + ":" + x, b + ":" + y;
    assert s[|a|] == ':' && t[|b|] == ':';
    assert forall i :: 0 <= i < |a| ==> s[i] == a[i] && a[i] in a;
    assert forall i :: 0 <= i < |b| ==> t[i] == b[i] && b[i] in b;
    assert |a| == |b|;
    assert s[..|a|] == a && t[..|b|] == b && s[|a| + 1..] == x && t[|b| + 1..] == y;
  }

  /** A drift id determines category, change type and key. */
  lemma DriftIdDetermines(c: string, k: string, change: ChangeType, c': string, k': string, change': ChangeType)
    requires ':' !in c && ':' !in c' && DriftId(c, k, change) == DriftId(c', k', change')
    ensures c == c' && k == k' && change == change'
  {
    assert DriftId(c, k, change) == c + ":" + (ChangeText(change) + ":" + k);
    assert DriftId(c', k', change') == c' + ":" + (ChangeText(change') + ":" + k');
    ColonSplits(c, c', ChangeText(change) + ":" + k, ChangeText(change') + ":" + k');
    ColonSplits(ChangeText(change), ChangeText(change'), k, k');
    assert |ChangeText(change)| == |ChangeText(change')| && ChangeText(change)[0] == ChangeText(change')[0];
  }

  // ---------- the diff ----------

  datatype Pair = Pair(category: string, key: string)

  function KeysOf(a: State, b: State, category: string): seq<string> {
    Sorted(ItemsOf(a, category).Keys + ItemsOf(b, category).Keys)
  }

  function PairsOf(category: string, keys: seq<string>): seq<Pair> {
    seq(|keys|, i requires 0 <= i < |keys| => Pair(category, keys[i]))
  }

  /** Every pair the comparison visits, in order. */
  function Pairs(categories: seq<string>, a: State, b: State): seq<Pair> {
    if categories == [] then []
    else
      var n := |categories| - 1;
      Pairs(categories[..n], a, b) + PairsOf(categories[n], KeysOf(a, b, categories[n]))
  }

  predicate Differs(baseline: State, current: State, p: Pair) {
    Get(baseline, p.category, p.key) != Get(current, p.category, p.key)
  }

  function ChangeOf(baseline: State, current: State, p: Pair): ChangeType {
    if Get(baseline, p.category, p.key) == Null then Added
    else if Get(current, p.category, p.key) == Null then Removed
    else Changed
  }

  function FindingOf(baseline: State, current: State, p: Pair): Finding {
    var change := ChangeOf(baseline, current, p);
    Finding(DriftId(p.category, p.key, change), p.category, p.key, change,
            Get(baseline, p.category, p.key), Get(current, p.category, p.key))
  }

  /** The finding for one pair, unless it does not differ or is expected. */
  function Report(baseline: State, current: State, expected: set<string>, p: Pair): seq<Finding> {
    var f := FindingOf(baseline, current, p);
    if Differs(baseline, current, p) && f.driftId !in expected then [f] else []
  }

  predicate Hidden(baseline: State, current: State, expected: set<string>, p: Pair) {
    Differs(baseline, current, p) && FindingOf(baseline, current, p).driftId in expected
  }

  function Findings(pairs: seq<Pair>, baseline: State, current: State, expected: set<string>): seq<Finding> {
    if pairs == [] then []
    else Findings(pairs[..|pairs| - 1], baseline, current, expected) + Report(baseline, current, expected, pairs[|pairs| - 1])
  }

  function Suppressed(pairs: seq<Pair>, baseline: State, current: State, expected: set<string>): nat {
    if pairs == [] then 0
    else Suppressed(pairs[..|pairs| - 1], baseline, current, expected)
         + if Hidden(baseline, current, expected, pairs[|pairs| - 1]) then 1 else 0
  }

  lemma OneMorePair(pairs: seq<Pair>, p: Pair, baseline: State, current: State, expected: set<string>)
    ensures Findings(pairs + [p], baseline, current, expected) == Findings(pairs, baseline, current, expected) + Report(baseline, current, expected, p)
    ensures Suppressed(pairs + [p], baseline, current, expected)
            == Suppressed(pairs, baseline, current, expected) + if Hidden(baseline, current, expected, p) then 1 else 0
  {
    assert (pairs + [p])[..|pairs|] == pairs;
  }

  lemma OneMoreKey(done: seq<Pair>, category: string, keys: seq<string>, j: nat)
    requires j < |keys|
    ensures done + PairsOf(category, keys[..j + 1]) == done + PairsOf(category, keys[..j]) + [Pair(category, keys[j])]
  {}

  /** What the comparison has reported and hidden after some pairs. */
  predicate UpTo(pairs: seq<Pair>, baseline: State, current: State, expected: set<string>, findings: seq<Finding>, suppressed: nat) {
    findings == Findings(pairs, baseline, current, expected) && suppressed == Suppressed(pairs, baseline, current, expected)
  }

  lemma OneMoreCategory(categories: seq<string>, i: nat, a: State, b: State)
    requires i < |categories|
    ensures Pairs(categories[..i + 1], a, b) == Pairs(categories[..i], a, b) + PairsOf(categories[i], KeysOf(a, b, categories[i]))
  {
    assert categories[..i + 1][..i] == categories[..i];
  }

  /** `_diff`, over the given categories. */
  method Diff(categories: seq<string>, baseline: State, current: State, expected: set<string>) returns (findings: seq<Finding>, suppressed: nat)
    ensures findings == Findings(Pairs(categories, baseline, current), baseline, current, expected)
    ensures suppressed == Suppressed(Pairs(categories, baseline, current), baseline, current, expected)
  {
    findings, suppressed := [], 0;
    for i := 0 to |categories|
      invariant findings == Findings(Pairs(categories[..i], baseline, current), baseline, current, expected)
      invariant suppressed == Suppressed(Pairs(categories[..i], baseline, current), baseline, current, expected)
    {
      ghost var done := Pairs(categories[..i], baseline, current);
      findings, suppressed := DiffCategory(categories[i], baseline, current, expected, findings, suppressed, done);
      OneMoreCategory(categories, i, baseline, current);
    }
    assert categories[..|categories|] == categories;
  }

  /** The comparison of one key, after those of the given pairs. */
  method DiffKey(category: string, key: string, previousItems: Items, currentItems: Items, ghost baseline: State, ghost current: State,
                 expected: set<string>, before: seq<Finding>, hidden: nat, ghost pairs: seq<Pair>)
    returns (findings: seq<Finding>, suppressed: nat)
    requires previousItems == ItemsOf(baseline, category) && currentItems == ItemsOf(current, category)
    requires UpTo(pairs, baseline, current, expected, before, hidden)
    ensures UpTo(pairs + [Pair(category, key)], baseline, current, expected, findings, suppressed)
  {
    OneMorePair(pairs, Pair(category, key), baseline, current, expected);
    findings, suppressed := before, hidden;
    var previous := if key in previousItems then previousItems[key] else Null;
    var now := if key in currentItems then currentItems[key] else Null;
    if previous == now { return; }
    var change := if previous == Null then Added else if now == Null then Removed else Changed;
    var driftId := DriftId(category, key, change);
    if driftId in expected {
      suppressed := suppressed + 1;
      return;
    }
    findings := findings + [Finding(driftId, category, key, change, previous, now)];
  }

  /** The inner loop of `_diff`, over the sorted keys of one category. */
  method DiffCategory(category: string, baseline: State, current: State, expected: set<string>,
                      before: seq<Finding>, hidden: nat, ghost done: seq<Pair>)
    returns (findings: seq<Finding>, suppressed: nat)
    requires UpTo(done, baseline, current, expected, before, hidden)
    ensures UpTo(done + PairsOf(category, KeysOf(baseline, current, category)), baseline, current, expected, findings, suppressed)
  {
    findings, suppressed := before, hidden;
    var previousItems, currentItems := ItemsOf(baseline, category), ItemsOf(current, category);
    var keys := Sorted(previousItems.Keys + currentItems.Keys);
    ghost var pairs := done;
    for j := 0 to |keys|
      invariant pairs == done + PairsOf(category, keys[..j])
      invariant UpTo(pairs, baseline, current, expected, findings, suppressed)
    {
      findings, suppressed := DiffKey(category, keys[j], previousItems, currentItems, baseline, current, expected, findings, suppressed, pairs);
      OneMoreKey(done, category, keys, j);
      pairs := pairs + [Pair(category, keys[j])];
    }
    assert keys[..|keys|] == keys;
  }

  // ---------- which pairs are visited ----------

  predicate Distinct<T(==)>(s: seq<T>) {
    forall i, j :: 0 <= i < j < |s| ==> s[i] != s[j]
  }

  lemma PairsOfMember(category: string, keys: seq<string>, p: Pair)
    ensures p in PairsOf(category, keys) <==> p.category == category && p.key in keys
  {
    if p.category == category && p.key in keys {
      var i :| 0 <= i < |keys| && keys[i] == p.key;
      assert PairsOf(category, keys)[i] == p;
    }
  }

  lemma {:induction false} PairsComplete(categories: seq<string>, a: State, b: State, p: Pair)
    ensures p in Pairs(categories, a, b)
            <==> p.category in categories && (p.key in ItemsOf(a, p.category) || p.key in ItemsOf(b, p.category))
  {
    if categories != [] {
      var n := |categories| - 1;
      PairsComplete(categories[..n], a, b, p);
      PairsOfMember(categories[n], KeysOf(a, b, categories[n]), p);
      assert p.category in categories <==> p.category in categories[..n] || p.category == categories[n];
    }
  }

  lemma DistinctAppend<T>(a: seq<T>, b: seq<T>)
    requires Distinct(a) && Distinct(b) && forall x :: x in a ==> x !in b
    ensures Distinct(a + b)
  {
    forall i, j | 0 <= i < j < |a + b|
      ensures (a + b)[i] != (a + b)[j]
    {
      if i < |a| { assert a[i] in a; }
      if j >= |a| { assert b[j - |a|] in b; }
    }
  }

  lemma {:induction false} PairsDistinct(categories: seq<string>, a: State, b: State)
    requires Distinct(categories)
    ensures Distinct(Pairs(categories, a, b))
  {
    if categories != [] {
      var n := |categories| - 1;
      var keys := KeysOf(a, b, categories[n]);
      PairsDistinct(categories[..n], a, b);
      SortedIsStrict(ItemsOf(a, categories[n]).Keys + ItemsOf(b, categories[n]).Keys);
      forall p | p in Pairs(categories[..n], a, b)
        ensures p !in PairsOf(categories[n], keys)
      {
        PairsComplete(categories[..n], a, b, p);
        PairsOfMember(categories[n], keys, p);
      }
      DistinctAppend(Pairs(categories[..n], a, b), PairsOf(categories[n], keys));
    }
  }

  /** Swapping the two states visits the same pairs. */
  lemma {:induction false} PairsSymmetric(categories: seq<string>, a: State, b: State)
    ensures Pairs(categories, a, b) == Pairs(categories, b, a)
  {
    if categories != [] {
      var c := categories[|categories| - 1];
      PairsSymmetric(categories[..|categories| - 1], a, b);
      assert ItemsOf(a, c).Keys + ItemsOf(b, c).Keys == ItemsOf(b, c).Keys + ItemsOf(a, c).Keys;
    }
  }

  lemma DiffersIsVisited(categories: seq<string>, a: State, b: State, p: Pair)
    requires p.category in categories && Differs(a, b, p)
    ensures p in Pairs(categories, a, b)
  {
    PairsComplete(categories, a, b, p);
  }

  // ---------- findings against differing pairs ----------

  function DifferingPairs(pairs: seq<Pair>, baseline: State, current: State): set<Pair> {
    set p | p in pairs && Differs(baseline, current, p)
  }

  lemma OneMoreDiffering(pairs: seq<Pair>, p: Pair, baseline: State, current: State)
    requires p !in pairs
    ensures |DifferingPairs(pairs + [p], baseline, current)|
            == |DifferingPairs(pairs, baseline, current)| + if Differs(baseline, current, p) then 1 else 0
  {
    var before, after := DifferingPairs(pairs, baseline, current), DifferingPairs(pairs + [p], baseline, current);
    assert forall q :: q in pairs + [p] <==> q in pairs || q == p;
    if Differs(baseline, current, p) {
      assert after == before + {p} && p !in before;
    } else {
      assert after == before;
    }
  }

  lemma {:induction false} CountsAddUp(pairs: seq<Pair>, baseline: State, current: State, expected: set<string>)
    requires Distinct(pairs)
    ensures |Findings(pairs, baseline, current, expected)| + Suppressed(pairs, baseline, current, expected)
            == |DifferingPairs(pairs, baseline, current)|
  {
    if pairs != [] {
      var n := |pairs| - 1;
      CountsAddUp(pairs[..n], baseline, current, expected);
      assert pairs == pairs[..n] + [pairs[n]];
      OneMorePair(pairs[..n], pairs[n], baseline, current, expected);
      OneMoreDiffering(pairs[..n], pairs[n], baseline, current);
    }
  }

  ghost predicate Reported(pairs: seq<Pair>, baseline: State, current: State, expected: set<string>, f: Finding) {
    exists p :: p in pairs && f in Report(baseline, current, expected, p)
  }

  lemma {:induction false} FindingsMembers(pairs: seq<Pair>, baseline: State, current: State, expected: set<string>, f: Finding)
    ensures f in Findings(pairs, baseline, current, expected) <==> Reported(pairs, baseline, current, expected, f)
  {
    if pairs != [] {
      var n := |pairs| - 1;
      FindingsMembers(pairs[..n], baseline, current, expected, f);
      assert forall p :: p in pairs <==> p in pairs[..n] || p == pairs[n];
    }
  }

  /** f tells truly of a difference nobody expects. */
  predicate Tells(baseline: State, current: State, expected: set<string>, f: Finding) {
    && f.previous == Get(baseline, f.category, f.key) && f.current == Get(current, f.category, f.key) && f.previous != f.current
    && (f.change == Added <==> f.previous == Null) && (f.change == Removed <==> f.current == Null)
    && f.driftId == DriftId(f.category, f.key, f.change) && f.driftId !in expected
  }

  lemma ReportTells(baseline: State, current: State, expected: set<string>, p: Pair, f: Finding)
    ensures f in Report(baseline, current, expected, p) <==> p == Pair(f.category, f.key) && Tells(baseline, current, expected, f)
  {}

  /** The findings are exactly the unexpected differences, each told truly. */
  lemma FindingsAre(categories: seq<string>, baseline: State, current: State, expected: set<string>, f: Finding)
    ensures f in Findings(Pairs(categories, baseline, current), baseline, current, expected)
            <==> f.category in categories && Tells(baseline, current, expected, f)
  {
    var pairs, p := Pairs(categories, baseline, current), Pair(f.category, f.key);
    FindingsMembers(pairs, baseline, current, expected, f);
    forall q ensures f in Report(baseline, current, expected, q) <==> q == p && Tells(baseline, current, expected, f) {
      ReportTells(baseline, current, expected, q, f);
    }
    PairsComplete(categories, baseline, current, p);
    if f.category in categories && Tells(baseline, current, expected, f) {
      DiffersIsVisited(categories, baseline, current, p);
    }
  }

  /** Over the tracked categories, every differing (category, key) is either
      reported or suppressed, once. */
  lemma EveryDifferenceIsCounted(categories: seq<string>, baseline: State, current: State, expected: set<string>, differing: set<Pair>)
    requires Distinct(categories)
    requires forall p :: p in differing <==> p.category in categories && Differs(baseline, current, p)
    ensures var pairs := Pairs(categories, baseline, current);
            |Findings(pairs, baseline, current, expected)| + Suppressed(pairs, baseline, current, expected) == |differing|
  {
    var pairs := Pairs(categories, baseline, current);
    PairsDistinct(categories, baseline, current);
    CountsAddUp(pairs, baseline, current, expected);
    forall p
      ensures p in DifferingPairs(pairs, baseline, current) <==> p in differing
    {
      PairsComplete(categories, baseline, current, p);
      if p in differing { DiffersIsVisited(categories, baseline, current, p); }
    }
    assert DifferingPairs(pairs, baseline, current) == differing;
  }

  // ---------- the diff patches back ----------

  /** What a state holds under a key, telling a stored null from a missing key. */
  function Entry(s: State, category: string, key: string): Option<Value> {
    var items := ItemsOf(s, category);
    if key in items then Some(items[key]) else None
  }

  function Apply(s: State, f: Finding): State {
    var items := ItemsOf(s, f.category);
    s[f.category := if f.change == Removed then items - {f.key} else items[f.key := f.current]]
  }

  /** The findings applied, in order, to a state. */
  function Patch(s: State, findings: seq<Finding>): State {
    if findings == [] then s
    else Apply(Patch(s, findings[..|findings| - 1]), findings[|findings| - 1])
  }

  predicate Agree(a: State, b: State, categories: seq<string>) {
    forall c :: c in categories ==> ItemsOf(a, c) == ItemsOf(b, c)
  }

  lemma ApplyEntry(s: State, f: Finding, category: string, key: string)
    ensures Entry(Apply(s, f), category, key)
            == if category == f.category && key == f.key then (if f.change == Removed then None else Some(f.current))
               else Entry(s, category, key)
  {}

  lemma PatchOneMore(s: State, findings: seq<Finding>, f: Finding)
    ensures Patch(s, findings + [f]) == Apply(Patch(s, findings), f)
  {
    assert (findings + [f])[..|findings|] == findings;
  }

  lemma FindingApplied(s: State, baseline: State, current: State, p: Pair, category: string, key: string)
    requires Differs(baseline, current, p)
    ensures Entry(Apply(s, FindingOf(baseline, current, p)), category, key)
            == if Pair(category, key) != p then Entry(s, category, key)
               else if Get(current, category, key) == Null then None else Some(Get(current, category, key))
  {
    ApplyEntry(s, FindingOf(baseline, current, p), category, key);
  }

  /** What the patched baseline holds under (category, key). */
  lemma {:induction false} PatchedEntry(pairs: seq<Pair>, baseline: State, current: State, category: string, key: string)
    ensures var p := Pair(category, key);
            Entry(Patch(baseline, Findings(pairs, baseline, current, {})), category, key)
            == if p in pairs && Differs(baseline, current, p) then
                 (if Get(current, category, key) == Null then None else Some(Get(current, category, key)))
               else Entry(baseline, category, key)
  {
    if pairs != [] {
      var n := |pairs| - 1;
      var p := pairs[n];
      PatchedEntry(pairs[..n], baseline, current, category, key);
      assert Pair(category, key) in pairs <==> Pair(category, key) in pairs[..n] || Pair(category, key) == p;
      if Differs(baseline, current, p) {
        var earlier := Findings(pairs[..n], baseline, current, {});
        PatchOneMore(baseline, earlier, FindingOf(baseline, current, p));
        FindingApplied(Patch(baseline, earlier), baseline, current, p, category, key);
      } else {
        assert Findings(pairs, baseline, current, {}) == Findings(pairs[..n], baseline, current, {});
      }
    }
  }

  /** A key holds null now only if it held null before, and a key that held null
      before is still there. */
  predicate NullsLineUp(baseline: State, current: State, category: string, key: string) {
    && (Entry(current, category, key) == Some(Null) ==> Entry(baseline, category, key) == Some(Null))
    && (Entry(baseline, category, key) == Some(Null) ==> Entry(current, category, key) != None)
  }

  lemma EntriesDecideAgreement(a: State, b: State, categories: seq<string>)
    ensures Agree(a, b, categories) <==> forall c, k :: c in categories ==> Entry(a, c, k) == Entry(b, c, k)
  {
    if forall c, k :: c in categories ==> Entry(a, c, k) == Entry(b, c, k) {
      forall c | c in categories
        ensures ItemsOf(a, c) == ItemsOf(b, c)
      {
        assert forall k :: k in ItemsOf(a, c) <==> Entry(a, c, k).Some?;
        assert forall k :: k in ItemsOf(b, c) <==> Entry(b, c, k).Some?;
        assert forall k :: k in ItemsOf(a, c) ==> Entry(a, c, k) == Some(ItemsOf(a, c)[k]);
        assert forall k :: k in ItemsOf(b, c) ==> Entry(b, c, k) == Some(ItemsOf(b, c)[k]);
      }
    }
  }

  lemma PatchedEntryAgrees(categories: seq<string>, baseline: State, current: State, category: string, key: string)
    requires category in categories
    ensures var patched := Patch(baseline, Findings(Pairs(categories, baseline, current), baseline, current, {}));
            Entry(patched, category, key) == Entry(current, category, key) <==> NullsLineUp(baseline, current, category, key)
  {
    PatchedEntry(Pairs(categories, baseline, current), baseline, current, category, key);
    if Differs(baseline, current, Pair(category, key)) {
      DiffersIsVisited(categories, baseline, current, Pair(category, key));
    }
    EntryDecides(baseline, current, category, key);
  }

  lemma EntryDecides(baseline: State, current: State, category: string, key: string)
    ensures var now := Get(current, category, key);
            var patched := if Differs(baseline, current, Pair(category, key)) then (if now == Null then None else Some(now)) else Entry(baseline, category, key);
            patched == Entry(current, category, key) <==> NullsLineUp(baseline, current, category, key)
  {}

  /** Applying the diff to the baseline gives the current state on the given
      categories exactly when the nulls line up. */
  lemma PatchesBackIff(categories: seq<string>, baseline: State, current: State)
    ensures Agree(Patch(baseline, Findings(Pairs(categories, baseline, current), baseline, current, {})), current, categories)
            <==> forall c, k :: c in categories ==> NullsLineUp(baseline, current, c, k)
  {
    var patched := Patch(baseline, Findings(Pairs(categories, baseline, current), baseline, current, {}));
    EntriesDecideAgreement(patched, current, categories);
    forall c, k | c in categories
      ensures Entry(patched, c, k) == Entry(current, c, k) <==> NullsLineUp(baseline, current, c, k)
    {
      PatchedEntryAgrees(categories, baseline, current, c, k);
    }
  }

  predicate NoNulls(s: State) {
    forall c, k :: c in s && k in s[c] ==> s[c][k] != Null
  }

  lemma NoNullsLineUp(baseline: State, current: State, category: string, key: string)
    requires NoNulls(baseline) && NoNulls(current)
    ensures NullsLineUp(baseline, current, category, key)
  {}

  /** For states that hold no null: the diff patches back, and it is empty
      exactly when the states agree. */
  lemma DiffIsTrue(categories: seq<string>, baseline: State, current: State)
    requires NoNulls(baseline) && NoNulls(current)
    ensures var findings := Findings(Pairs(categories, baseline, current), baseline, current, {});
            && Agree(Patch(baseline, findings), current, categories)
            && (findings == [] <==> Agree(baseline, current, categories))
  {
    var pairs := Pairs(categories, baseline, current);
    var findings := Findings(pairs, baseline, current, {});
    forall c, k | c in categories ensures NullsLineUp(baseline, current, c, k) {
      NoNullsLineUp(baseline, current, c, k);
    }
    PatchesBackIff(categories, baseline, current);
    if findings == [] {
      assert Patch(baseline, findings) == baseline;
    }
    if Agree(baseline, current, categories) {
      AgreementHasNoFinding(categories, baseline, current);
    }
  }

  lemma AgreementHasNoFinding(categories: seq<string>, baseline: State, current: State)
    requires Agree(baseline, current, categories)
    ensures Findings(Pairs(categories, baseline, current), baseline, current, {}) == []
  {
    var pairs := Pairs(categories, baseline, current);
    forall p | p in pairs
      ensures !Differs(baseline, current, p)
    {
      PairsComplete(categories, baseline, current, p);
    }
    NoDifferenceNoFinding(pairs, baseline, current);
  }

  lemma {:induction false} NoDifferenceNoFinding(pairs: seq<Pair>, baseline: State, current: State)
    requires forall p :: p in pairs ==> !Differs(baseline, current, p)
    ensures Findings(pairs, baseline, current, {}) == []
  {
    if pairs != [] { NoDifferenceNoFinding(pairs[..|pairs| - 1], baseline, current); }
  }

  // ---------- swapping the states ----------

  function Mirror(f: Finding): Finding {
    var change := match f.change case Added => Removed case Removed => Added case Changed => Changed;
    Finding(DriftId(f.category, f.key, change), f.category, f.key, change, f.current, f.previous)
  }

  function Mirrored(findings: seq<Finding>): seq<Finding> {
    seq(|findings|, i requires 0 <= i < |findings| => Mirror(findings[i]))
  }

  lemma ReportMirror(a: State, b: State, p: Pair)
    ensures Report(b, a, {}, p) == Mirrored(Report(a, b, {}, p))
  {}

  lemma {:induction false} FindingsMirror(pairs: seq<Pair>, a: State, b: State)
    ensures Findings(pairs, b, a, {}) == Mirrored(Findings(pairs, a, b, {}))
  {
    if pairs != [] {
      var n := |pairs| - 1;
      FindingsMirror(pairs[..n], a, b);
      ReportMirror(a, b, pairs[n]);
    }
  }

  /** Comparing the other way round reports the same pairs in the same order,
      with added and removed exchanged. */
  lemma SwappingMirrors(categories: seq<string>, a: State, b: State)
    ensures Findings(Pairs(categories, b, a), b, a, {}) == Mirrored(Findings(Pairs(categories, a, b), a, b, {}))
  {
    PairsSymmetric(categories, a, b);
    FindingsMirror(Pairs(categories, a, b), a, b);
  }

  // ---------- marking a drift expected ----------

  /** The findings but for those with the given id. */
  function Without(findings: seq<Finding>, id: string): seq<Finding> {
    if findings == [] then []
    else Without(findings[..|findings| - 1], id) + if findings[|findings| - 1].driftId == id then [] else [findings[|findings| - 1]]
  }

  lemma {:induction false} WithoutAppend(a: seq<Finding>, b: seq<Finding>, id: string)
    ensures Without(a + b, id) == Without(a, id) + Without(b, id)
  {
    if b == [] {
      assert a + b == a;
    } else {
      assert (a + b)[..|a + b| - 1] == a + b[..|b| - 1];
      WithoutAppend(a, b[..|b| - 1], id);
    }
  }

  lemma {:induction false} MarkingFilters(pairs: seq<Pair>, baseline: State, current: State, expected: set<string>, id: string)
    ensures Findings(pairs, baseline, current, expected + {id}) == Without(Findings(pairs, baseline, current, expected), id)
  {
    if pairs != [] {
      var n := |pairs| - 1;
      MarkingFilters(pairs[..n], baseline, current, expected, id);
      WithoutAppend(Findings(pairs[..n], baseline, current, expected), Report(baseline, current, expected, pairs[n]), id);
    }
  }

  /** p is the one pair whose drift has the id, and it is reported. */
  predicate OnlyPair(pairs: seq<Pair>, baseline: State, current: State, expected: set<string>, p: Pair, id: string) {
    && Differs(baseline, current, p) && FindingOf(baseline, current, p).driftId == id && id !in expected
    && forall q :: q in pairs && q != p ==> FindingOf(baseline, current, q).driftId != id
  }

  lemma {:induction false} MarkingCounts(pairs: seq<Pair>, baseline: State, current: State, expected: set<string>, p: Pair, id: string)
    requires Distinct(pairs) && OnlyPair(pairs, baseline, current, expected, p, id)
    ensures Suppressed(pairs, baseline, current, expected + {id})
            == Suppressed(pairs, baseline, current, expected) + if p in pairs then 1 else 0
  {
    if pairs != [] {
      var n := |pairs| - 1;
      MarkingCounts(pairs[..n], baseline, current, expected, p, id);
      assert p in pairs <==> p in pairs[..n] || p == pairs[n];
      assert pairs[n] !in pairs[..n];
    }
  }

  predicate ColonFree(categories: seq<string>) {
    forall c :: c in categories ==> ':' !in c
  }

  /** Marking one reported drift as expected drops exactly that finding from the
      next comparison of the same states and suppresses one more. */
  lemma MarkingDropsOne(categories: seq<string>, baseline: State, current: State, expected: set<string>, f: Finding)
    requires Distinct(categories) && ColonFree(categories)
    requires f in Findings(Pairs(categories, baseline, current), baseline, current, expected)
    ensures var pairs := Pairs(categories, baseline, current);
            var before, after := Findings(pairs, baseline, current, expected), Findings(pairs, baseline, current, expected + {f.driftId});
            && after == Without(before, f.driftId) && |after| == |before| - 1
            && Suppressed(pairs, baseline, current, expected + {f.driftId}) == Suppressed(pairs, baseline, current, expected) + 1
  {
    var pairs := Pairs(categories, baseline, current);
    FindingsMembers(pairs, baseline, current, expected, f);
    var p :| p in pairs && f in Report(baseline, current, expected, p);
    PairsComplete(categories, baseline, current, p);
    forall q | q in pairs && q != p
      ensures FindingOf(baseline, current, q).driftId != f.driftId
    {
      PairsComplete(categories, baseline, current, q);
      if FindingOf(baseline, current, q).driftId == f.driftId {
        DriftIdDetermines(q.category, q.key, ChangeOf(baseline, current, q), p.category, p.key, ChangeOf(baseline, current, p));
      }
    }
    PairsDistinct(categories, baseline, current);
    MarkingFilters(pairs, baseline, current, expected, f.driftId);
    MarkingCounts(pairs, baseline, current, expected, p, f.driftId);
    CountsAddUp(pairs, baseline, current, expected);
    CountsAddUp(pairs, baseline, current, expected + {f.driftId});
  }

  predicate Reports(findings: seq<Finding>, id: string) {
    exists i :: 0 <= i < |findings| && findings[i].driftId == id
  }

  lemma {:induction false} WithoutAbsent(findings: seq<Finding>, id: string)
    ensures Without(findings, id) == findings <==> !Reports(findings, id)
    ensures |Without(findings, id)| <= |findings|
  {
    if findings != [] {
      var n := |findings| - 1;
      WithoutAbsent(findings[..n], id);
      assert findings == findings[..n] + [findings[n]];
      assert forall i :: 0 <= i < n ==> findings[..n][i] == findings[i];
      var w := Without(findings[..n], id);
      assert (w + [findings[n]])[..|w|] == w;
    }
  }

  /** Expecting a drift id changes the findings if and only if it is the id of
      one of them; what disappears is suppressed instead. */
  lemma MarkingChangesIff(categories: seq<string>, baseline: State, current: State, expected: set<string>, id: string)
    requires Distinct(categories)
    ensures var pairs := Pairs(categories, baseline, current);
            var before, after := Findings(pairs, baseline, current, expected), Findings(pairs, baseline, current, expected + {id});
            && after == Without(before, id)
            && (after != before <==> Reports(before, id))
            && |after| + Suppressed(pairs, baseline, current, expected + {id}) == |before| + Suppressed(pairs, baseline, current, expected)
  {
    var pairs := Pairs(categories, baseline, current);
    PairsDistinct(categories, baseline, current);
    MarkingFilters(pairs, baseline, current, expected, id);
    WithoutAbsent(Findings(pairs, baseline, current, expected), id);
    CountsAddUp(pairs, baseline, current, expected);
    CountsAddUp(pairs, baseline, current, expected + {id});
  }

  lemma TrackedAreDistinct()
    ensures Distinct(TRACKED_CATEGORIES)
  {}

  lemma TrackedAreColonFree()
    ensures ColonFree(TRACKED_CATEGORIES)
  {}

  // ---------- the engine ----------

  datatype Comparison = NoBaseline | Compared(findings: seq<Finding>, suppressed: nat)

  /** What a comparison reports under a set of expected drift ids. */
  function CompareStates(baseline: State, current: State, expected: set<string>): Comparison {
    var pairs := Pairs(TRACKED_CATEGORIES, baseline, current);
    Compared(Findings(pairs, baseline, current, expected), Suppressed(pairs, baseline, current, expected))
  }

  datatype Snapshot = Snapshot(id: string, created: string, state: State, note: string)

  class BaselineDriftEngine {
    const hasDatabase: bool
    var baselines: map<string, Snapshot>
    var expectedNotes: map<string, string>

    constructor (hasDatabase: bool)
      ensures this.hasDatabase == hasDatabase && baselines == map[] && expectedNotes == map[]
    {
      this.hasDatabase, baselines, expectedNotes := hasDatabase, map[], map[];
    }

    function Expected(): set<string> reads this {
      if hasDatabase then expectedNotes.Keys else {}
    }

    /** `create_trusted_baseline`: one row for each id, the last one written. */
    method CreateTrustedBaseline(state: State, baselineId: string, now: string, note: string) returns (snapshot: Snapshot)
      modifies this`baselines
      ensures snapshot == Snapshot(baselineId, now, state, note)
      ensures baselines == if hasDatabase then old(baselines)[baselineId := snapshot] else old(baselines)
    {
      snapshot := Snapshot(baselineId, now, state, note);
      if hasDatabase { baselines := baselines[baselineId := snapshot]; }
    }

    /** `load_trusted_baseline`. */
    function Load(baselineId: string): Option<Snapshot> reads this {
      if hasDatabase && baselineId in baselines then Some(baselines[baselineId]) else None
    }

    /** `mark_expected`. */
    method MarkExpected(driftId: string, note: string)
      modifies this`expectedNotes
      ensures Expected() == old(Expected()) + (if hasDatabase then {driftId} else {})
      ensures expectedNotes == if hasDatabase then old(expectedNotes)[driftId := note] else old(expectedNotes)
    {
      if !hasDatabase { return; }
      expectedNotes := expectedNotes[driftId := note];
    }

    /** `add_note` writes the same row, so it suppresses the drift as well. */
    method AddNote(driftId: string, note: string)
      modifies this`expectedNotes
      ensures Expected() == old(Expected()) + (if hasDatabase then {driftId} else {})
      ensures expectedNotes == if hasDatabase then old(expectedNotes)[driftId := note] else old(expectedNotes)
    {
      if !hasDatabase { return; }
      expectedNotes := expectedNotes[driftId := note];
    }

    /** `compare_current_state`: against the given baseline, else the stored one
        of that id. */
    method CompareCurrentState(current: State, given: Option<Snapshot>, baselineId: string) returns (r: Comparison)
      ensures var chosen := if given.Some? then given else Load(baselineId);
              r == match chosen case Some(b) => CompareStates(b.state, current, Expected()) case None => NoBaseline
    {
      var chosen := if given.Some? then given else Load(baselineId);
      if chosen == None { return NoBaseline; }
      var findings, suppressed := Diff(TRACKED_CATEGORIES, chosen.value.state, current, Expected());
      return Compared(findings, suppressed);
    }

    /** A baseline taken of a state is what later comparisons under its id are
        made with: the same state then shows no drift, whatever is expected, and
        other baselines are as before. */
    method TakeBaselineAndCompare(state: State, baselineId: string, now: string, note: string) returns (r: Comparison)
      modifies this`baselines
      ensures r == if hasDatabase then Compared([], 0) else NoBaseline
      ensures forall other :: other != baselineId ==> Load(other) == old(Load(other))
    {
      var snapshot := CreateTrustedBaseline(state, baselineId, now, note);
      var pairs := Pairs(TRACKED_CATEGORIES, state, state);
      NothingDiffers(pairs, state, Expected());
      r := CompareCurrentState(state, None, baselineId);
    }

    /** Compare, mark (or merely annotate) a drift id, compare again. A note
        suppresses like a mark: the findings change exactly when there is a
        database and the id is that of a reported drift. */
    method MarkAndCompareAgain(current: State, base: Snapshot, driftId: string, note: string, annotateOnly: bool) returns (before: Comparison, after: Comparison)
      modifies this`expectedNotes
      ensures before.Compared? && after.Compared?
      ensures before == CompareStates(base.state, current, old(Expected()))
      ensures after.findings == if hasDatabase then Without(before.findings, driftId) else before.findings
      ensures after.findings != before.findings <==> hasDatabase && Reports(before.findings, driftId)
      ensures hasDatabase && Reports(before.findings, driftId) ==> |after.findings| == |before.findings| - 1
      ensures |after.findings| + after.suppressed == |before.findings| + before.suppressed
    {
      before := CompareCurrentState(current, Some(base), "");
      TrackedAreDistinct();
      TrackedAreColonFree();
      MarkingChangesIff(TRACKED_CATEGORIES, base.state, current, Expected(), driftId);
      if f :| f in before.findings && f.driftId == driftId {
        MarkingDropsOne(TRACKED_CATEGORIES, base.state, current, Expected(), f);
      }
      if annotateOnly { AddNote(driftId, note); } else { MarkExpected(driftId, note); }
      after := CompareCurrentState(current, Some(base), "");
    }
  }

  lemma {:induction false} NothingDiffers(pairs: seq<Pair>, s: State, expected: set<string>)
    ensures Findings(pairs, s, s, expected) == [] && Suppressed(pairs, s, s, expected) == 0
  {
    if pairs != [] { NothingDiffers(pairs[..|pairs| - 1], s, expected); }
  }
}
