/** Grouping forecast cards for display (mac_audit_agent/cve_radar.py,
    `group_forecast_cards_for_display`): cards with one title in one category
    are merged, and the merged cards sorted by level and counts. */
module ForecastGrouping {
  import opened Common
  import opened SecurityForecast

  /** A card's lists, shared by every shallow copy of the card. */
  class Lists {
    var cves: seq<string>
    var kevCves: seq<string>
    var epssHigh: seq<string>
  }

  datatype DisplayCard = DisplayCard(
    title: string, category: string, level: Level, severity: Severity, lists: Lists, cveCount: nat, kevCount: nat,
    products: set<string>, alerts: seq<DisplayCard>)

  /** What a card holds at one moment, `alerts` apart. */
  datatype Entry = Entry(
    title: string, category: string, level: Level, severity: Severity, cves: seq<string>, kevCves: seq<string>,
    epssHigh: seq<string>, cveCount: nat, kevCount: nat, products: set<string>)

  function Value(c: DisplayCard): Entry
    reads c.lists
  {
    Entry(c.title, c.category, c.level, c.severity, c.lists.cves, c.lists.kevCves, c.lists.epssHigh,
          c.cveCount, c.kevCount, c.products)
  }

  function GroupKey(category: string, title: string): string {
    var t := if Strip(title) == "" then "Apple Exposure Assessment" else Strip(title);
    var c := Strip(category);
    if c == "" then t else c + ":" + t
  }

  /** Categories without a colon keep their titles apart from each other's. */
  lemma CategoriesStayApart(c1: string, t1: string, c2: string, t2: string)
    requires Strip(c1) != "" && Strip(c2) != "" && ':' !in Strip(c1) && ':' !in Strip(c2)
    requires Strip(t1) != "" && Strip(t2) != ""
    ensures GroupKey(c1, t1) == GroupKey(c2, t2) <==> Strip(c1) == Strip(c2) && Strip(t1) == Strip(t2)
  {
    var (a, b) := (Strip(c1), Strip(c2));
    var (k, l) := (GroupKey(c1, t1), GroupKey(c2, t2));
    assert k[|a|] == ':' && l[|b|] == ':' && k[..|a|] == a && l[..|b|] == b;
    assert forall i :: 0 <= i < |a| ==> k[i] == a[i] && a[i] != ':';
    assert forall i :: 0 <= i < |b| ==> l[i] == b[i] && b[i] != ':';
    assert k[|a| + 1..] == Strip(t1) && l[|b| + 1..] == Strip(t2);
  }

  // ---------- groups as values ----------

  function Elements(s: seq<string>): set<string> {
    set x | x in s
  }

  /** A later card e merged into the group g. */
  function Merge(g: Entry, e: Entry): Entry {
    g.(cves := g.cves + e.cves, kevCves := g.kevCves + e.kevCves, epssHigh := g.epssHigh + e.epssHigh,
       cveCount := |Elements(g.cves + e.cves)|, kevCount := |Elements(g.kevCves + e.kevCves)|,
       level := LevelMax(g.level, e.level), severity := SeverityMax(g.severity, e.severity),
       products := g.products + e.products)
  }

  function GroupOf(members: seq<Entry>): Entry
    requires members != []
  {
    var n := |members| - 1;
    if n == 0 then members[0] else Merge(GroupOf(members[..n]), members[n])
  }

  /** The items whose key is `key`, in order; ks[i] is the key of s[i]. */
  function Members<T>(ks: seq<string>, s: seq<T>, key: string): seq<T>
    requires |ks| == |s|
  {
    if s == [] then []
    else
      var n := |s| - 1;
      Members(ks[..n], s[..n], key) + if ks[n] == key then [s[n]] else []
  }

  /** The keys without repetition, each where it first occurs. */
  function Distinct(ks: seq<string>): seq<string> {
    if ks == [] then []
    else
      var n := |ks| - 1;
      var ds := Distinct(ks[..n]);
      if ks[n] in ds then ds else ds + [ks[n]]
  }

  lemma {:induction false} DistinctIsStrict(ks: seq<string>)
    ensures forall i, j :: 0 <= i < j < |Distinct(ks)| ==> Distinct(ks)[i] != Distinct(ks)[j]
    ensures forall key :: key in Distinct(ks) <==> key in ks
  {
    if ks != [] {
      var n := |ks| - 1;
      DistinctIsStrict(ks[..n]);
      assert ks == ks[..n] + [ks[n]];
    }
  }

  lemma OneMore<T>(ks: seq<string>, s: seq<T>, k: string, x: T, key: string)
    requires |ks| == |s|
    ensures Distinct(ks + [k]) == if k in Distinct(ks) then Distinct(ks) else Distinct(ks) + [k]
    ensures Members(ks + [k], s + [x], key) == if k == key then Members(ks, s, key) + [x] else Members(ks, s, key)
  {
    assert (ks + [k])[..|ks|] == ks && (s + [x])[..|s|] == s;
  }

  lemma {:induction false} HasMembers<T>(ks: seq<string>, s: seq<T>, key: string)
    requires |ks| == |s|
    ensures key in Distinct(ks) <==> Members(ks, s, key) != []
  {
    if s != [] {
      var n := |s| - 1;
      HasMembers(ks[..n], s[..n], key);
    }
  }

  function GroupAt(ks: seq<string>, es: seq<Entry>, key: string): Entry
    requires |ks| == |es| && key in Distinct(ks)
  {
    HasMembers(ks, es, key);
    GroupOf(Members(ks, es, key))
  }

  /** The groups, in order of their first cards. */
  function Groups(ks: seq<string>, es: seq<Entry>): (r: seq<Entry>)
    requires |ks| == |es|
    ensures |r| == |Distinct(ks)| && forall i :: 0 <= i < |r| ==> r[i] == GroupAt(ks, es, Distinct(ks)[i])
  {
    seq(|Distinct(ks)|, i requires 0 <= i < |Distinct(ks)| => GroupAt(ks, es, Distinct(ks)[i]))
  }

  lemma GroupOneMore(members: seq<Entry>, e: Entry)
    ensures GroupOf(members + [e]) == if members == [] then e else Merge(GroupOf(members), e)
  {
    assert (members + [e])[..|members|] == members;
  }

  /** One more entry changes the group at its own key only. */
  lemma GroupAtOneMore(ks: seq<string>, es: seq<Entry>, k: string, e: Entry, key: string)
    requires |ks| == |es| && key in Distinct(ks + [k])
    ensures key != k ==> key in Distinct(ks) && GroupAt(ks + [k], es + [e], key) == GroupAt(ks, es, key)
    ensures key == k ==> GroupAt(ks + [k], es + [e], key) == if key in Distinct(ks) then Merge(GroupAt(ks, es, key), e) else e
  {
    OneMore(ks, es, k, e, key);
    HasMembers(ks, es, key);
    GroupOneMore(Members(ks, es, key), e);
  }

  lemma GroupsOneMore(ks: seq<string>, es: seq<Entry>, k: string, e: Entry)
    requires |ks| == |es|
    ensures k !in Distinct(ks) ==> Groups(ks + [k], es + [e]) == Groups(ks, es) + [e]
    ensures forall i :: 0 <= i < |Distinct(ks)| && Distinct(ks)[i] == k ==>
              Groups(ks + [k], es + [e]) == Groups(ks, es)[i := Merge(Groups(ks, es)[i], e)]
  {
    OneMore(ks, es, k, e, k);
    DistinctIsStrict(ks);
    forall j | 0 <= j < |Distinct(ks + [k])|
      ensures var key := Distinct(ks + [k])[j];
              Groups(ks + [k], es + [e])[j]
              == if key == k then (if key in Distinct(ks) then Merge(GroupAt(ks, es, key), e) else e) else GroupAt(ks, es, key)
    {
      GroupAtOneMore(ks, es, k, e, Distinct(ks + [k])[j]);
    }
  }

  // ---------- sorting ----------

  datatype Rank = Rank(level: nat, kev: nat, cve: nat)

  function RankOf(e: Entry): Rank {
    Rank(LevelRank(e.level), e.kevCount, e.cveCount)
  }

  predicate Higher(a: Rank, b: Rank) {
    a.level > b.level || (a.level == b.level && (a.kev > b.kev || (a.kev == b.kev && a.cve > b.cve)))
  }

  /** i is displayed before j: higher, or equal and earlier. */
  predicate Before(ranks: seq<Rank>, i: nat, j: nat)
    requires i < |ranks| && j < |ranks|
  {
    Higher(ranks[i], ranks[j]) || (ranks[i] == ranks[j] && i < j)
  }

  predicate Within(o: seq<nat>, n: nat) {
    forall i :: 0 <= i < |o| ==> o[i] < n
  }

  /** The position x put into o behind everything not lower. */
  function Insert(ranks: seq<Rank>, o: seq<nat>, x: nat): (r: seq<nat>)
    requires Within(o, |ranks|) && x < |ranks|
    ensures |r| == |o| + 1 && Within(r, |ranks|) && forall y: nat :: y in r <==> y in o || y == x
  {
    if o == [] || !Higher(ranks[x], ranks[o[|o| - 1]]) then o + [x]
    else
      var n := |o| - 1;
      assert o == o[..n] + [o[n]];
      Insert(ranks, o[..n], x) + [o[n]]
  }

  /** The first k positions in display order. */
  function OrderUpTo(ranks: seq<Rank>, k: nat): (r: seq<nat>)
    requires k <= |ranks|
    ensures |r| == k && Within(r, k) && forall y: nat :: y in r <==> y < k
  {
    if k == 0 then []
    else
      var o := Insert(ranks, OrderUpTo(ranks, k - 1), k - 1);
      assert forall i :: 0 <= i < |o| ==> o[i] in o;
      o
  }

  /** The order `sorted(..., reverse=True)` puts positions in. */
  function StableOrder(ranks: seq<Rank>): seq<nat> {
    OrderUpTo(ranks, |ranks|)
  }

  predicate InOrder(ranks: seq<Rank>, o: seq<nat>) {
    && Within(o, |ranks|)
    && forall i, j :: 0 <= i < j < |o| ==> Before(ranks, o[i], o[j])
  }

  lemma BeforeIsTransitive(ranks: seq<Rank>, i: nat, j: nat, k: nat)
    requires i < |ranks| && j < |ranks| && k < |ranks| && Before(ranks, i, j) && Before(ranks, j, k)
    ensures Before(ranks, i, k)
  {}

  lemma {:induction false} InsertKeepsOrder(ranks: seq<Rank>, o: seq<nat>, x: nat)
    requires InOrder(ranks, o) && x < |ranks| && forall i :: 0 <= i < |o| ==> o[i] < x
    ensures InOrder(ranks, Insert(ranks, o, x))
  {
    if o != [] {
      var n := |o| - 1;
      var last := o[n];
      if !Higher(ranks[x], ranks[last]) {
        assert Before(ranks, last, x);
        forall i | 0 <= i <= n ensures Before(ranks, o[i], x) {
          if i < n { BeforeIsTransitive(ranks, o[i], last, x); }
        }
      } else {
        assert o == o[..n] + [last];
        InsertKeepsOrder(ranks, o[..n], x);
        var r := Insert(ranks, o[..n], x);
        forall i | 0 <= i < |r| ensures Before(ranks, r[i], last) {
          assert r[i] in r;
        }
      }
    }
  }

  lemma {:induction false} OrderUpToIsInOrder(ranks: seq<Rank>, k: nat)
    requires k <= |ranks|
    ensures InOrder(ranks, OrderUpTo(ranks, k))
  {
    if k > 0 {
      OrderUpToIsInOrder(ranks, k - 1);
      InsertKeepsOrder(ranks, OrderUpTo(ranks, k - 1), k - 1);
    }
  }

  lemma FirstIsUnique(ranks: seq<Rank>, o: seq<nat>, p: seq<nat>)
    requires InOrder(ranks, o) && InOrder(ranks, p) && o != [] && forall x :: x in o <==> x in p
    ensures p != [] && o[0] == p[0]
  {
    assert o[0] in p;
    var i :| 0 <= i < |p| && p[i] == o[0];
    assert p[0] in o;
    var j :| 0 <= j < |o| && o[j] == p[0];
  }

  lemma RestWithoutFirst(ranks: seq<Rank>, o: seq<nat>)
    requires InOrder(ranks, o) && o != []
    ensures forall x :: x in o[1..] <==> x in o && x != o[0]
  {
    assert o == [o[0]] + o[1..];
    forall i | 0 <= i < |o[1..]| ensures o[1..][i] != o[0] {
      assert o[1..][i] == o[i + 1] && Before(ranks, o[0], o[i + 1]);
    }
  }

  /** Two display orders of the same positions are the same. */
  lemma {:induction false} OrderIsUnique(ranks: seq<Rank>, o: seq<nat>, p: seq<nat>)
    requires InOrder(ranks, o) && InOrder(ranks, p) && forall x :: x in o <==> x in p
    ensures o == p
  {
    assert p != [] ==> p[0] in p;
    if o != [] {
      FirstIsUnique(ranks, o, p);
      RestWithoutFirst(ranks, o);
      RestWithoutFirst(ranks, p);
      OrderIsUnique(ranks, o[1..], p[1..]);
    }
  }

  function Ranks(es: seq<Entry>): seq<Rank> {
    seq(|es|, i requires 0 <= i < |es| => RankOf(es[i]))
  }

  function Pick<T>(s: seq<T>, o: seq<nat>): (r: seq<T>)
    requires Within(o, |s|)
    ensures |r| == |o| && forall i :: 0 <= i < |o| ==> r[i] == s[o[i]]
  {
    seq(|o|, i requires 0 <= i < |o| => assert o[i] in o; s[o[i]])
  }

  function Sorted(es: seq<Entry>): seq<Entry> {
    Pick(es, StableOrder(Ranks(es)))
  }

  /** The whole function on values. */
  function Display(ks: seq<string>, es: seq<Entry>): seq<Entry>
    requires |ks| == |es|
  {
    Sorted(Groups(ks, es))
  }

  predicate SortedDown(es: seq<Entry>) {
    forall i, j :: 0 <= i < j < |es| ==> !Higher(RankOf(es[j]), RankOf(es[i]))
  }

  lemma SortingSorts(es: seq<Entry>)
    ensures SortedDown(Sorted(es))
    ensures |Sorted(es)| == |es| && forall e :: e in Sorted(es) <==> e in es
  {
    var o := StableOrder(Ranks(es));
    OrderUpToIsInOrder(Ranks(es), |es|);
    forall i, j | 0 <= i < j < |o| ensures !Higher(RankOf(es[o[j]]), RankOf(es[o[i]])) {
      assert Before(Ranks(es), o[i], o[j]);
    }
    forall e | e in es ensures e in Sorted(es) {
      var i :| 0 <= i < |es| && es[i] == e;
      assert i in o;
      var k :| 0 <= k < |o| && o[k] == i;
      assert Sorted(es)[k] == e;
    }
  }

  lemma DisplayIsSorted(ks: seq<string>, es: seq<Entry>)
    requires |ks| == |es|
    ensures SortedDown(Display(ks, es))
    ensures |Display(ks, es)| == |Groups(ks, es)| && forall g :: g in Display(ks, es) <==> g in Groups(ks, es)
  {
    SortingSorts(Groups(ks, es));
  }

  // ---------- the method ----------

  function KeysOf(cards: seq<DisplayCard>): (r: seq<string>)
    ensures |r| == |cards| && forall i :: 0 <= i < |r| ==> r[i] == GroupKey(cards[i].category, cards[i].title)
  {
    seq(|cards|, i requires 0 <= i < |cards| => GroupKey(cards[i].category, cards[i].title))
  }

  /** No two cards share their lists. */
  predicate Apart(cards: seq<DisplayCard>) {
    forall i, j :: 0 <= i < j < |cards| ==> cards[i].lists != cards[j].lists
  }

  function Values(cards: seq<DisplayCard>): (r: seq<Entry>)
    reads set i | 0 <= i < |cards| :: cards[i].lists
    ensures |r| == |cards| && forall i :: 0 <= i < |cards| ==> r[i] == Value(cards[i])
  {
    if cards == [] then [] else Values(cards[..|cards| - 1]) + [Value(cards[|cards| - 1])]
  }

  /** The merge branch: the group's own lists are extended in place. */
  method Absorb(g: DisplayCard, c: DisplayCard) returns (r: DisplayCard)
    modifies g.lists
    ensures Value(r) == Merge(old(Value(g)), old(Value(c)))
    ensures r.lists == g.lists && r.title == g.title && r.category == g.category && r.alerts == g.alerts + [c]
  {
    g.lists.cves := g.lists.cves + c.lists.cves;
    g.lists.kevCves := g.lists.kevCves + c.lists.kevCves;
    g.lists.epssHigh := g.lists.epssHigh + c.lists.epssHigh;
    assert Elements(g.lists.cves + c.lists.cves) == Elements(g.lists.cves);
    assert Elements(g.lists.kevCves + c.lists.kevCves) == Elements(g.lists.kevCves);
    r := g.(alerts := g.alerts + [c],
            cveCount := |Elements(g.lists.cves + c.lists.cves)|,
            kevCount := |Elements(g.lists.kevCves + c.lists.kevCves)|,
            level := LevelMax(g.level, c.level),
            severity := SeverityMax(g.severity, c.severity),
            products := g.products + c.products);
  }

  /** Where a key first occurs. */
  function First(ks: seq<string>, key: string): (i: nat)
    requires key in ks
    ensures i < |ks| && ks[i] == key
  {
    var n := |ks| - 1;
    assert ks == ks[..n] + [ks[n]];
    if key in ks[..n] then First(ks[..n], key) else n
  }

  lemma FirstOneMore(ks: seq<string>, k: string, key: string)
    requires key in ks + [k]
    ensures First(ks + [k], key) == if key in ks then First(ks, key) else |ks|
  {
    assert (ks + [k])[..|ks|] == ks;
  }

  /** What a group keeps of its cards, its lists' contents apart: the members in
      order, and the first member's own list objects, title and category. */
  predicate Kept(ks: seq<string>, cards: seq<DisplayCard>, key: string, g: DisplayCard)
    requires |ks| == |cards|
  {
    && key in ks
    && g.lists == cards[First(ks, key)].lists && g.title == cards[First(ks, key)].title && g.category == cards[First(ks, key)].category
    && g.alerts == Members(ks, cards, key) && g.alerts != [] && g.alerts[0] == cards[First(ks, key)]
  }

  lemma KeptOneMore(ks: seq<string>, cards: seq<DisplayCard>, k: string, c: DisplayCard, key: string, g: DisplayCard, g': DisplayCard)
    requires |ks| == |cards|
    requires key in Distinct(ks) ==> Kept(ks, cards, key, g)
    requires key == k ==>
               if k in Distinct(ks) then g'.lists == g.lists && g'.title == g.title && g'.category == g.category && g'.alerts == g.alerts + [c]
               else g' == c.(alerts := [c])
    requires key != k ==> key in Distinct(ks) && g' == g
    ensures Kept(ks + [k], cards + [c], key, g')
  {
    DistinctIsStrict(ks);
    OneMore(ks, cards, k, c, key);
    HasMembers(ks, cards, key);
    FirstOneMore(ks, k, key);
  }

  /** A group's value, its lists' contents taken from the card v they belong to. */
  function Held(g: DisplayCard, v: Entry): Entry {
    Entry(g.title, g.category, g.level, g.severity, v.cves, v.kevCves, v.epssHigh, g.cveCount, g.kevCount, g.products)
  }

  /** The parts of a group that no list decides. */
  predicate SameSummary(g: DisplayCard, e: Entry) {
    g.level == e.level && g.severity == e.severity && g.products == e.products
  }

  /** What holds of the group of `key` after k cards, shared lists or not. */
  predicate GroupKept(cards: seq<DisplayCard>, ks: seq<string>, es: seq<Entry>, k: nat, key: string, g: DisplayCard)
    requires k <= |cards| == |ks| == |es| && key in Distinct(ks[..k])
  {
    Kept(ks[..k], cards[..k], key, g) && SameSummary(g, GroupAt(ks[..k], es[..k], key))
  }

  ghost predicate AllKept(cards: seq<DisplayCard>, ks: seq<string>, es: seq<Entry>, k: nat, byTitle: map<string, DisplayCard>)
    requires k <= |cards| == |ks| == |es|
  {
    forall key :: key in Distinct(ks[..k]) ==> key in byTitle && GroupKept(cards, ks, es, k, key, byTitle[key])
  }

  /** The group g of `key` after k cards, when the cards hold vs. */
  predicate GroupHolds(cards: seq<DisplayCard>, ks: seq<string>, es: seq<Entry>, vs: seq<Entry>, k: nat, key: string, g: DisplayCard)
    requires k <= |cards| == |ks| == |es| == |vs| && key in Distinct(ks[..k])
  {
    Kept(ks[..k], cards[..k], key, g) && Held(g, vs[First(ks[..k], key)]) == GroupAt(ks[..k], es[..k], key)
  }

  /** After k cards only the first cards of groups differ from what they were. */
  predicate Untouched(ks: seq<string>, es: seq<Entry>, vs: seq<Entry>, k: nat)
    requires k <= |ks| == |es| == |vs|
  {
    forall i :: 0 <= i < |es| && (i >= k || First(ks[..k], ks[i]) < i) ==> vs[i] == es[i]
  }

  ghost predicate AllHold(cards: seq<DisplayCard>, ks: seq<string>, es: seq<Entry>, vs: seq<Entry>, k: nat, byTitle: map<string, DisplayCard>)
    requires k <= |cards| == |ks| == |es| == |vs|
  {
    forall key :: key in Distinct(ks[..k]) ==> key in byTitle && GroupHolds(cards, ks, es, vs, k, key, byTitle[key])
  }

  predicate SameKeys(order: seq<string>, byTitle: map<string, DisplayCard>) {
    (forall key :: key in byTitle ==> key in order) && (forall key :: key in order ==> key in byTitle)
  }

  /** The loop's state after k cards, when the cards, es at first, hold vs. */
  ghost predicate Grouped(cards: seq<DisplayCard>, ks: seq<string>, es: seq<Entry>, vs: seq<Entry>, k: nat, order: seq<string>, byTitle: map<string, DisplayCard>)
    requires k <= |cards| == |ks| == |es| == |vs|
  {
    && order == Distinct(ks[..k]) && SameKeys(order, byTitle) && AllKept(cards, ks, es, k, byTitle)
    && (Apart(cards) ==> AllHold(cards, ks, es, vs, k, byTitle) && Untouched(ks, es, vs, k))
  }

  lemma FirstIsFirst(ks: seq<string>, k: nat, key: string)
    requires k < |ks| && key in ks[..k + 1]
    ensures First(ks[..k + 1], key) == if key in ks[..k] then First(ks[..k], key) else k
  {
    assert ks[..k + 1] == ks[..k] + [ks[k]];
    FirstOneMore(ks[..k], ks[k], key);
  }

  /** Static facts about the groups after one more card. */
  lemma GroupsAdvance(cards: seq<DisplayCard>, ks: seq<string>, es: seq<Entry>, k: nat, key: string, g: DisplayCard, g': DisplayCard)
    requires k < |cards| == |ks| == |es| && key in Distinct(ks[..k + 1])
    requires key in Distinct(ks[..k]) ==> Kept(ks[..k], cards[..k], key, g)
    requires key == ks[k] ==>
               if key in Distinct(ks[..k]) then g'.lists == g.lists && g'.title == g.title && g'.category == g.category && g'.alerts == g.alerts + [cards[k]]
               else g' == cards[k].(alerts := [cards[k]])
    requires key != ks[k] ==> g' == g
    ensures Kept(ks[..k + 1], cards[..k + 1], key, g')
    ensures key != ks[k] ==> key in Distinct(ks[..k]) && GroupAt(ks[..k + 1], es[..k + 1], key) == GroupAt(ks[..k], es[..k], key)
    ensures key == ks[k] ==>
              GroupAt(ks[..k + 1], es[..k + 1], key) == if key in Distinct(ks[..k]) then Merge(GroupAt(ks[..k], es[..k], key), es[k]) else es[k]
  {
    assert ks[..k + 1] == ks[..k] + [ks[k]] && cards[..k + 1] == cards[..k] + [cards[k]] && es[..k + 1] == es[..k] + [es[k]];
    GroupAtOneMore(ks[..k], es[..k], ks[k], es[k], key);
    KeptOneMore(ks[..k], cards[..k], ks[k], cards[k], key, g, g');
  }

  /** Of the cards only the first of k's own group may have changed. */
  predicate OnlyFirstChanged(ks: seq<string>, vs: seq<Entry>, vs': seq<Entry>, k: nat)
    requires k < |ks| == |vs| == |vs'|
  {
    forall i :: 0 <= i < |vs| && (ks[k] in ks[..k] ==> i != First(ks[..k], ks[k])) ==> vs'[i] == vs[i]
  }

  /** g' is the card k's group, made from the group g it was before, if any. */
  predicate Joined(cards: seq<DisplayCard>, ks: seq<string>, vs: seq<Entry>, vs': seq<Entry>, k: nat, g: Option<DisplayCard>, g': DisplayCard)
    requires k < |ks| == |vs| == |vs'| == |cards|
  {
    if g.None? || ks[k] !in ks[..k] then g' == cards[k].(alerts := [cards[k]])
    else
      var f := First(ks[..k], ks[k]);
      && g'.lists == g.value.lists && g'.title == g.value.title && g'.category == g.value.category
      && g'.alerts == g.value.alerts + [cards[k]]
      && Held(g', vs'[f]) == Merge(Held(g.value, vs[f]), vs[k])
  }

  /** The same of the parts that no list decides. */
  predicate JoinedSummary(cards: seq<DisplayCard>, ks: seq<string>, k: nat, g: Option<DisplayCard>, g': DisplayCard)
    requires k < |ks| == |cards|
  {
    if g.None? || ks[k] !in ks[..k] then g' == cards[k].(alerts := [cards[k]])
    else
      && g'.lists == g.value.lists && g'.title == g.value.title && g'.category == g.value.category
      && g'.alerts == g.value.alerts + [cards[k]]
      && g'.level == LevelMax(g.value.level, cards[k].level) && g'.severity == SeverityMax(g.value.severity, cards[k].severity)
      && g'.products == g.value.products + cards[k].products
  }

  lemma OwnGroupKept(cards: seq<DisplayCard>, ks: seq<string>, es: seq<Entry>, k: nat, g: Option<DisplayCard>, g': DisplayCard)
    requires k < |cards| == |ks| == |es| && ks[k] in Distinct(ks[..k + 1])
    requires JoinedSummary(cards, ks, k, g, g') && SameSummary(cards[k], es[k])
    requires if ks[k] in Distinct(ks[..k]) then g.Some? && GroupKept(cards, ks, es, k, ks[k], g.value) else g.None?
    ensures GroupKept(cards, ks, es, k + 1, ks[k], g')
  {
    DistinctIsStrict(ks[..k]);
    GroupsAdvance(cards, ks, es, k, ks[k], if g.Some? then g.value else cards[k], g');
  }

  lemma OtherGroupKept(cards: seq<DisplayCard>, ks: seq<string>, es: seq<Entry>, k: nat, key: string, g: DisplayCard)
    requires k < |cards| == |ks| == |es| && key in Distinct(ks[..k + 1]) && key != ks[k]
    requires key in Distinct(ks[..k]) ==> GroupKept(cards, ks, es, k, key, g)
    ensures GroupKept(cards, ks, es, k + 1, key, g)
  {
    GroupsAdvance(cards, ks, es, k, key, g, g);
  }

  lemma StillKept(cards: seq<DisplayCard>, ks: seq<string>, es: seq<Entry>, k: nat, byTitle: map<string, DisplayCard>, g: Option<DisplayCard>, g': DisplayCard)
    requires k < |cards| == |ks| == |es| && JoinedSummary(cards, ks, k, g, g') && SameSummary(cards[k], es[k])
    requires AllKept(cards, ks, es, k, byTitle)
    requires if ks[k] in Distinct(ks[..k]) then g == Some(byTitle[ks[k]]) else g.None?
    ensures AllKept(cards, ks, es, k + 1, byTitle[ks[k] := g'])
  {
    DistinctNext(ks, k);
    var order' := Distinct(ks[..k + 1]);
    forall key | key in order'
      ensures key in byTitle[ks[k] := g'] && GroupKept(cards, ks, es, k + 1, key, byTitle[ks[k] := g'][key])
    {
      if key == ks[k] {
        OwnGroupKept(cards, ks, es, k, g, g');
      } else {
        OtherGroupKept(cards, ks, es, k, key, byTitle[key]);
      }
    }
  }

  lemma OwnGroupHolds(cards: seq<DisplayCard>, ks: seq<string>, es: seq<Entry>, vs: seq<Entry>, vs': seq<Entry>, k: nat, g: Option<DisplayCard>, g': DisplayCard)
    requires k < |cards| == |ks| == |es| == |vs| == |vs'| && ks[k] in Distinct(ks[..k + 1])
    requires OnlyFirstChanged(ks, vs, vs', k) && Joined(cards, ks, vs, vs', k, g, g')
    requires vs[k] == es[k] && Held(cards[k], vs[k]) == vs[k]
    requires if ks[k] in Distinct(ks[..k]) then g.Some? && GroupHolds(cards, ks, es, vs, k, ks[k], g.value) else g.None?
    ensures GroupHolds(cards, ks, es, vs', k + 1, ks[k], g')
  {
    DistinctIsStrict(ks[..k]);
    GroupsAdvance(cards, ks, es, k, ks[k], if g.Some? then g.value else cards[k], g');
    FirstIsFirst(ks, k, ks[k]);
  }

  lemma OtherGroupHolds(cards: seq<DisplayCard>, ks: seq<string>, es: seq<Entry>, vs: seq<Entry>, vs': seq<Entry>, k: nat, key: string, g: DisplayCard)
    requires k < |cards| == |ks| == |es| == |vs| == |vs'| && key in Distinct(ks[..k + 1]) && key != ks[k]
    requires OnlyFirstChanged(ks, vs, vs', k)
    requires key in Distinct(ks[..k]) ==> GroupHolds(cards, ks, es, vs, k, key, g)
    ensures GroupHolds(cards, ks, es, vs', k + 1, key, g)
  {
    DistinctIsStrict(ks[..k]);
    DistinctIsStrict(ks[..k + 1]);
    GroupsAdvance(cards, ks, es, k, key, g, g);
    FirstIsFirst(ks, k, key);
  }

  lemma StaysUntouched(ks: seq<string>, es: seq<Entry>, vs: seq<Entry>, vs': seq<Entry>, k: nat)
    requires k < |ks| == |es| == |vs| == |vs'|
    requires OnlyFirstChanged(ks, vs, vs', k) && Untouched(ks, es, vs, k)
    ensures Untouched(ks, es, vs', k + 1)
  {
    forall i | 0 <= i < |es| && (i >= k + 1 || First(ks[..k + 1], ks[i]) < i) ensures vs'[i] == es[i] {
      if i <= k {
        assert ks[..k + 1][i] == ks[i];
        assert i < k ==> ks[..k][i] == ks[i];
        FirstIsFirst(ks, k, ks[i]);
      }
    }
  }

  lemma StillHold(cards: seq<DisplayCard>, ks: seq<string>, es: seq<Entry>, vs: seq<Entry>, vs': seq<Entry>, k: nat,
                  byTitle: map<string, DisplayCard>, g: Option<DisplayCard>, g': DisplayCard)
    requires k < |cards| == |ks| == |es| == |vs| == |vs'|
    requires OnlyFirstChanged(ks, vs, vs', k) && Joined(cards, ks, vs, vs', k, g, g')
    requires vs[k] == es[k] && Held(cards[k], vs[k]) == vs[k]
    requires AllHold(cards, ks, es, vs, k, byTitle)
    requires if ks[k] in Distinct(ks[..k]) then g == Some(byTitle[ks[k]]) else g.None?
    ensures AllHold(cards, ks, es, vs', k + 1, byTitle[ks[k] := g'])
  {
    assert ks[..k + 1] == ks[..k] + [ks[k]];
    OneMore(ks[..k], es[..k], ks[k], es[k], ks[k]);
    var order' := Distinct(ks[..k + 1]);
    forall key | key in order'
      ensures key in byTitle[ks[k] := g'] && GroupHolds(cards, ks, es, vs', k + 1, key, byTitle[ks[k] := g'][key])
    {
      if key == ks[k] {
        OwnGroupHolds(cards, ks, es, vs, vs', k, g, g');
      } else {
        OtherGroupHolds(cards, ks, es, vs, vs', k, key, byTitle[key]);
      }
    }
  }

  lemma DistinctNext(ks: seq<string>, k: nat)
    requires k < |ks|
    ensures Distinct(ks[..k + 1]) == if ks[k] in Distinct(ks[..k]) then Distinct(ks[..k]) else Distinct(ks[..k]) + [ks[k]]
  {
    assert ks[..k + 1][..k] == ks[..k];
  }

  lemma KeysStaySame(order: seq<string>, byTitle: map<string, DisplayCard>, key: string, g: DisplayCard)
    requires SameKeys(order, byTitle)
    ensures SameKeys(if key in byTitle then order else order + [key], byTitle[key := g])
  {}

  lemma StaysGrouped(cards: seq<DisplayCard>, ks: seq<string>, es: seq<Entry>, vs: seq<Entry>, vs': seq<Entry>, k: nat,
                     order: seq<string>, byTitle: map<string, DisplayCard>, g: Option<DisplayCard>, g': DisplayCard)
    requires k < |cards| == |ks| == |es| == |vs| == |vs'| && Grouped(cards, ks, es, vs, k, order, byTitle)
    requires JoinedSummary(cards, ks, k, g, g') && SameSummary(cards[k], es[k])
    requires Apart(cards) ==> OnlyFirstChanged(ks, vs, vs', k) && Joined(cards, ks, vs, vs', k, g, g') && Held(cards[k], vs[k]) == vs[k]
    requires g == Lookup(byTitle, ks[k])
    ensures Grouped(cards, ks, es, vs', k + 1, if g.Some? then order else order + [ks[k]], byTitle[ks[k] := g'])
  {
    DistinctNext(ks, k);
    KeysStaySame(order, byTitle, ks[k], g');
    StillKept(cards, ks, es, k, byTitle, g, g');
    if Apart(cards) {
      StaysUntouched(ks, es, vs, vs', k);
      StillHold(cards, ks, es, vs, vs', k, byTitle, g, g');
    }
  }

  function Lookup(byTitle: map<string, DisplayCard>, key: string): (r: Option<DisplayCard>)
    ensures r.Some? <==> key in byTitle
    ensures r.Some? ==> r.value == byTitle[key]
  {
    if key in byTitle then Some(byTitle[key]) else None
  }

  /** One card joins its group, which is new or found in the map. */
  method Join(cards: seq<DisplayCard>, ghost ks: seq<string>, k: nat, found: Option<DisplayCard>) returns (g: DisplayCard)
    requires k < |cards| == |ks|
    requires found.Some? <==> ks[k] in ks[..k]
    requires found.Some? ==> found.value.lists == cards[First(ks[..k], ks[k])].lists
    modifies set i | 0 <= i < |cards| :: cards[i].lists
    ensures JoinedSummary(cards, ks, k, found, g)
    ensures Apart(cards) ==> OnlyFirstChanged(ks, old(Values(cards)), Values(cards), k)
    ensures Apart(cards) ==> Joined(cards, ks, old(Values(cards)), Values(cards), k, found, g)
  {
    match found
    case None => g := cards[k].(alerts := [cards[k]]);
    case Some(group) => g := Absorb(group, cards[k]);
  }

  /** One pass of the loop. */
  method Step(cards: seq<DisplayCard>, ghost ks: seq<string>, ghost es: seq<Entry>, k: nat, key: string, order: seq<string>, byTitle: map<string, DisplayCard>)
    returns (order': seq<string>, byTitle': map<string, DisplayCard>)
    requires k < |cards| == |es| == |ks| && ks[k] == key && SameSummary(cards[k], es[k])
    requires Grouped(cards, ks, es, Values(cards), k, order, byTitle)
    modifies set i | 0 <= i < |cards| :: cards[i].lists
    ensures Grouped(cards, ks, es, Values(cards), k + 1, order', byTitle')
  {
    ghost var vs := Values(cards);
    var found := Lookup(byTitle, key);
    DistinctIsStrict(ks[..k]);
    assert found.Some? ==> GroupKept(cards, ks, es, k, key, byTitle[key]);
    var g := Join(cards, ks, k, found);
    StaysGrouped(cards, ks, es, vs, Values(cards), k, order, byTitle, found, g);
    order' := if found == None then order + [key] else order;
    byTitle' := byTitle[key := g];
  }

  /** The finished groups, when the cards, es at first, hold vs. */
  predicate Collected(cards: seq<DisplayCard>, ks: seq<string>, es: seq<Entry>, vs: seq<Entry>, groups: seq<DisplayCard>)
    requires |cards| == |ks| == |es| == |vs|
  {
    && |groups| == |Distinct(ks)|
    && (forall j :: 0 <= j < |groups| ==> Summed(cards, ks, es, Distinct(ks)[j], groups[j]))
    && (Apart(cards) ==> forall j :: 0 <= j < |groups| ==> Finished(cards, ks, es, vs, Distinct(ks)[j], groups[j]))
    && (Apart(cards) ==> RestUnchanged(ks, es, vs))
  }

  predicate Summed(cards: seq<DisplayCard>, ks: seq<string>, es: seq<Entry>, key: string, g: DisplayCard)
    requires |cards| == |ks| == |es| && key in Distinct(ks)
  {
    Kept(ks, cards, key, g) && SameSummary(g, GroupAt(ks, es, key))
  }

  predicate Finished(cards: seq<DisplayCard>, ks: seq<string>, es: seq<Entry>, vs: seq<Entry>, key: string, g: DisplayCard)
    requires |cards| == |ks| == |es| == |vs| && key in Distinct(ks)
  {
    Kept(ks, cards, key, g) && Held(g, vs[First(ks, key)]) == GroupAt(ks, es, key)
  }

  lemma AllFinished(cards: seq<DisplayCard>, ks: seq<string>, es: seq<Entry>, vs: seq<Entry>, order: seq<string>,
                    byTitle: map<string, DisplayCard>, groups: seq<DisplayCard>)
    requires |cards| == |ks| == |es| == |vs| && Grouped(cards, ks, es, vs, |cards|, order, byTitle)
    requires |groups| == |order| && forall j :: 0 <= j < |order| ==> groups[j] == byTitle[order[j]]
    ensures Collected(cards, ks, es, vs, groups)
  {
    assert ks[..|cards|] == ks && cards[..|cards|] == cards && es[..|cards|] == es;
    forall j | 0 <= j < |groups| ensures Summed(cards, ks, es, Distinct(ks)[j], groups[j]) {
      assert GroupKept(cards, ks, es, |cards|, order[j], byTitle[order[j]]);
    }
    if Apart(cards) {
      forall j | 0 <= j < |groups| ensures Finished(cards, ks, es, vs, Distinct(ks)[j], groups[j]) {
        assert GroupHolds(cards, ks, es, vs, |cards|, order[j], byTitle[order[j]]);
      }
    }
  }

  /** es are values of the cards, at whatever moment. */
  ghost predicate Describe(cards: seq<DisplayCard>, es: seq<Entry>) {
    |cards| == |es| && forall i :: 0 <= i < |cards| ==> Held(cards[i], es[i]) == es[i]
  }

  lemma {:induction false} ValuesDescribe(cards: seq<DisplayCard>)
    ensures Describe(cards, Values(cards))
  {}

  /** The groups in the order of their first cards. */
  method Collect(cards: seq<DisplayCard>) returns (groups: seq<DisplayCard>)
    modifies set i | 0 <= i < |cards| :: cards[i].lists
    ensures Collected(cards, KeysOf(cards), old(Values(cards)), Values(cards), groups)
  {
    ghost var ks, es := KeysOf(cards), Values(cards);
    ValuesDescribe(cards);
    var byTitle: map<string, DisplayCard> := map[];
    var order: seq<string> := [];
    for k := 0 to |cards|
      invariant Grouped(cards, ks, es, Values(cards), k, order, byTitle)
    {
      order, byTitle := Step(cards, ks, es, k, GroupKey(cards[k].category, cards[k].title), order, byTitle);
    }
    groups := seq(|order|, i requires 0 <= i < |order| => byTitle[order[i]]);
    AllFinished(cards, ks, es, Values(cards), order, byTitle, groups);
  }

  lemma {:induction false} FinishedValue(cards: seq<DisplayCard>, ks: seq<string>, es: seq<Entry>, key: string, g: DisplayCard)
    requires |cards| == |ks| == |es| && key in Distinct(ks) && Finished(cards, ks, es, Values(cards), key, g)
    ensures Value(g) == GroupAt(ks, es, key)
  {}

  /** d is the group of its own key. */
  predicate Shown(cards: seq<DisplayCard>, ks: seq<string>, es: seq<Entry>, d: DisplayCard)
    requires |cards| == |ks| == |es|
  {
    var key := GroupKey(d.category, d.title);
    key in Distinct(ks) && Summed(cards, ks, es, key, d)
  }

  ghost predicate AllShown(cards: seq<DisplayCard>, ks: seq<string>, es: seq<Entry>, ds: seq<DisplayCard>)
    requires |cards| == |ks| == |es|
  {
    |ds| == |Distinct(ks)| && forall d :: d in ds ==> Shown(cards, ks, es, d)
  }

  /** Only first cards may have changed from what the cards held, es. */
  predicate RestUnchanged(ks: seq<string>, es: seq<Entry>, vs: seq<Entry>)
    requires |ks| == |es| == |vs|
  {
    forall i :: 0 <= i < |es| && First(ks, ks[i]) < i ==> vs[i] == es[i]
  }

  lemma SummedIsShown(cards: seq<DisplayCard>, ks: seq<string>, es: seq<Entry>, key: string, g: DisplayCard)
    requires ks == KeysOf(cards) && |cards| == |es| && key in Distinct(ks) && Summed(cards, ks, es, key, g)
    ensures Shown(cards, ks, es, g)
  {
    assert GroupKey(g.category, g.title) == ks[First(ks, key)];
  }

  lemma {:induction false} CollectedGroups(cards: seq<DisplayCard>, ks: seq<string>, es: seq<Entry>, groups: seq<DisplayCard>)
    requires ks == KeysOf(cards) && |cards| == |es| && Collected(cards, ks, es, Values(cards), groups)
    ensures Apart(cards) ==> Values(groups) == Groups(ks, es)
    ensures AllShown(cards, ks, es, groups)
  {
    forall j | 0 <= j < |groups| ensures Shown(cards, ks, es, groups[j]) {
      assert Summed(cards, ks, es, Distinct(ks)[j], groups[j]);
      SummedIsShown(cards, ks, es, Distinct(ks)[j], groups[j]);
    }
    if Apart(cards) {
      forall j | 0 <= j < |groups| ensures Value(groups[j]) == Groups(ks, es)[j] {
        assert Finished(cards, ks, es, Values(cards), Distinct(ks)[j], groups[j]);
        FinishedValue(cards, ks, es, Distinct(ks)[j], groups[j]);
      }
    }
  }

  method SortForDisplay(groups: seq<DisplayCard>) returns (display: seq<DisplayCard>)
    ensures |display| == |groups| && forall d :: d in display ==> d in groups
    ensures Values(display) == Sorted(Values(groups))
  {
    var ranks := seq(|groups|, i requires 0 <= i < |groups| => Rank(LevelRank(groups[i].level), groups[i].kevCount, groups[i].cveCount));
    assert ranks == Ranks(Values(groups));
    display := Pick(groups, StableOrder(ranks));
  }

  lemma ShownPart(cards: seq<DisplayCard>, ks: seq<string>, es: seq<Entry>, groups: seq<DisplayCard>, display: seq<DisplayCard>)
    requires |cards| == |ks| == |es| && AllShown(cards, ks, es, groups)
    requires |display| == |groups| && forall d :: d in display ==> d in groups
    ensures AllShown(cards, ks, es, display)
  {}

  method Arrange(ghost cards: seq<DisplayCard>, ghost ks: seq<string>, ghost es: seq<Entry>, groups: seq<DisplayCard>) returns (display: seq<DisplayCard>)
    requires ks == KeysOf(cards) && |cards| == |es| && Collected(cards, ks, es, Values(cards), groups)
    ensures Apart(cards) ==> Values(display) == Display(ks, es)
    ensures AllShown(cards, ks, es, display) && SortedDown(Values(display))
  {
    CollectedGroups(cards, ks, es, groups);
    display := SortForDisplay(groups);
    SortingSorts(Values(groups));
    ShownPart(cards, ks, es, groups, display);
  }

  /** `group_forecast_cards_for_display`. Every group shows its own cards as
      alerts, their highest level and severity and all their products, in
      sorted order, even when cards share lists. For cards that do not, the
      result is Display of the cards; but a group's lists are those of its first
      card, which the call has extended, and every other card is as before. */
  method GroupForDisplay(cards: seq<DisplayCard>) returns (display: seq<DisplayCard>)
    modifies set i | 0 <= i < |cards| :: cards[i].lists
    ensures AllShown(cards, KeysOf(cards), old(Values(cards)), display) && SortedDown(Values(display))
    ensures Apart(cards) ==> Values(display) == Display(KeysOf(cards), old(Values(cards)))
    ensures Apart(cards) ==> Left(KeysOf(cards), old(Values(cards)), Values(cards))
  {
    ghost var es := Values(cards);
    ValuesDescribe(cards);
    var groups := Collect(cards);
    LeavesCards(cards, KeysOf(cards), es, groups);
    display := Arrange(cards, KeysOf(cards), es, groups);
  }

  /** The first card of a group, as the call leaves it. */
  function Extended(first: Entry, g: Entry): Entry {
    first.(cves := g.cves, kevCves := g.kevCves, epssHigh := g.epssHigh)
  }

  /** The cards as the call leaves them: first cards hold their groups' lists. */
  ghost predicate Left(ks: seq<string>, es: seq<Entry>, vs: seq<Entry>)
    requires |ks| == |es| == |vs|
  {
    && RestUnchanged(ks, es, vs)
    && forall key :: key in Distinct(ks) ==> key in ks && vs[First(ks, key)] == Extended(es[First(ks, key)], GroupAt(ks, es, key))
  }

  lemma {:induction false} LeavesCards(cards: seq<DisplayCard>, ks: seq<string>, es: seq<Entry>, groups: seq<DisplayCard>)
    requires |cards| == |ks| == |es| && Collected(cards, ks, es, Values(cards), groups)
    requires Describe(cards, es)
    ensures Apart(cards) ==> Left(ks, es, Values(cards))
  {
    if Apart(cards) {
      DistinctIsStrict(ks);
      forall key | key in Distinct(ks)
        ensures Values(cards)[First(ks, key)] == Extended(es[First(ks, key)], GroupAt(ks, es, key))
      {
        var j :| 0 <= j < |Distinct(ks)| && Distinct(ks)[j] == key;
        assert Finished(cards, ks, es, Values(cards), Distinct(ks)[j], groups[j]);
      }
    }
  }

  // ---------- nothing is lost ----------

  function Union<G, X(==)>(gs: seq<G>, f: G -> multiset<X>): multiset<X> {
    if gs == [] then multiset{} else Union(gs[..|gs| - 1], f) + f(gs[|gs| - 1])
  }

  lemma UnionOneMore<G, X>(gs: seq<G>, g: G, f: G -> multiset<X>)
    ensures Union(gs + [g], f) == Union(gs, f) + f(g)
  {
    assert (gs + [g])[..|gs|] == gs;
  }

  lemma {:induction false} UnionUpdate<G, X>(gs: seq<G>, i: nat, g: G, f: G -> multiset<X>, extra: multiset<X>)
    requires i < |gs| && f(g) == f(gs[i]) + extra
    ensures Union(gs[i := g], f) == Union(gs, f) + extra
  {
    var n := |gs| - 1;
    if i == n {
      assert gs[i := g][..n] == gs[..n];
    } else {
      assert gs[i := g][..n] == gs[..n][i := g];
      UnionUpdate(gs[..n], i, g, f, extra);
    }
  }

  lemma {:induction false} UnionInsert<G, X>(gs: seq<G>, ranks: seq<Rank>, o: seq<nat>, x: nat, f: G -> multiset<X>)
    requires |ranks| == |gs| && x < |gs| && Within(o, |gs|)
    ensures Union(Pick(gs, Insert(ranks, o, x)), f) == Union(Pick(gs, o), f) + f(gs[x])
  {
    var r := Insert(ranks, o, x);
    if o == [] || !Higher(ranks[x], ranks[o[|o| - 1]]) {
      assert Pick(gs, r) == Pick(gs, o) + [gs[x]];
      UnionOneMore(Pick(gs, o), gs[x], f);
    } else {
      var n := |o| - 1;
      UnionInsert(gs, ranks, o[..n], x, f);
      assert Pick(gs, r) == Pick(gs, Insert(ranks, o[..n], x)) + [gs[o[n]]];
      UnionOneMore(Pick(gs, Insert(ranks, o[..n], x)), gs[o[n]], f);
      assert Pick(gs, o) == Pick(gs, o[..n]) + [gs[o[n]]];
      UnionOneMore(Pick(gs, o[..n]), gs[o[n]], f);
    }
  }

  lemma {:induction false} UnionOrdered<G, X>(gs: seq<G>, ranks: seq<Rank>, k: nat, f: G -> multiset<X>)
    requires k <= |gs| == |ranks|
    ensures Union(Pick(gs, OrderUpTo(ranks, k)), f) == Union(gs[..k], f)
  {
    if k > 0 {
      UnionOrdered(gs, ranks, k - 1, f);
      UnionInsert(gs, ranks, OrderUpTo(ranks, k - 1), k - 1, f);
      UnionOneMore(gs[..k - 1], gs[k - 1], f);
      assert gs[..k] == gs[..k - 1] + [gs[k - 1]];
    }
  }

  function GroupsTotal<X(==)>(ks: seq<string>, es: seq<Entry>, f: Entry -> multiset<X>): multiset<X>
    requires |ks| == |es|
  {
    Union(Groups(ks, es), f)
  }

  lemma GroupsConserveOneMore<X>(ks: seq<string>, es: seq<Entry>, k: string, e: Entry, f: Entry -> multiset<X>)
    requires |ks| == |es|
    requires forall a, b :: f(Merge(a, b)) == f(a) + f(b)
    ensures GroupsTotal(ks + [k], es + [e], f) == GroupsTotal(ks, es, f) + f(e)
  {
    GroupsOneMore(ks, es, k, e);
    var gs := Groups(ks, es);
    if k in Distinct(ks) {
      var i :| 0 <= i < |gs| && Distinct(ks)[i] == k;
      UnionUpdate(gs, i, Merge(gs[i], e), f, f(e));
    } else {
      UnionOneMore(gs, e, f);
    }
  }

  /** Whatever merging adds up is conserved by grouping. */
  lemma {:induction false} GroupsConserve<X>(ks: seq<string>, es: seq<Entry>, f: Entry -> multiset<X>)
    requires |ks| == |es|
    requires forall a, b :: f(Merge(a, b)) == f(a) + f(b)
    ensures GroupsTotal(ks, es, f) == Union(es, f)
  {
    if es != [] {
      var n := |es| - 1;
      assert ks == ks[..n] + [ks[n]] && es == es[..n] + [es[n]];
      GroupsConserve(ks[..n], es[..n], f);
      GroupsConserveOneMore(ks[..n], es[..n], ks[n], es[n], f);
    }
  }

  /** The displayed CVEs, with repetitions, are those of the cards. */
  lemma DisplayConservesCves(ks: seq<string>, es: seq<Entry>)
    requires |ks| == |es|
    ensures Union(Display(ks, es), (e: Entry) => multiset(e.cves)) == Union(es, (e: Entry) => multiset(e.cves))
    ensures Union(Display(ks, es), (e: Entry) => multiset(e.kevCves)) == Union(es, (e: Entry) => multiset(e.kevCves))
    ensures Union(Display(ks, es), (e: Entry) => multiset(e.epssHigh)) == Union(es, (e: Entry) => multiset(e.epssHigh))
  {
    DisplayConserves(ks, es, (e: Entry) => multiset(e.cves));
    DisplayConserves(ks, es, (e: Entry) => multiset(e.kevCves));
    DisplayConserves(ks, es, (e: Entry) => multiset(e.epssHigh));
  }

  lemma DisplayConserves<X>(ks: seq<string>, es: seq<Entry>, f: Entry -> multiset<X>)
    requires |ks| == |es| && forall a, b :: f(Merge(a, b)) == f(a) + f(b)
    ensures Union(Display(ks, es), f) == Union(es, f)
  {
    var gs := Groups(ks, es);
    GroupsConserve(ks, es, f);
    UnionOrdered(gs, Ranks(gs), |gs|, f);
    assert gs[..|gs|] == gs;
  }

  lemma {:induction false} UnionAtOneKey<X>(ds: seq<string>, f: string -> multiset<X>, f': string -> multiset<X>, k: string, extra: multiset<X>)
    requires forall i, j :: 0 <= i < j < |ds| ==> ds[i] != ds[j]
    requires forall d :: f'(d) == if d == k then f(d) + extra else f(d)
    ensures Union(ds, f') == if k in ds then Union(ds, f) + extra else Union(ds, f)
  {
    if ds != [] {
      var n := |ds| - 1;
      assert ds == ds[..n] + [ds[n]];
      UnionAtOneKey(ds[..n], f, f', k, extra);
    }
  }

  /** The alerts of each group, as a bag. */
  function Alerts<T>(ks: seq<string>, s: seq<T>): string -> multiset<T>
    requires |ks| == |s|
  {
    key => multiset(Members(ks, s, key))
  }

  lemma AlertsOneMore<T>(ks: seq<string>, s: seq<T>, k: string, x: T, key: string)
    requires |ks| == |s|
    ensures Alerts(ks + [k], s + [x])(key) == if key == k then Alerts(ks, s)(key) + multiset{x} else Alerts(ks, s)(key)
  {
    OneMore(ks, s, k, x, key);
  }

  /** The alerts of all groups. */
  function AllAlerts<T>(ks: seq<string>, s: seq<T>): multiset<T>
    requires |ks| == |s|
  {
    Union(Distinct(ks), Alerts(ks, s))
  }

  lemma AlertsStep<T>(ks: seq<string>, s: seq<T>, k: string, x: T)
    requires |ks| == |s|
    ensures AllAlerts(ks + [k], s + [x]) == AllAlerts(ks, s) + multiset{x}
  {
    var ds, f, f' := Distinct(ks), Alerts(ks, s), Alerts(ks + [k], s + [x]);
    DistinctIsStrict(ks);
    OneMore(ks, s, k, x, k);
    forall key ensures f'(key) == if key == k then f(key) + multiset{x} else f(key) {
      AlertsOneMore(ks, s, k, x, key);
    }
    UnionAtOneKey(ds, f, f', k, multiset{x});
    if k !in ds {
      HasMembers(ks, s, k);
      UnionOneMore(ds, k, f');
    }
  }

  /** Every card is an alert of exactly one group, as often as it occurs. */
  lemma {:induction false} AlertsAreTheCards<T>(ks: seq<string>, s: seq<T>)
    requires |ks| == |s|
    ensures AllAlerts(ks, s) == multiset(s)
  {
    if s != [] {
      var n := |s| - 1;
      assert ks == ks[..n] + [ks[n]] && s == s[..n] + [s[n]];
      AlertsAreTheCards(ks[..n], s[..n]);
      AlertsStep(ks[..n], s[..n], ks[n], s[n]);
    }
  }

  // ---------- what a group says of its cards ----------

  predicate IsTop(ms: seq<Entry>, l: Level, v: Severity) {
    && (exists e :: e in ms && e.level == l) && (forall e :: e in ms ==> LevelRank(e.level) <= LevelRank(l))
    && (exists e :: e in ms && e.severity == v) && (forall e :: e in ms ==> SeverityRank(e.severity) <= SeverityRank(v))
  }

  ghost predicate HoldsExactly(ms: seq<Entry>, g: Entry) {
    && (forall c :: c in g.cves <==> exists e :: e in ms && c in e.cves)
    && (forall c :: c in g.kevCves <==> exists e :: e in ms && c in e.kevCves)
    && (forall p :: p in g.products <==> exists e :: e in ms && p in e.products)
  }

  lemma TopOneMore(ms: seq<Entry>, e: Entry, l: Level, v: Severity)
    requires IsTop(ms, l, v)
    ensures IsTop(ms + [e], LevelMax(l, e.level), SeverityMax(v, e.severity))
  {
    var x :| x in ms && x.level == l;
    var y :| y in ms && y.severity == v;
    assert x in ms + [e] && y in ms + [e] && e in ms + [e];
  }

  lemma HoldsOneMore(ms: seq<Entry>, e: Entry, g: Entry)
    requires HoldsExactly(ms, g)
    ensures HoldsExactly(ms + [e], Merge(g, e))
  {
    var g' := Merge(g, e);
    assert forall x :: x in ms + [e] <==> x in ms || x == e;
    assert forall c :: c in g'.cves <==> c in g.cves || c in e.cves;
    assert forall c :: c in g'.kevCves <==> c in g.kevCves || c in e.kevCves;
  }

  lemma {:induction false} GroupSummarises(ms: seq<Entry>)
    requires ms != []
    ensures IsTop(ms, GroupOf(ms).level, GroupOf(ms).severity)
    ensures HoldsExactly(ms, GroupOf(ms))
    ensures |ms| > 1 ==> GroupOf(ms).cveCount == |Elements(GroupOf(ms).cves)| && GroupOf(ms).kevCount == |Elements(GroupOf(ms).kevCves)|
    ensures GroupOf(ms).title == ms[0].title && GroupOf(ms).category == ms[0].category
  {
    var n := |ms| - 1;
    if n > 0 {
      var rest := ms[..n];
      assert ms == rest + [ms[n]];
      GroupSummarises(rest);
      TopOneMore(rest, ms[n], GroupOf(rest).level, GroupOf(rest).severity);
      HoldsOneMore(rest, ms[n], GroupOf(rest));
    } else {
      assert ms[0] in ms;
    }
  }

  /** Two groups that say the same, whatever order their lists are in. */
  predicate SaysTheSame(a: Entry, b: Entry) {
    && a.level == b.level && a.severity == b.severity && a.products == b.products
    && a.cveCount == b.cveCount && a.kevCount == b.kevCount
    && Elements(a.cves) == Elements(b.cves) && Elements(a.kevCves) == Elements(b.kevCves)
  }

  lemma MembersDecide(ms: seq<Entry>, ms': seq<Entry>)
    requires ms != [] && multiset(ms) == multiset(ms')
    ensures ms' != [] && SaysTheSame(GroupOf(ms), GroupOf(ms'))
  {
    SameItems(ms, ms');
    GroupSummarises(ms);
    GroupSummarises(ms');
    var g, g' := GroupOf(ms), GroupOf(ms');
    TopIsUnique(ms, ms', g.level, g.severity, g'.level, g'.severity);
    HoldingDecides(ms, ms', g, g');
    if |ms| == 1 {
      assert ms == [ms[0]] && ms'[0] in ms;
    }
  }

  lemma SameItems<T>(s: seq<T>, s': seq<T>)
    requires multiset(s) == multiset(s')
    ensures |s| == |s'| && forall x :: x in s <==> x in s'
  {
    assert |s| == |multiset(s)| && |s'| == |multiset(s')|;
    assert forall x :: x in s <==> x in multiset(s);
    assert forall x :: x in s' <==> x in multiset(s');
  }

  lemma TopIsUnique(ms: seq<Entry>, ms': seq<Entry>, l: Level, v: Severity, l': Level, v': Severity)
    requires IsTop(ms, l, v) && IsTop(ms', l', v') && forall e :: e in ms <==> e in ms'
    ensures l == l' && v == v'
  {}

  lemma HoldingDecides(ms: seq<Entry>, ms': seq<Entry>, g: Entry, g': Entry)
    requires HoldsExactly(ms, g) && HoldsExactly(ms', g') && forall e :: e in ms <==> e in ms'
    ensures Elements(g.cves) == Elements(g'.cves) && Elements(g.kevCves) == Elements(g'.kevCves) && g.products == g'.products
  {
    assert forall c :: c in g.cves <==> c in g'.cves;
    assert forall c :: c in g.kevCves <==> c in g'.kevCves;
  }

  function Keyed<T>(ks: seq<string>, s: seq<T>): (r: seq<(string, T)>)
    requires |ks| == |s|
  {
    if s == [] then [] else Keyed(ks[..|s| - 1], s[..|s| - 1]) + [(ks[|s| - 1], s[|s| - 1])]
  }

  lemma {:induction false} MembersAsBag<T>(ks: seq<string>, s: seq<T>, key: string, x: T)
    requires |ks| == |s|
    ensures multiset(Members(ks, s, key))[x] == multiset(Keyed(ks, s))[(key, x)]
  {
    if s != [] {
      var n := |s| - 1;
      MembersAsBag(ks[..n], s[..n], key, x);
    }
  }

  /** The order of the cards decides nothing a group says. */
  lemma OrderDecidesNothing(ks: seq<string>, es: seq<Entry>, ks': seq<string>, es': seq<Entry>, key: string)
    requires |ks| == |es| && |ks'| == |es'| && multiset(Keyed(ks, es)) == multiset(Keyed(ks', es'))
    ensures key in Distinct(ks) <==> key in Distinct(ks')
    ensures key in Distinct(ks) ==> SaysTheSame(GroupAt(ks, es, key), GroupAt(ks', es', key))
  {
    var ms, ms' := Members(ks, es, key), Members(ks', es', key);
    forall x ensures multiset(ms)[x] == multiset(ms')[x] {
      MembersAsBag(ks, es, key, x);
      MembersAsBag(ks', es', key, x);
    }
    assert multiset(ms) == multiset(ms');
    SameItems(ms, ms');
    HasMembers(ks, es, key);
    HasMembers(ks', es', key);
    if ms != [] {
      MembersDecide(ms, ms');
    }
  }

  // ---------- grouping again ----------

  /** The only order that displays by rank and keeps equals as they came. */
  lemma StableOrderIsTheOnlyOne(ranks: seq<Rank>, o: seq<nat>)
    ensures o == StableOrder(ranks) <==> InOrder(ranks, o) && forall i: nat :: i in o <==> i < |ranks|
  {
    OrderUpToIsInOrder(ranks, |ranks|);
    if InOrder(ranks, o) && forall i: nat :: i in o <==> i < |ranks| {
      OrderIsUnique(ranks, o, StableOrder(ranks));
    }
  }

  lemma {:induction false} DistinctOfStrict(ks: seq<string>)
    requires forall i, j :: 0 <= i < j < |ks| ==> ks[i] != ks[j]
    ensures Distinct(ks) == ks
  {
    if ks != [] {
      var n := |ks| - 1;
      DistinctOfStrict(ks[..n]);
      assert ks == ks[..n] + [ks[n]];
      assert ks[n] !in ks[..n];
    }
  }

  lemma {:induction false} MembersOfStrict<T>(ks: seq<string>, s: seq<T>, i: nat)
    requires |ks| == |s| && i < |ks|
    requires forall i, j :: 0 <= i < j < |ks| ==> ks[i] != ks[j]
    ensures Members(ks, s, ks[i]) == [s[i]]
  {
    var n := |s| - 1;
    if i < n {
      MembersOfStrict(ks[..n], s[..n], i);
    } else {
      DistinctOfStrict(ks[..n]);
      HasMembers(ks[..n], s[..n], ks[n]);
      assert ks[n] !in ks[..n];
    }
  }

  function Positions(n: nat): (r: seq<nat>)
    ensures |r| == n && (forall i :: 0 <= i < n ==> r[i] == i) && forall x: nat :: x in r <==> x < n
  {
    if n == 0 then [] else Positions(n - 1) + [n - 1]
  }

  lemma PositionsInOrder(ranks: seq<Rank>)
    requires forall i, j :: 0 <= i < j < |ranks| ==> !Higher(ranks[j], ranks[i])
    ensures InOrder(ranks, Positions(|ranks|))
  {}

  lemma SortedStays(ranks: seq<Rank>)
    requires forall i, j :: 0 <= i < j < |ranks| ==> !Higher(ranks[j], ranks[i])
    ensures StableOrder(ranks) == Positions(|ranks|)
  {
    PositionsInOrder(ranks);
    StableOrderIsTheOnlyOne(ranks, Positions(|ranks|));
  }

  /** The keys of the displayed groups. */
  function DisplayKeys(ks: seq<string>, es: seq<Entry>): seq<string>
    requires |ks| == |es|
  {
    Pick(Distinct(ks), StableOrder(Ranks(Groups(ks, es))))
  }

  lemma DisplayKeysAreStrict(ks: seq<string>, es: seq<Entry>)
    requires |ks| == |es|
    ensures forall i, j :: 0 <= i < j < |DisplayKeys(ks, es)| ==> DisplayKeys(ks, es)[i] != DisplayKeys(ks, es)[j]
  {
    var ranks := Ranks(Groups(ks, es));
    var o := StableOrder(ranks);
    OrderUpToIsInOrder(ranks, |ranks|);
    DistinctIsStrict(ks);
    forall i, j | 0 <= i < j < |o| ensures o[i] != o[j] {
      assert Before(ranks, o[i], o[j]);
    }
  }

  predicate KeyedBy(ks: seq<string>, es: seq<Entry>) {
    |ks| == |es| && forall i :: 0 <= i < |ks| ==> ks[i] == GroupKey(es[i].category, es[i].title)
  }

  lemma {:induction false} FirstMemberHasKey(ks: seq<string>, es: seq<Entry>, key: string)
    requires KeyedBy(ks, es)
    ensures Members(ks, es, key) != [] ==>
              var e := Members(ks, es, key)[0]; GroupKey(e.category, e.title) == key
  {
    if es != [] { FirstMemberHasKey(ks[..|es| - 1], es[..|es| - 1], key); }
  }

  /** A displayed group has the key of its cards. */
  lemma DisplayKeepsKeys(ks: seq<string>, es: seq<Entry>)
    requires KeyedBy(ks, es)
    ensures KeyedBy(DisplayKeys(ks, es), Display(ks, es))
  {
    var d, dk := Display(ks, es), DisplayKeys(ks, es);
    forall j | 0 <= j < |d| ensures dk[j] == GroupKey(d[j].category, d[j].title) {
      var key := dk[j];
      HasMembers(ks, es, key);
      FirstMemberHasKey(ks, es, key);
      GroupSummarises(Members(ks, es, key));
    }
  }

  /** Groups with different keys share no lists, so they can be grouped again. */
  lemma GroupsAreApart(ks: seq<string>, cards: seq<DisplayCard>, key: string, g: DisplayCard, other: string, h: DisplayCard)
    requires |ks| == |cards| && Apart(cards) && key != other
    requires Kept(ks, cards, key, g) && Kept(ks, cards, other, h)
    ensures g.lists != h.lists
  {
    var i, j := First(ks, key), First(ks, other);
    assert i != j;
  }

  /** Grouping the displayed groups again changes none of them. */
  lemma GroupingAgainChangesNothing(ks: seq<string>, es: seq<Entry>)
    requires |ks| == |es|
    ensures Display(DisplayKeys(ks, es), Display(ks, es)) == Display(ks, es)
  {
    var dk, d := DisplayKeys(ks, es), Display(ks, es);
    DisplayKeysAreStrict(ks, es);
    DistinctOfStrict(dk);
    forall i | 0 <= i < |d| ensures Groups(dk, d)[i] == d[i] {
      MembersOfStrict(dk, d, i);
    }
    assert Groups(dk, d) == d;
    DisplayIsSorted(ks, es);
    SortedStays(Ranks(d));
  }

  /** The keys of displayed groups, as their cards have them. */
  lemma {:induction false} DisplayedKeys(cards: seq<DisplayCard>, ks: seq<string>, es: seq<Entry>, display: seq<DisplayCard>)
    requires KeyedBy(ks, es) && Values(display) == Display(ks, es)
    ensures KeysOf(display) == DisplayKeys(ks, es)
  {
    DisplayKeepsKeys(ks, es);
    forall j | 0 <= j < |display| ensures KeysOf(display)[j] == DisplayKeys(ks, es)[j] {
      assert Values(display)[j] == Value(display[j]);
    }
  }

  /** Shown groups with keys that differ are apart. */
  lemma ShownGroupsAreApart(cards: seq<DisplayCard>, ks: seq<string>, es: seq<Entry>, display: seq<DisplayCard>, dk: seq<string>)
    requires |cards| == |ks| == |es| && Apart(cards) && |dk| == |display|
    requires forall j :: 0 <= j < |display| ==> Kept(ks, cards, dk[j], display[j])
    requires forall i, j :: 0 <= i < j < |dk| ==> dk[i] != dk[j]
    ensures Apart(display)
  {
    forall i, j | 0 <= i < j < |display| ensures display[i].lists != display[j].lists {
      GroupsAreApart(ks, cards, dk[i], display[i], dk[j], display[j]);
    }
  }

  lemma ShownAreKept(cards: seq<DisplayCard>, ks: seq<string>, es: seq<Entry>, display: seq<DisplayCard>, dk: seq<string>)
    requires |cards| == |ks| == |es| && AllShown(cards, ks, es, display) && dk == KeysOf(display)
    ensures forall j :: 0 <= j < |display| ==> Kept(ks, cards, dk[j], display[j])
  {
    forall j | 0 <= j < |display| ensures Kept(ks, cards, dk[j], display[j]) {
      assert Shown(cards, ks, es, display[j]);
    }
  }

  ghost function ListsOf(cards: seq<DisplayCard>): set<Lists> {
    set i | 0 <= i < |cards| :: cards[i].lists
  }

  lemma ListsAmong(cards: seq<DisplayCard>, ks: seq<string>, display: seq<DisplayCard>, dk: seq<string>)
    requires |ks| == |cards| && |dk| == |display| && forall j :: 0 <= j < |display| ==> Kept(ks, cards, dk[j], display[j])
    ensures ListsOf(display) <= ListsOf(cards)
  {
    forall j | 0 <= j < |display| ensures display[j].lists in ListsOf(cards) {
      assert display[j].lists == cards[First(ks, dk[j])].lists;
    }
  }

  lemma {:induction false} ValuesAreKeyed(cards: seq<DisplayCard>, ks: seq<string>, es: seq<Entry>)
    requires ks == KeysOf(cards) && es == Values(cards)
    ensures KeyedBy(ks, es)
  {}

  /** What one call shows can be grouped again. */
  lemma {:induction false} ShownIsRegroupable(cards: seq<DisplayCard>, ks: seq<string>, es: seq<Entry>, display: seq<DisplayCard>)
    requires ks == KeysOf(cards) && KeyedBy(ks, es) && Apart(cards)
    requires AllShown(cards, ks, es, display) && Values(display) == Display(ks, es)
    ensures Apart(display) && ListsOf(display) <= ListsOf(cards)
    ensures KeysOf(display) == DisplayKeys(ks, es)
  {
    var dk := KeysOf(display);
    DisplayedKeys(cards, ks, es, display);
    DisplayKeysAreStrict(ks, es);
    ShownAreKept(cards, ks, es, display, dk);
    ShownGroupsAreApart(cards, ks, es, display, dk);
    ListsAmong(cards, ks, display, dk);
  }

  /** Displaying what is displayed: the groups are grouped again, and nothing
      but their alerts is new. */
  method DisplayAgain(cards: seq<DisplayCard>) returns (display: seq<DisplayCard>, again: seq<DisplayCard>, ghost shown: seq<Entry>)
    requires Apart(cards)
    modifies set i | 0 <= i < |cards| :: cards[i].lists
    ensures shown == Display(KeysOf(cards), old(Values(cards)))
    ensures |display| == |shown| && Values(again) == shown
  {
    ghost var ks, es := KeysOf(cards), Values(cards);
    ValuesAreKeyed(cards, ks, es);
    display := GroupForDisplay(cards);
    shown := Values(display);
    ShownIsRegroupable(cards, ks, es, display);
    GroupingAgainChangesNothing(ks, es);
    again := Regroup(cards, display, shown);
  }

  method Regroup(ghost cards: seq<DisplayCard>, display: seq<DisplayCard>, ghost shown: seq<Entry>) returns (again: seq<DisplayCard>)
    requires Apart(display) && ListsOf(display) <= ListsOf(cards) && Values(display) == shown
    modifies ListsOf(cards)
    ensures Values(again) == Display(KeysOf(display), shown)
  {
    assert forall j :: 0 <= j < |display| ==> display[j].lists in ListsOf(display);
    again := GroupForDisplay(display);
  }

  function AllCves(es: seq<Entry>): seq<string> {
    if es == [] then [] else AllCves(es[..|es| - 1]) + es[|es| - 1].cves
  }

  function AllKevCves(es: seq<Entry>): seq<string> {
    if es == [] then [] else AllKevCves(es[..|es| - 1]) + es[|es| - 1].kevCves
  }

  function AllEpssHigh(es: seq<Entry>): seq<string> {
    if es == [] then [] else AllEpssHigh(es[..|es| - 1]) + es[|es| - 1].epssHigh
  }

  /** The group that starts with one card and takes in the rest. */
  function GroupFrom(first: Entry, rest: seq<Entry>): Entry {
    if rest == [] then first else Merge(GroupFrom(first, rest[..|rest| - 1]), rest[|rest| - 1])
  }

  lemma {:induction false} GroupStartsWithFirst(first: Entry, rest: seq<Entry>)
    ensures GroupOf([first] + rest) == GroupFrom(first, rest)
  {
    if rest == [] {
      assert [first] + rest == [first];
    } else {
      var n := |rest| - 1;
      GroupStartsWithFirst(first, rest[..n]);
      assert ([first] + rest)[..n + 1] == [first] + rest[..n];
    }
  }

  /** A group's lists are its members' lists, in order. */
  lemma {:induction false} GroupListsAll(first: Entry, rest: seq<Entry>)
    ensures GroupFrom(first, rest).cves == first.cves + AllCves(rest)
  {
    if rest != [] { GroupListsAll(first, rest[..|rest| - 1]); }
  }

  lemma {:induction false} GroupListsAllKev(first: Entry, rest: seq<Entry>)
    ensures GroupFrom(first, rest).kevCves == first.kevCves + AllKevCves(rest)
  {
    if rest != [] { GroupListsAllKev(first, rest[..|rest| - 1]); }
  }

  lemma {:induction false} GroupListsAllEpss(first: Entry, rest: seq<Entry>)
    ensures GroupFrom(first, rest).epssHigh == first.epssHigh + AllEpssHigh(rest)
  {
    if rest != [] { GroupListsAllEpss(first, rest[..|rest| - 1]); }
  }

  lemma {:induction false} ListsDecideNothingElse(first: Entry, other: Entry, rest: seq<Entry>)
    requires first.level == other.level && first.severity == other.severity && first.products == other.products
    ensures var a, b := GroupFrom(first, rest), GroupFrom(other, rest);
            a.level == b.level && a.severity == b.severity && a.products == b.products
  {
    if rest != [] { ListsDecideNothingElse(first, other, rest[..|rest| - 1]); }
  }

  /** `again` says of a group g what g says, and lists the rest a second time. */
  predicate Repeats(g: Entry, again: Entry, rest: seq<Entry>) {
    && again.cves == g.cves + AllCves(rest) && again.kevCves == g.kevCves + AllKevCves(rest) && again.epssHigh == g.epssHigh + AllEpssHigh(rest)
    && again.level == g.level && again.severity == g.severity && again.products == g.products
  }

  /** A group whose first card already holds the whole group repeats the rest. */
  lemma SecondGroupingRepeats(first: Entry, rest: seq<Entry>)
    ensures var g := GroupOf([first] + rest);
            Repeats(g, GroupOf([Extended(first, g)] + rest), rest)
  {
    var g := GroupOf([first] + rest);
    GroupStartsWithFirst(first, rest);
    GroupStartsWithFirst(Extended(first, g), rest);
    GroupListsAll(Extended(first, g), rest);
    GroupListsAllKev(Extended(first, g), rest);
    GroupListsAllEpss(Extended(first, g), rest);
    ListsDecideNothingElse(first, Extended(first, g), rest);
  }

  /** The members in vs are those in es, but for the first one. */
  predicate SameAfterFirst(ks: seq<string>, es: seq<Entry>, vs: seq<Entry>, key: string)
    requires |ks| == |es| == |vs| && key in ks
  {
    && Members(ks, es, key) != [] && Members(ks, es, key)[0] == es[First(ks, key)]
    && Members(ks, vs, key) == [vs[First(ks, key)]] + Members(ks, es, key)[1..]
  }

  lemma SameAfterFirstNext(ks: seq<string>, es: seq<Entry>, vs: seq<Entry>, k: string, e: Entry, v: Entry, key: string)
    requires |ks| == |es| == |vs| && key in ks && SameAfterFirst(ks, es, vs, key) && (k == key ==> v == e)
    ensures SameAfterFirst(ks + [k], es + [e], vs + [v], key)
  {
    OneMore(ks, es, k, e, key);
    OneMore(ks, vs, k, v, key);
    FirstOneMore(ks, k, key);
  }

  lemma {:induction false} NoMembers<T>(ks: seq<string>, s: seq<T>, key: string)
    requires |ks| == |s| && key !in ks
    ensures Members(ks, s, key) == []
  {
    if s != [] {
      var n := |s| - 1;
      assert ks == ks[..n] + [ks[n]];
      NoMembers(ks[..n], s[..n], key);
    }
  }

  lemma SameAfterFirstBegins(ks: seq<string>, es: seq<Entry>, vs: seq<Entry>, e: Entry, v: Entry, key: string)
    requires |ks| == |es| == |vs| && key !in ks
    ensures SameAfterFirst(ks + [key], es + [e], vs + [v], key)
  {
    NoMembers(ks, es, key);
    NoMembers(ks, vs, key);
    OneMore(ks, es, key, e, key);
    OneMore(ks, vs, key, v, key);
    FirstOneMore(ks, key, key);
  }

  lemma {:induction false} FirstIsEarly(ks: seq<string>, k: nat, key: string)
    requires k <= |ks| && key in ks[..k]
    ensures key in ks && First(ks, key) < k
  {
    var n := |ks| - 1;
    assert ks == ks[..n] + [ks[n]];
    if k <= n {
      assert ks[..n][..k] == ks[..k];
      FirstIsEarly(ks[..n], k, key);
    }
  }

  /** The first k cards' members of a key, when only first cards may differ
      between es and vs. */
  lemma {:induction false} MembersAfter(ks: seq<string>, es: seq<Entry>, vs: seq<Entry>, key: string, k: nat)
    requires k <= |ks| == |es| == |vs| && key in ks[..k] && RestUnchanged(ks, es, vs)
    ensures SameAfterFirst(ks[..k], es[..k], vs[..k], key)
  {
    var n := k - 1;
    assert ks[..k] == ks[..n] + [ks[n]] && es[..k] == es[..n] + [es[n]] && vs[..k] == vs[..n] + [vs[n]];
    if key in ks[..n] {
      MembersAfter(ks, es, vs, key, n);
      FirstIsEarly(ks, n, key);
      SameAfterFirstNext(ks[..n], es[..n], vs[..n], ks[n], es[n], vs[n], key);
    } else {
      SameAfterFirstBegins(ks[..n], es[..n], vs[..n], es[n], vs[n], key);
    }
  }

  /** Every group of cards left by one call repeats its other cards. */
  lemma LeftGroupsRepeat(ks: seq<string>, es: seq<Entry>, vs: seq<Entry>, key: string)
    requires |ks| == |es| == |vs| && Left(ks, es, vs) && key in Distinct(ks)
    ensures Members(ks, es, key) != [] && Repeats(GroupAt(ks, es, key), GroupAt(ks, vs, key), Members(ks, es, key)[1..])
  {
    DistinctIsStrict(ks);
    assert ks[..|ks|] == ks && es[..|ks|] == es && vs[..|ks|] == vs;
    MembersAfter(ks, es, vs, key, |ks|);
    var ms := Members(ks, es, key);
    assert ms == [ms[0]] + ms[1..];
    SecondGroupingRepeats(ms[0], ms[1..]);
    assert Members(ks, vs, key) == [Extended(ms[0], GroupOf(ms))] + ms[1..];
  }

  ghost predicate AllRepeat(ks: seq<string>, es: seq<Entry>, vs: seq<Entry>)
    requires |ks| == |es| == |vs|
  {
    forall key :: key in Distinct(ks) ==>
      Members(ks, es, key) != [] && Repeats(GroupAt(ks, es, key), GroupAt(ks, vs, key), Members(ks, es, key)[1..])
  }

  /** The same card objects grouped twice: every group lists the CVEs of its
      cards after the first one a second time. */
  method GroupTwice(cards: seq<DisplayCard>) returns (again: seq<DisplayCard>, ghost between: seq<Entry>)
    requires Apart(cards)
    modifies set i | 0 <= i < |cards| :: cards[i].lists
    ensures |between| == |cards| && Values(again) == Display(KeysOf(cards), between)
    ensures AllRepeat(KeysOf(cards), old(Values(cards)), between)
  {
    ghost var ks, es := KeysOf(cards), Values(cards);
    var once := GroupForDisplay(cards);
    between := Values(cards);
    forall key | key in Distinct(ks)
      ensures Members(ks, es, key) != [] && Repeats(GroupAt(ks, es, key), GroupAt(ks, between, key), Members(ks, es, key)[1..])
    {
      LeftGroupsRepeat(ks, es, between, key);
    }
    again := GroupForDisplay(cards);
  }

  lemma {:induction false} NoCvesToRepeat(rest: seq<Entry>)
    ensures AllCves(rest) == [] <==> forall i :: 0 <= i < |rest| ==> rest[i].cves == []
  {
    if rest != [] {
      var n := |rest| - 1;
      NoCvesToRepeat(rest[..n]);
      assert forall i :: 0 <= i < n ==> rest[..n][i] == rest[i];
    }
  }

  /** Grouping again leaves a group's CVEs as they are exactly when its cards
      after the first one have none. */
  lemma RepeatsNothingIff(g: Entry, again: Entry, rest: seq<Entry>)
    requires Repeats(g, again, rest)
    ensures again.cves == g.cves <==> forall i :: 0 <= i < |rest| ==> rest[i].cves == []
  {
    NoCvesToRepeat(rest);
    assert again.cves == g.cves ==> |AllCves(rest)| == 0;
  }
}
