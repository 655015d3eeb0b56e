/** The bounded breadth-first walk of the evidence graph and its one-hop query
    (mac_audit_agent/evidence_graph.py). Edges are stored with a direction and
    followed both ways. */
module EvidenceWalk {
  type Id = string

  datatype Node = Node(id: Id, nodeType: string, caption: string, summary: string, evidence: map<string, string>)
  datatype Edge = Edge(source: Id, target: Id, edgeType: string, evidence: string, confidence: string)
  datatype Graph = Graph(nodes: seq<Node>, edges: seq<Edge>)
  datatype ChainEntry = ChainEntry(depth: int, from: Id, edgeType: string, to: Id, caption: string, evidence: string)

  // ---------- undirected distance, independent of the walk ----------

  predicate Joins(e: Edge, a: Id, b: Id) {
    (e.source == a && e.target == b) || (e.source == b && e.target == a)
  }

  ghost predicate Adjacent(edges: seq<Edge>, a: Id, b: Id) {
    exists i :: 0 <= i < |edges| && Joins(edges[i], a, b)
  }

  ghost predicate IsPath(edges: seq<Edge>, path: seq<Id>) {
    |path| > 0 && forall i :: 0 <= i < |path| - 1 ==> Adjacent(edges, path[i], path[i + 1])
  }

  /** Some path with exactly k edges leads from a to b. */
  ghost predicate PathOf(edges: seq<Edge>, a: Id, b: Id, k: nat) {
    exists path :: IsPath(edges, path) && |path| == k + 1 && path[0] == a && path[k] == b
  }

  /** d is the length of a shortest path from a to b. */
  ghost predicate Distance(edges: seq<Edge>, a: Id, b: Id, d: nat) {
    PathOf(edges, a, b, d) && forall k: nat :: k < d ==> !PathOf(edges, a, b, k)
  }

  lemma PathExtends(edges: seq<Edge>, a: Id, b: Id, c: Id, k: nat)
    requires PathOf(edges, a, b, k) && Adjacent(edges, b, c)
    ensures PathOf(edges, a, c, k + 1)
  {
    var path :| IsPath(edges, path) && |path| == k + 1 && path[0] == a && path[k] == b;
    var longer := path + [c];
    assert longer[k] == b && longer[k + 1] == c;
    assert IsPath(edges, longer);
  }

  lemma PathSplits(edges: seq<Edge>, a: Id, c: Id, k: nat) returns (b: Id)
    requires k > 0 && PathOf(edges, a, c, k)
    ensures PathOf(edges, a, b, k - 1) && Adjacent(edges, b, c)
  {
    var path :| IsPath(edges, path) && |path| == k + 1 && path[0] == a && path[k] == c;
    b := path[k - 1];
    assert Adjacent(edges, path[k - 1], path[k - 1 + 1]);
    var shorter := path[..k];
    assert IsPath(edges, shorter) && shorter[k - 1] == b;
  }

  // ---------- the walk as a function ----------

  /** A visited id with the depth the walk gave it. */
  datatype Visit = Visit(id: Id, depth: nat)

  /** `order` lists every visit so far, the start first; `order[next..]` is the
      queue of visits whose edges have not been followed yet. */
  datatype Search = Search(order: seq<Visit>, next: nat, seen: set<Id>, chain: seq<ChainEntry>)

  /** The fixed inputs of one walk: the node dictionary, the edges in stored
      order, the start and the depth bound. */
  datatype Query = Query(lookup: map<Id, Node>, edges: seq<Edge>, start: Id, maxDepth: int)

  /** The node dictionary: of nodes with the same id the last one wins. */
  function NodeLookup(nodes: seq<Node>): map<Id, Node> {
    if nodes == [] then map[]
    else NodeLookup(nodes[..|nodes| - 1])[nodes[|nodes| - 1].id := nodes[|nodes| - 1]]
  }

  function LabelOf(lookup: map<Id, Node>, id: Id): string {
    if id in lookup then lookup[id].caption else ""
  }

  function Discover(q: Query, s: Search, e: Edge, id: Id, depth: nat): Search {
    Search(s.order + [Visit(id, depth)], s.next, s.seen + {id},
           s.chain + [ChainEntry(depth, e.source, e.edgeType, e.target, LabelOf(q.lookup, id), e.evidence)])
  }

  function FollowEdge(q: Query, s: Search, e: Edge, current: Visit): Search {
    if e.source == current.id && e.target !in s.seen then
      Discover(q, s, e, e.target, current.depth + 1)
    else if e.target == current.id && e.source !in s.seen then
      Discover(q, s, e, e.source, current.depth + 1)
    else s
  }

  /** The search after following the first k edges from `current`. */
  function FollowEdges(q: Query, s: Search, k: nat, current: Visit): Search
    requires k <= |q.edges|
  {
    if k == 0 then s
    else FollowEdge(q, FollowEdges(q, s, k - 1, current), q.edges[k - 1], current)
  }

  ghost function Ends(edges: seq<Edge>): set<Id> {
    (set i | 0 <= i < |edges| :: edges[i].source) + (set i | 0 <= i < |edges| :: edges[i].target)
  }

  ghost function Unseen(q: Query, s: Search): set<Id> {
    Ends(q.edges) - s.seen
  }

  lemma FollowEdgesGrows(q: Query, s: Search, k: nat, current: Visit)
    requires k <= |q.edges|
    ensures var r := FollowEdges(q, s, k, current);
            && s.order <= r.order && s.chain <= r.chain && r.next == s.next
            && ((r.order == s.order && Unseen(q, r) == Unseen(q, s)) || Unseen(q, r) < Unseen(q, s))
  {
    if k > 0 {
      FollowEdgesGrows(q, s, k - 1, current);
      assert q.edges[k - 1].source in Ends(q.edges) && q.edges[k - 1].target in Ends(q.edges);
    }
  }

  /** One pop of the queue. */
  function Pop(q: Query, s: Search): Search
    requires s.next < |s.order|
  {
    var current := s.order[s.next];
    var popped := s.(next := s.next + 1);
    if current.depth >= q.maxDepth then popped
    else FollowEdges(q, popped, |q.edges|, current)
  }

  lemma PopGrows(q: Query, s: Search)
    requires s.next < |s.order|
    ensures var r := Pop(q, s);
            && r.next == s.next + 1 <= |r.order|
            && s.order <= r.order && s.chain <= r.chain
            && ((r.order == s.order && Unseen(q, r) == Unseen(q, s)) || Unseen(q, r) < Unseen(q, s))
  {
    FollowEdgesGrows(q, s.(next := s.next + 1), |q.edges|, s.order[s.next]);
  }

  ghost function Finish(q: Query, s: Search): Search
    decreases Unseen(q, s), |s.order| - s.next
  {
    if s.next >= |s.order| then s
    else
      PopGrows(q, s);
      Finish(q, Pop(q, s))
  }

  function Begin(start: Id): Search {
    Search([Visit(start, 0)], 0, {start}, [])
  }

  function QueryOf(g: Graph, start: Id, maxDepth: int): Query {
    Query(NodeLookup(g.nodes), g.edges, start, maxDepth)
  }

  ghost function Walk(g: Graph, start: Id, maxDepth: int): Search {
    Finish(QueryOf(g, start, maxDepth), Begin(start))
  }

  /** What `evidence_chain` returns. */
  ghost function Chain(g: Graph, start: Id, maxDepth: int): seq<ChainEntry> {
    Walk(g, start, maxDepth).chain
  }

  /** The ids the walk discovered, one per chain entry. */
  ghost function Found(g: Graph, start: Id, maxDepth: int): seq<Id> {
    var order := Walk(g, start, maxDepth).order;
    seq(if |order| > 0 then |order| - 1 else 0, i requires 0 <= i < |order| - 1 => order[i + 1].id)
  }

  /** The loop's variables hold the search s. */
  ghost predicate Queued(s: Search, frontier: seq<Visit>, seen: set<Id>, chain: seq<ChainEntry>) {
    s.next <= |s.order| && frontier == s.order[s.next..] && seen == s.seen && chain == s.chain
  }

  lemma QueueGrows(s: Search, frontier: seq<Visit>)
    requires s.next <= |s.order| && frontier == s.order[s.next..]
    ensures forall v :: (s.order + [v])[s.next..] == frontier + [v]
  {}

  /** `evidence_chain`, as the source's queue loop. */
  method EvidenceChain(g: Graph, nodeId: Id, maxDepth: int) returns (chain: seq<ChainEntry>)
    ensures chain == Chain(g, nodeId, maxDepth)
  {
    var lookup := NodeLookup(g.nodes);
    ghost var q := QueryOf(g, nodeId, maxDepth);
    chain := [];
    var seen := {nodeId};
    var frontier := [Visit(nodeId, 0)];
    ghost var s := Begin(nodeId);
    while frontier != []
      invariant Queued(s, frontier, seen, chain)
      invariant Finish(q, s) == Walk(g, nodeId, maxDepth)
      decreases Unseen(q, s), |frontier|
    {
      var current := frontier[0];
      frontier := frontier[1..];
      PopGrows(q, s);
      ghost var before := s;
      s := Pop(q, before);
      if current.depth >= maxDepth {
        continue;
      }
      ghost var popped := before.(next := before.next + 1);
      for k := 0 to |g.edges|
        invariant Queued(FollowEdges(q, popped, k, current), frontier, seen, chain)
      {
        var edge := g.edges[k];
        QueueGrows(FollowEdges(q, popped, k, current), frontier);
        if edge.source == current.id && edge.target !in seen {
          seen := seen + {edge.target};
          chain := chain + [ChainEntry(current.depth + 1, current.id, edge.edgeType, edge.target, LabelOf(lookup, edge.target), edge.evidence)];
          frontier := frontier + [Visit(edge.target, current.depth + 1)];
        } else if edge.target == current.id && edge.source !in seen {
          seen := seen + {edge.source};
          chain := chain + [ChainEntry(current.depth + 1, edge.source, edge.edgeType, current.id, LabelOf(lookup, edge.source), edge.evidence)];
          frontier := frontier + [Visit(edge.source, current.depth + 1)];
        }
      }
    }
  }

  // ---------- what every pop keeps ----------

  ghost predicate SeenWithin(order: seq<Visit>, id: Id, depth: int) {
    exists k :: 0 <= k < |order| && order[k].id == id && order[k].depth <= depth
  }

  /** Edge e leads from visit v only to ids visited at most one level deeper. */
  ghost predicate Closed(order: seq<Visit>, v: Visit, e: Edge) {
    && (e.source == v.id ==> SeenWithin(order, e.target, v.depth + 1))
    && (e.target == v.id ==> SeenWithin(order, e.source, v.depth + 1))
  }

  /** Visit v has followed the first k edges, unless it lies at the depth bound. */
  ghost predicate Followed(q: Query, order: seq<Visit>, v: Visit, k: nat)
    requires k <= |q.edges|
  {
    v.depth < q.maxDepth ==> forall m :: 0 <= m < k ==> Closed(order, v, q.edges[m])
  }

  /** Edge e joins visit v, one level up, to visit w, and `entry` prints it. */
  ghost predicate Prints(q: Query, v: Visit, w: Visit, e: Edge, entry: ChainEntry) {
    && Joins(e, v.id, w.id) && w.depth == v.depth + 1
    && entry == ChainEntry(w.depth, e.source, e.edgeType, e.target, LabelOf(q.lookup, w.id), e.evidence)
  }

  /** Chain entry i - 1 prints edge m, by which visit j discovered visit i. */
  ghost predicate DiscoveredBy(q: Query, s: Search, i: int, j: int, m: int) {
    && 0 <= j < i < |s.order| && i <= |s.chain| && 0 <= m < |q.edges|
    && Prints(q, s.order[j], s.order[i], q.edges[m], s.chain[i - 1])
  }

  ghost predicate Recorded(q: Query, s: Search, i: int) {
    exists j, m :: DiscoveredBy(q, s, i, j, m)
  }

  ghost predicate Visited(order: seq<Visit>, id: Id) {
    exists i :: 0 <= i < |order| && order[i].id == id
  }

  ghost predicate Shape(q: Query, s: Search) {
    && |s.order| > 0 && s.order[0] == Visit(q.start, 0) && |s.chain| == |s.order| - 1
    && (forall id :: id in s.seen <==> Visited(s.order, id))
    && Layered(s.order, q.maxDepth)
    && (forall i :: 0 < i < |s.order| ==> Recorded(q, s, i))
  }

  /** Distinct ids, non-decreasing depths, no depth beyond the bound. */
  ghost predicate Layered(order: seq<Visit>, maxDepth: int) {
    && (forall i, j :: 0 <= i < j < |order| ==> order[i].id != order[j].id && order[i].depth <= order[j].depth)
    && (forall i :: 0 < i < |order| ==> order[i].depth <= maxDepth)
  }

  /** The visits before c are finished; visit c has followed its first k edges,
      and nothing is queued more than one level below it. */
  ghost predicate Inv(q: Query, s: Search, c: nat, k: nat) {
    && Shape(q, s) && c <= |s.order| && k <= |q.edges|
    && (forall j :: 0 <= j < c ==> Followed(q, s.order, s.order[j], |q.edges|))
    && (c < |s.order| ==> Followed(q, s.order, s.order[c], k)
                          && s.order[|s.order| - 1].depth <= s.order[c].depth + 1)
  }

  lemma SeenWithinGrows(order: seq<Visit>, longer: seq<Visit>, id: Id, depth: int)
    requires order <= longer && SeenWithin(order, id, depth)
    ensures SeenWithin(longer, id, depth)
  {
    var k :| 0 <= k < |order| && order[k].id == id && order[k].depth <= depth;
    assert longer[k] == order[k];
  }

  lemma FollowedGrows(q: Query, order: seq<Visit>, longer: seq<Visit>, v: Visit, k: nat)
    requires k <= |q.edges| && order <= longer && Followed(q, order, v, k)
    ensures Followed(q, longer, v, k)
  {
    if v.depth < q.maxDepth {
      forall m | 0 <= m < k
        ensures Closed(longer, v, q.edges[m])
      {
        var e := q.edges[m];
        assert Closed(order, v, e);
        if e.source == v.id { SeenWithinGrows(order, longer, e.target, v.depth + 1); }
        if e.target == v.id { SeenWithinGrows(order, longer, e.source, v.depth + 1); }
      }
    }
  }

  lemma RecordedStays(q: Query, s: Search, r: Search, i: int)
    requires Recorded(q, s, i) && s.order <= r.order && s.chain <= r.chain
    ensures Recorded(q, r, i)
  {
    var j, m :| DiscoveredBy(q, s, i, j, m);
    assert r.order[i] == s.order[i] && r.order[j] == s.order[j] && r.chain[i - 1] == s.chain[i - 1];
    assert DiscoveredBy(q, r, i, j, m);
  }

  lemma VisitedGrows(order: seq<Visit>, v: Visit, id: Id)
    ensures Visited(order + [v], id) <==> Visited(order, id) || id == v.id
  {
    var longer := order + [v];
    if id == v.id {
      assert longer[|order|].id == id;
    } else if i :| 0 <= i < |order| && order[i].id == id {
      assert longer[i].id == id;
    }
  }

  lemma LayeredGrows(order: seq<Visit>, v: Visit, maxDepth: int)
    requires |order| > 0 && Layered(order, maxDepth) && !Visited(order, v.id)
    requires order[|order| - 1].depth <= v.depth <= maxDepth
    ensures Layered(order + [v], maxDepth)
  {
    forall i | 0 <= i < |order|
      ensures order[i].id != v.id && order[i].depth <= v.depth
    {}
  }

  lemma DiscoverKeepsShape(q: Query, s: Search, c: nat, k: nat, id: Id)
    requires Inv(q, s, c, k) && c < |s.order| && k < |q.edges|
    requires s.order[c].depth < q.maxDepth && id !in s.seen && Joins(q.edges[k], s.order[c].id, id)
    ensures Shape(q, Discover(q, s, q.edges[k], id, s.order[c].depth + 1))
  {
    var v := Visit(id, s.order[c].depth + 1);
    var r := Discover(q, s, q.edges[k], id, v.depth);
    forall i | 0 < i < |r.order|
      ensures Recorded(q, r, i)
    {
      if i < |s.order| {
        RecordedStays(q, s, r, i);
      } else {
        assert DiscoveredBy(q, r, i, c, k);
      }
    }
    forall x
      ensures x in r.seen <==> Visited(r.order, x)
    {
      VisitedGrows(s.order, v, x);
    }
    LayeredGrows(s.order, v, q.maxDepth);
  }

  lemma DiscoverKeeps(q: Query, s: Search, c: nat, k: nat, id: Id)
    requires Inv(q, s, c, k) && c < |s.order| && k < |q.edges|
    requires s.order[c].depth < q.maxDepth && id !in s.seen && Joins(q.edges[k], s.order[c].id, id)
    ensures Inv(q, Discover(q, s, q.edges[k], id, s.order[c].depth + 1), c, k)
  {
    var r := Discover(q, s, q.edges[k], id, s.order[c].depth + 1);
    DiscoverKeepsShape(q, s, c, k, id);
    forall j | 0 <= j < c
      ensures Followed(q, r.order, r.order[j], |q.edges|)
    {
      FollowedGrows(q, s.order, r.order, s.order[j], |q.edges|);
    }
    FollowedGrows(q, s.order, r.order, s.order[c], k);
  }

  lemma SeenIsWithin(q: Query, s: Search, c: nat, k: nat, id: Id)
    requires Inv(q, s, c, k) && c < |s.order| && id in s.seen
    ensures SeenWithin(s.order, id, s.order[c].depth + 1)
  {
    assert Visited(s.order, id);
    var i :| 0 <= i < |s.order| && s.order[i].id == id;
    assert s.order[i].depth <= s.order[|s.order| - 1].depth;
  }

  lemma FollowEdgeKeeps(q: Query, s: Search, c: nat, k: nat, v: Visit, r: Search)
    requires c < |s.order| && s.order[c] == v && v.depth < q.maxDepth
    requires Inv(q, s, c, k) && k < |q.edges| && r == FollowEdge(q, s, q.edges[k], v)
    ensures c < |r.order| && r.order[c] == v
    ensures Inv(q, r, c, k + 1)
  {
    var e := q.edges[k];
    assert Inv(q, r, c, k) by {
      if e.source == v.id && e.target !in s.seen {
        DiscoverKeeps(q, s, c, k, e.target);
      } else if e.target == v.id && e.source !in s.seen {
        DiscoverKeeps(q, s, c, k, e.source);
      }
    }
    assert r.order[c] == v;
    if e.source == v.id { SeenIsWithin(q, r, c, k, e.target); }
    if e.target == v.id { SeenIsWithin(q, r, c, k, e.source); }
  }

  lemma {:induction false} FollowEdgesKeeps(q: Query, s: Search, c: nat, k: nat, v: Visit, r: Search)
    requires c < |s.order| && s.order[c] == v && v.depth < q.maxDepth
    requires Inv(q, s, c, 0) && k <= |q.edges| && r == FollowEdges(q, s, k, v)
    ensures c < |r.order| && r.order[c] == v
    ensures Inv(q, r, c, k)
  {
    if k == 0 {
      assert r == s;
    } else {
      var t := FollowEdges(q, s, k - 1, v);
      FollowEdgesKeeps(q, s, c, k - 1, v, t);
      FollowEdgeKeeps(q, t, c, k - 1, v, r);
    }
  }

  lemma NextVisit(q: Query, s: Search, c: nat)
    requires Inv(q, s, c, |q.edges|) && c < |s.order|
    ensures Inv(q, s, c + 1, 0)
  {
    assert c + 1 < |s.order| ==> s.order[c].depth <= s.order[c + 1].depth;
  }

  lemma ShapeIgnoresNext(q: Query, s: Search, next: nat)
    requires Shape(q, s)
    ensures Shape(q, s.(next := next))
  {
    forall i | 0 < i < |s.order|
      ensures Recorded(q, s.(next := next), i)
    {
      RecordedStays(q, s, s.(next := next), i);
    }
  }

  lemma PopKeeps(q: Query, s: Search)
    requires s.next < |s.order| && Inv(q, s, s.next, 0)
    ensures var r := Pop(q, s); Inv(q, r, r.next, 0)
  {
    var c := s.next;
    var popped := s.(next := c + 1);
    ShapeIgnoresNext(q, s, c + 1);
    PopGrows(q, s);
    if s.order[c].depth < q.maxDepth {
      FollowEdgesKeeps(q, popped, c, |q.edges|, s.order[c], Pop(q, s));
    }
    NextVisit(q, Pop(q, s), c);
  }

  lemma FinishKeeps(q: Query, s: Search)
    requires Inv(q, s, s.next, 0)
    ensures var r := Finish(q, s); r.next == |r.order| && Inv(q, r, r.next, 0)
    decreases Unseen(q, s), |s.order| - s.next
  {
    if s.next < |s.order| {
      PopGrows(q, s);
      PopKeeps(q, s);
      FinishKeeps(q, Pop(q, s));
    }
  }

  // ---------- recorded depth is shortest distance ----------

  lemma VisitHasPath(q: Query, s: Search, i: nat)
    requires Shape(q, s) && i < |s.order|
    ensures PathOf(q.edges, q.start, s.order[i].id, s.order[i].depth)
  {
    if i == 0 {
      assert IsPath(q.edges, [q.start]);
    } else {
      assert Recorded(q, s, i);
      var j, m :| DiscoveredBy(q, s, i, j, m);
      VisitHasPath(q, s, j);
      assert Adjacent(q.edges, s.order[j].id, s.order[i].id);
      PathExtends(q.edges, q.start, s.order[j].id, s.order[i].id, s.order[j].depth);
    }
  }

  lemma PathIsVisited(q: Query, s: Search, id: Id, k: nat)
    requires Inv(q, s, |s.order|, 0) && (k == 0 || k <= q.maxDepth)
    requires PathOf(q.edges, q.start, id, k)
    ensures SeenWithin(s.order, id, k)
    decreases k
  {
    if k == 0 {
      assert s.order[0].id == id;
    } else {
      var b := PathSplits(q.edges, q.start, id, k);
      PathIsVisited(q, s, b, k - 1);
      var j :| 0 <= j < |s.order| && s.order[j].id == b && s.order[j].depth <= k - 1;
      var m :| 0 <= m < |q.edges| && Joins(q.edges[m], b, id);
      assert Followed(q, s.order, s.order[j], |q.edges|);
      assert Closed(s.order, s.order[j], q.edges[m]);
    }
  }

  lemma VisitDepthIsDistance(q: Query, s: Search, i: nat)
    requires Inv(q, s, |s.order|, 0) && i < |s.order|
    ensures Distance(q.edges, q.start, s.order[i].id, s.order[i].depth)
  {
    VisitHasPath(q, s, i);
    forall k: nat | k < s.order[i].depth
      ensures !PathOf(q.edges, q.start, s.order[i].id, k)
    {
      if PathOf(q.edges, q.start, s.order[i].id, k) {
        PathIsVisited(q, s, s.order[i].id, k);
      }
    }
  }

  lemma WalkInv(g: Graph, start: Id, maxDepth: int)
    ensures var s := Walk(g, start, maxDepth); Inv(QueryOf(g, start, maxDepth), s, |s.order|, 0)
  {
    FinishKeeps(QueryOf(g, start, maxDepth), Begin(start));
  }

  predicate SameEdge(e: Edge, entry: ChainEntry) {
    e.source == entry.from && e.target == entry.to && e.edgeType == entry.edgeType && e.evidence == entry.evidence
  }

  /** The entry prints a stored edge in its stored direction, with the label of
      the discovered end; the other end is one step nearer to the start. */
  ghost predicate EntryJoinsLayers(g: Graph, start: Id, entry: ChainEntry, found: Id) {
    && entry.depth >= 1
    && entry.caption == LabelOf(NodeLookup(g.nodes), found)
    && (exists e :: e in g.edges && SameEdge(e, entry))
    && (found == entry.to || found == entry.from)
    && Distance(g.edges, start, found, entry.depth)
    && Distance(g.edges, start, if found == entry.to then entry.from else entry.to, entry.depth - 1)
  }

  lemma VisitDepthInRange(q: Query, s: Search, i: nat)
    requires Shape(q, s) && 0 < i < |s.order|
    ensures 1 <= s.order[i].depth <= q.maxDepth && s.chain[i - 1].depth == s.order[i].depth
  {
    assert Recorded(q, s, i);
  }

  lemma VisitJoinsLayers(g: Graph, q: Query, s: Search, i: nat)
    requires q == QueryOf(g, q.start, q.maxDepth) && Inv(q, s, |s.order|, 0) && 0 < i < |s.order|
    ensures EntryJoinsLayers(g, q.start, s.chain[i - 1], s.order[i].id)
  {
    assert Recorded(q, s, i);
    var j, m :| DiscoveredBy(q, s, i, j, m);
    VisitDepthIsDistance(q, s, i);
    VisitDepthIsDistance(q, s, j);
    assert s.order[j].id != s.order[i].id;
    assert SameEdge(g.edges[m], s.chain[i - 1]);
  }

  lemma EntryIsEdge(g: Graph, start: Id, maxDepth: int, i: nat)
    requires i < |Chain(g, start, maxDepth)|
    ensures i < |Found(g, start, maxDepth)|
    ensures EntryJoinsLayers(g, start, Chain(g, start, maxDepth)[i], Found(g, start, maxDepth)[i])
  {
    WalkInv(g, start, maxDepth);
    VisitJoinsLayers(g, QueryOf(g, start, maxDepth), Walk(g, start, maxDepth), i + 1);
  }

  lemma FoundIsNear(g: Graph, start: Id, maxDepth: int, i: nat) returns (d: nat)
    requires i < |Found(g, start, maxDepth)|
    ensures 1 <= d <= maxDepth && Distance(g.edges, start, Found(g, start, maxDepth)[i], d)
  {
    var q, s := QueryOf(g, start, maxDepth), Walk(g, start, maxDepth);
    WalkInv(g, start, maxDepth);
    VisitDepthInRange(q, s, i + 1);
    VisitDepthIsDistance(q, s, i + 1);
    d := s.order[i + 1].depth;
  }

  lemma NearIsFound(g: Graph, start: Id, maxDepth: int, id: Id, d: nat)
    requires 1 <= d <= maxDepth && Distance(g.edges, start, id, d)
    ensures id in Found(g, start, maxDepth)
  {
    var q := QueryOf(g, start, maxDepth);
    var s := Walk(g, start, maxDepth);
    WalkInv(g, start, maxDepth);
    PathIsVisited(q, s, id, d);
    var k :| 0 <= k < |s.order| && s.order[k].id == id && s.order[k].depth <= d;
    VisitHasPath(q, s, k);
    assert s.order[k].depth == d && k > 0;
    assert Found(g, start, maxDepth)[k - 1] == id;
  }

  lemma FoundIffNear(g: Graph, start: Id, maxDepth: int, id: Id)
    ensures id in Found(g, start, maxDepth) <==> exists d: nat :: 1 <= d <= maxDepth && Distance(g.edges, start, id, d)
  {
    var found := Found(g, start, maxDepth);
    if i :| 0 <= i < |found| && found[i] == id {
      var d := FoundIsNear(g, start, maxDepth, i);
    }
    if d: nat :| 1 <= d <= maxDepth && Distance(g.edges, start, id, d) {
      NearIsFound(g, start, maxDepth, id, d);
    }
  }

  lemma ChainIsLayered(g: Graph, start: Id, maxDepth: int)
    ensures var chain, found := Chain(g, start, maxDepth), Found(g, start, maxDepth);
            && |chain| == |found|
            && (forall i, j :: 0 <= i < j < |found| ==> found[i] != found[j])
            && (forall i, j :: 0 <= i < j < |chain| ==> chain[i].depth <= chain[j].depth)
  {
    var q := QueryOf(g, start, maxDepth);
    var s := Walk(g, start, maxDepth);
    WalkInv(g, start, maxDepth);
    forall i | 0 <= i < |s.chain|
      ensures s.chain[i].depth == s.order[i + 1].depth
    {
      VisitDepthInRange(q, s, i + 1);
    }
  }

  /** The ids discovered are exactly those at distance 1..maxDepth, each once,
      with non-decreasing depths, and every entry is an edge between two
      consecutive layers. */
  lemma ChainIsBreadthFirst(g: Graph, start: Id, maxDepth: int)
    ensures var chain, found := Chain(g, start, maxDepth), Found(g, start, maxDepth);
            && |chain| == |found|
            && (forall i, j :: 0 <= i < j < |found| ==> found[i] != found[j])
            && (forall id :: id in found <==> exists d: nat :: 1 <= d <= maxDepth && Distance(g.edges, start, id, d))
            && (forall i, j :: 0 <= i < j < |chain| ==> chain[i].depth <= chain[j].depth)
            && (forall i :: 0 <= i < |chain| ==> EntryJoinsLayers(g, start, chain[i], found[i]))
  {
    ChainIsLayered(g, start, maxDepth);
    forall i | 0 <= i < |Chain(g, start, maxDepth)|
      ensures EntryJoinsLayers(g, start, Chain(g, start, maxDepth)[i], Found(g, start, maxDepth)[i])
    {
      EntryIsEdge(g, start, maxDepth, i);
    }
    forall id
      ensures id in Found(g, start, maxDepth) <==> exists d: nat :: 1 <= d <= maxDepth && Distance(g.edges, start, id, d)
    {
      FoundIffNear(g, start, maxDepth, id);
    }
  }

  // ---------- max_depth only truncates ----------

  lemma FinishExtends(q: Query, s: Search)
    ensures s.chain <= Finish(q, s).chain
    decreases Unseen(q, s), |s.order| - s.next
  {
    if s.next < |s.order| {
      PopGrows(q, s);
      FinishExtends(q, Pop(q, s));
    }
  }

  lemma {:induction false} FinishOnlySkips(q: Query, s: Search)
    requires forall i :: s.next <= i < |s.order| ==> s.order[i].depth >= q.maxDepth
    ensures Finish(q, s).chain == s.chain
    decreases Unseen(q, s), |s.order| - s.next
  {
    if s.next < |s.order| {
      FinishOnlySkips(q, s.(next := s.next + 1));
    }
  }

  lemma {:induction false} FollowEdgesIgnoresBound(q: Query, s: Search, k: nat, current: Visit, maxDepth: int)
    requires k <= |q.edges|
    ensures FollowEdges(q, s, k, current) == FollowEdges(q.(maxDepth := maxDepth), s, k, current)
  {
    if k > 0 {
      FollowEdgesIgnoresBound(q, s, k - 1, current, maxDepth);
    }
  }

  lemma PopIgnoresBound(q: Query, s: Search, maxDepth: int)
    requires s.next < |s.order| && s.order[s.next].depth < q.maxDepth && s.order[s.next].depth < maxDepth
    ensures Pop(q, s) == Pop(q.(maxDepth := maxDepth), s)
  {
    FollowEdgesIgnoresBound(q, s.(next := s.next + 1), |q.edges|, s.order[s.next], maxDepth);
  }

  lemma {:induction false} FinishTruncates(q: Query, s: Search)
    requires Inv(q, s, s.next, 0)
    ensures Finish(q, s).chain <= Finish(q.(maxDepth := q.maxDepth + 1), s).chain
    decreases Unseen(q, s), |s.order| - s.next
  {
    if s.next < |s.order| {
      if s.order[s.next].depth < q.maxDepth {
        PopIgnoresBound(q, s, q.maxDepth + 1);
        PopGrows(q, s);
        PopKeeps(q, s);
        FinishTruncates(q, Pop(q, s));
      } else {
        FinishOnlySkips(q, s);
        FinishExtends(q.(maxDepth := q.maxDepth + 1), s);
      }
    }
  }

  lemma DepthOnlyTruncates(g: Graph, start: Id, maxDepth: int)
    ensures Chain(g, start, maxDepth) <= Chain(g, start, maxDepth + 1)
  {
    FinishTruncates(QueryOf(g, start, maxDepth), Begin(start));
  }

  // ---------- the one-hop query ----------

  function RelatedIds(edges: seq<Edge>, id: Id): set<Id> {
    (set i | 0 <= i < |edges| && edges[i].source == id :: edges[i].target)
    + (set i | 0 <= i < |edges| && edges[i].target == id :: edges[i].source)
    + {id}
  }

  function NodesWithin(nodes: seq<Node>, ids: set<Id>): seq<Node> {
    if nodes == [] then []
    else (if nodes[0].id in ids then [nodes[0]] else []) + NodesWithin(nodes[1..], ids)
  }

  /** `related_nodes`. */
  function RelatedNodes(g: Graph, id: Id): seq<Node> {
    NodesWithin(g.nodes, RelatedIds(g.edges, id))
  }

  ghost predicate HasNode(nodes: seq<Node>, id: Id) {
    exists n :: n in nodes && n.id == id
  }

  lemma {:induction false} NodesWithinMembers(nodes: seq<Node>, ids: set<Id>, n: Node)
    ensures n in NodesWithin(nodes, ids) <==> n in nodes && n.id in ids
  {
    if nodes != [] { NodesWithinMembers(nodes[1..], ids, n); }
  }

  lemma DistanceOneIsAdjacent(edges: seq<Edge>, a: Id, b: Id)
    ensures Distance(edges, a, b, 1) <==> a != b && Adjacent(edges, a, b)
  {
    if Distance(edges, a, b, 1) {
      var mid := PathSplits(edges, a, b, 1);
      assert PathOf(edges, a, a, 0) by {
        assert IsPath(edges, [a]);
      }
    }
    if a != b && Adjacent(edges, a, b) {
      assert IsPath(edges, [a]);
      assert PathOf(edges, a, a, 0);
      PathExtends(edges, a, a, b, 0);
    }
  }

  /** The depth-1 ids of the walk that are nodes of the graph are the related
      nodes other than the start. */
  lemma FirstLayerIsRelated(g: Graph, start: Id, id: Id)
    ensures id in Found(g, start, 1) && HasNode(g.nodes, id)
            <==> id != start && HasNode(RelatedNodes(g, start), id)
  {
    FoundIffNear(g, start, 1, id);
    DistanceOneIsAdjacent(g.edges, start, id);
    var ids := RelatedIds(g.edges, start);
    assert id != start ==> (id in ids <==> Adjacent(g.edges, start, id)) by {
      if i :| 0 <= i < |g.edges| && Joins(g.edges[i], start, id) {
        assert id in ids;
      }
    }
    forall n: Node
      ensures n in RelatedNodes(g, start) <==> n in g.nodes && n.id in ids
    {
      NodesWithinMembers(g.nodes, ids, n);
    }
  }
}
