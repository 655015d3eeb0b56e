/** Building the evidence graph (mac_audit_agent/evidence_graph.py,
    EvidenceGraphBuilder): many artifact lists merged into one set of nodes and
    one set of edges. Which field of an artifact gives a text is an input. */
module EvidenceBuilder {
  import opened Common

  datatype NodeType = ProcessNode | UserNode | FileNode | LaunchNode | EndpointNode | DeviceNode | FindingNode | EventNode | SnapshotNode

  /** The edge types the builder makes. */
  datatype EdgeType = Started | ConnectedTo | OwnedBy | ObservedWith | RelatedTo

  // ---------- ids ----------

  /** A node id: its text is the type, a colon and the cleaned key. */
  datatype Id = Id(kind: NodeType, safe: string)

  function TypeName(t: NodeType): string {
    match t
    case ProcessNode => "process"
    case UserNode => "user"
    case FileNode => "file"
    case LaunchNode => "launch_item"
    case EndpointNode => "network_endpoint"
    case DeviceNode => "device"
    case FindingNode => "finding"
    case EventNode => "event"
    case SnapshotNode => "snapshot"
  }

  function Text(id: Id): string {
    TypeName(id.kind) + ":" + id.safe
  }

  function NoNewlines(s: string): (r: string)
    ensures |r| == |s|
  {
    seq(|s|, i requires 0 <= i < |s| => if s[i] == '\n' then ' ' else s[i])
  }

  /** `_node_id`. */
  function NodeId(kind: NodeType, key: string): Id {
    var clean := NoNewlines(Strip(key));
    Id(kind, if |clean| <= 240 then clean else clean[..240])
  }

  /** A character as it appears in an id. */
  function Shown(c: char): char {
    if c == '\n' then ' ' else c
  }

  /** The two texts look the same in an id, as far as it reaches. */
  predicate SameStart(s: string, t: string) {
    forall i :: 0 <= i < 240 ==> AlikeAt(s, t, i)
  }

  predicate AlikeAt(s: string, t: string, i: nat) {
    (i < |s| <==> i < |t|) && (i < |s| ==> Shown(s[i]) == Shown(t[i]))
  }

  /** Two keys of a type share a node exactly when, blanks around them removed,
      they look the same up to the 240th character. */
  lemma NodeIdsAgreeIff(kind: NodeType, a: string, b: string)
    ensures NodeId(kind, a) == NodeId(kind, b) <==> SameStart(Strip(a), Strip(b))
  {
    var s, t := Strip(a), Strip(b);
    CleanedAt(kind, a);
    CleanedAt(kind, b);
    var x, y := NodeId(kind, a).safe, NodeId(kind, b).safe;
    if SameStart(s, t) {
      assert |x| == |y| by {
        if |s| < 240 { assert AlikeAt(s, t, |s|); }
        if |t| < 240 { assert AlikeAt(s, t, |t|); }
      }
      forall i | 0 <= i < |x| ensures x[i] == y[i] { assert AlikeAt(s, t, i); }
    }
    if x == y {
      forall i | 0 <= i < 240 ensures AlikeAt(s, t, i) {
        assert i < |s| <==> i < |x|;
        assert i < |t| <==> i < |y|;
        if i < |x| { assert x[i] == Shown(s[i]) && y[i] == Shown(t[i]); }
      }
    }
  }

  lemma CleanedAt(kind: NodeType, key: string)
    ensures var s, x := Strip(key), NodeId(kind, key).safe;
            |x| == (if |s| <= 240 then |s| else 240) && forall i :: 0 <= i < |x| ==> x[i] == Shown(s[i])
  {}

  /** A key that needs no cleaning. */
  predicate CleanKey(key: string) {
    |key| <= 240 && '\n' !in key && Trim(key)
  }

  /** A clean key is in the id's text as it is. */
  lemma CleanKeyIsKept(kind: NodeType, key: string)
    requires CleanKey(key)
    ensures Text(NodeId(kind, key)) == TypeName(kind) + ":" + key
  {
    TrimStays(key);
    CleanedAt(kind, key);
    assert NodeId(kind, key).safe == key;
  }

  lemma CleanKeysDiffer(kind: NodeType, a: string, b: string)
    requires CleanKey(a) && CleanKey(b)
    ensures NodeId(kind, a) == NodeId(kind, b) <==> a == b
  {
    TrimStays(a);
    TrimStays(b);
    CleanedAt(kind, a);
    CleanedAt(kind, b);
    assert NodeId(kind, a).safe == a && NodeId(kind, b).safe == b;
  }

  lemma NamesAreApart(a: NodeType, b: NodeType)
    ensures ':' !in TypeName(a)
    ensures a != b ==> |TypeName(a)| != |TypeName(b)| || TypeName(a)[0] != TypeName(b)[0]
  {}

  /** Ids of different types, or with different keys, have different texts. */
  lemma TextDetermines(a: Id, b: Id)
    requires Text(a) == Text(b)
    ensures a == b
  {
    var s, t := TypeName(a.kind), TypeName(b.kind);
    NamesAreApart(a.kind, b.kind);
    NamesAreApart(b.kind, a.kind);
    assert forall i :: 0 <= i < |s| ==> Text(a)[i] == s[i] && s[i] != ':';
    assert forall i :: 0 <= i < |t| ==> Text(b)[i] == t[i] && t[i] != ':';
    assert Text(a)[|s|] == ':' && Text(b)[|t|] == ':';
    assert |s| == |t|;
    assert Text(a)[|s| + 1..] == a.safe && Text(b)[|t| + 1..] == b.safe;
  }

  // ---------- nodes and edges ----------

  datatype Node = Node(caption: string, summary: string, evidence: map<string, string>)

  datatype EdgeKey = EdgeKey(source: Id, target: Id, edgeType: EdgeType)

  /** Why an edge is made: stands for its evidence text and confidence. */
  datatype Rule = Owner | Executable | LaunchTarget | LaunchRunning | Connection | PidMatch | PathMatch | RelatedPath | RelatedUser | RelatedEndpoint | EventLink | Mention

  datatype Graph = Graph(nodes: map<Id, Node>, edges: map<EdgeKey, Rule>)

  /** One call of `add_node` or `add_edge`. */
  datatype Fact = NodeFact(id: Id, node: Node) | EdgeFact(key: EdgeKey, rule: Rule)

  predicate Contains(text: string, part: string) {
    exists i :: 0 <= i <= |text| && part <= text[i..]
  }

  function JoinSummaries(a: string, b: string): string {
    if b == "" || Contains(a, b) then a else if a == "" then b else a + "; " + b
  }

  /** A node found again: its evidence is updated, its label stays. */
  function MergeNode(was: Node, node: Node): Node {
    Node(was.caption, JoinSummaries(was.summary, node.summary), was.evidence + node.evidence)
  }

  function Apply(g: Graph, f: Fact): Graph {
    match f
    case NodeFact(id, node) => g.(nodes := g.nodes[id := if id in g.nodes then MergeNode(g.nodes[id], node) else node])
    case EdgeFact(key, rule) => if key.source == key.target || key in g.edges then g else g.(edges := g.edges[key := rule])
  }

  function ApplyAll(fs: seq<Fact>): Graph {
    if fs == [] then Graph(map[], map[]) else Apply(ApplyAll(fs[..|fs| - 1]), fs[|fs| - 1])
  }

  lemma ApplyOneMore(fs: seq<Fact>, f: Fact)
    ensures ApplyAll(fs + [f]) == Apply(ApplyAll(fs), f)
  {
    assert (fs + [f])[..|fs|] == fs;
  }

  // ---------- artifacts ----------

  datatype ProcessItem = ProcessItem(pid: string, path: string, user: string, node: Node)
  datatype PlainItem = PlainItem(key: string, node: Node)
  datatype LaunchItem = LaunchItem(key: string, program: string, node: Node)
  datatype PortItem = PortItem(remote: string, localAddress: string, host: string, port: string, protocol: string, pid: string, node: Node)
  datatype EventItem = EventItem(key: string, relatedPid: string, relatedPath: string, relatedUser: string, relatedEndpoint: string, node: Node)
  datatype FindingItem = FindingItem(
    key: string, relatedPid: string, relatedPath: string, relatedUser: string, relatedEndpoint: string, eventId: string, text: string, node: Node)

  datatype Artifacts = Artifacts(
    processes: seq<ProcessItem>, users: seq<PlainItem>, files: seq<PlainItem>, launches: seq<LaunchItem>, ports: seq<PortItem>,
    devices: seq<PlainItem>, snapshots: seq<PlainItem>, events: seq<EventItem>, findings: seq<FindingItem>)

  /** `process_by_pid` and `process_by_path`, the latter in dictionary order. */
  datatype Tables = Tables(byPid: map<string, Id>, byPath: map<string, Id>, paths: seq<string>)

  function ProcessId(p: ProcessItem): Id {
    NodeId(ProcessNode, if p.pid != "" then p.pid else p.path)
  }

  function Enter(t: Tables, p: ProcessItem): Tables {
    Tables(if p.pid != "" then t.byPid[p.pid := ProcessId(p)] else t.byPid,
           if p.path != "" then t.byPath[p.path := ProcessId(p)] else t.byPath,
           if p.path != "" && p.path !in t.byPath then t.paths + [p.path] else t.paths)
  }

  function TablesOf(ps: seq<ProcessItem>): Tables {
    if ps == [] then Tables(map[], map[], []) else Enter(TablesOf(ps[..|ps| - 1]), ps[|ps| - 1])
  }

  /** `_endpoint_label`; the protocol is given in lower case. */
  function EndpointLabel(p: PortItem): string {
    if p.remote != "" then p.remote
    else if p.localAddress != "" then p.localAddress
    else if p.host != "" && p.port != "" then p.host + ":" + p.port
    else if p.port != "" then p.protocol + ":" + p.port
    else ""
  }

  /** What may name an endpoint, best first; "" where it is not known. */
  function Candidates(p: PortItem): seq<string> {
    [p.remote, p.localAddress, if p.host == "" || p.port == "" then "" else p.host + ":" + p.port, if p.port == "" then "" else p.protocol + ":" + p.port]
  }

  /** The label is the first candidate known, and there is none when none is. */
  lemma LabelIsFirstKnown(p: PortItem)
    ensures EndpointLabel(p) == "" ==> forall c :: c in Candidates(p) ==> c == ""
    ensures EndpointLabel(p) != "" ==>
              exists k :: 0 <= k < |Candidates(p)| && Candidates(p)[k] == EndpointLabel(p) && forall j :: 0 <= j < k ==> Candidates(p)[j] == ""
  {
    var c := Candidates(p);
    var k := if c[0] != "" then 0 else if c[1] != "" then 1 else if c[2] != "" then 2 else 3;
    assert c[k] == EndpointLabel(p);
  }

  /** The fixed texts of the builder: the summary of a node made for something
      an artifact only mentions, and the field that holds its text. */
  datatype Wording = Wording(summary: (NodeType, Rule) -> string, field: NodeType -> string)

  function Mentioned(w: Wording, owner: NodeType, rule: Rule, kind: NodeType, text: string): Fact {
    NodeFact(NodeId(kind, text), Node(text, w.summary(owner, rule), map[w.field(kind) := text]))
  }

  // ---------- the calls each artifact adds to the calls before it ----------

  function Link(source: Id, target: Id, edgeType: EdgeType, rule: Rule): Fact {
    EdgeFact(EdgeKey(source, target, edgeType), rule)
  }

  /** A mentioned text gets a node and is linked to its owner. */
  function MentionedCalls(c: seq<Fact>, w: Wording, id: Id, rule: Rule, kind: NodeType, text: string, edgeType: EdgeType): seq<Fact> {
    if text == "" then c
    else c + [Mentioned(w, id.kind, rule, kind, text)] + [Link(id, NodeId(kind, text), edgeType, rule)]
  }

  /** A link to a known process, if there is one under that text. */
  function KnownCalls(c: seq<Fact>, table: map<string, Id>, id: Id, text: string, edgeType: EdgeType, rule: Rule): seq<Fact> {
    if text != "" && text in table then c + [Link(id, table[text], edgeType, rule)] else c
  }

  function ProcessCalls(c: seq<Fact>, w: Wording, p: ProcessItem): seq<Fact> {
    var id := ProcessId(p);
    var d := MentionedCalls(c + [NodeFact(id, p.node)], w, id, Owner, UserNode, p.user, OwnedBy);
    MentionedCalls(d, w, id, Executable, FileNode, p.path, Started)
  }

  function PlainCalls(c: seq<Fact>, kind: NodeType, x: PlainItem): seq<Fact> {
    if x.key == "" then c else c + [NodeFact(NodeId(kind, x.key), x.node)]
  }

  function LaunchCalls(c: seq<Fact>, w: Wording, t: Tables, x: LaunchItem): seq<Fact> {
    var id := NodeId(LaunchNode, x.key);
    var d := MentionedCalls(c + [NodeFact(id, x.node)], w, id, LaunchTarget, FileNode, x.program, Started);
    KnownCalls(d, t.byPath, id, x.program, Started, LaunchRunning)
  }

  function PortCalls(c: seq<Fact>, t: Tables, x: PortItem): seq<Fact> {
    if EndpointLabel(x) == "" then c
    else
      var id := NodeId(EndpointNode, EndpointLabel(x));
      var d := c + [NodeFact(id, x.node)];
      if x.pid != "" && x.pid in t.byPid then d + [Link(t.byPid[x.pid], id, ConnectedTo, Connection)] else d
  }

  /** What `_link_event` and `_link_finding` share. */
  function RelatedCalls(c: seq<Fact>, w: Wording, t: Tables, id: Id, pid: string, path: string, user: string, endpoint: string, edgeType: EdgeType): seq<Fact> {
    var d1 := KnownCalls(c, t.byPid, id, pid, edgeType, PidMatch);
    var d2 := MentionedCalls(d1, w, id, RelatedPath, FileNode, path, RelatedTo);
    var d3 := KnownCalls(d2, t.byPath, id, path, edgeType, PathMatch);
    var d4 := MentionedCalls(d3, w, id, RelatedUser, UserNode, user, RelatedTo);
    MentionedCalls(d4, w, id, RelatedEndpoint, EndpointNode, endpoint, ConnectedTo)
  }

  function EventCalls(c: seq<Fact>, w: Wording, t: Tables, x: EventItem): seq<Fact> {
    if x.key == "" then c
    else
      var id := NodeId(EventNode, x.key);
      RelatedCalls(c + [NodeFact(id, x.node)], w, t, id, x.relatedPid, x.relatedPath, x.relatedUser, x.relatedEndpoint, ObservedWith)
  }

  function EventIdCalls(c: seq<Fact>, id: Id, eventId: string): seq<Fact> {
    if eventId == "" then c else c + [Link(id, NodeId(EventNode, eventId), ObservedWith, EventLink)]
  }

  /** Links to the processes whose path, among the first k, the text mentions. */
  function MentionCalls(c: seq<Fact>, t: Tables, id: Id, text: string, k: nat): seq<Fact>
    requires k <= |t.paths|
  {
    if k == 0 then c
    else
      var d, path := MentionCalls(c, t, id, text, k - 1), t.paths[k - 1];
      if path in t.byPath && Contains(text, path) then d + [Link(id, t.byPath[path], RelatedTo, Mention)] else d
  }

  function FindingCalls(c: seq<Fact>, w: Wording, t: Tables, x: FindingItem): seq<Fact> {
    if x.key == "" then c
    else
      var id := NodeId(FindingNode, x.key);
      var d := RelatedCalls(c + [NodeFact(id, x.node)], w, t, id, x.relatedPid, x.relatedPath, x.relatedUser, x.relatedEndpoint, RelatedTo);
      MentionCalls(EventIdCalls(d, id, x.eventId), t, id, x.text, |t.paths|)
  }

  function Each<T>(c: seq<Fact>, xs: seq<T>, step: (seq<Fact>, T) -> seq<Fact>): seq<Fact> {
    if xs == [] then c else step(Each(c, xs[..|xs| - 1], step), xs[|xs| - 1])
  }

  lemma EachNext<T>(c: seq<Fact>, xs: seq<T>, k: nat, step: (seq<Fact>, T) -> seq<Fact>)
    requires k < |xs|
    ensures Each(c, xs[..k + 1], step) == step(Each(c, xs[..k], step), xs[k])
  {
    assert xs[..k + 1][..k] == xs[..k];
  }

  function ProcessStep(w: Wording): (seq<Fact>, ProcessItem) -> seq<Fact> { (c, x) => ProcessCalls(c, w, x) }
  function PlainStep(kind: NodeType): (seq<Fact>, PlainItem) -> seq<Fact> { (c, x) => PlainCalls(c, kind, x) }
  function LaunchStep(w: Wording, t: Tables): (seq<Fact>, LaunchItem) -> seq<Fact> { (c, x) => LaunchCalls(c, w, t, x) }
  function PortStep(t: Tables): (seq<Fact>, PortItem) -> seq<Fact> { (c, x) => PortCalls(c, t, x) }
  function EventStep(w: Wording, t: Tables): (seq<Fact>, EventItem) -> seq<Fact> { (c, x) => EventCalls(c, w, t, x) }
  function FindingStep(w: Wording, t: Tables): (seq<Fact>, FindingItem) -> seq<Fact> { (c, x) => FindingCalls(c, w, t, x) }

  /** The calls for everything but events and findings. */
  function InventoryCalls(w: Wording, a: Artifacts): seq<Fact> {
    var t := TablesOf(a.processes);
    var host := Each(Each(Each([], a.processes, ProcessStep(w)), a.users, PlainStep(UserNode)), a.files, PlainStep(FileNode));
    var network := Each(Each(host, a.launches, LaunchStep(w, t)), a.ports, PortStep(t));
    Each(Each(network, a.devices, PlainStep(DeviceNode)), a.snapshots, PlainStep(SnapshotNode))
  }

  /** Every call of one build, in order. */
  function AllCalls(w: Wording, a: Artifacts): seq<Fact> {
    var t := TablesOf(a.processes);
    Each(Each(InventoryCalls(w, a), a.events, EventStep(w, t)), a.findings, FindingStep(w, t))
  }

  // ---------- the builder ----------

  /** The state of one build. `calls` lists the calls made so far. */
  class GraphBuilder {
    const w: Wording
    var nodes: map<Id, Node>
    var edges: map<EdgeKey, Rule>
    var tables: Tables
    ghost var calls: seq<Fact>

    ghost predicate Valid()
      reads this
    {
      Graph(nodes, edges) == ApplyAll(calls)
    }

    constructor (wording: Wording)
      ensures Valid() && calls == [] && tables == Tables(map[], map[], []) && w == wording
    {
      w := wording;
      nodes, edges, tables, calls := map[], map[], Tables(map[], map[], []), [];
    }

    method AddNode(id: Id, node: Node)
      requires Valid()
      modifies this
      ensures Valid() && calls == old(calls) + [NodeFact(id, node)] && tables == old(tables)
    {
      ApplyOneMore(calls, NodeFact(id, node));
      if id !in nodes {
        nodes := nodes[id := node];
      } else {
        nodes := nodes[id := MergeNode(nodes[id], node)];
      }
      calls := calls + [NodeFact(id, node)];
    }

    method AddEdge(source: Id, target: Id, edgeType: EdgeType, rule: Rule)
      requires Valid()
      modifies this
      ensures Valid() && calls == old(calls) + [Link(source, target, edgeType, rule)] && tables == old(tables)
    {
      var key := EdgeKey(source, target, edgeType);
      ghost var g, f := Graph(nodes, edges), EdgeFact(key, rule);
      ApplyOneMore(calls, f);
      calls := calls + [f];
      if source != target && key !in edges {
        edges := edges[key := rule];
        assert Apply(g, f) == Graph(nodes, edges);
      } else {
        assert Apply(g, f) == g;
      }
    }

    method LinkMentioned(id: Id, rule: Rule, kind: NodeType, text: string, edgeType: EdgeType)
      requires Valid()
      modifies this
      ensures Valid() && calls == MentionedCalls(old(calls), w, id, rule, kind, text, edgeType) && tables == old(tables)
    {
      if text != "" {
        AddNode(NodeId(kind, text), Node(text, w.summary(id.kind, rule), map[w.field(kind) := text]));
        AddEdge(id, NodeId(kind, text), edgeType, rule);
      }
    }

    method LinkKnown(table: map<string, Id>, id: Id, text: string, edgeType: EdgeType, rule: Rule)
      requires Valid()
      modifies this
      ensures Valid() && calls == KnownCalls(old(calls), table, id, text, edgeType, rule) && tables == old(tables)
    {
      if text != "" && text in table {
        AddEdge(id, table[text], edgeType, rule);
      }
    }

    method AddProcess(p: ProcessItem)
      requires Valid()
      modifies this
      ensures Valid() && calls == ProcessCalls(old(calls), w, p) && tables == Enter(old(tables), p)
    {
      var id := ProcessId(p);
      AddNode(id, p.node);
      tables := Enter(tables, p);
      LinkMentioned(id, Owner, UserNode, p.user, OwnedBy);
      LinkMentioned(id, Executable, FileNode, p.path, Started);
    }

    method AddPlain(kind: NodeType, x: PlainItem)
      requires Valid()
      modifies this
      ensures Valid() && calls == PlainCalls(old(calls), kind, x) && tables == old(tables)
    {
      if x.key != "" {
        AddNode(NodeId(kind, x.key), x.node);
      }
    }

    method AddLaunch(x: LaunchItem)
      requires Valid()
      modifies this
      ensures Valid() && calls == LaunchCalls(old(calls), w, tables, x) && tables == old(tables)
    {
      var id := NodeId(LaunchNode, x.key);
      AddNode(id, x.node);
      LinkMentioned(id, LaunchTarget, FileNode, x.program, Started);
      LinkKnown(tables.byPath, id, x.program, Started, LaunchRunning);
    }

    method AddPort(x: PortItem)
      requires Valid()
      modifies this
      ensures Valid() && calls == PortCalls(old(calls), tables, x) && tables == old(tables)
    {
      var endpoint := EndpointLabel(x);
      if endpoint != "" {
        var id := NodeId(EndpointNode, endpoint);
        AddNode(id, x.node);
        if x.pid != "" && x.pid in tables.byPid {
          AddEdge(tables.byPid[x.pid], id, ConnectedTo, Connection);
        }
      }
    }

    method LinkRelated(id: Id, pid: string, path: string, user: string, endpoint: string, edgeType: EdgeType)
      requires Valid()
      modifies this
      ensures Valid() && calls == RelatedCalls(old(calls), w, tables, id, pid, path, user, endpoint, edgeType) && tables == old(tables)
    {
      LinkKnown(tables.byPid, id, pid, edgeType, PidMatch);
      LinkMentioned(id, RelatedPath, FileNode, path, RelatedTo);
      LinkKnown(tables.byPath, id, path, edgeType, PathMatch);
      LinkMentioned(id, RelatedUser, UserNode, user, RelatedTo);
      LinkMentioned(id, RelatedEndpoint, EndpointNode, endpoint, ConnectedTo);
    }

    /** An event's node and the links of `_link_event`. */
    method AddEvent(x: EventItem)
      requires Valid()
      modifies this
      ensures Valid() && calls == EventCalls(old(calls), w, tables, x) && tables == old(tables)
    {
      if x.key != "" {
        var id := NodeId(EventNode, x.key);
        AddNode(id, x.node);
        LinkRelated(id, x.relatedPid, x.relatedPath, x.relatedUser, x.relatedEndpoint, ObservedWith);
      }
    }

    method LinkMentions(id: Id, text: string)
      requires Valid()
      modifies this
      ensures Valid() && calls == MentionCalls(old(calls), tables, id, text, |tables.paths|) && tables == old(tables)
    {
      for k := 0 to |tables.paths|
        invariant Valid() && tables == old(tables) && calls == MentionCalls(old(calls), tables, id, text, k)
      {
        var path := tables.paths[k];
        if path in tables.byPath && Contains(text, path) {
          AddEdge(id, tables.byPath[path], RelatedTo, Mention);
        }
      }
    }

    /** A finding's node and the links of `_link_finding`. */
    method AddFinding(x: FindingItem)
      requires Valid()
      modifies this
      ensures Valid() && calls == FindingCalls(old(calls), w, tables, x) && tables == old(tables)
    {
      if x.key != "" {
        var id := NodeId(FindingNode, x.key);
        AddNode(id, x.node);
        LinkRelated(id, x.relatedPid, x.relatedPath, x.relatedUser, x.relatedEndpoint, RelatedTo);
        if x.eventId != "" {
          AddEdge(id, NodeId(EventNode, x.eventId), ObservedWith, EventLink);
        }
        LinkMentions(id, x.text);
      }
    }

    method AddPlains(kind: NodeType, xs: seq<PlainItem>)
      requires Valid()
      modifies this
      ensures Valid() && calls == Each(old(calls), xs, PlainStep(kind)) && tables == old(tables)
    {
      for k := 0 to |xs|
        invariant Valid() && tables == old(tables) && calls == Each(old(calls), xs[..k], PlainStep(kind))
      {
        EachNext(old(calls), xs, k, PlainStep(kind));
        AddPlain(kind, xs[k]);
      }
      assert xs[..|xs|] == xs;
    }

    method AddProcesses(xs: seq<ProcessItem>)
      requires Valid() && tables == TablesOf([])
      modifies this
      ensures Valid() && calls == Each(old(calls), xs, ProcessStep(w)) && tables == TablesOf(xs)
    {
      for k := 0 to |xs|
        invariant Valid() && tables == TablesOf(xs[..k]) && calls == Each(old(calls), xs[..k], ProcessStep(w))
      {
        EachNext(old(calls), xs, k, ProcessStep(w));
        assert xs[..k + 1][..k] == xs[..k];
        AddProcess(xs[k]);
      }
      assert xs[..|xs|] == xs;
    }

    method AddLaunches(xs: seq<LaunchItem>)
      requires Valid()
      modifies this
      ensures Valid() && calls == Each(old(calls), xs, LaunchStep(w, tables)) && tables == old(tables)
    {
      for k := 0 to |xs|
        invariant Valid() && tables == old(tables) && calls == Each(old(calls), xs[..k], LaunchStep(w, tables))
      {
        EachNext(old(calls), xs, k, LaunchStep(w, tables));
        AddLaunch(xs[k]);
      }
      assert xs[..|xs|] == xs;
    }

    method AddPorts(xs: seq<PortItem>)
      requires Valid()
      modifies this
      ensures Valid() && calls == Each(old(calls), xs, PortStep(tables)) && tables == old(tables)
    {
      for k := 0 to |xs|
        invariant Valid() && tables == old(tables) && calls == Each(old(calls), xs[..k], PortStep(tables))
      {
        EachNext(old(calls), xs, k, PortStep(tables));
        AddPort(xs[k]);
      }
      assert xs[..|xs|] == xs;
    }

    method AddEvents(xs: seq<EventItem>)
      requires Valid()
      modifies this
      ensures Valid() && calls == Each(old(calls), xs, EventStep(w, tables)) && tables == old(tables)
    {
      for k := 0 to |xs|
        invariant Valid() && tables == old(tables) && calls == Each(old(calls), xs[..k], EventStep(w, tables))
      {
        EachNext(old(calls), xs, k, EventStep(w, tables));
        AddEvent(xs[k]);
      }
      assert xs[..|xs|] == xs;
    }

    method AddFindings(xs: seq<FindingItem>)
      requires Valid()
      modifies this
      ensures Valid() && calls == Each(old(calls), xs, FindingStep(w, tables)) && tables == old(tables)
    {
      for k := 0 to |xs|
        invariant Valid() && tables == old(tables) && calls == Each(old(calls), xs[..k], FindingStep(w, tables))
      {
        EachNext(old(calls), xs, k, FindingStep(w, tables));
        AddFinding(xs[k]);
      }
      assert xs[..|xs|] == xs;
    }

    /** `build`, before it sorts the nodes and edges. */
    method Build(a: Artifacts)
      requires Valid() && calls == [] && tables == TablesOf([])
      modifies this
      ensures Valid() && Graph(nodes, edges) == ApplyAll(AllCalls(w, a))
    {
      AddProcesses(a.processes);
      AddPlains(UserNode, a.users);
      AddPlains(FileNode, a.files);
      AddLaunches(a.launches);
      AddPorts(a.ports);
      AddPlains(DeviceNode, a.devices);
      AddPlains(SnapshotNode, a.snapshots);
      assert calls == InventoryCalls(w, a);
      AddEvents(a.events);
      AddFindings(a.findings);
    }
  }

  // ---------- what a sequence of calls leaves ----------

  predicate HasNode(c: seq<Fact>, id: Id) {
    exists j :: 0 <= j < |c| && c[j].NodeFact? && c[j].id == id
  }

  predicate HasEdge(c: seq<Fact>, key: EdgeKey) {
    exists j :: 0 <= j < |c| && c[j].EdgeFact? && c[j].key == key
  }

  lemma HasOneMore(c: seq<Fact>, f: Fact, id: Id, key: EdgeKey)
    ensures HasNode(c + [f], id) <==> HasNode(c, id) || (f.NodeFact? && f.id == id)
    ensures HasEdge(c + [f], key) <==> HasEdge(c, key) || (f.EdgeFact? && f.key == key)
  {
    var d := c + [f];
    assert d[|c|] == f && forall j :: 0 <= j < |c| ==> d[j] == c[j];
  }

  /** The position of the first call for an edge. */
  function FirstEdge(c: seq<Fact>, key: EdgeKey): nat
    requires HasEdge(c, key)
  {
    var n := |c| - 1;
    assert c == c[..n] + [c[n]];
    HasOneMore(c[..n], c[n], key.source, key);
    if HasEdge(c[..n], key) then FirstEdge(c[..n], key) else n
  }

  function FirstNode(c: seq<Fact>, id: Id): nat
    requires HasNode(c, id)
  {
    var n := |c| - 1;
    assert c == c[..n] + [c[n]];
    HasOneMore(c[..n], c[n], id, EdgeKey(id, id, Started));
    if HasNode(c[..n], id) then FirstNode(c[..n], id) else n
  }

  lemma {:induction false} FirstOnes(c: seq<Fact>, id: Id, key: EdgeKey)
    ensures HasEdge(c, key) ==>
              var i := FirstEdge(c, key);
              i < |c| && c[i].EdgeFact? && c[i].key == key && !HasEdge(c[..i], key)
    ensures HasNode(c, id) ==>
              var i := FirstNode(c, id);
              i < |c| && c[i].NodeFact? && c[i].id == id && !HasNode(c[..i], id)
  {
    if c != [] {
      var n := |c| - 1;
      assert c == c[..n] + [c[n]];
      HasOneMore(c[..n], c[n], id, key);
      FirstOnes(c[..n], id, key);
      assert HasEdge(c[..n], key) ==> c[..n][..FirstEdge(c[..n], key)] == c[..FirstEdge(c[..n], key)];
      assert HasNode(c[..n], id) ==> c[..n][..FirstNode(c[..n], id)] == c[..FirstNode(c[..n], id)];
    }
  }

  /** The graph has exactly the nodes and edges called for, self-loops apart; a
      node keeps the caption, and an edge the rule, of its first call. */
  lemma {:induction false} GraphIsWhatWasCalled(c: seq<Fact>, id: Id, key: EdgeKey)
    ensures id in ApplyAll(c).nodes <==> HasNode(c, id)
    ensures key in ApplyAll(c).edges <==> HasEdge(c, key) && key.source != key.target
    ensures HasNode(c, id) ==> FirstNode(c, id) < |c| && c[FirstNode(c, id)].NodeFact?
                               && ApplyAll(c).nodes[id].caption == c[FirstNode(c, id)].node.caption
    ensures HasEdge(c, key) && key.source != key.target ==>
              FirstEdge(c, key) < |c| && c[FirstEdge(c, key)].EdgeFact? && ApplyAll(c).edges[key] == c[FirstEdge(c, key)].rule
  {
    if c != [] {
      var n := |c| - 1;
      assert c == c[..n] + [c[n]];
      HasOneMore(c[..n], c[n], id, key);
      GraphIsWhatWasCalled(c[..n], id, key);
    }
  }

  /** What a node's later calls say wins: a field keeps its last value. */
  lemma {:induction false} LastEvidenceWins(c: seq<Fact>, f: Fact, rest: seq<Fact>, field: string)
    requires f.NodeFact? && field in f.node.evidence
    requires forall i :: 0 <= i < |rest| && rest[i].NodeFact? && rest[i].id == f.id ==> field !in rest[i].node.evidence
    ensures var nodes := ApplyAll(c + [f] + rest).nodes;
            f.id in nodes && field in nodes[f.id].evidence && nodes[f.id].evidence[field] == f.node.evidence[field]
  {
    if rest == [] {
      assert c + [f] + rest == c + [f];
      ApplyOneMore(c, f);
    } else {
      var n := |rest| - 1;
      LastEvidenceWins(c, f, rest[..n], field);
      assert c + [f] + rest == (c + [f] + rest[..n]) + [rest[n]];
      ApplyOneMore(c + [f] + rest[..n], rest[n]);
    }
  }

  lemma ContainsWithin(text: string, before: string, part: string, after: string)
    requires text == before + part + after
    ensures Contains(text, part)
  {
    assert text[|before|..] == part + after;
    assert part <= text[|before|..];
  }

  lemma ContainsTrans(text: string, part: string, inner: string)
    requires Contains(text, part) && Contains(part, inner)
    ensures Contains(text, inner)
  {
    var i :| 0 <= i <= |text| && part <= text[i..];
    var j :| 0 <= j <= |part| && inner <= part[j..];
    assert text[i..][..|part|] == part;
    assert text[i + j..][..|inner|] == part[j..][..|inner|];
    assert inner <= text[i + j..];
  }

  /** A joined summary holds both, and stays as it was when it held the new one. */
  lemma JoinKeepsBoth(a: string, b: string)
    ensures Contains(JoinSummaries(a, b), a) && Contains(JoinSummaries(a, b), b)
    ensures JoinSummaries(a, b) == a <==> Contains(a, b)
  {
    assert a == "" + a + "" && b == "" + b + "";
    ContainsWithin(a, "", a, "");
    ContainsWithin(b, "", b, "");
    if b == "" { assert a == a + "" + ""; ContainsWithin(a, a, "", ""); }
    if b != "" && !Contains(a, b) && a != "" {
      var joined := a + "; " + b;
      assert joined == "" + a + ("; " + b) && joined == (a + "; ") + b + "";
      ContainsWithin(joined, "", a, "; " + b);
      ContainsWithin(joined, a + "; ", b, "");
    }
  }

  /** Every summary given for a node is in the node's summary. */
  lemma {:induction false} EverySummaryIsKept(c: seq<Fact>, f: Fact)
    requires f.NodeFact? && f in c
    ensures f.id in ApplyAll(c).nodes && Contains(ApplyAll(c).nodes[f.id].summary, f.node.summary)
  {
    var n := |c| - 1;
    var rest, last := c[..n], c[n];
    assert c == rest + [last];
    if f in rest {
      EverySummaryIsKept(rest, f);
      if last.NodeFact? && last.id == f.id {
        JoinKeepsBoth(ApplyAll(rest).nodes[f.id].summary, last.node.summary);
        ContainsTrans(ApplyAll(c).nodes[f.id].summary, ApplyAll(rest).nodes[f.id].summary, f.node.summary);
      }
    } else if f.id in ApplyAll(rest).nodes {
      JoinKeepsBoth(ApplyAll(rest).nodes[f.id].summary, f.node.summary);
    } else {
      assert f.node.summary == "" + f.node.summary + "";
      ContainsWithin(f.node.summary, "", f.node.summary, "");
    }
  }

  // ---------- no edge dangles but an event link ----------

  /** Both ends of an edge have nodes by the time it is added, except that a
      finding may name an event that nothing describes. */
  predicate Founded(c: seq<Fact>, f: Fact) {
    f.EdgeFact? ==>
      && HasNode(c, f.key.source) && f.key.source.kind != f.key.target.kind
      && (HasNode(c, f.key.target)
          || (f.rule == EventLink && f.key.source.kind == FindingNode && f.key.target.kind == EventNode && f.key.edgeType == ObservedWith))
  }

  predicate Grounded(c: seq<Fact>) {
    forall k :: 0 <= k < |c| ==> Founded(c[..k], c[k])
  }

  lemma GroundedOneMore(c: seq<Fact>, f: Fact)
    requires Grounded(c) && Founded(c, f)
    ensures Grounded(c + [f])
  {
    forall k | 0 <= k < |c + [f]| ensures Founded((c + [f])[..k], (c + [f])[k]) {
      if k < |c| {
        assert (c + [f])[..k] == c[..k];
      } else {
        assert (c + [f])[..k] == c;
      }
    }
  }

  lemma HasNodeLater(c: seq<Fact>, d: seq<Fact>, id: Id)
    requires c <= d && HasNode(c, id)
    ensures HasNode(d, id)
  {
    var j :| 0 <= j < |c| && c[j].NodeFact? && c[j].id == id;
    assert d[j] == c[j];
  }

  /** Everything in a table is a process with a node. */
  ghost predicate TableKnown(c: seq<Fact>, table: map<string, Id>) {
    forall x :: x in table ==> table[x].kind == ProcessNode && HasNode(c, table[x])
  }

  ghost predicate Known(c: seq<Fact>, t: Tables) {
    TableKnown(c, t.byPid) && TableKnown(c, t.byPath)
  }

  lemma KnownLater(c: seq<Fact>, d: seq<Fact>, t: Tables)
    requires c <= d && Known(c, t)
    ensures Known(d, t)
  {
    forall x | x in t.byPid ensures HasNode(d, t.byPid[x]) { HasNodeLater(c, d, t.byPid[x]); }
    forall x | x in t.byPath ensures HasNode(d, t.byPath[x]) { HasNodeLater(c, d, t.byPath[x]); }
  }

  lemma NodeCalled(c: seq<Fact>, id: Id, node: Node)
    requires Grounded(c)
    ensures Grounded(c + [NodeFact(id, node)]) && HasNode(c + [NodeFact(id, node)], id) && c <= c + [NodeFact(id, node)]
  {
    GroundedOneMore(c, NodeFact(id, node));
    HasOneMore(c, NodeFact(id, node), id, EdgeKey(id, id, Started));
  }

  lemma MentionedKeeps(c: seq<Fact>, w: Wording, id: Id, rule: Rule, kind: NodeType, text: string, edgeType: EdgeType)
    requires Grounded(c) && HasNode(c, id) && id.kind != kind
    ensures var d := MentionedCalls(c, w, id, rule, kind, text, edgeType);
            Grounded(d) && c <= d && HasNode(d, id)
  {
    if text != "" {
      var f := Mentioned(w, id.kind, rule, kind, text);
      NodeCalled(c, f.id, f.node);
      HasNodeLater(c, c + [f], id);
      GroundedOneMore(c + [f], Link(id, NodeId(kind, text), edgeType, rule));
      HasNodeLater(c + [f], c + [f] + [Link(id, NodeId(kind, text), edgeType, rule)], id);
    }
  }

  lemma KnownKeeps(c: seq<Fact>, table: map<string, Id>, id: Id, text: string, edgeType: EdgeType, rule: Rule)
    requires Grounded(c) && HasNode(c, id) && id.kind != ProcessNode && TableKnown(c, table)
    ensures var d := KnownCalls(c, table, id, text, edgeType, rule);
            Grounded(d) && c <= d && HasNode(d, id)
  {
    if text != "" && text in table {
      GroundedOneMore(c, Link(id, table[text], edgeType, rule));
      HasNodeLater(c, c + [Link(id, table[text], edgeType, rule)], id);
    }
  }

  lemma ProcessKeeps(c: seq<Fact>, w: Wording, p: ProcessItem)
    requires Grounded(c)
    ensures Grounded(ProcessCalls(c, w, p)) && c <= ProcessCalls(c, w, p) && HasNode(ProcessCalls(c, w, p), ProcessId(p))
  {
    var id := ProcessId(p);
    NodeCalled(c, id, p.node);
    var d := c + [NodeFact(id, p.node)];
    MentionedKeeps(d, w, id, Owner, UserNode, p.user, OwnedBy);
    MentionedKeeps(MentionedCalls(d, w, id, Owner, UserNode, p.user, OwnedBy), w, id, Executable, FileNode, p.path, Started);
  }

  lemma LaunchKeeps(c: seq<Fact>, w: Wording, t: Tables, x: LaunchItem)
    requires Grounded(c) && Known(c, t)
    ensures Grounded(LaunchCalls(c, w, t, x)) && c <= LaunchCalls(c, w, t, x)
  {
    var id := NodeId(LaunchNode, x.key);
    NodeCalled(c, id, x.node);
    var d := c + [NodeFact(id, x.node)];
    MentionedKeeps(d, w, id, LaunchTarget, FileNode, x.program, Started);
    var e := MentionedCalls(d, w, id, LaunchTarget, FileNode, x.program, Started);
    KnownLater(c, e, t);
    KnownKeeps(e, t.byPath, id, x.program, Started, LaunchRunning);
  }

  lemma PortKeeps(c: seq<Fact>, t: Tables, x: PortItem)
    requires Grounded(c) && Known(c, t)
    ensures Grounded(PortCalls(c, t, x)) && c <= PortCalls(c, t, x)
  {
    var id := NodeId(EndpointNode, EndpointLabel(x));
    NodeCalled(c, id, x.node);
    var d := c + [NodeFact(id, x.node)];
    KnownLater(c, d, t);
    if x.pid != "" && x.pid in t.byPid {
      GroundedOneMore(d, Link(t.byPid[x.pid], id, ConnectedTo, Connection));
    }
  }

  lemma RelatedKeeps(c: seq<Fact>, w: Wording, t: Tables, id: Id, pid: string, path: string, user: string, endpoint: string, edgeType: EdgeType)
    requires Grounded(c) && Known(c, t) && HasNode(c, id) && id.kind in {EventNode, FindingNode}
    ensures var d := RelatedCalls(c, w, t, id, pid, path, user, endpoint, edgeType);
            Grounded(d) && c <= d && HasNode(d, id)
  {
    var d1 := KnownCalls(c, t.byPid, id, pid, edgeType, PidMatch);
    KnownKeeps(c, t.byPid, id, pid, edgeType, PidMatch);
    MentionedKeeps(d1, w, id, RelatedPath, FileNode, path, RelatedTo);
    var d2 := MentionedCalls(d1, w, id, RelatedPath, FileNode, path, RelatedTo);
    KnownLater(c, d2, t);
    KnownKeeps(d2, t.byPath, id, path, edgeType, PathMatch);
    var d3 := KnownCalls(d2, t.byPath, id, path, edgeType, PathMatch);
    MentionedKeeps(d3, w, id, RelatedUser, UserNode, user, RelatedTo);
    MentionedKeeps(MentionedCalls(d3, w, id, RelatedUser, UserNode, user, RelatedTo), w, id, RelatedEndpoint, EndpointNode, endpoint, ConnectedTo);
  }

  lemma EventKeeps(c: seq<Fact>, w: Wording, t: Tables, x: EventItem)
    requires Grounded(c) && Known(c, t)
    ensures Grounded(EventCalls(c, w, t, x)) && c <= EventCalls(c, w, t, x)
  {
    if x.key != "" {
      var id := NodeId(EventNode, x.key);
      NodeCalled(c, id, x.node);
      KnownLater(c, c + [NodeFact(id, x.node)], t);
      RelatedKeeps(c + [NodeFact(id, x.node)], w, t, id, x.relatedPid, x.relatedPath, x.relatedUser, x.relatedEndpoint, ObservedWith);
    }
  }

  lemma {:induction false} MentionsKeep(c: seq<Fact>, t: Tables, id: Id, text: string, k: nat)
    requires Grounded(c) && Known(c, t) && HasNode(c, id) && id.kind == FindingNode && k <= |t.paths|
    ensures var d := MentionCalls(c, t, id, text, k);
            Grounded(d) && c <= d
  {
    if k > 0 {
      MentionsKeep(c, t, id, text, k - 1);
      var d, path := MentionCalls(c, t, id, text, k - 1), t.paths[k - 1];
      KnownLater(c, d, t);
      HasNodeLater(c, d, id);
      if path in t.byPath && Contains(text, path) {
        GroundedOneMore(d, Link(id, t.byPath[path], RelatedTo, Mention));
      }
    }
  }

  lemma FindingKeeps(c: seq<Fact>, w: Wording, t: Tables, x: FindingItem)
    requires Grounded(c) && Known(c, t)
    ensures Grounded(FindingCalls(c, w, t, x)) && c <= FindingCalls(c, w, t, x)
  {
    if x.key != "" {
      var id := NodeId(FindingNode, x.key);
      var d0 := c + [NodeFact(id, x.node)];
      NodeCalled(c, id, x.node);
      KnownLater(c, d0, t);
      RelatedKeeps(d0, w, t, id, x.relatedPid, x.relatedPath, x.relatedUser, x.relatedEndpoint, RelatedTo);
      var d := RelatedCalls(d0, w, t, id, x.relatedPid, x.relatedPath, x.relatedUser, x.relatedEndpoint, RelatedTo);
      var e := EventIdCalls(d, id, x.eventId);
      if x.eventId != "" {
        GroundedOneMore(d, Link(id, NodeId(EventNode, x.eventId), ObservedWith, EventLink));
      }
      KnownLater(d0, e, t);
      HasNodeLater(d, e, id);
      MentionsKeep(e, t, id, x.text, |t.paths|);
    }
  }

  ghost predicate Good(c: seq<Fact>, t: Tables) {
    Grounded(c) && Known(c, t)
  }

  lemma {:induction false} EachKeeps<T>(c: seq<Fact>, xs: seq<T>, step: (seq<Fact>, T) -> seq<Fact>, t: Tables)
    requires Good(c, t)
    requires forall d, x :: Good(d, t) ==> Grounded(step(d, x)) && d <= step(d, x)
    ensures Good(Each(c, xs, step), t)
  {
    if xs != [] {
      var d := Each(c, xs[..|xs| - 1], step);
      EachKeeps(c, xs[..|xs| - 1], step, t);
      KnownLater(d, step(d, xs[|xs| - 1]), t);
    }
  }

  lemma {:induction false} ProcessesKeep(w: Wording, ps: seq<ProcessItem>)
    ensures Good(Each([], ps, ProcessStep(w)), TablesOf(ps))
  {
    if ps != [] {
      var n := |ps| - 1;
      ProcessesKeep(w, ps[..n]);
      var c := Each([], ps[..n], ProcessStep(w));
      ProcessKeeps(c, w, ps[n]);
      KnownLater(c, ProcessCalls(c, w, ps[n]), TablesOf(ps[..n]));
    }
  }

  lemma PlainsKeep(c: seq<Fact>, kind: NodeType, xs: seq<PlainItem>, t: Tables)
    requires Good(c, t)
    ensures Good(Each(c, xs, PlainStep(kind)), t)
  {
    forall d, x | Good(d, t) ensures Grounded(PlainCalls(d, kind, x)) && d <= PlainCalls(d, kind, x) {
      NodeCalled(d, NodeId(kind, x.key), x.node);
    }
    EachKeeps(c, xs, PlainStep(kind), t);
  }

  lemma InventoryKeeps(w: Wording, a: Artifacts)
    ensures Good(InventoryCalls(w, a), TablesOf(a.processes))
  {
    var t := TablesOf(a.processes);
    ProcessesKeep(w, a.processes);
    var c1 := Each([], a.processes, ProcessStep(w));
    PlainsKeep(c1, UserNode, a.users, t);
    var c2 := Each(c1, a.users, PlainStep(UserNode));
    PlainsKeep(c2, FileNode, a.files, t);
    var c3 := Each(c2, a.files, PlainStep(FileNode));
    forall d, x | Good(d, t) ensures Grounded(LaunchCalls(d, w, t, x)) && d <= LaunchCalls(d, w, t, x) { LaunchKeeps(d, w, t, x); }
    EachKeeps(c3, a.launches, LaunchStep(w, t), t);
    var c4 := Each(c3, a.launches, LaunchStep(w, t));
    forall d, x | Good(d, t) ensures Grounded(PortCalls(d, t, x)) && d <= PortCalls(d, t, x) { PortKeeps(d, t, x); }
    EachKeeps(c4, a.ports, PortStep(t), t);
    var c5 := Each(c4, a.ports, PortStep(t));
    PlainsKeep(c5, DeviceNode, a.devices, t);
    PlainsKeep(Each(c5, a.devices, PlainStep(DeviceNode)), SnapshotNode, a.snapshots, t);
  }

  lemma AllCallsGrounded(w: Wording, a: Artifacts)
    ensures Grounded(AllCalls(w, a))
  {
    var t := TablesOf(a.processes);
    InventoryKeeps(w, a);
    var c := InventoryCalls(w, a);
    forall d, x | Good(d, t) ensures Grounded(EventCalls(d, w, t, x)) && d <= EventCalls(d, w, t, x) { EventKeeps(d, w, t, x); }
    EachKeeps(c, a.events, EventStep(w, t), t);
    forall d, x | Good(d, t) ensures Grounded(FindingCalls(d, w, t, x)) && d <= FindingCalls(d, w, t, x) { FindingKeeps(d, w, t, x); }
    EachKeeps(Each(c, a.events, EventStep(w, t)), a.findings, FindingStep(w, t), t);
  }

  /** An edge of a graph with both its nodes, or a finding's event link. */
  predicate Anchored(g: Graph, key: EdgeKey)
    requires key in g.edges
  {
    && key.source in g.nodes && key.source.kind != key.target.kind
    && (key.target in g.nodes
        || (g.edges[key] == EventLink && key.source.kind == FindingNode && key.target.kind == EventNode && key.edgeType == ObservedWith))
  }

  /** At every moment of every build, each edge joins nodes of different types
      that are both present, except that the event a finding names may be
      missing. So no call is ever dropped as a self-loop. */
  lemma NoEdgeDangles(w: Wording, a: Artifacts, k: nat, key: EdgeKey)
    requires k <= |AllCalls(w, a)|
    ensures var c := AllCalls(w, a)[..k];
            && (key in ApplyAll(c).edges <==> HasEdge(c, key))
            && (key in ApplyAll(c).edges ==> Anchored(ApplyAll(c), key))
  {
    var all := AllCalls(w, a);
    var c := all[..k];
    AllCallsGrounded(w, a);
    FirstOnes(c, key.source, key);
    GraphIsWhatWasCalled(c, key.source, key);
    GraphIsWhatWasCalled(c, key.target, key);
    if HasEdge(c, key) {
      var i := FirstEdge(c, key);
      assert all[..i] <= c && Founded(all[..i], all[i]);
      HasNodeLater(all[..i], c, key.source);
      if HasNode(all[..i], key.target) { HasNodeLater(all[..i], c, key.target); }
    }
  }

  /** Different nodes of a graph have different id texts. */
  lemma NodeTextsAreUnique(g: Graph, a: Id, b: Id)
    requires a in g.nodes && b in g.nodes
    ensures Text(a) == Text(b) <==> a == b
  {
    if Text(a) == Text(b) { TextDetermines(a, b); }
  }

  // ---------- which processes a finding is linked to ----------

  /** The last process with its path, which the path table keeps. */
  predicate LastAtPath(ps: seq<ProcessItem>, j: nat)
    requires j < |ps|
  {
    ps[j].path != "" && forall k :: j < k < |ps| ==> ps[k].path != ps[j].path
  }

  predicate PidOf(ps: seq<ProcessItem>, pid: string, id: Id) {
    pid != "" && exists j :: 0 <= j < |ps| && ps[j].pid == pid && ProcessId(ps[j]) == id
  }

  predicate PathOf(ps: seq<ProcessItem>, path: string, id: Id) {
    exists j :: 0 <= j < |ps| && LastAtPath(ps, j) && ps[j].path == path && ProcessId(ps[j]) == id
  }

  lemma LastAtPathNext(ps: seq<ProcessItem>, p: ProcessItem, path: string, id: Id)
    ensures PathOf(ps + [p], path, id) <==> (if p.path == path && path != "" then ProcessId(p) == id else PathOf(ps, path, id))
    ensures PidOf(ps + [p], path, id) <==> PidOf(ps, path, id) || (path != "" && p.pid == path && ProcessId(p) == id)
  {
    var qs := ps + [p];
    assert qs[|ps|] == p && forall j :: 0 <= j < |ps| ==> qs[j] == ps[j];
    assert forall j :: 0 <= j < |ps| ==> (LastAtPath(qs, j) <==> LastAtPath(ps, j) && ps[j].path != p.path);
    assert LastAtPath(qs, |ps|) <==> p.path != "";
  }

  lemma PidDecides(ps: seq<ProcessItem>, pid: string, id: Id)
    ensures PidOf(ps, pid, id) ==> id == NodeId(ProcessNode, pid)
  {}

  lemma {:induction false} PidTableIsExact(ps: seq<ProcessItem>, x: string, id: Id)
    ensures var t := TablesOf(ps).byPid;
            && (x in t && t[x] == id <==> PidOf(ps, x, id)) && (x in t ==> x != "" && t[x] == NodeId(ProcessNode, x))
  {
    if ps != [] {
      var n := |ps| - 1;
      assert ps == ps[..n] + [ps[n]];
      PidTableIsExact(ps[..n], x, id);
      LastAtPathNext(ps[..n], ps[n], x, id);
      PidDecides(ps[..n], x, id);
    }
  }

  lemma {:induction false} PathTableIsExact(ps: seq<ProcessItem>, x: string, id: Id)
    ensures var t := TablesOf(ps);
            && (x in t.byPath && t.byPath[x] == id <==> PathOf(ps, x, id)) && (x in t.byPath ==> x != "")
            && (x in t.paths <==> x in t.byPath)
  {
    if ps != [] {
      var n := |ps| - 1;
      assert ps == ps[..n] + [ps[n]];
      PathTableIsExact(ps[..n], x, id);
      LastAtPathNext(ps[..n], ps[n], x, id);
    }
  }

  // ---------- what the artifacts declare ----------

  /** A mentioned text declares its node and the edge to it. */
  predicate MentionDeclares(w: Wording, id: Id, rule: Rule, kind: NodeType, text: string, edgeType: EdgeType, f: Fact) {
    text != "" && (f == NodeFact(NodeId(kind, text), Node(text, w.summary(id.kind, rule), map[w.field(kind) := text]))
                   || f == EdgeFact(EdgeKey(id, NodeId(kind, text), edgeType), rule))
  }

  predicate IsEdge(f: Fact, source: Id, edgeType: EdgeType, rule: Rule) {
    f.EdgeFact? && f.rule == rule && f.key.source == source && f.key.edgeType == edgeType
  }

  predicate ProcessDeclares(w: Wording, p: ProcessItem, f: Fact) {
    || f == NodeFact(ProcessId(p), p.node)
    || MentionDeclares(w, ProcessId(p), Owner, UserNode, p.user, OwnedBy, f)
    || MentionDeclares(w, ProcessId(p), Executable, FileNode, p.path, Started, f)
  }

  predicate PlainDeclares(kind: NodeType, x: PlainItem, f: Fact) {
    x.key != "" && f == NodeFact(NodeId(kind, x.key), x.node)
  }

  /** A launch item leads to its program and to the last process of that path. */
  predicate LaunchDeclares(w: Wording, ps: seq<ProcessItem>, x: LaunchItem, f: Fact) {
    var id := NodeId(LaunchNode, x.key);
    || f == NodeFact(id, x.node)
    || MentionDeclares(w, id, LaunchTarget, FileNode, x.program, Started, f)
    || (IsEdge(f, id, Started, LaunchRunning) && PathOf(ps, x.program, f.key.target))
  }

  /** A port leads from the process with its pid. */
  predicate PortDeclares(ps: seq<ProcessItem>, x: PortItem, f: Fact) {
    var id := NodeId(EndpointNode, EndpointLabel(x));
    EndpointLabel(x) != "" &&
    (f == NodeFact(id, x.node)
     || (f.EdgeFact? && f.rule == Connection && f.key.edgeType == ConnectedTo && f.key.target == id && PidOf(ps, x.pid, f.key.source)))
  }

  /** What an event or finding is related to: the process with the pid, the last
      process of the path, the path, the user and the endpoint. */
  predicate RelatedDeclares(w: Wording, ps: seq<ProcessItem>, id: Id, pid: string, path: string, user: string, endpoint: string, edgeType: EdgeType, f: Fact) {
    || (IsEdge(f, id, edgeType, PidMatch) && PidOf(ps, pid, f.key.target))
    || (IsEdge(f, id, edgeType, PathMatch) && PathOf(ps, path, f.key.target))
    || MentionDeclares(w, id, RelatedPath, FileNode, path, RelatedTo, f)
    || MentionDeclares(w, id, RelatedUser, UserNode, user, RelatedTo, f)
    || MentionDeclares(w, id, RelatedEndpoint, EndpointNode, endpoint, ConnectedTo, f)
  }

  predicate EventDeclares(w: Wording, ps: seq<ProcessItem>, x: EventItem, f: Fact) {
    var id := NodeId(EventNode, x.key);
    x.key != "" &&
    (f == NodeFact(id, x.node)
     || RelatedDeclares(w, ps, id, x.relatedPid, x.relatedPath, x.relatedUser, x.relatedEndpoint, ObservedWith, f))
  }

  /** The last process of a path that the text mentions. */
  predicate MentionedProcess(ps: seq<ProcessItem>, text: string, target: Id) {
    exists j :: 0 <= j < |ps| && LastAtPath(ps, j) && ProcessId(ps[j]) == target && Contains(text, ps[j].path)
  }

  predicate FindingDeclares(w: Wording, ps: seq<ProcessItem>, x: FindingItem, f: Fact) {
    var id := NodeId(FindingNode, x.key);
    x.key != "" &&
    (f == NodeFact(id, x.node)
     || RelatedDeclares(w, ps, id, x.relatedPid, x.relatedPath, x.relatedUser, x.relatedEndpoint, RelatedTo, f)
     || (x.eventId != "" && IsEdge(f, id, ObservedWith, EventLink) && f.key.target == NodeId(EventNode, x.eventId))
     || (IsEdge(f, id, RelatedTo, Mention) && MentionedProcess(ps, x.text, f.key.target)))
  }

  /** Some artifact declares f. */
  predicate Declared(w: Wording, a: Artifacts, f: Fact) {
    || (exists x :: x in a.processes && ProcessDeclares(w, x, f))
    || (exists x :: x in a.users && PlainDeclares(UserNode, x, f))
    || (exists x :: x in a.files && PlainDeclares(FileNode, x, f))
    || (exists x :: x in a.launches && LaunchDeclares(w, a.processes, x, f))
    || (exists x :: x in a.ports && PortDeclares(a.processes, x, f))
    || (exists x :: x in a.devices && PlainDeclares(DeviceNode, x, f))
    || (exists x :: x in a.snapshots && PlainDeclares(SnapshotNode, x, f))
    || (exists x :: x in a.events && EventDeclares(w, a.processes, x, f))
    || (exists x :: x in a.findings && FindingDeclares(w, a.processes, x, f))
  }

  // ---------- the calls made are those declared ----------

  lemma MentionedIn(c: seq<Fact>, w: Wording, id: Id, rule: Rule, kind: NodeType, text: string, edgeType: EdgeType, f: Fact)
    ensures f in MentionedCalls(c, w, id, rule, kind, text, edgeType) <==> f in c || MentionDeclares(w, id, rule, kind, text, edgeType, f)
  {
    if text != "" {
      TwoMore(c, Mentioned(w, id.kind, rule, kind, text), Link(id, NodeId(kind, text), edgeType, rule), f);
    }
  }

  lemma TwoMore(c: seq<Fact>, m: Fact, l: Fact, f: Fact)
    ensures f in c + [m] + [l] <==> f in c || f == m || f == l
  {}

  lemma PidIn(c: seq<Fact>, ps: seq<ProcessItem>, id: Id, pid: string, edgeType: EdgeType, f: Fact)
    ensures f in KnownCalls(c, TablesOf(ps).byPid, id, pid, edgeType, PidMatch)
            <==> f in c || (IsEdge(f, id, edgeType, PidMatch) && PidOf(ps, pid, f.key.target))
  {
    if f.EdgeFact? { PidTableIsExact(ps, pid, f.key.target); }
  }

  lemma PathIn(c: seq<Fact>, ps: seq<ProcessItem>, id: Id, path: string, edgeType: EdgeType, rule: Rule, f: Fact)
    ensures f in KnownCalls(c, TablesOf(ps).byPath, id, path, edgeType, rule)
            <==> f in c || (IsEdge(f, id, edgeType, rule) && PathOf(ps, path, f.key.target))
  {
    if f.EdgeFact? { PathTableIsExact(ps, path, f.key.target); }
  }

  lemma ProcessIn(c: seq<Fact>, w: Wording, p: ProcessItem, f: Fact)
    ensures f in ProcessCalls(c, w, p) <==> f in c || ProcessDeclares(w, p, f)
  {
    var id := ProcessId(p);
    var d := c + [NodeFact(id, p.node)];
    MentionedIn(d, w, id, Owner, UserNode, p.user, OwnedBy, f);
    MentionedIn(MentionedCalls(d, w, id, Owner, UserNode, p.user, OwnedBy), w, id, Executable, FileNode, p.path, Started, f);
  }

  lemma LaunchIn(c: seq<Fact>, w: Wording, ps: seq<ProcessItem>, x: LaunchItem, f: Fact)
    ensures f in LaunchCalls(c, w, TablesOf(ps), x) <==> f in c || LaunchDeclares(w, ps, x, f)
  {
    var id := NodeId(LaunchNode, x.key);
    var d := c + [NodeFact(id, x.node)];
    MentionedIn(d, w, id, LaunchTarget, FileNode, x.program, Started, f);
    PathIn(MentionedCalls(d, w, id, LaunchTarget, FileNode, x.program, Started), ps, id, x.program, Started, LaunchRunning, f);
  }

  lemma PortIn(c: seq<Fact>, ps: seq<ProcessItem>, x: PortItem, f: Fact)
    ensures f in PortCalls(c, TablesOf(ps), x) <==> f in c || PortDeclares(ps, x, f)
  {
    if f.EdgeFact? { PidTableIsExact(ps, x.pid, f.key.source); }
  }

  lemma RelatedIn(c: seq<Fact>, w: Wording, ps: seq<ProcessItem>, id: Id, pid: string, path: string, user: string, endpoint: string, edgeType: EdgeType, f: Fact)
    ensures f in RelatedCalls(c, w, TablesOf(ps), id, pid, path, user, endpoint, edgeType)
            <==> f in c || RelatedDeclares(w, ps, id, pid, path, user, endpoint, edgeType, f)
  {
    var t := TablesOf(ps);
    var d1 := KnownCalls(c, t.byPid, id, pid, edgeType, PidMatch);
    var d2 := MentionedCalls(d1, w, id, RelatedPath, FileNode, path, RelatedTo);
    var d3 := KnownCalls(d2, t.byPath, id, path, edgeType, PathMatch);
    var d4 := MentionedCalls(d3, w, id, RelatedUser, UserNode, user, RelatedTo);
    PidIn(c, ps, id, pid, edgeType, f);
    MentionedIn(d1, w, id, RelatedPath, FileNode, path, RelatedTo, f);
    PathIn(d2, ps, id, path, edgeType, PathMatch, f);
    MentionedIn(d3, w, id, RelatedUser, UserNode, user, RelatedTo, f);
    MentionedIn(d4, w, id, RelatedEndpoint, EndpointNode, endpoint, ConnectedTo, f);
  }

  lemma EventIn(c: seq<Fact>, w: Wording, ps: seq<ProcessItem>, x: EventItem, f: Fact)
    ensures f in EventCalls(c, w, TablesOf(ps), x) <==> f in c || EventDeclares(w, ps, x, f)
  {
    var id := NodeId(EventNode, x.key);
    RelatedIn(c + [NodeFact(id, x.node)], w, ps, id, x.relatedPid, x.relatedPath, x.relatedUser, x.relatedEndpoint, ObservedWith, f);
  }

  predicate MentionLeads(t: Tables, text: string, k: nat, target: Id)
    requires k <= |t.paths|
  {
    exists j :: 0 <= j < k && Contains(text, t.paths[j]) && t.paths[j] in t.byPath && t.byPath[t.paths[j]] == target
  }

  lemma {:induction false} MentionsIn(c: seq<Fact>, t: Tables, id: Id, text: string, k: nat, f: Fact)
    requires k <= |t.paths|
    ensures f in MentionCalls(c, t, id, text, k)
            <==> f in c || (IsEdge(f, id, RelatedTo, Mention) && MentionLeads(t, text, k, f.key.target))
  {
    if k > 0 {
      MentionsIn(c, t, id, text, k - 1, f);
      var path := t.paths[k - 1];
      if f.EdgeFact? {
        assert MentionLeads(t, text, k, f.key.target)
               <==> MentionLeads(t, text, k - 1, f.key.target) || (path in t.byPath && Contains(text, path) && t.byPath[path] == f.key.target);
      }
    }
  }

  lemma MentionLeadsToLast(ps: seq<ProcessItem>, text: string, target: Id)
    ensures MentionLeads(TablesOf(ps), text, |TablesOf(ps).paths|, target) <==> MentionedProcess(ps, text, target)
  {
    var t := TablesOf(ps);
    if MentionLeads(t, text, |t.paths|, target) {
      var i :| 0 <= i < |t.paths| && Contains(text, t.paths[i]) && t.paths[i] in t.byPath && t.byPath[t.paths[i]] == target;
      PathTableIsExact(ps, t.paths[i], target);
    }
    if j :| 0 <= j < |ps| && LastAtPath(ps, j) && ProcessId(ps[j]) == target && Contains(text, ps[j].path) {
      PathTableIsExact(ps, ps[j].path, target);
      assert ps[j].path in t.paths;
    }
  }

  lemma FindingIn(c: seq<Fact>, w: Wording, ps: seq<ProcessItem>, x: FindingItem, f: Fact)
    ensures f in FindingCalls(c, w, TablesOf(ps), x) <==> f in c || FindingDeclares(w, ps, x, f)
  {
    if x.key != "" {
      var t, id := TablesOf(ps), NodeId(FindingNode, x.key);
      var d0 := c + [NodeFact(id, x.node)];
      RelatedIn(d0, w, ps, id, x.relatedPid, x.relatedPath, x.relatedUser, x.relatedEndpoint, RelatedTo, f);
      var d := RelatedCalls(d0, w, t, id, x.relatedPid, x.relatedPath, x.relatedUser, x.relatedEndpoint, RelatedTo);
      EventIdIn(d, id, x.eventId, f);
      TextIn(EventIdCalls(d, id, x.eventId), ps, id, x.text, f);
    }
  }

  lemma EventIdIn(c: seq<Fact>, id: Id, eventId: string, f: Fact)
    ensures f in EventIdCalls(c, id, eventId)
            <==> f in c || (eventId != "" && IsEdge(f, id, ObservedWith, EventLink) && f.key.target == NodeId(EventNode, eventId))
  {}

  lemma TextIn(c: seq<Fact>, ps: seq<ProcessItem>, id: Id, text: string, f: Fact)
    ensures var t := TablesOf(ps);
            f in MentionCalls(c, t, id, text, |t.paths|) <==> f in c || (IsEdge(f, id, RelatedTo, Mention) && MentionedProcess(ps, text, f.key.target))
  {
    var t := TablesOf(ps);
    MentionsIn(c, t, id, text, |t.paths|, f);
    if f.EdgeFact? { MentionLeadsToLast(ps, text, f.key.target); }
  }

  /** Each x makes the call f exactly when it declares it. */
  ghost predicate MakesDeclared<T(!new)>(step: (seq<Fact>, T) -> seq<Fact>, declares: T -> bool, f: Fact) {
    forall c, x :: f in step(c, x) <==> f in c || declares(x)
  }

  lemma {:induction false} EachMakes<T(!new)>(c: seq<Fact>, xs: seq<T>, step: (seq<Fact>, T) -> seq<Fact>, declares: T -> bool, f: Fact)
    requires MakesDeclared(step, declares, f)
    ensures f in Each(c, xs, step) <==> f in c || exists x :: x in xs && declares(x)
  {
    if xs != [] {
      var n := |xs| - 1;
      EachMakes(c, xs[..n], step, declares, f);
      assert xs == xs[..n] + [xs[n]];
    }
  }

  lemma PlainsMake(c: seq<Fact>, kind: NodeType, xs: seq<PlainItem>, f: Fact)
    ensures f in Each(c, xs, PlainStep(kind)) <==> f in c || exists x :: x in xs && PlainDeclares(kind, x, f)
  {
    EachMakes(c, xs, PlainStep(kind), x => PlainDeclares(kind, x, f), f);
  }

  /** The calls of a build are exactly what some artifact declares. */
  lemma CallsAreDeclared(w: Wording, a: Artifacts, f: Fact)
    ensures f in AllCalls(w, a) <==> Declared(w, a, f)
  {
    var ps, t := a.processes, TablesOf(a.processes);
    forall c, x ensures f in ProcessCalls(c, w, x) <==> f in c || ProcessDeclares(w, x, f) { ProcessIn(c, w, x, f); }
    EachMakes([], ps, ProcessStep(w), x => ProcessDeclares(w, x, f), f);
    var c1 := Each([], ps, ProcessStep(w));
    PlainsMake(c1, UserNode, a.users, f);
    var c2 := Each(c1, a.users, PlainStep(UserNode));
    PlainsMake(c2, FileNode, a.files, f);
    var c3 := Each(c2, a.files, PlainStep(FileNode));
    forall c, x ensures f in LaunchCalls(c, w, t, x) <==> f in c || LaunchDeclares(w, ps, x, f) { LaunchIn(c, w, ps, x, f); }
    EachMakes(c3, a.launches, LaunchStep(w, t), x => LaunchDeclares(w, ps, x, f), f);
    var c4 := Each(c3, a.launches, LaunchStep(w, t));
    forall c, x ensures f in PortCalls(c, t, x) <==> f in c || PortDeclares(ps, x, f) { PortIn(c, ps, x, f); }
    EachMakes(c4, a.ports, PortStep(t), x => PortDeclares(ps, x, f), f);
    var c5 := Each(c4, a.ports, PortStep(t));
    PlainsMake(c5, DeviceNode, a.devices, f);
    var c6 := Each(c5, a.devices, PlainStep(DeviceNode));
    PlainsMake(c6, SnapshotNode, a.snapshots, f);
    var c7 := Each(c6, a.snapshots, PlainStep(SnapshotNode));
    EventsAndFindingsMake(c7, w, a, f);
  }

  lemma EventsAndFindingsMake(c: seq<Fact>, w: Wording, a: Artifacts, f: Fact)
    ensures var t := TablesOf(a.processes);
            f in Each(Each(c, a.events, EventStep(w, t)), a.findings, FindingStep(w, t))
            <==> f in c || (exists x :: x in a.events && EventDeclares(w, a.processes, x, f)) || (exists x :: x in a.findings && FindingDeclares(w, a.processes, x, f))
  {
    var ps, t := a.processes, TablesOf(a.processes);
    forall d, x ensures f in EventCalls(d, w, t, x) <==> f in d || EventDeclares(w, ps, x, f) { EventIn(d, w, ps, x, f); }
    EachMakes(c, a.events, EventStep(w, t), x => EventDeclares(w, ps, x, f), f);
    forall d, x ensures f in FindingCalls(d, w, t, x) <==> f in d || FindingDeclares(w, ps, x, f) { FindingIn(d, w, ps, x, f); }
    EachMakes(Each(c, a.events, EventStep(w, t)), a.findings, FindingStep(w, t), x => FindingDeclares(w, ps, x, f), f);
  }

  lemma HasMeansIn(c: seq<Fact>, id: Id, key: EdgeKey)
    ensures HasNode(c, id) <==> exists node :: NodeFact(id, node) in c
    ensures HasEdge(c, key) <==> exists rule :: EdgeFact(key, rule) in c
  {
    forall j | 0 <= j < |c| ensures c[j] in c && (c[j].NodeFact? ==> c[j] == NodeFact(c[j].id, c[j].node)) && (c[j].EdgeFact? ==> c[j] == EdgeFact(c[j].key, c[j].rule)) {}
  }

  /** The graph of a build has exactly the nodes and edges some artifact
      declares, under a caption and a rule declared for them. */
  lemma GraphIsWhatIsDeclared(w: Wording, a: Artifacts, id: Id, key: EdgeKey)
    ensures var g := ApplyAll(AllCalls(w, a));
            && (id in g.nodes <==> exists node :: Declared(w, a, NodeFact(id, node)))
            && (id in g.nodes ==> exists node :: Declared(w, a, NodeFact(id, node)) && node.caption == g.nodes[id].caption)
            && (key in g.edges <==> exists rule :: Declared(w, a, EdgeFact(key, rule)))
            && (key in g.edges ==> Declared(w, a, EdgeFact(key, g.edges[key])))
  {
    var all := AllCalls(w, a);
    forall f ensures f in all <==> Declared(w, a, f) { CallsAreDeclared(w, a, f); }
    HasMeansIn(all, id, key);
    GraphIsWhatWasCalled(all, id, key);
    NoEdgeDangles(w, a, |all|, key);
    assert all[..|all|] == all;
    if HasEdge(all, key) {
      assert all[FirstEdge(all, key)] in all;
      FirstOnes(all, id, key);
      assert all[FirstEdge(all, key)] == EdgeFact(key, all[FirstEdge(all, key)].rule);
    }
    if HasNode(all, id) {
      FirstOnes(all, id, key);
      assert all[FirstNode(all, id)] in all;
      assert all[FirstNode(all, id)] == NodeFact(id, all[FirstNode(all, id)].node);
    }
  }

  /** Processes with different clean pids have nodes of their own. */
  lemma PidsHaveTheirOwnNodes(w: Wording, a: Artifacts, p: ProcessItem, q: ProcessItem)
    requires p in a.processes && q in a.processes && p.pid != "" && q.pid != "" && CleanKey(p.pid) && CleanKey(q.pid)
    ensures var nodes := ApplyAll(AllCalls(w, a)).nodes;
            && ProcessId(p) in nodes && ProcessId(q) in nodes
            && (Text(ProcessId(p)) == Text(ProcessId(q)) <==> p.pid == q.pid)
  {
    var key := EdgeKey(ProcessId(p), ProcessId(p), Started);
    GraphIsWhatIsDeclared(w, a, ProcessId(p), key);
    GraphIsWhatIsDeclared(w, a, ProcessId(q), key);
    assert ProcessDeclares(w, p, NodeFact(ProcessId(p), p.node)) && ProcessDeclares(w, q, NodeFact(ProcessId(q), q.node));
    assert Declared(w, a, NodeFact(ProcessId(p), p.node)) && Declared(w, a, NodeFact(ProcessId(q), q.node));
    CleanKeysDiffer(ProcessNode, p.pid, q.pid);
    NodeTextsAreUnique(ApplyAll(AllCalls(w, a)), ProcessId(p), ProcessId(q));
  }

  // ---------- which processes a finding is linked to ----------

  predicate FindingProcess(key: EdgeKey) {
    key.source.kind == FindingNode && key.target.kind == ProcessNode
  }

  /** A finding is linked to a process exactly when it names the process's pid,
      or the path of the last process there, or its text mentions that path. */
  predicate Names(ps: seq<ProcessItem>, x: FindingItem, key: EdgeKey) {
    && x.key != "" && NodeId(FindingNode, x.key) == key.source && key.edgeType == RelatedTo
    && exists j :: 0 <= j < |ps| && ProcessId(ps[j]) == key.target
                   && ((x.relatedPid != "" && ps[j].pid == x.relatedPid)
                       || (LastAtPath(ps, j) && (x.relatedPath == ps[j].path || Contains(x.text, ps[j].path))))
  }

  /** Only related pids, related paths and mentions lead a finding to a process. */
  lemma FindingProcessDeclared(w: Wording, ps: seq<ProcessItem>, x: FindingItem, key: EdgeKey, rule: Rule)
    requires FindingProcess(key)
    ensures FindingDeclares(w, ps, x, EdgeFact(key, rule)) <==>
              && x.key != "" && NodeId(FindingNode, x.key) == key.source && key.edgeType == RelatedTo
              && (match rule
                  case PidMatch => PidOf(ps, x.relatedPid, key.target)
                  case PathMatch => PathOf(ps, x.relatedPath, key.target)
                  case Mention => MentionedProcess(ps, x.text, key.target)
                  case _ => false)
  {}

  lemma NamesIsDeclaring(w: Wording, ps: seq<ProcessItem>, x: FindingItem, key: EdgeKey)
    requires FindingProcess(key)
    ensures Names(ps, x, key) <==> exists rule :: FindingDeclares(w, ps, x, EdgeFact(key, rule))
  {
    if rule :| FindingDeclares(w, ps, x, EdgeFact(key, rule)) {
      FindingProcessDeclared(w, ps, x, key, rule);
    }
    FindingProcessDeclared(w, ps, x, key, PidMatch);
    FindingProcessDeclared(w, ps, x, key, PathMatch);
    FindingProcessDeclared(w, ps, x, key, Mention);
    NamesSplits(ps, x, key);
  }

  lemma NamesSplits(ps: seq<ProcessItem>, x: FindingItem, key: EdgeKey)
    ensures Names(ps, x, key) <==>
              && x.key != "" && NodeId(FindingNode, x.key) == key.source && key.edgeType == RelatedTo
              && (PidOf(ps, x.relatedPid, key.target) || PathOf(ps, x.relatedPath, key.target) || MentionedProcess(ps, x.text, key.target))
  {}

  lemma OnlyFindingsLead(w: Wording, a: Artifacts, key: EdgeKey, rule: Rule)
    requires FindingProcess(key)
    ensures Declared(w, a, EdgeFact(key, rule)) <==> exists x :: x in a.findings && FindingDeclares(w, a.processes, x, EdgeFact(key, rule))
  {
    var f := EdgeFact(key, rule);
    forall x: ProcessItem ensures !ProcessDeclares(w, x, f) {}
    forall x: LaunchItem ensures !LaunchDeclares(w, a.processes, x, f) {}
    forall x: PortItem ensures !PortDeclares(a.processes, x, f) {}
    forall x: EventItem ensures !EventDeclares(w, a.processes, x, f) {}
  }

  /** The edges from findings to processes are exactly those the artifacts call
      for, whatever else is in them. */
  lemma FindingToProcess(w: Wording, a: Artifacts, key: EdgeKey)
    requires FindingProcess(key)
    ensures key in ApplyAll(AllCalls(w, a)).edges <==> exists x :: x in a.findings && Names(a.processes, x, key)
  {
    GraphIsWhatIsDeclared(w, a, key.source, key);
    if rule :| Declared(w, a, EdgeFact(key, rule)) {
      OnlyFindingsLead(w, a, key, rule);
      var x :| x in a.findings && FindingDeclares(w, a.processes, x, EdgeFact(key, rule));
      NamesIsDeclaring(w, a.processes, x, key);
    }
    if x :| x in a.findings && Names(a.processes, x, key) {
      NamesIsDeclaring(w, a.processes, x, key);
      var rule :| FindingDeclares(w, a.processes, x, EdgeFact(key, rule));
      assert Declared(w, a, EdgeFact(key, rule));
    }
  }

  // ---------- which event links dangle ----------

  /** x is an artifact of the event. */
  predicate Describes(x: EventItem, id: Id) {
    x.key != "" && NodeId(EventNode, x.key) == id
  }

  lemma NoMentionIsAnEvent(w: Wording, id: Id, node: Node)
    requires id.kind == EventNode
    ensures forall owner, rule, kind, text, edgeType :: kind != EventNode ==> !MentionDeclares(w, owner, rule, kind, text, edgeType, NodeFact(id, node))
  {}

  lemma OnlyEventsDescribe(w: Wording, a: Artifacts, id: Id, node: Node)
    requires id.kind == EventNode && Declared(w, a, NodeFact(id, node))
    ensures exists x :: x in a.events && Describes(x, id)
  {
    var f := NodeFact(id, node);
    NoMentionIsAnEvent(w, id, node);
    forall x: ProcessItem ensures !ProcessDeclares(w, x, f) {}
    forall x: LaunchItem ensures !LaunchDeclares(w, a.processes, x, f) {}
    forall x: FindingItem ensures !FindingDeclares(w, a.processes, x, f) {}
    forall x: EventItem ensures EventDeclares(w, a.processes, x, f) ==> Describes(x, id) {}
  }

  /** An event has a node exactly when an event artifact describes it: a
      finding's event link dangles exactly when none does. */
  lemma EventNodesAreDescribed(w: Wording, a: Artifacts, id: Id)
    requires id.kind == EventNode
    ensures id in ApplyAll(AllCalls(w, a)).nodes <==> exists x :: x in a.events && Describes(x, id)
  {
    GraphIsWhatIsDeclared(w, a, id, EdgeKey(id, id, Started));
    if x :| x in a.events && Describes(x, id) {
      assert EventDeclares(w, a.processes, x, NodeFact(id, x.node));
      assert Declared(w, a, NodeFact(id, x.node));
    }
    if node :| Declared(w, a, NodeFact(id, node)) {
      OnlyEventsDescribe(w, a, id, node);
    }
  }
}
