/** The emergency response state machine (mac_audit_agent/emergency_response.py):
    a stored incident, a bounded timeline, evidence files that anyone may touch,
    and containment adapters whose answers are arbitrary. */
module EmergencyResponse {
  import opened Common

  type Bytes = seq<bv8>
  type NetState = map<string, string>

  datatype Phase = Normal | Warning | Investigation | ContainmentActive | RecoveryMode

  /** `expiresAt` is None when the text is not a time stamp. */
  datatype Authorization = Authorization(username: string, source: string, authenticated: bool, administrator: bool, expiresAt: Option<int>)

  predicate Authorized(a: Authorization, now: int) {
    && !Blank(a.username) && !Blank(a.source)
    && a.expiresAt.Some? && a.authenticated && a.administrator && a.expiresAt.value > now
  }

  datatype Network = Network(previous: NetState, current: NetState)

  datatype Containment = NotContained | NetworkRestricted | ProcessContained | Released

  datatype Incident = Incident(
    id: string, phase: Phase, threatLevel: string, reason: string, activatedAt: string, activatedBy: string,
    authorizationSource: string, containment: Containment, network: Option<Network>, bundle: string, bundleDigest: string)

  datatype Stored = Absent | Corrupt | Present(incident: Incident)

  datatype Action = UnauthorizedAction | Activated | EvidenceCollected | Restriction | Containing | NetworkRestore | RecoveryStarted | Exited
  datatype Verdict = Success | Partial | Refused | Failed

  /** The caller's own words, the fixed sentence that goes with the action, or
      the sentence naming the call that was blocked. */
  datatype Reason = Given(text: string) | Fixed | Blocking(call: string)

  datatype Row = Row(action: Action, result: Verdict, reason: Reason, username: string, source: string,
                     incidentId: string, status: Phase, network: Option<Network>, bundle: string)

  datatype Timeline = Garbled | Rows(rows: seq<Row>)

  /** What an adapter does when asked. `Done` carries the states `restrict` reports. */
  datatype Answer = Raises | Refuses | Done(previous: NetState, current: NetState)

  /** What was asked of the network adapters, in order. */
  datatype Effect = Restricted(previous: NetState) | RestoreAsked(previous: NetState, done: bool)

  datatype Failure =
    | Unauthorized | ReasonRequired | AlreadyActive | NotActive | StateCorrupt | EvidenceMissing | SnapshotFailed
    | AdapterRaised | RestrictionFailed | IdentityTooWeak | ContainmentFailed | RestoreRequired | RestoreFailed

  const KEEP: nat := 5000

  /** The persisted world: the state store's two keys and its event table, the
      evidence files, and the record of adapter calls. */
  datatype World = World(stored: Stored, timeline: Timeline, events: seq<Row>, files: map<string, Bytes>, effects: seq<Effect>)

  datatype Config = Config(evidenceDir: string, sha256: Bytes -> string)

  datatype Call =
    | Activate(reason: string, threatLevel: string, id: string, at: string)
    | Collect(snapshot: Option<Bytes>, partial: bool)
    | Restrict(answer: Answer)
    | Contain(identity: map<string, string>, confidence: int, answer: Answer)
    | EnterRecovery(why: string)
    | Exit(why: string, adapter: Option<Answer>)

  // ---------- shared checks and writes ----------

  function OrUnknown(s: string): string {
    if s == "" then "unknown" else s
  }

  function LastRows(rows: seq<Row>): seq<Row> {
    if |rows| > KEEP then rows[|rows| - KEEP..] else rows
  }

  /** `_audit`. */
  function Audit(w: World, i: Incident, a: Authorization, action: Action, result: Verdict, reason: Reason): World {
    var row := Row(action, result, reason, OrUnknown(a.username), OrUnknown(a.source), i.id, i.phase, i.network, i.bundle);
    var rows := if w.timeline.Rows? then w.timeline.rows else [];
    w.(events := w.events + [row], timeline := Rows(LastRows(rows + [row])))
  }

  function Save(w: World, i: Incident): World {
    w.(stored := Present(i))
  }

  function Unassigned(a: Authorization, reason: string): Incident {
    Incident("unassigned", Normal, "critical", reason, "", OrUnknown(a.username), OrUnknown(a.source), NotContained, None, "", "")
  }

  function CallName(c: Call): string {
    match c
    case Activate(_, _, _, _) => "activate"
    case Collect(_, _) => "collect_evidence"
    case Restrict(_) => "restrict_network"
    case Contain(_, _, _) => "contain_process"
    case EnterRecovery(_) => "enter_recovery"
    case Exit(_, _) => "exit"
  }

  function Blocked(w: World, i: Incident, a: Authorization, c: Call): World {
    Audit(w, i, a, UnauthorizedAction, Refused, Blocking(CallName(c)))
  }

  /** `_require_evidence`: the bundle is there and has the stored digest. */
  predicate EvidenceVerified(cfg: Config, w: World, i: Incident) {
    i.bundle != "" && i.bundle in w.files && cfg.sha256(w.files[i.bundle]) == i.bundleDigest
  }

  predicate StableIdentity(identity: map<string, string>) {
    forall k :: k in ["pid", "executable_path", "sha256", "process_start_time"] ==> k in identity && identity[k] != ""
  }

  predicate Active(w: World) {
    w.stored.Present? && w.stored.incident.phase != Normal
  }

  function ActiveFailure(w: World): Failure {
    if w.stored.Corrupt? then StateCorrupt else NotActive
  }

  // ---------- the calls as functions ----------

  function StepActivate(w: World, a: Authorization, now: int, c: Call): (World, Option<Failure>)
    requires c.Activate?
  {
    if !Authorized(a, now) then (Blocked(w, Unassigned(a, c.reason), a, c), Some(Unauthorized))
    else if Blank(c.reason) then (w, Some(ReasonRequired))
    else if w.stored.Corrupt? then (w, Some(StateCorrupt))
    else if Active(w) then (w, Some(AlreadyActive))
    else
      var i := Incident(c.id, Investigation, c.threatLevel, Strip(c.reason), c.at, a.username, a.source, NotContained, None, "", "");
      (Audit(Save(w, i), i, a, Activated, Success, Given(c.reason)), None)
  }

  function SnapshotPath(cfg: Config, i: Incident): string {
    cfg.evidenceDir + "/" + i.id + "-snapshot.json"
  }

  function StepCollect(cfg: Config, w: World, i: Incident, a: Authorization, c: Call): (World, Option<Failure>)
    requires c.Collect?
  {
    if c.snapshot == None then (w, Some(SnapshotFailed))
    else
      var path := SnapshotPath(cfg, i);
      var saved := i.(bundle := path, bundleDigest := cfg.sha256(c.snapshot.value));
      var w1 := Save(w.(files := w.files[path := c.snapshot.value]), saved);
      (Audit(w1, saved, a, EvidenceCollected, if c.partial then Partial else Success, Fixed), None)
  }

  function StepRestrict(w: World, i: Incident, a: Authorization, c: Call): (World, Option<Failure>)
    requires c.Restrict?
  {
    match c.answer
    case Raises => (w, Some(AdapterRaised))
    case Refuses => (Audit(w, i, a, Restriction, Failed, Fixed), Some(RestrictionFailed))
    case Done(previous, current) =>
      var saved := i.(network := Some(Network(previous, current)), phase := ContainmentActive, containment := NetworkRestricted);
      var w1 := Save(w.(effects := w.effects + [Restricted(previous)]), saved);
      (Audit(w1, saved, a, Restriction, Success, Fixed), None)
  }

  function StepContain(w: World, i: Incident, a: Authorization, c: Call): (World, Option<Failure>)
    requires c.Contain?
  {
    if c.confidence < 80 || !StableIdentity(c.identity) then
      (Audit(w, i, a, Containing, Refused, Fixed), Some(IdentityTooWeak))
    else if c.answer.Raises? then (w, Some(AdapterRaised))
    else
      var w1 := Audit(w, i, a, Containing, if c.answer.Done? then Success else Failed, Fixed);
      if !c.answer.Done? then (w1, Some(ContainmentFailed))
      else (Save(w1, i.(phase := ContainmentActive, containment := ProcessContained)), None)
  }

  function StepRecover(w: World, i: Incident, a: Authorization, c: Call): (World, Option<Failure>)
    requires c.EnterRecovery?
  {
    var saved := i.(phase := RecoveryMode);
    (Audit(Save(w, saved), saved, a, RecoveryStarted, Success, Given(c.why)), None)
  }

  function StepExit(w: World, i: Incident, a: Authorization, c: Call): (World, Option<Failure>)
    requires c.Exit?
  {
    var released := i.(network := None, phase := Normal, containment := Released);
    if i.network == None then
      (Audit(Save(w, released), released, a, Exited, Success, Given(c.why)), None)
    else if c.adapter == None then (w, Some(RestoreRequired))
    else if c.adapter.value.Raises? then
      (w.(effects := w.effects + [RestoreAsked(i.network.value.previous, false)]), Some(AdapterRaised))
    else
      var w1 := w.(effects := w.effects + [RestoreAsked(i.network.value.previous, c.adapter.value.Done?)]);
      if !c.adapter.value.Done? then
        (Audit(w1, i, a, NetworkRestore, Failed, Fixed), Some(RestoreFailed))
      else
        (Audit(Save(w1, released), released, a, Exited, Success, Given(c.why)), None)
  }

  /** One call of the manager at time `now`. */
  function Step(cfg: Config, w: World, a: Authorization, now: int, c: Call): (World, Option<Failure>) {
    if c.Activate? then StepActivate(w, a, now, c)
    else if !Active(w) then (w, Some(ActiveFailure(w)))
    else
      var i := w.stored.incident;
      if !Authorized(a, now) then (Blocked(w, i, a, c), Some(Unauthorized))
      else if c.Collect? then StepCollect(cfg, w, i, a, c)
      else if !EvidenceVerified(cfg, w, i) then (w, Some(EvidenceMissing))
      else if c.Restrict? then StepRestrict(w, i, a, c)
      else if c.Contain? then StepContain(w, i, a, c)
      else if c.EnterRecovery? then StepRecover(w, i, a, c)
      else StepExit(w, i, a, c)
  }

  // ---------- the manager ----------

  class EmergencyResponseManager {
    const cfg: Config
    var stored: Stored
    var timeline: Timeline
    var events: seq<Row>
    var files: map<string, Bytes>
    ghost var effects: seq<Effect>

    ghost function State(): World reads this {
      World(stored, timeline, events, files, effects)
    }

    constructor (cfg: Config, stored: Stored, timeline: Timeline, events: seq<Row>, files: map<string, Bytes>)
      ensures this.cfg == cfg && State() == World(stored, timeline, events, files, [])
    {
      this.cfg, this.stored, this.timeline, this.events, this.files, this.effects := cfg, stored, timeline, events, files, [];
    }

    method WriteAudit(i: Incident, a: Authorization, action: Action, result: Verdict, reason: Reason)
      modifies this
      ensures State() == Audit(old(State()), i, a, action, result, reason)
    {
      var row := Row(action, result, reason, OrUnknown(a.username), OrUnknown(a.source), i.id, i.phase, i.network, i.bundle);
      events := events + [row];
      var rows := if timeline.Rows? then timeline.rows else [];
      rows := rows + [row];
      timeline := Rows(if |rows| > KEEP then rows[|rows| - KEEP..] else rows);
    }

    /** `_require_active`, then `_require_authorization`. */
    method RequireActiveAndAuthorized(a: Authorization, now: int, c: Call) returns (r: Result<Incident, Failure>)
      requires !c.Activate?
      modifies this
      ensures r.Ok? ==> Active(old(State())) && Authorized(a, now) && State() == old(State()) && r.value == stored.incident
      ensures r.Err? ==> (State(), Some(r.error)) == Step(cfg, old(State()), a, now, c)
      ensures r.Err? <==> !Active(old(State())) || !Authorized(a, now)
    {
      if stored.Corrupt? { return Err(StateCorrupt); }
      if stored.Absent? || stored.incident.phase == Normal { return Err(NotActive); }
      if !Authorized(a, now) {
        WriteAudit(stored.incident, a, UnauthorizedAction, Refused, Blocking(CallName(c)));
        return Err(Unauthorized);
      }
      return Ok(stored.incident);
    }

    method DoActivate(a: Authorization, now: int, reason: string, threatLevel: string, id: string, at: string) returns (f: Option<Failure>)
      modifies this
      ensures (State(), f) == Step(cfg, old(State()), a, now, Activate(reason, threatLevel, id, at))
    {
      if !Authorized(a, now) {
        WriteAudit(Unassigned(a, reason), a, UnauthorizedAction, Refused, Blocking("activate"));
        return Some(Unauthorized);
      }
      if Blank(reason) { return Some(ReasonRequired); }
      if stored.Corrupt? { return Some(StateCorrupt); }
      if stored.Present? && stored.incident.phase != Normal { return Some(AlreadyActive); }
      var incident := Incident(id, Investigation, threatLevel, Strip(reason), at, a.username, a.source, NotContained, None, "", "");
      stored := Present(incident);
      WriteAudit(incident, a, Activated, Success, Given(reason));
      return None;
    }

    method CollectSnapshot(a: Authorization, now: int, snapshot: Option<Bytes>, partial: bool) returns (f: Option<Failure>)
      modifies this
      ensures (State(), f) == Step(cfg, old(State()), a, now, Collect(snapshot, partial))
    {
      var r := RequireActiveAndAuthorized(a, now, Collect(snapshot, partial));
      if r.Err? { return Some(r.error); }
      var incident := r.value;
      if snapshot == None { return Some(SnapshotFailed); }
      var destination := SnapshotPath(cfg, incident);
      files := files[destination := snapshot.value];
      incident := incident.(bundle := destination, bundleDigest := cfg.sha256(snapshot.value));
      stored := Present(incident);
      WriteAudit(incident, a, EvidenceCollected, if partial then Partial else Success, Fixed);
      return None;
    }

    method RestrictNetwork(a: Authorization, now: int, answer: Answer) returns (f: Option<Failure>)
      modifies this
      ensures (State(), f) == Step(cfg, old(State()), a, now, Restrict(answer))
    {
      var r := RequireActiveAndAuthorized(a, now, Restrict(answer));
      if r.Err? { return Some(r.error); }
      var incident := r.value;
      if !EvidenceIntact(incident) { return Some(EvidenceMissing); }
      if answer.Raises? { return Some(AdapterRaised); }
      if answer.Refuses? {
        WriteAudit(incident, a, Restriction, Failed, Fixed);
        return Some(RestrictionFailed);
      }
      effects := effects + [Restricted(answer.previous)];
      incident := incident.(network := Some(Network(answer.previous, answer.current)));
      incident := incident.(phase := ContainmentActive, containment := NetworkRestricted);
      stored := Present(incident);
      WriteAudit(incident, a, Restriction, Success, Fixed);
      return None;
    }

    method ContainProcess(a: Authorization, now: int, identity: map<string, string>, confidence: int, answer: Answer) returns (f: Option<Failure>)
      modifies this
      ensures (State(), f) == Step(cfg, old(State()), a, now, Contain(identity, confidence, answer))
    {
      var r := RequireActiveAndAuthorized(a, now, Contain(identity, confidence, answer));
      if r.Err? { return Some(r.error); }
      var incident := r.value;
      if !EvidenceIntact(incident) { return Some(EvidenceMissing); }
      if confidence < 80 || !StableIdentity(identity) {
        WriteAudit(incident, a, Containing, Refused, Fixed);
        return Some(IdentityTooWeak);
      }
      if answer.Raises? { return Some(AdapterRaised); }
      WriteAudit(incident, a, Containing, if answer.Done? then Success else Failed, Fixed);
      if !answer.Done? { return Some(ContainmentFailed); }
      stored := Present(incident.(phase := ContainmentActive, containment := ProcessContained));
      return None;
    }

    method BeginRecovery(a: Authorization, now: int, why: string) returns (f: Option<Failure>)
      modifies this
      ensures (State(), f) == Step(cfg, old(State()), a, now, EnterRecovery(why))
    {
      var r := RequireActiveAndAuthorized(a, now, EnterRecovery(why));
      if r.Err? { return Some(r.error); }
      var incident := r.value;
      if !EvidenceIntact(incident) { return Some(EvidenceMissing); }
      incident := incident.(phase := RecoveryMode);
      stored := Present(incident);
      WriteAudit(incident, a, RecoveryStarted, Success, Given(why));
      return None;
    }

    method DoExit(a: Authorization, now: int, why: string, adapter: Option<Answer>) returns (f: Option<Failure>)
      modifies this
      ensures (State(), f) == Step(cfg, old(State()), a, now, Exit(why, adapter))
    {
      var r := RequireActiveAndAuthorized(a, now, Exit(why, adapter));
      if r.Err? { return Some(r.error); }
      var incident := r.value;
      if !EvidenceIntact(incident) { return Some(EvidenceMissing); }
      if incident.network.Some? {
        if adapter == None { return Some(RestoreRequired); }
        var answer := adapter.value;
        effects := effects + [RestoreAsked(incident.network.value.previous, answer.Done?)];
        if answer.Raises? { return Some(AdapterRaised); }
        if !answer.Done? {
          WriteAudit(incident, a, NetworkRestore, Failed, Fixed);
          return Some(RestoreFailed);
        }
        incident := incident.(network := None);
      }
      incident := incident.(phase := Normal, containment := Released);
      stored := Present(incident);
      WriteAudit(incident, a, Exited, Success, Given(why));
      return None;
    }

    /** `_require_evidence`. */
    predicate EvidenceIntact(i: Incident)
      reads this`files
    {
      i.bundle != "" && i.bundle in files && cfg.sha256(files[i.bundle]) == i.bundleDigest
    }
  }

  // ---------- runs ----------

  /** A run mixes calls of the manager with changes others make to files. */
  datatype Move = Do(who: Authorization, now: int, call: Call) | Alter(path: string, content: Option<Bytes>)

  function Move1(cfg: Config, w: World, m: Move): World {
    match m
    case Do(who, now, call) => Step(cfg, w, who, now, call).0
    case Alter(path, content) =>
      w.(files := if content.Some? then w.files[path := content.value] else w.files - {path})
  }

  function Run(cfg: Config, w: World, moves: seq<Move>): World {
    if moves == [] then w
    else Move1(cfg, Run(cfg, w, moves[..|moves| - 1]), moves[|moves| - 1])
  }

  /** A store no incident has been written to. */
  function Fresh(files: map<string, Bytes>): World {
    World(Absent, Rows([]), [], files, [])
  }

  // ---------- the outstanding restriction ----------

  /** e[i] is a successful restriction and no later restriction or restore succeeded. */
  predicate LatestAt(e: seq<Effect>, i: int, previous: NetState) {
    && 0 <= i < |e| && e[i] == Restricted(previous)
    && forall j :: i < j < |e| ==> e[j].RestoreAsked? && !e[j].done
  }

  /** The state reported by the most recent successful restriction, unless a
      restore has succeeded since. */
  ghost function Outstanding(e: seq<Effect>): Option<NetState> {
    if e == [] then None
    else
      var last := e[|e| - 1];
      match last
      case Restricted(p) => Some(p)
      case RestoreAsked(_, done) => if done then None else Outstanding(e[..|e| - 1])
  }

  lemma {:induction false} OutstandingIsLatest(e: seq<Effect>)
    ensures Outstanding(e).Some? ==> exists i :: LatestAt(e, i, Outstanding(e).value)
    ensures forall i, p :: LatestAt(e, i, p) ==> Outstanding(e) == Some(p)
  {
    if e != [] {
      var rest, last := e[..|e| - 1], e[|e| - 1];
      OutstandingIsLatest(rest);
      if last.Restricted? {
        assert LatestAt(e, |e| - 1, last.previous);
      } else if !last.done && Outstanding(rest).Some? {
        var i :| LatestAt(rest, i, Outstanding(rest).value);
        assert LatestAt(e, i, Outstanding(rest).value);
      }
      forall i, p | LatestAt(e, i, p)
        ensures Outstanding(e) == Some(p)
      {
        if i < |e| - 1 {
          assert e[|e| - 1].RestoreAsked? && !e[|e| - 1].done;
          assert LatestAt(rest, i, p);
        }
      }
    }
  }

  // ---------- what every run keeps ----------

  function StoredNetwork(w: World): Option<Network> {
    if w.stored.Present? then w.stored.incident.network else None
  }

  ghost predicate RestoresMatch(e: seq<Effect>) {
    forall i :: 0 <= i < |e| && e[i].RestoreAsked? ==> Outstanding(e[..i]) == Some(e[i].previous)
  }

  ghost predicate Inv(w: World) {
    && !w.stored.Corrupt?
    && w.timeline == Rows(LastRows(w.events))
    && (PhaseOf(w) == Normal ==> StoredNetwork(w) == None)
    && (match StoredNetwork(w) case None => Outstanding(w.effects) == None case Some(n) => Outstanding(w.effects) == Some(n.previous))
    && RestoresMatch(w.effects)
  }

  /** The rows kept end where all rows end, and only the 5001st drops one. */
  lemma LastRowsAreLast(rows: seq<Row>)
    ensures var last := LastRows(rows);
            |last| <= |rows| && last == rows[|rows| - |last|..] && (if |rows| <= 5000 then last == rows else |last| == 5000)
  {}

  lemma LastRowsAppend(rows: seq<Row>, row: Row)
    ensures LastRows(LastRows(rows) + [row]) == LastRows(rows + [row])
  {
    if |rows| > KEEP {
      var kept := rows[|rows| - KEEP..] + [row];
      assert kept == (rows + [row])[|rows| - KEEP..];
      assert kept[1..] == (rows + [row])[|rows| + 1 - KEEP..];
    }
  }

  lemma EffectAppended(e: seq<Effect>, x: Effect)
    requires RestoresMatch(e) && (x.RestoreAsked? ==> Outstanding(e) == Some(x.previous))
    ensures RestoresMatch(e + [x])
    ensures Outstanding(e + [x]) == match x case Restricted(p) => Some(p) case RestoreAsked(_, done) => if done then None else Outstanding(e)
  {
    assert (e + [x])[..|e|] == e;
    forall i | 0 <= i < |e + [x]| && (e + [x])[i].RestoreAsked?
      ensures Outstanding((e + [x])[..i]) == Some((e + [x])[i].previous)
    {
      if i < |e| { assert (e + [x])[..i] == e[..i]; }
    }
  }

  /** r has one more row than w, in the event table and on the timeline. */
  predicate AuditedOnce(w: World, r: World) {
    && |r.events| == |w.events| + 1 && r.events[..|w.events|] == w.events
    && r.timeline == Rows(LastRows((if w.timeline.Rows? then w.timeline.rows else []) + [r.events[|w.events|]]))
  }

  /** What a call may do to the audit: one row, or none and then nothing else
      either, except that an adapter which raises has already been asked. */
  predicate AuditsAtMostOnce(w: World, r: World, f: Option<Failure>) {
    && (AuditedOnce(w, r) || (r == w.(effects := r.effects) && f.Some?))
    && (f == None ==> AuditedOnce(w, r))
  }

  /** What a call may do to the adapters' record and the stored network state:
      ask for at most one thing, hand a restore the stored previous state, and
      keep the stored state in step with the answer. */
  ghost predicate NetworkInStep(w: World, r: World) {
    || (r.effects == w.effects && (StoredNetwork(r) == StoredNetwork(w) || (StoredNetwork(w) == None && StoredNetwork(r) == None)))
    || (exists p :: r.effects == w.effects + [Restricted(p)] && StoredNetwork(r).Some? && StoredNetwork(r).value.previous == p)
    || (StoredNetwork(w).Some? && r.effects == w.effects + [RestoreAsked(StoredNetwork(w).value.previous, false)] && StoredNetwork(r) == StoredNetwork(w))
    || (StoredNetwork(w).Some? && r.effects == w.effects + [RestoreAsked(StoredNetwork(w).value.previous, true)] && StoredNetwork(r) == None)
  }

  /** Containment and recovery are entered only from an active incident, by an
      authorized call, over evidence whose digest is the stored one, and the
      evidence on record is left as it was. */
  predicate EntersOverEvidence(cfg: Config, w: World, a: Authorization, now: int, c: Call, r: World) {
    PhaseOf(r) in {ContainmentActive, RecoveryMode} && r.stored != w.stored && !c.Collect? ==>
      && Active(w) && Authorized(a, now) && EvidenceVerified(cfg, w, w.stored.incident)
      && r.stored.incident.bundle == w.stored.incident.bundle
      && r.stored.incident.bundleDigest == w.stored.incident.bundleDigest
      && EvidenceVerified(cfg, r, r.stored.incident)
  }

  function PhaseOf(w: World): Phase {
    if w.stored.Present? then w.stored.incident.phase else Normal
  }

  /** Which phases follow which. */
  predicate MayFollow(before: Phase, after: Phase) {
    match after
    case Normal => true
    case Warning => before == Warning
    case Investigation => before in {Normal, Investigation}
    case ContainmentActive => before != Normal
    case RecoveryMode => before != Normal
  }

  predicate LivesOn(w: World, c: Call, r: World) {
    && MayFollow(PhaseOf(w), PhaseOf(r))
    && (PhaseOf(w) != Normal && PhaseOf(r) == Normal ==> c.Exit?)
    && (c.Collect? ==> PhaseOf(r) == PhaseOf(w))
    && (w.stored.Present? ==> r.stored.Present? && (r.stored.incident.id == w.stored.incident.id || (c.Activate? && PhaseOf(w) == Normal)))
    && (r.stored.Corrupt? ==> w.stored.Corrupt?)
  }

  ghost predicate CallFacts(cfg: Config, w: World, a: Authorization, now: int, c: Call, o: (World, Option<Failure>)) {
    && AuditsAtMostOnce(w, o.0, o.1)
    && LivesOn(w, c, o.0)
    && EntersOverEvidence(cfg, w, a, now, c, o.0)
    && (!w.stored.Corrupt? && (PhaseOf(w) == Normal ==> StoredNetwork(w) == None) ==>
          NetworkInStep(w, o.0) && (PhaseOf(o.0) == Normal ==> StoredNetwork(o.0) == None))
  }

  // ---------- what each call asks for and leaves ----------

  /** What containment, recovery and exit ask for first. */
  predicate Cleared(cfg: Config, w: World, a: Authorization, now: int) {
    Active(w) && Authorized(a, now) && EvidenceVerified(cfg, w, w.stored.incident)
  }

  predicate Identified(c: Call)
    requires c.Contain?
  {
    c.confidence >= 80 && StableIdentity(c.identity)
  }

  /** The call fails for f. */
  predicate DueTo(f: Failure, cfg: Config, w: World, a: Authorization, now: int, c: Call) {
    match f
    case Unauthorized => (c.Activate? || Active(w)) && !Authorized(a, now)
    case ReasonRequired => c.Activate? && Authorized(a, now) && Blank(c.reason)
    case StateCorrupt => w.stored.Corrupt? && (c.Activate? ==> Authorized(a, now) && !Blank(c.reason))
    case AlreadyActive => c.Activate? && Authorized(a, now) && !Blank(c.reason) && Active(w)
    case NotActive => !c.Activate? && !w.stored.Corrupt? && PhaseOf(w) == Normal
    case SnapshotFailed => c.Collect? && Active(w) && Authorized(a, now) && c.snapshot == None
    case EvidenceMissing => !c.Activate? && !c.Collect? && Active(w) && Authorized(a, now) && !Cleared(cfg, w, a, now)
    case RestrictionFailed => c.Restrict? && Cleared(cfg, w, a, now) && c.answer.Refuses?
    case IdentityTooWeak => c.Contain? && Cleared(cfg, w, a, now) && !Identified(c)
    case ContainmentFailed => c.Contain? && Cleared(cfg, w, a, now) && Identified(c) && c.answer.Refuses?
    case RestoreRequired => c.Exit? && Cleared(cfg, w, a, now) && StoredNetwork(w).Some? && c.adapter == None
    case RestoreFailed => c.Exit? && Cleared(cfg, w, a, now) && StoredNetwork(w).Some? && c.adapter.Some? && c.adapter.value.Refuses?
    case AdapterRaised =>
      Cleared(cfg, w, a, now) &&
      (match c
       case Restrict(answer) => answer.Raises?
       case Contain(_, _, answer) => Identified(c) && answer.Raises?
       case Exit(_, adapter) => StoredNetwork(w).Some? && adapter.Some? && adapter.value.Raises?
       case _ => false)
  }

  /** The call's own conditions for success. */
  predicate Succeeds(cfg: Config, w: World, a: Authorization, now: int, c: Call) {
    match c
    case Activate(reason, _, _, _) => Authorized(a, now) && !Blank(reason) && !w.stored.Corrupt? && PhaseOf(w) == Normal
    case Collect(snapshot, _) => Active(w) && Authorized(a, now) && snapshot.Some?
    case Restrict(answer) => Cleared(cfg, w, a, now) && answer.Done?
    case Contain(_, _, answer) => Cleared(cfg, w, a, now) && Identified(c) && answer.Done?
    case EnterRecovery(_) => Cleared(cfg, w, a, now)
    case Exit(_, adapter) => Cleared(cfg, w, a, now) && (StoredNetwork(w) == None || (adapter.Some? && adapter.value.Done?))
  }

  /** One row was added, to the event table and the timeline, telling who asked
      what of incident i, and how it went. */
  predicate RowTells(w: World, r: World, i: Incident, a: Authorization, action: Action, result: Verdict, reason: Reason) {
    var row := Row(action, result, reason, OrUnknown(a.username), OrUnknown(a.source), i.id, i.phase, i.network, i.bundle);
    && r.events == w.events + [row]
    && r.timeline == Rows(LastRows((if w.timeline.Rows? then w.timeline.rows else []) + [row]))
  }

  predicate ActivationLeaves(w: World, a: Authorization, c: Call, r: World)
    requires c.Activate?
  {
    && r.stored == Present(Incident(c.id, Investigation, c.threatLevel, Strip(c.reason), c.at, a.username, a.source, NotContained, None, "", ""))
    && r.files == w.files && r.effects == w.effects
    && RowTells(w, r, r.stored.incident, a, Activated, Success, Given(c.reason))
  }

  predicate CollectionLeaves(cfg: Config, w: World, a: Authorization, c: Call, r: World)
    requires c.Collect? && c.snapshot.Some? && w.stored.Present?
  {
    var path := SnapshotPath(cfg, w.stored.incident);
    && r.stored == Present(w.stored.incident.(bundle := path, bundleDigest := cfg.sha256(c.snapshot.value)))
    && r.files == w.files[path := c.snapshot.value] && r.effects == w.effects
    && RowTells(w, r, r.stored.incident, a, EvidenceCollected, if c.partial then Partial else Success, Fixed)
  }

  predicate RestrictionLeaves(w: World, a: Authorization, c: Call, r: World)
    requires c.Restrict? && c.answer.Done? && w.stored.Present?
  {
    && r.stored == Present(w.stored.incident.(phase := ContainmentActive, containment := NetworkRestricted, network := Some(Network(c.answer.previous, c.answer.current))))
    && r.files == w.files && r.effects == w.effects + [Restricted(c.answer.previous)]
    && RowTells(w, r, r.stored.incident, a, Restriction, Success, Fixed)
  }

  /** The row is written before the incident changes. */
  predicate ContainmentLeaves(w: World, a: Authorization, c: Call, r: World)
    requires c.Contain? && w.stored.Present?
  {
    && r.stored == Present(w.stored.incident.(phase := ContainmentActive, containment := ProcessContained))
    && r.files == w.files && r.effects == w.effects
    && RowTells(w, r, w.stored.incident, a, Containing, Success, Fixed)
  }

  predicate RecoveryLeaves(w: World, a: Authorization, c: Call, r: World)
    requires c.EnterRecovery? && w.stored.Present?
  {
    && r.stored == Present(w.stored.incident.(phase := RecoveryMode))
    && r.files == w.files && r.effects == w.effects
    && RowTells(w, r, r.stored.incident, a, RecoveryStarted, Success, Given(c.why))
  }

  predicate ExitLeaves(w: World, a: Authorization, c: Call, r: World)
    requires c.Exit? && w.stored.Present?
  {
    && r.stored == Present(w.stored.incident.(phase := Normal, containment := Released, network := None))
    && r.files == w.files
    && r.effects == w.effects + (if StoredNetwork(w).Some? then [RestoreAsked(StoredNetwork(w).value.previous, true)] else [])
    && RowTells(w, r, r.stored.incident, a, Exited, Success, Given(c.why))
  }

  /** What a successful call leaves. */
  predicate SuccessLeaves(cfg: Config, w: World, a: Authorization, now: int, c: Call, r: World)
    requires Succeeds(cfg, w, a, now, c)
  {
    match c
    case Activate(_, _, _, _) => ActivationLeaves(w, a, c, r)
    case Collect(_, _) => CollectionLeaves(cfg, w, a, c, r)
    case Restrict(_) => RestrictionLeaves(w, a, c, r)
    case Contain(_, _, _) => ContainmentLeaves(w, a, c, r)
    case EnterRecovery(_) => RecoveryLeaves(w, a, c, r)
    case Exit(_, _) => ExitLeaves(w, a, c, r)
  }

  /** What a failed call leaves: incident and files as they were, a row for a
      refusal or an adapter's bad answer, and the record of a restore asked for. */
  predicate FailureLeaves(w: World, a: Authorization, c: Call, f: Failure, r: World) {
    && r.stored == w.stored && r.files == w.files
    && r.effects == w.effects + (if c.Exit? && f in {AdapterRaised, RestoreFailed} && StoredNetwork(w).Some? then [RestoreAsked(StoredNetwork(w).value.previous, false)] else [])
    && (match f
        case Unauthorized =>
          var i := if c.Activate? || !w.stored.Present? then Unassigned(a, if c.Activate? then c.reason else "") else w.stored.incident;
          RowTells(w, r, i, a, UnauthorizedAction, Refused, Blocking(CallName(c)))
        case RestrictionFailed => w.stored.Present? && RowTells(w, r, w.stored.incident, a, Restriction, Failed, Fixed)
        case IdentityTooWeak => w.stored.Present? && RowTells(w, r, w.stored.incident, a, Containing, Refused, Fixed)
        case ContainmentFailed => w.stored.Present? && RowTells(w, r, w.stored.incident, a, Containing, Failed, Fixed)
        case RestoreFailed => w.stored.Present? && RowTells(w, r, w.stored.incident, a, NetworkRestore, Failed, Fixed)
        case _ => r.events == w.events && r.timeline == w.timeline)
  }

  /** A call succeeds exactly under its own conditions, fails exactly for the
      failure its circumstances call for, and leaves what that outcome says. */
  ghost predicate Outcome(cfg: Config, w: World, a: Authorization, now: int, c: Call, o: (World, Option<Failure>)) {
    && (o.1 == None <==> Succeeds(cfg, w, a, now, c))
    && (forall f :: o.1 == Some(f) <==> DueTo(f, cfg, w, a, now, c))
    && (match o.1 case None => SuccessLeaves(cfg, w, a, now, c, o.0) case Some(f) => FailureLeaves(w, a, c, f, o.0))
  }

  lemma ActivateOutcome(cfg: Config, w: World, a: Authorization, now: int, c: Call)
    requires c.Activate?
    ensures Outcome(cfg, w, a, now, c, StepActivate(w, a, now, c))
  {}

  lemma InactiveOutcome(cfg: Config, w: World, a: Authorization, now: int, c: Call)
    requires !c.Activate? && !Active(w)
    ensures Outcome(cfg, w, a, now, c, (w, Some(ActiveFailure(w))))
  {}

  lemma BlockedOutcome(cfg: Config, w: World, a: Authorization, now: int, c: Call)
    requires !c.Activate? && Active(w) && !Authorized(a, now)
    ensures Outcome(cfg, w, a, now, c, (Blocked(w, w.stored.incident, a, c), Some(Unauthorized)))
  {}

  lemma CollectOutcome(cfg: Config, w: World, a: Authorization, now: int, c: Call)
    requires c.Collect? && Active(w) && Authorized(a, now)
    ensures Outcome(cfg, w, a, now, c, StepCollect(cfg, w, w.stored.incident, a, c))
  {}

  lemma UnevidencedOutcome(cfg: Config, w: World, a: Authorization, now: int, c: Call)
    requires !c.Activate? && !c.Collect? && Active(w) && Authorized(a, now) && !Cleared(cfg, w, a, now)
    ensures Outcome(cfg, w, a, now, c, (w, Some(EvidenceMissing)))
  {}

  lemma RestrictOutcome(cfg: Config, w: World, a: Authorization, now: int, c: Call)
    requires c.Restrict? && Cleared(cfg, w, a, now)
    ensures Outcome(cfg, w, a, now, c, StepRestrict(w, w.stored.incident, a, c))
  {}

  lemma ContainOutcome(cfg: Config, w: World, a: Authorization, now: int, c: Call)
    requires c.Contain? && Cleared(cfg, w, a, now)
    ensures Outcome(cfg, w, a, now, c, StepContain(w, w.stored.incident, a, c))
  {}

  lemma RecoverOutcome(cfg: Config, w: World, a: Authorization, now: int, c: Call)
    requires c.EnterRecovery? && Cleared(cfg, w, a, now)
    ensures Outcome(cfg, w, a, now, c, StepRecover(w, w.stored.incident, a, c))
  {}

  lemma ExitOutcome(cfg: Config, w: World, a: Authorization, now: int, c: Call)
    requires c.Exit? && Cleared(cfg, w, a, now)
    ensures Outcome(cfg, w, a, now, c, StepExit(w, w.stored.incident, a, c))
  {}

  lemma CallOutcome(cfg: Config, w: World, a: Authorization, now: int, c: Call)
    ensures Outcome(cfg, w, a, now, c, Step(cfg, w, a, now, c))
  {
    if c.Activate? { ActivateOutcome(cfg, w, a, now, c); }
    else if !Active(w) { InactiveOutcome(cfg, w, a, now, c); }
    else if !Authorized(a, now) { BlockedOutcome(cfg, w, a, now, c); }
    else if c.Collect? { CollectOutcome(cfg, w, a, now, c); }
    else if !Cleared(cfg, w, a, now) { UnevidencedOutcome(cfg, w, a, now, c); }
    else {
      match c
      case Restrict(_) => RestrictOutcome(cfg, w, a, now, c);
      case Contain(_, _, _) => ContainOutcome(cfg, w, a, now, c);
      case EnterRecovery(_) => RecoverOutcome(cfg, w, a, now, c);
      case Exit(_, _) => ExitOutcome(cfg, w, a, now, c);
    }
  }

  lemma SuccessFacts(cfg: Config, w: World, a: Authorization, now: int, c: Call, r: World)
    requires Succeeds(cfg, w, a, now, c) && SuccessLeaves(cfg, w, a, now, c, r)
    ensures CallFacts(cfg, w, a, now, c, (r, None))
  {
    match c
    case Exit(_, _) => assert StoredNetwork(r) == None;
    case _ =>
  }

  lemma FailureFacts(cfg: Config, w: World, a: Authorization, now: int, c: Call, f: Failure, r: World)
    requires DueTo(f, cfg, w, a, now, c) && FailureLeaves(w, a, c, f, r)
    ensures CallFacts(cfg, w, a, now, c, (r, Some(f)))
  {}

  /** Every call: at most one audit row, only permitted phase changes, evidence
      before containment or recovery, and the network record in step. */
  lemma EveryCall(cfg: Config, w: World, a: Authorization, now: int, c: Call)
    ensures CallFacts(cfg, w, a, now, c, Step(cfg, w, a, now, c))
  {
    CallOutcome(cfg, w, a, now, c);
    var (r, f) := Step(cfg, w, a, now, c);
    match f
    case None => SuccessFacts(cfg, w, a, now, c, r);
    case Some(x) => FailureFacts(cfg, w, a, now, c, x, r);
  }

  lemma AuditedOnceKeepsTimeline(w: World, r: World)
    requires w.timeline == Rows(LastRows(w.events)) && AuditedOnce(w, r)
    ensures r.timeline == Rows(LastRows(r.events))
  {
    LastRowsAppend(w.events, r.events[|w.events|]);
    assert r.events == w.events + [r.events[|w.events|]];
  }

  lemma CallKeepsInv(w: World, r: World)
    requires Inv(w) && NetworkInStep(w, r) && !r.stored.Corrupt? && (PhaseOf(r) == Normal ==> StoredNetwork(r) == None)
    requires AuditedOnce(w, r) || r == w.(effects := r.effects)
    ensures Inv(r)
  {
    if AuditedOnce(w, r) { AuditedOnceKeepsTimeline(w, r); }
    if r.effects != w.effects {
      EffectAppended(w.effects, r.effects[|w.effects|]);
    }
  }

  lemma {:induction false} RunKeepsInv(cfg: Config, w: World, moves: seq<Move>)
    requires Inv(w)
    ensures Inv(Run(cfg, w, moves))
  {
    if moves != [] {
      var before, m := Run(cfg, w, moves[..|moves| - 1]), moves[|moves| - 1];
      RunKeepsInv(cfg, w, moves[..|moves| - 1]);
      if m.Do? {
        EveryCall(cfg, before, m.who, m.now, m.call);
        CallKeepsInv(before, Step(cfg, before, m.who, m.now, m.call).0);
      }
    }
  }

  /** After any run from a fresh store: a network state is stored exactly when
      some successful restriction has no successful restore after it, and it
      then holds what the latest such restriction reported; NORMAL is never
      stored over an outstanding restriction; every restore ever asked for was
      handed the previous state of the latest restriction before it; and the
      timeline is the last 5000 of all rows audited. */
  lemma EveryRunIsAccounted(cfg: Config, files: map<string, Bytes>, moves: seq<Move>)
    ensures var w := Run(cfg, Fresh(files), moves);
            && !w.stored.Corrupt?
            && (StoredNetwork(w).Some? <==> exists i, p :: LatestAt(w.effects, i, p))
            && (forall i, p :: LatestAt(w.effects, i, p) ==> StoredNetwork(w).Some? && StoredNetwork(w).value.previous == p)
            && (w.stored.Present? && w.stored.incident.phase == Normal ==> !exists i, p :: LatestAt(w.effects, i, p))
            && (forall k :: 0 <= k < |w.effects| && w.effects[k].RestoreAsked? ==>
                  exists i :: LatestAt(w.effects[..k], i, w.effects[k].previous))
            && w.timeline == Rows(LastRows(w.events))
  {
    RunKeepsInv(cfg, Fresh(files), moves);
    var w := Run(cfg, Fresh(files), moves);
    OutstandingIsLatest(w.effects);
    forall k | 0 <= k < |w.effects| && w.effects[k].RestoreAsked?
      ensures exists i :: LatestAt(w.effects[..k], i, w.effects[k].previous)
    {
      OutstandingIsLatest(w.effects[..k]);
    }
  }

  // ---------- gates ----------

  /** Invalid authorization changes no incident, no file and asks no adapter;
      it leaves an audit row unless there was no active incident to charge. */
  lemma InvalidAuthorizationChangesNothing(cfg: Config, w: World, a: Authorization, now: int, c: Call)
    requires !Authorized(a, now)
    ensures var (r, f) := Step(cfg, w, a, now, c);
            && r.stored == w.stored && r.files == w.files && r.effects == w.effects && f.Some?
            && (c.Activate? || Active(w) ==> f == Some(Unauthorized) && AuditedOnce(w, r)
                                             && r.events[|w.events|].action == UnauthorizedAction)
  {}

  /** A store that cannot be read stops every call before it acts. */
  lemma CorruptStoreStopsEverything(cfg: Config, w: World, a: Authorization, now: int, c: Call)
    requires w.stored.Corrupt?
    ensures var (r, f) := Step(cfg, w, a, now, c);
            r.stored.Corrupt? && f.Some? && r.files == w.files && r.effects == w.effects
  {}

  /** A snapshot makes the evidence check pass until the bundle is altered. */
  lemma SnapshotVerifies(cfg: Config, w: World, a: Authorization, now: int, snapshot: Bytes, partial: bool)
    requires Active(w) && Authorized(a, now)
    ensures var (r, f) := Step(cfg, w, a, now, Collect(Some(snapshot), partial));
            f == None && Active(r) && EvidenceVerified(cfg, r, r.stored.incident) && PhaseOf(r) == PhaseOf(w)
  {
    var i := w.stored.incident;
    assert |SnapshotPath(cfg, i)| > 0;
  }

  // ---------- the second restriction ----------

  /** The state reported by the first successful restriction after the last
      successful restore: the network as it was before containment. */
  ghost function BeforeContainment(e: seq<Effect>): Option<NetState> {
    if e == [] then None
    else
      var rest, last := BeforeContainment(e[..|e| - 1]), e[|e| - 1];
      if last.RestoreAsked? && last.done then None
      else if last.Restricted? && rest == None then Some(last.previous)
      else rest
  }

  lemma {:induction false} SameOutstanding(e: seq<Effect>)
    ensures Outstanding(e) == None <==> BeforeContainment(e) == None
  {
    if e != [] { SameOutstanding(e[..|e| - 1]); }
  }

  /** A restriction that succeeds overwrites the stored previous state. What
      `exit` would restore afterwards is the network as it was before
      containment exactly when nothing was restricted yet or the adapter
      reported that very state again. */
  lemma RestrictionOverwritesPrevious(cfg: Config, w: World, a: Authorization, now: int, previous: NetState, current: NetState)
    requires Inv(w) && Active(w) && Authorized(a, now) && EvidenceVerified(cfg, w, w.stored.incident)
    ensures var r := Step(cfg, w, a, now, Restrict(Done(previous, current))).0;
            && StoredNetwork(r) == Some(Network(previous, current))
            && BeforeContainment(r.effects).Some?
            && (BeforeContainment(r.effects) == Some(previous)
                <==> StoredNetwork(w) == None || BeforeContainment(w.effects) == Some(previous))
  {
    SameOutstanding(w.effects);
    var r := StepRestrict(w, w.stored.incident, a, Restrict(Done(previous, current))).0;
    assert r.effects[..|w.effects|] == w.effects;
  }

  // ---------- runs that never restrict twice ----------

  predicate OnlyRestores(before: seq<Effect>, after: seq<Effect>) {
    after == before || (|after| == |before| + 1 && after[..|before|] == before && after[|before|].RestoreAsked?)
  }

  lemma OnlyRestrictRestricts(cfg: Config, w: World, a: Authorization, now: int, c: Call)
    requires !c.Restrict?
    ensures OnlyRestores(w.effects, Step(cfg, w, a, now, c).0.effects)
  {}

  lemma RestoreKeepsPlace(e: seq<Effect>, x: Effect)
    requires Outstanding(e) == BeforeContainment(e) && (x.Restricted? ==> Outstanding(e) == None)
    ensures Outstanding(e + [x]) == BeforeContainment(e + [x])
  {
    assert (e + [x])[..|e|] == e;
  }

  /** A caller who restricts only while no network state is stored. */
  predicate Guarded(w: World, m: Move) {
    m.Do? && m.call.Restrict? ==> StoredNetwork(w) == None
  }

  lemma GuardedMoveKeepsPlace(cfg: Config, w: World, m: Move)
    requires Inv(w) && Outstanding(w.effects) == BeforeContainment(w.effects) && Guarded(w, m)
    ensures Outstanding(Move1(cfg, w, m).effects) == BeforeContainment(Move1(cfg, w, m).effects)
  {
    if m.Do? {
      var r := Step(cfg, w, m.who, m.now, m.call).0;
      EveryCall(cfg, w, m.who, m.now, m.call);
      if !m.call.Restrict? { OnlyRestrictRestricts(cfg, w, m.who, m.now, m.call); }
      if r.effects != w.effects {
        RestoreKeepsPlace(w.effects, r.effects[|w.effects|]);
        assert r.effects == w.effects + [r.effects[|w.effects|]];
      }
    }
  }

  /** If the caller never restricts while a network state is stored, the stored
      previous state is always the network as it was before containment. */
  lemma {:induction false} GuardedRunsRestoreTheOriginal(cfg: Config, files: map<string, Bytes>, moves: seq<Move>)
    requires forall k :: 0 <= k < |moves| ==> Guarded(Run(cfg, Fresh(files), moves[..k]), moves[k])
    ensures var w := Run(cfg, Fresh(files), moves);
            && Outstanding(w.effects) == BeforeContainment(w.effects)
            && (StoredNetwork(w).Some? ==> BeforeContainment(w.effects) == Some(StoredNetwork(w).value.previous))
  {
    RunKeepsInv(cfg, Fresh(files), moves);
    if moves != [] {
      var n := |moves| - 1;
      assert forall k :: 0 <= k < n ==> moves[..n][..k] == moves[..k];
      GuardedRunsRestoreTheOriginal(cfg, files, moves[..n]);
      RunKeepsInv(cfg, Fresh(files), moves[..n]);
      GuardedMoveKeepsPlace(cfg, Run(cfg, Fresh(files), moves[..n]), moves[n]);
    }
  }
}
