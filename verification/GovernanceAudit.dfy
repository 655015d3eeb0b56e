/** The governance decision rule and its hash-chained access audit
    (mac_audit_agent/data_governance.py). */
module GovernanceAudit {
  import opened Common
  import opened JsonText

  // ---------- the decision rule ----------

  datatype Classification = Public | Internal | Sensitive | Restricted
  datatype Role = Viewer | Auditor | SecurityAnalyst | Administrator

  function Rank(r: Role): nat {
    match r case Viewer => 0 case Auditor => 1 case SecurityAnalyst => 2 case Administrator => 3
  }

  datatype Policy = Policy(dataType: string, classification: Classification, retentionDays: Option<nat>, minimumRole: Role,
                           exportRequiresApproval: bool, encryptionAtRestRequired: bool, externalAllowed: bool)

  /** `expiresAt` is None when the text is not a time stamp. */
  datatype Context = Context(user: string, role: Role, authenticated: bool, source: string, expiresAt: Option<int>)

  predicate Valid(c: Context, now: int) {
    c.expiresAt.Some? && !Blank(c.user) && !Blank(c.source) && c.authenticated && c.expiresAt.value > now
  }

  datatype Protection = Protection(encryptionAtRest: bool, secureTransport: bool)

  datatype Reason =
    | AuthenticationRequired | RoleTooLow(has: Role, needs: Role) | ApprovalRequired | SharingProhibited
    | ExternalAiProhibited | DestinationRequired | ProtectionMissing | AuthorizedByPolicy
    | RetentionApprovalRequired | RetentionRecorded

  datatype Requirement = EncryptionAtRest | SecureTransport

  const LEAVING: seq<string> := ["export", "share", "ai_external"]

  /** The `if` chain of `authorize`. */
  function Decide(p: Policy, c: Context, now: int, action: string, approval: bool, destination: string, evidence: Option<Protection>): (Reason, seq<Requirement>) {
    if !Valid(c, now) then (AuthenticationRequired, [])
    else if Rank(c.role) < Rank(p.minimumRole) then (RoleTooLow(c.role, p.minimumRole), [])
    else if action in LEAVING && p.exportRequiresApproval && !approval then (ApprovalRequired, [])
    else if action == "share" && !p.externalAllowed then (SharingProhibited, [])
    else if action == "ai_external" && !p.externalAllowed then (ExternalAiProhibited, [])
    else if action in ["export", "share"] && Blank(destination) then (DestinationRequired, [])
    else
      var e := if evidence.Some? then evidence.value else Protection(false, false);
      var requirements :=
        (if p.encryptionAtRestRequired && action in ["store", "export"] && !e.encryptionAtRest then [EncryptionAtRest] else [])
        + (if action == "share" && !e.secureTransport then [SecureTransport] else []);
      (if requirements != [] then ProtectionMissing else AuthorizedByPolicy, requirements)
  }

  predicate Allowed(d: (Reason, seq<Requirement>)) {
    d.1 == [] && d.0 == AuthorizedByPolicy
  }

  /** What the policy demands, as a conjunction of separate demands. */
  predicate Permitted(p: Policy, c: Context, now: int, action: string, approval: bool, destination: string, evidence: Option<Protection>) {
    && Valid(c, now) && Rank(c.role) >= Rank(p.minimumRole)
    && (action in LEAVING && p.exportRequiresApproval ==> approval)
    && (action in ["share", "ai_external"] ==> p.externalAllowed)
    && (action in ["export", "share"] ==> !Blank(destination))
    && (action in ["store", "export"] && p.encryptionAtRestRequired ==> evidence.Some? && evidence.value.encryptionAtRest)
    && (action == "share" ==> evidence.Some? && evidence.value.secureTransport)
  }

  /** The chain allows exactly what meets every demand. */
  lemma DecideIsExact(p: Policy, c: Context, now: int, action: string, approval: bool, destination: string, evidence: Option<Protection>)
    ensures Allowed(Decide(p, c, now, action, approval, destination, evidence))
            <==> Permitted(p, c, now, action, approval, destination, evidence)
  {}

  /** The demand a reason names is not met. */
  predicate Unmet(r: Reason, p: Policy, c: Context, now: int, action: string, approval: bool, destination: string, evidence: Option<Protection>) {
    match r
    case AuthenticationRequired => !Valid(c, now)
    case RoleTooLow(has, needs) => has == c.role && needs == p.minimumRole && Rank(has) < Rank(needs)
    case ApprovalRequired => action in LEAVING && p.exportRequiresApproval && !approval
    case SharingProhibited => action == "share" && !p.externalAllowed
    case ExternalAiProhibited => action == "ai_external" && !p.externalAllowed
    case DestinationRequired => action in ["export", "share"] && Blank(destination)
    case ProtectionMissing => Lacks(EncryptionAtRest, p, action, evidence) || Lacks(SecureTransport, p, action, evidence)
    case _ => false
  }

  /** A protection the action needs is not in evidence. */
  predicate Lacks(need: Requirement, p: Policy, action: string, evidence: Option<Protection>) {
    match need
    case EncryptionAtRest => action in ["store", "export"] && p.encryptionAtRestRequired && !(evidence.Some? && evidence.value.encryptionAtRest)
    case SecureTransport => action == "share" && !(evidence.Some? && evidence.value.secureTransport)
  }

  /** The order in which demands are looked at. */
  function Place(r: Reason): nat {
    match r
    case AuthenticationRequired => 0
    case RoleTooLow(_, _) => 1
    case ApprovalRequired => 2
    case SharingProhibited => 3
    case ExternalAiProhibited => 4
    case DestinationRequired => 5
    case ProtectionMissing => 6
    case _ => 7
  }

  /** A refusal names the first demand that is not met, and the protections it
      lists are those that are lacking. */
  lemma ReasonIsFirstUnmet(p: Policy, c: Context, now: int, action: string, approval: bool, destination: string, evidence: Option<Protection>)
    ensures var (reason, requirements) := Decide(p, c, now, action, approval, destination, evidence);
            && (reason == AuthorizedByPolicy || Unmet(reason, p, c, now, action, approval, destination, evidence))
            && (forall other :: Place(other) < Place(reason) ==> !Unmet(other, p, c, now, action, approval, destination, evidence))
            && (requirements != [] ==> reason == ProtectionMissing)
            && (reason == ProtectionMissing ==> forall need :: need in requirements <==> Lacks(need, p, action, evidence))
  {}

  predicate NoWeaker(a: Option<Protection>, b: Option<Protection>) {
    a.Some? ==> (a.value.encryptionAtRest ==> b.Some? && b.value.encryptionAtRest) && (a.value.secureTransport ==> b.Some? && b.value.secureTransport)
  }

  /** Fail-closed: taking a role, an approval or a protection away, or waiting,
      never turns a refusal into a permission. */
  lemma WeakerNeverGains(p: Policy, c: Context, weaker: Context, now: int, later: int, action: string,
                         approval: bool, weakerApproval: bool, destination: string, evidence: Option<Protection>, weakerEvidence: Option<Protection>)
    requires Rank(weaker.role) <= Rank(c.role) && now <= later
    requires weaker.user == c.user && weaker.source == c.source
    requires (weaker.authenticated ==> c.authenticated) && (weakerApproval ==> approval) && NoWeaker(weakerEvidence, evidence)
    requires weaker.expiresAt.Some? ==> c.expiresAt.Some? && weaker.expiresAt.value <= c.expiresAt.value
    requires Allowed(Decide(p, weaker, later, action, weakerApproval, destination, weakerEvidence))
    ensures Allowed(Decide(p, c, now, action, approval, destination, evidence))
  {
    DecideIsExact(p, weaker, later, action, weakerApproval, destination, weakerEvidence);
    DecideIsExact(p, c, now, action, approval, destination, evidence);
  }

  const DEFAULT_POLICIES: seq<Policy> := [
    Policy("public_documentation", Public, None, Viewer, false, false, true),
    Policy("security_finding", Internal, Some(365), Viewer, false, false, false),
    Policy("process_metadata", Sensitive, Some(30), SecurityAnalyst, true, true, false),
    Policy("security_event", Sensitive, Some(90), SecurityAnalyst, true, true, false),
    Policy("report", Sensitive, Some(365), Auditor, true, true, false),
    Policy("forensic_evidence", Restricted, None, SecurityAnalyst, true, true, false),
    Policy("access_audit", Restricted, Some(730), Auditor, true, true, false)
  ]

  /** Under the shipped policies nothing but public documentation is ever shared
      or sent to an external model, and sensitive data leaves by export only
      with approval, a destination and verified encryption. */
  lemma ShippedPoliciesContain(p: Policy, c: Context, now: int, action: string, approval: bool, destination: string, evidence: Option<Protection>)
    requires p in DEFAULT_POLICIES && Allowed(Decide(p, c, now, action, approval, destination, evidence))
    ensures action in ["share", "ai_external"] ==> p.classification == Public
    ensures action == "export" && p.classification in {Sensitive, Restricted} ==>
              approval && !Blank(destination) && Rank(c.role) >= Rank(Auditor) && evidence.Some? && evidence.value.encryptionAtRest
  {
    DecideIsExact(p, c, now, action, approval, destination, evidence);
    var i :| 0 <= i < |DEFAULT_POLICIES| && DEFAULT_POLICIES[i] == p;
  }

  // ---------- the hash chain ----------

  datatype Payload = Payload(timestamp: string, user: string, action: string, resource: string, result: string, reason: string, destination: string)

  datatype Row = Row(eventId: string, payload: Payload, previousHash: string, eventHash: string)

  const KEYS: seq<string> := ["action", "destination", "reason", "resource", "result", "timestamp", "user"]

  function Values(p: Payload): seq<string> {
    [p.action, p.destination, p.reason, p.resource, p.result, p.timestamp, p.user]
  }

  /** What `_hash` feeds to SHA-256. */
  function HashInput(previous: string, p: Payload): string {
    previous + ObjectText(KEYS, Values(p))
  }

  /** A SHA-256 hex digest (FIPS 180-4). */
  predicate IsDigest(s: string) {
    |s| == 64 && forall i :: 0 <= i < |s| ==> s[i] in HEX
  }

  ghost predicate DigestFunction(sha256: string -> string) {
    forall x :: IsDigest(sha256(x))
  }

  /** What is hashed before the first row, and the link every later row carries. */
  function Link(rows: seq<Row>): string {
    if rows == [] then "" else rows[|rows| - 1].eventHash
  }

  predicate RowFollows(sha256: string -> string, previous: string, r: Row) {
    r.previousHash == previous && r.eventHash == sha256(HashInput(previous, r.payload))
  }

  /** The log `verify_audit_chain` accepts. */
  predicate Verifies(sha256: string -> string, rows: seq<Row>) {
    forall i :: 0 <= i < |rows| ==> RowFollows(sha256, Link(rows[..i]), rows[i])
  }

  // ---------- what the hash input determines ----------

  lemma DigestHasNoBrace(previous: string)
    requires previous == "" || IsDigest(previous)
    ensures '{' !in previous
  {
    assert '{' !in HEX;
    assert forall i :: 0 <= i < |previous| ==> previous[i] in HEX;
  }

  /** A digest or nothing, followed by an object's text, splits in one way only. */
  lemma HashInputDetermines(previous: string, p: Payload, previous': string, p': Payload)
    requires previous == "" || IsDigest(previous)
    requires previous' == "" || IsDigest(previous')
    requires HashInput(previous, p) == HashInput(previous', p')
    ensures previous == previous' && p == p'
  {
    var x, y := ObjectText(KEYS, Values(p)), ObjectText(KEYS, Values(p'));
    DigestHasNoBrace(previous);
    DigestHasNoBrace(previous');
    assert (previous + x)[|previous|] == '{' && (previous' + y)[|previous'|] == '{';
    assert |previous| == |previous'|;
    assert (previous + x)[..|previous|] == previous && (previous' + y)[..|previous'|] == previous';
    Uncons(previous, x, y);
    ObjectTextDetermines(KEYS, Values(p), Values(p'));
    assert forall i :: 0 <= i < 7 ==> Values(p)[i] == Values(p')[i];
  }

  // ---------- what the last digest fixes ----------

  function Payloads(rows: seq<Row>): seq<Payload> {
    seq(|rows|, i requires 0 <= i < |rows| => rows[i].payload)
  }

  /** Two different texts hashed by rows of the two logs have the same digest. */
  ghost predicate Collide(sha256: string -> string, a: seq<Row>, b: seq<Row>) {
    exists i, j :: CollideAt(sha256, a, b, i, j)
  }

  ghost predicate CollideAt(sha256: string -> string, a: seq<Row>, b: seq<Row>, i: int, j: int) {
    && 0 <= i < |a| && 0 <= j < |b|
    && HashInput(a[i].previousHash, a[i].payload) != HashInput(b[j].previousHash, b[j].payload)
    && sha256(HashInput(a[i].previousHash, a[i].payload)) == sha256(HashInput(b[j].previousHash, b[j].payload))
  }

  lemma VerifiesPrefix(sha256: string -> string, rows: seq<Row>, n: nat)
    requires Verifies(sha256, rows) && n <= |rows|
    ensures Verifies(sha256, rows[..n])
  {
    forall i | 0 <= i < n
      ensures RowFollows(sha256, Link(rows[..n][..i]), rows[..n][i])
    {
      assert rows[..n][..i] == rows[..i];
    }
  }

  lemma LinkIsDigest(sha256: string -> string, rows: seq<Row>)
    requires DigestFunction(sha256) && Verifies(sha256, rows)
    ensures Link(rows) == "" <==> rows == []
    ensures rows != [] ==> IsDigest(Link(rows))
  {
    if rows != [] {
      assert RowFollows(sha256, Link(rows[..|rows| - 1]), rows[|rows| - 1]);
    }
  }

  /** Equal last digests: the last rows agree and so do the links before them,
      or the two texts hashed differ. */
  lemma LastRowsAgree(sha256: string -> string, a: seq<Row>, b: seq<Row>)
    requires DigestFunction(sha256) && Verifies(sha256, a) && Verifies(sha256, b)
    requires a != [] && b != [] && Link(a) == Link(b)
    ensures CollideAt(sha256, a, b, |a| - 1, |b| - 1)
            || (a[|a| - 1].payload == b[|b| - 1].payload && Link(a[..|a| - 1]) == Link(b[..|b| - 1]))
  {
    var m, n := |a| - 1, |b| - 1;
    var p, q := Link(a[..m]), Link(b[..n]);
    assert RowFollows(sha256, p, a[m]) && RowFollows(sha256, q, b[n]);
    VerifiesPrefix(sha256, a, m);
    VerifiesPrefix(sha256, b, n);
    LinkIsDigest(sha256, a[..m]);
    LinkIsDigest(sha256, b[..n]);
    if HashInput(p, a[m].payload) == HashInput(q, b[n].payload) {
      HashInputDetermines(p, a[m].payload, q, b[n].payload);
    }
  }

  lemma PayloadsAppend(rows: seq<Row>)
    requires rows != []
    ensures Payloads(rows) == Payloads(rows[..|rows| - 1]) + [rows[|rows| - 1].payload]
  {}

  lemma CollideInPrefix(sha256: string -> string, a: seq<Row>, b: seq<Row>, m: nat, n: nat)
    requires m <= |a| && n <= |b| && Collide(sha256, a[..m], b[..n])
    ensures Collide(sha256, a, b)
  {
    var i, j :| CollideAt(sha256, a[..m], b[..n], i, j);
    assert a[..m][i] == a[i] && b[..n][j] == b[j];
    assert CollideAt(sha256, a, b, i, j);
  }

  /** Two logs that verify and end in the same digest have the same length and
      the same payload in every row, or they exhibit a collision of SHA-256. */
  lemma {:induction false} LastDigestFixesPayloads(sha256: string -> string, a: seq<Row>, b: seq<Row>)
    requires DigestFunction(sha256) && Verifies(sha256, a) && Verifies(sha256, b) && Link(a) == Link(b)
    ensures Payloads(a) == Payloads(b) || Collide(sha256, a, b)
    decreases |a|
  {
    LinkIsDigest(sha256, a);
    LinkIsDigest(sha256, b);
    if a != [] {
      var m, n := |a| - 1, |b| - 1;
      LastRowsAgree(sha256, a, b);
      if !CollideAt(sha256, a, b, m, n) {
        VerifiesPrefix(sha256, a, m);
        VerifiesPrefix(sha256, b, n);
        LastDigestFixesPayloads(sha256, a[..m], b[..n]);
        if Collide(sha256, a[..m], b[..n]) {
          CollideInPrefix(sha256, a, b, m, n);
        } else {
          PayloadsAppend(a);
          PayloadsAppend(b);
        }
      }
    }
  }

  /** The other direction of what verification sees: it does not notice rows
      missing from the end, nor a changed event id. */
  lemma TailAndEventIdsAreUnprotected(sha256: string -> string, rows: seq<Row>, n: nat, i: nat, eventId: string)
    requires Verifies(sha256, rows) && n <= |rows| && i < |rows|
    ensures Verifies(sha256, rows[..n])
    ensures Verifies(sha256, rows[i := rows[i].(eventId := eventId)])
  {
    VerifiesPrefix(sha256, rows, n);
    var other := rows[i := rows[i].(eventId := eventId)];
    forall k | 0 <= k < |other|
      ensures RowFollows(sha256, Link(other[..k]), other[k])
    {
      assert RowFollows(sha256, Link(rows[..k]), rows[k]);
      LinkIgnoresEventIds(rows, i, eventId, k);
      FollowsIgnoresEventId(sha256, Link(rows[..k]), rows[k], other[k]);
    }
  }

  lemma LinkIgnoresEventIds(rows: seq<Row>, i: nat, eventId: string, k: nat)
    requires i < |rows| && k <= |rows|
    ensures Link(rows[i := rows[i].(eventId := eventId)][..k]) == Link(rows[..k])
  {
    var other := rows[i := rows[i].(eventId := eventId)];
    assert k > 0 ==> other[..k][k - 1].eventHash == rows[..k][k - 1].eventHash;
  }

  lemma FollowsIgnoresEventId(sha256: string -> string, previous: string, row: Row, other: Row)
    requires RowFollows(sha256, previous, row)
    requires other.payload == row.payload && other.previousHash == row.previousHash && other.eventHash == row.eventHash
    ensures RowFollows(sha256, previous, other)
  {}

  /** Verification goes row by row. */
  lemma VerifiesNext(sha256: string -> string, rows: seq<Row>, i: nat)
    requires i < |rows| && Verifies(sha256, rows[..i])
    ensures Verifies(sha256, rows[..i + 1]) <==> RowFollows(sha256, Link(rows[..i]), rows[i])
    ensures Verifies(sha256, rows) ==> Verifies(sha256, rows[..i + 1])
    ensures Link(rows[..i + 1]) == rows[i].eventHash
  {
    var longer := rows[..i + 1];
    if RowFollows(sha256, Link(rows[..i]), rows[i]) {
      AppendKeepsVerifies(sha256, rows[..i], rows[i]);
      assert longer == rows[..i] + [rows[i]];
    }
    if Verifies(sha256, longer) {
      assert longer[..i] == rows[..i] && RowFollows(sha256, Link(longer[..i]), longer[i]);
    }
    if Verifies(sha256, rows) {
      VerifiesPrefix(sha256, rows, i + 1);
    }
  }

  // ---------- the service ----------

  datatype Retention = Retention(days: Option<int>, owner: string)

  datatype GovernanceError = UnclassifiedDataType | RetentionTooShort

  datatype Decision = Decision(allowed: bool, action: string, dataType: string, classification: Classification,
                               reason: Reason, requirements: seq<Requirement>, evidenceReference: string)

  datatype Request =
    | Authorize(action: string, dataType: string, approval: bool, destination: string, evidence: Option<Protection>)
    | SetRetention(dataType: string, days: Option<int>, owner: string, approval: bool)

  /** The caller, the clock reading, and the row's time stamp and fresh id. */
  datatype Occasion = Occasion(context: Context, now: int, timestamp: string, eventId: string)

  datatype Ledger = Ledger(rows: seq<Row>, retention: map<string, Retention>)

  datatype Setup = Setup(policies: map<string, Policy>, sha256: string -> string)

  function RoleName(r: Role): string {
    match r case Viewer => "VIEWER" case Auditor => "AUDITOR" case SecurityAnalyst => "SECURITY_ANALYST" case Administrator => "ADMINISTRATOR"
  }

  function ReasonText(r: Reason): string {
    match r
    case AuthenticationRequired => "Valid, time-limited authentication is required."
    case RoleTooLow(has, needs) => RoleName(has) + " does not meet minimum role " + RoleName(needs) + "."
    case ApprovalRequired => "Explicit export approval is required for this classification."
    case SharingProhibited => "External sharing is prohibited by the data policy."
    case ExternalAiProhibited => "External AI processing is prohibited by the data policy."
    case DestinationRequired => "An explicit export destination is required."
    case ProtectionMissing => "Required protection evidence is missing."
    case AuthorizedByPolicy => "Authorized by classification and role policy."
    case RetentionApprovalRequired => "Valid administrator approval and a policy owner are required."
    case RetentionRecorded => "Authorized retention policy update recorded; no records were deleted."
  }

  function ResultText(allowed: bool): string {
    if allowed then "allowed" else "blocked"
  }

  function PayloadOf(o: Occasion, d: Decision, destination: string): Payload {
    Payload(o.timestamp, if o.context.user == "" then "unknown" else o.context.user, d.action, d.dataType,
            ResultText(d.allowed), ReasonText(d.reason), destination)
  }

  /** `_audit`: link the new row to the last one. */
  function Append(sha256: string -> string, rows: seq<Row>, o: Occasion, d: Decision, destination: string): seq<Row> {
    var payload := PayloadOf(o, d, destination);
    rows + [Row(o.eventId, payload, Link(rows), sha256(HashInput(Link(rows), payload)))]
  }

  function ModifyRetention(): string {
    "modify_retention"
  }

  /** A valid administrator with approval, naming an owner. */
  predicate MayRetain(o: Occasion, q: Request)
    requires q.SetRetention?
  {
    Valid(o.context, o.now) && Rank(o.context.role) >= Rank(Administrator) && q.approval && !Blank(q.owner)
  }

  function RetentionDecision(p: Policy, o: Occasion, q: Request): Decision
    requires q.SetRetention?
  {
    var ok := MayRetain(o, q);
    Decision(ok, ModifyRetention(), q.dataType, p.classification, if ok then RetentionRecorded else RetentionApprovalRequired, [], o.eventId)
  }

  function AccessDecision(p: Policy, o: Occasion, q: Request): Decision
    requires q.Authorize?
  {
    var d := Decide(p, o.context, o.now, q.action, q.approval, q.destination, q.evidence);
    Decision(Allowed(d), q.action, q.dataType, p.classification, d.0, d.1, o.eventId)
  }

  /** The retention table after a decision on q. */
  function Retained(retention: map<string, Retention>, q: Request, allowed: bool): map<string, Retention>
    requires q.SetRetention?
  {
    if allowed && q.dataType in retention then retention[q.dataType := Retention(q.days, Strip(q.owner))] else retention
  }

  function ServeAccess(s: Setup, l: Ledger, o: Occasion, q: Request, p: Policy): (Ledger, Result<Decision, GovernanceError>)
    requires q.Authorize?
  {
    var d := AccessDecision(p, o, q);
    (l.(rows := Append(s.sha256, l.rows, o, d, q.destination)), Ok(d))
  }

  function ServeRetention(s: Setup, l: Ledger, o: Occasion, q: Request, p: Policy): (Ledger, Result<Decision, GovernanceError>)
    requires q.SetRetention?
  {
    if q.days.Some? && q.days.value < 1 then (l, Err(RetentionTooShort))
    else
      var d := RetentionDecision(p, o, q);
      (Ledger(Append(s.sha256, l.rows, o, d, ""), Retained(l.retention, q, d.allowed)), Ok(d))
  }

  /** One request: the ledger afterwards and what the caller got. */
  function Serve(s: Setup, l: Ledger, o: Occasion, q: Request): (Ledger, Result<Decision, GovernanceError>) {
    if q.dataType !in s.policies then (l, Err(UnclassifiedDataType))
    else if q.Authorize? then ServeAccess(s, l, o, q, s.policies[q.dataType])
    else ServeRetention(s, l, o, q, s.policies[q.dataType])
  }

  /** d is what the request calls for on this occasion. */
  predicate Rightly(s: Setup, o: Occasion, q: Request, d: Decision) {
    && q.dataType in s.policies && d.dataType == q.dataType && d.classification == s.policies[q.dataType].classification
    && d.evidenceReference == o.eventId
    && (match q
        case Authorize(action, dataType, approval, destination, evidence) =>
          && d.action == action
          && (d.allowed <==> Permitted(s.policies[dataType], o.context, o.now, action, approval, destination, evidence))
          && (d.reason == AuthorizedByPolicy <==> d.allowed)
          && (d.allowed || Unmet(d.reason, s.policies[dataType], o.context, o.now, action, approval, destination, evidence))
        case SetRetention(_, _, _, _) =>
          && d.action == "modify_retention"
          && (d.allowed <==> MayRetain(o, q))
          && d.reason == if d.allowed then RetentionRecorded else RetentionApprovalRequired)
  }

  /** A request is turned away before any decision. */
  predicate TurnedAway(s: Setup, q: Request) {
    q.dataType !in s.policies || (q.SetRetention? && q.days.Some? && q.days.value < 1)
  }

  /** Whatever is answered is answered rightly, and an error changes nothing. */
  lemma ServeDecides(s: Setup, l: Ledger, o: Occasion, q: Request)
    ensures var (after, r) := Serve(s, l, o, q);
            && (r.Err? <==> TurnedAway(s, q)) && (r == Err(UnclassifiedDataType) <==> q.dataType !in s.policies)
            && (if r.Ok? then Rightly(s, o, q, r.value) else after == l)
  {
    if q.dataType in s.policies && q.Authorize? {
      DecideIsExact(s.policies[q.dataType], o.context, o.now, q.action, q.approval, q.destination, q.evidence);
      ReasonIsFirstUnmet(s.policies[q.dataType], o.context, o.now, q.action, q.approval, q.destination, q.evidence);
    }
  }

  class DataGovernanceService {
    const setup: Setup
    var rows: seq<Row>
    var retention: map<string, Retention>

    ghost function State(): Ledger reads this {
      Ledger(rows, retention)
    }

    /** Opens the ledger a database holds. Its rows stay, and so do its retention
        periods; a classified type without one gets the shipped period. */
    constructor (setup: Setup, stored: Ledger)
      ensures this.setup == setup && rows == stored.rows
      ensures retention.Keys == setup.policies.Keys + stored.retention.Keys
      ensures forall t :: t in retention ==>
                retention[t] == if t in stored.retention then stored.retention[t] else DefaultRetention(setup.policies[t])
    {
      this.setup := setup;
      rows := stored.rows;
      retention := (map t | t in setup.policies :: DefaultRetention(setup.policies[t])) + stored.retention;
    }

    static function DefaultRetention(p: Policy): Retention {
      Retention(FirstRetention(p), "organization security owner")
    }

    static function FirstRetention(p: Policy): Option<int> {
      if p.retentionDays.Some? then Some(p.retentionDays.value) else None
    }

    method WriteAudit(o: Occasion, d: Decision, destination: string)
      modifies this`rows
      ensures rows == Append(setup.sha256, old(rows), o, d, destination)
    {
      var previous := if |rows| > 0 then rows[|rows| - 1].eventHash else "";
      var payload := PayloadOf(o, d, destination);
      var digest := setup.sha256(HashInput(previous, payload));
      rows := rows + [Row(o.eventId, payload, previous, digest)];
    }

    method DoAuthorize(o: Occasion, action: string, dataType: string, approval: bool, destination: string, evidence: Option<Protection>)
      returns (r: Result<Decision, GovernanceError>)
      modifies this
      ensures (State(), r) == Serve(setup, old(State()), o, Authorize(action, dataType, approval, destination, evidence))
      ensures r.Ok? <==> dataType in setup.policies
      ensures r.Ok? ==> (r.value.allowed <==> Permitted(setup.policies[dataType], o.context, o.now, action, approval, destination, evidence))
    {
      if dataType !in setup.policies { return Err(UnclassifiedDataType); }
      var policy := setup.policies[dataType];
      var (reason, requirements) := Decide(policy, o.context, o.now, action, approval, destination, evidence);
      var allowed := requirements == [] && reason == AuthorizedByPolicy;
      var decision := Decision(allowed, action, dataType, policy.classification, reason, requirements, o.eventId);
      DecideIsExact(policy, o.context, o.now, action, approval, destination, evidence);
      WriteAudit(o, decision, destination);
      return Ok(decision);
    }

    /** The decision on a retention period, audited. */
    method AnswerRetention(o: Occasion, dataType: string, p: Policy, allowed: bool, ghost q: Request) returns (d: Decision)
      requires q.SetRetention? && q.dataType == dataType && (allowed <==> MayRetain(o, q))
      modifies this`rows
      ensures d == RetentionDecision(p, o, q) && d.allowed == allowed
      ensures rows == Append(setup.sha256, old(rows), o, d, "")
    {
      d := Decision(allowed, ModifyRetention(), dataType, p.classification, if allowed then RetentionRecorded else RetentionApprovalRequired, [], o.eventId);
      WriteAudit(o, d, "");
    }

    method DoSetRetention(o: Occasion, dataType: string, days: Option<int>, owner: string, approval: bool)
      returns (r: Result<Decision, GovernanceError>)
      modifies this
      ensures (State(), r) == Serve(setup, old(State()), o, SetRetention(dataType, days, owner, approval))
    {
      if dataType !in setup.policies { return Err(UnclassifiedDataType); }
      var policy := setup.policies[dataType];
      if days.Some? && days.value < 1 { return Err(RetentionTooShort); }
      ghost var q := SetRetention(dataType, days, owner, approval);
      if !Valid(o.context, o.now) || Rank(o.context.role) < Rank(Administrator) || !approval || Blank(owner) {
        var refused := AnswerRetention(o, dataType, policy, false, q);
        return Ok(refused);
      }
      if dataType in retention {
        retention := retention[dataType := Retention(days, Strip(owner))];
      }
      var decision := AnswerRetention(o, dataType, policy, true, q);
      return Ok(decision);
    }

    /** The test of one row. */
    method CheckRow(previous: string, row: Row) returns (sound: bool)
      ensures sound <==> RowFollows(setup.sha256, previous, row)
    {
      sound := row.previousHash == previous && row.eventHash == setup.sha256(HashInput(previous, row.payload));
    }

    /** `verify_audit_chain`, carrying the previous row's digest. */
    method VerifyAuditChain() returns (ok: bool)
      ensures ok <==> Verifies(setup.sha256, rows)
    {
      var previous := "";
      for i := 0 to |rows|
        invariant previous == Link(rows[..i])
        invariant Verifies(setup.sha256, rows[..i])
      {
        VerifiesNext(setup.sha256, rows, i);
        var sound := CheckRow(previous, rows[i]);
        if !sound { return false; }
        previous := rows[i].eventHash;
      }
      assert rows[..|rows|] == rows;
      ok := true;
    }
  }

  // ---------- every run of the service ----------

  lemma AppendKeepsVerifies(sha256: string -> string, rows: seq<Row>, r: Row)
    requires Verifies(sha256, rows) && RowFollows(sha256, Link(rows), r)
    ensures Verifies(sha256, rows + [r])
  {
    var longer := rows + [r];
    forall i | 0 <= i < |longer|
      ensures RowFollows(sha256, Link(longer[..i]), longer[i])
    {
      assert longer[..i] == rows[..i];
      assert rows[..|rows|] == rows;
    }
  }

  datatype Asked = Asked(occasion: Occasion, request: Request)

  /** A request and the decision its caller received. */
  datatype Exchange = Exchange(asked: Asked, decision: Decision)

  /** The ledger after a run of requests, and the decisions callers received. */
  function Run(s: Setup, l: Ledger, asked: seq<Asked>): (Ledger, seq<Exchange>) {
    if asked == [] then (l, [])
    else
      var (before, exchanges) := Run(s, l, asked[..|asked| - 1]);
      var last := asked[|asked| - 1];
      var (after, r) := Serve(s, before, last.occasion, last.request);
      (after, match r case Ok(d) => exchanges + [Exchange(last, d)] case Err(_) => exchanges)
  }

  /** The requests that are decided. */
  function Decidable(s: Setup, asked: seq<Asked>): seq<Asked> {
    if asked == [] then []
    else
      var last := asked[|asked| - 1];
      Decidable(s, asked[..|asked| - 1]) + (if TurnedAway(s, last.request) then [] else [last])
  }

  /** Row r is the record of exchange x: who asked, when, for what, to where,
      and what was decided. */
  predicate RowRecords(r: Row, x: Exchange) {
    var o, q, d := x.asked.occasion, x.asked.request, x.decision;
    && r.eventId == d.evidenceReference && r.payload.action == d.action && r.payload.resource == d.dataType
    && r.payload.result == ResultText(d.allowed) && r.payload.reason == ReasonText(d.reason)
    && r.payload.timestamp == o.timestamp && r.payload.user == (if o.context.user == "" then "unknown" else o.context.user)
    && r.payload.destination == match q case Authorize(_, _, _, destination, _) => destination case SetRetention(_, _, _, _) => ""
  }

  function RecordsOf(): (Row, Exchange) -> bool {
    (r, x) => RowRecords(r, x)
  }

  /** The rows from n on stand for the exchanges, one each, in order. */
  ghost predicate Matched(n: nat, rows: seq<Row>, exchanges: seq<Exchange>, records: (Row, Exchange) -> bool) {
    |rows| == n + |exchanges| && forall i :: 0 <= i < |exchanges| ==> records(rows[n + i], exchanges[i])
  }

  lemma MatchedNext(n: nat, rows: seq<Row>, exchanges: seq<Exchange>, records: (Row, Exchange) -> bool, r: Row, x: Exchange)
    requires Matched(n, rows, exchanges, records) && records(r, x)
    ensures Matched(n, rows + [r], exchanges + [x], records)
  {}

  /** The rows verify, and are the earlier ones and one record of each exchange. */
  ghost predicate Recorded(sha256: string -> string, earlier: seq<Row>, rows: seq<Row>, exchanges: seq<Exchange>) {
    Verifies(sha256, rows) && earlier <= rows && Matched(|earlier|, rows, exchanges, RecordsOf())
  }

  /** Each of the asked requests was decided, rightly, in order. */
  ghost predicate AllRightly(s: Setup, asked: seq<Asked>, exchanges: seq<Exchange>) {
    |exchanges| == |asked| && forall i :: 0 <= i < |asked| ==> DecidedRightly(s, asked[i], exchanges[i])
  }

  predicate DecidedRightly(s: Setup, a: Asked, x: Exchange) {
    x.asked == a && Rightly(s, a.occasion, a.request, x.decision)
  }

  lemma OneMoreRightly(s: Setup, asked: seq<Asked>, exchanges: seq<Exchange>, a: Asked, x: Exchange)
    requires AllRightly(s, asked, exchanges) && DecidedRightly(s, a, x)
    ensures AllRightly(s, asked + [a], exchanges + [x])
  {}

  lemma LastAppended(rows: seq<Row>, after: seq<Row>)
    requires |after| == |rows| + 1 && after[..|rows|] == rows
    ensures after == rows + [after[|rows|]]
  {}

  lemma AppendVerifies(sha256: string -> string, rows: seq<Row>, after: seq<Row>)
    requires Verifies(sha256, rows) && |after| == |rows| + 1 && after[..|rows|] == rows
    requires RowFollows(sha256, Link(rows), after[|rows|])
    ensures Verifies(sha256, after)
  {
    LastAppended(rows, after);
    AppendKeepsVerifies(sha256, rows, after[|rows|]);
  }

  lemma AppendMatches(n: nat, rows: seq<Row>, exchanges: seq<Exchange>, last: Row, x: Exchange)
    requires Matched(n, rows, exchanges, RecordsOf()) && RowRecords(last, x)
    ensures Matched(n, rows + [last], exchanges + [x], RecordsOf())
  {
    MatchedNext(n, rows, exchanges, RecordsOf(), last, x);
  }

  lemma RecordedNext(sha256: string -> string, earlier: seq<Row>, rows: seq<Row>, exchanges: seq<Exchange>, after: seq<Row>, x: Exchange)
    requires Recorded(sha256, earlier, rows, exchanges) && AppendsRecord(sha256, rows, after, x)
    ensures Recorded(sha256, earlier, after, exchanges + [x])
  {
    LastAppended(rows, after);
    AppendVerifies(sha256, rows, after);
    AppendMatches(|earlier|, rows, exchanges, after[|rows|], x);
  }

  /** One more row, the record of x, linked to the last. */
  predicate AppendsRecord(sha256: string -> string, before: seq<Row>, after: seq<Row>, x: Exchange) {
    && |after| == |before| + 1 && after[..|before|] == before
    && RowRecords(after[|before|], x) && RowFollows(sha256, Link(before), after[|before|])
  }

  lemma AppendRecords(sha256: string -> string, rows: seq<Row>, x: Exchange, destination: string)
    requires x.decision.evidenceReference == x.asked.occasion.eventId
    requires destination == match x.asked.request case Authorize(_, _, _, to, _) => to case SetRetention(_, _, _, _) => ""
    ensures AppendsRecord(sha256, rows, Append(sha256, rows, x.asked.occasion, x.decision, destination), x)
  {}

  /** A request appends the row of the decision it returns, or does nothing;
      earlier rows stay. */
  lemma ServeRecords(s: Setup, l: Ledger, o: Occasion, q: Request)
    ensures var (after, r) := Serve(s, l, o, q);
            match r
            case Err(_) => after == l
            case Ok(d) => AppendsRecord(s.sha256, l.rows, after.rows, Exchange(Asked(o, q), d))
  {
    if q.dataType in s.policies {
      var p := s.policies[q.dataType];
      if q.Authorize? {
        AppendRecords(s.sha256, l.rows, Exchange(Asked(o, q), AccessDecision(p, o, q)), q.destination);
      } else {
        AppendRecords(s.sha256, l.rows, Exchange(Asked(o, q), RetentionDecision(p, o, q)), "");
      }
    }
  }

  lemma RetentionDecisionAllows(p: Policy, o: Occasion, q: Request)
    requires q.SetRetention?
    ensures RetentionDecision(p, o, q).allowed == MayRetain(o, q)
  {}

  lemma ServeRetentionRetains(s: Setup, l: Ledger, o: Occasion, q: Request, p: Policy)
    requires q.SetRetention?
    ensures var (after, r) := ServeRetention(s, l, o, q, p);
            if r.Ok? then
              && r.value.allowed == MayRetain(o, q) && (q.days.Some? ==> q.days.value >= 1)
              && after.retention == Retained(l.retention, q, r.value.allowed)
            else after == l
  {
    RetentionDecisionAllows(p, o, q);
    assert q.days.Some? && q.days.value < 1 ==> ServeRetention(s, l, o, q, p) == (l, Err(RetentionTooShort));
  }

  lemma RetainedElsewhere(retention: map<string, Retention>, q: Request, allowed: bool, t: string)
    requires q.SetRetention? && t in retention
    ensures Retained(retention, q, allowed).Keys == retention.Keys
    ensures Retained(retention, q, allowed)[t] == if allowed && q.dataType == t then Retention(q.days, Strip(q.owner)) else retention[t]
  {}

  /** A retention period is set by an allowed, recorded decision of a valid
      administrator, for the type asked about and never below a day, and by
      nothing else. */
  lemma RetentionChangesAreAuthorized(s: Setup, l: Ledger, o: Occasion, q: Request, t: string)
    requires t in l.retention
    ensures var (after, r) := Serve(s, l, o, q);
            var due := q.SetRetention? && q.dataType == t && t in s.policies && (q.days.Some? ==> q.days.value >= 1) && MayRetain(o, q);
            && after.retention.Keys == l.retention.Keys
            && after.retention[t] == (if due then Retention(q.days, Strip(q.owner)) else l.retention[t])
            && (due ==> r.Ok? && r.value.allowed)
  {
    if q.dataType in s.policies && q.SetRetention? {
      ServeRetentionRetains(s, l, o, q, s.policies[q.dataType]);
      RetainedElsewhere(l.retention, q, MayRetain(o, q), t);
    } else {
      assert Serve(s, l, o, q).0.retention == l.retention;
    }
  }

  /** Whatever verifying ledger a service opens, the log after every run of
      requests verifies, and is the log it opened followed by one row for each
      request decided, in order, recording it; every decision is the right one. */
  lemma {:induction false} EveryRunVerifies(s: Setup, start: Ledger, asked: seq<Asked>)
    requires Verifies(s.sha256, start.rows)
    ensures var (l, exchanges) := Run(s, start, asked);
            Recorded(s.sha256, start.rows, l.rows, exchanges) && AllRightly(s, Decidable(s, asked), exchanges)
  {
    if asked != [] {
      var earlier, last := asked[..|asked| - 1], asked[|asked| - 1];
      var (before, exchanges) := Run(s, start, earlier);
      EveryRunVerifies(s, start, earlier);
      ServeRecords(s, before, last.occasion, last.request);
      ServeDecides(s, before, last.occasion, last.request);
      var (after, r) := Serve(s, before, last.occasion, last.request);
      if r.Ok? {
        RecordedNext(s.sha256, start.rows, before.rows, exchanges, after.rows, Exchange(last, r.value));
        OneMoreRightly(s, Decidable(s, earlier), exchanges, last, Exchange(last, r.value));
      }
    }
  }
}
