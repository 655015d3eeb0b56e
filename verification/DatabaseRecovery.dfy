/** Evidence-preserving recovery of the monitor database
    (mac_audit_agent/database_recovery.py): an ordered procedure of copies,
    checks and atomic renames, any of which may raise, and after any of which
    the machine may stop. `Disk.moments` keeps every state a stop could leave. */
module DatabaseRecovery {
  import opened Common

  type Bytes = seq<bv8>

  datatype Dir = Live | Evidence
  datatype Path = Path(dir: Dir, name: string)

  /** Which database a file belongs to: the damaged one found at the source
      path, the one rebuilt from it, or neither. */
  datatype Generation = Original | Rebuilt | Neither

  datatype File = File(bytes: Bytes, gen: Generation)
  type Files = map<Path, File>

  datatype Check = CheckOk | CheckBad | CheckSqliteError | CheckOtherError

  /** An ordinary read of a database, or one of its main image alone. */
  datatype Reading = Ordinary | MainOnly

  datatype Event =
    | Bootout
    | Examined(reading: Reading, db: Path, answer: Check)
    | Passed(image: Bytes)  // an ordinary quick_check of this main image answered "ok"
    | Bootstrap
    | Kickstart
    | Served                // the restarted service has written its database
    | Dumping               // the dump file has been opened for writing
    | Receipting            // the receipt file has been opened for writing

  datatype Moment = Moment(files: Files, log: seq<Event>)

  datatype Failure =
    | NotRoot | EvidenceExists | LaunchdFailed | SourceMissing | CopyFailed | CheckRaised
    | DetachFailed | DetachIntegrityFailed | RecoverFailed | ImportFailed | MigrationFailed
    | RebuiltIntegrityFailed | ReplaceFailed | QueryFailed | ReceiptFailed

  /** The receipt's two digests, by the images they are digests of. */
  datatype Receipt = Receipt(sourceImage: Bytes, liveImage: Bytes, restarted: bool)

  const RECEIPT := "recovery-receipt.json"
  const DUMP := "sqlite-recover.sql"

  const SIDECARS: seq<string> := ["-wal", "-shm", "-journal"]
  const DATABASE_FILES: seq<string> := ["", "-wal", "-shm", "-journal"]

  function Sidecars(db: Path): set<Path> {
    {Path(db.dir, db.name + "-wal"), Path(db.dir, db.name + "-shm"), Path(db.dir, db.name + "-journal")}
  }

  // ---------- frames ----------

  ghost predicate SameExcept(a: Files, b: Files, changed: set<Path>) {
    forall p :: p !in changed ==> (p in a <==> p in b) && (p in a ==> a[p] == b[p])
  }

  /** What opening the database at db may do to the files: its sidecars may
      appear, change or go, always as files of the main image's generation; a
      writer may also rewrite the main image. */
  ghost predicate Opened(a: Files, b: Files, db: Path, writes: bool) {
    && SameExcept(a, b, Sidecars(db) + (if writes then {db} else {}))
    && (forall p :: p in Sidecars(db) && p in b ==>
          (p in a && a[p] == b[p]) || (db in a && b[p].gen == a[db].gen))
    && (db in a <==> db in b) && (db in a ==> a[db].gen == b[db].gen)
  }

  // ---------- the disk ----------

  class Disk {
    var files: Files
    ghost var log: seq<Event>
    ghost var moments: seq<Moment>

    ghost predicate Valid() reads this {
      |moments| > 0 && moments[|moments| - 1] == Moment(files, log)
    }

    constructor (initial: Files)
      ensures Valid() && files == initial && log == [] && moments == [Moment(initial, [])]
    {
      files := initial;
      log := [];
      moments := [Moment(initial, [])];
    }

    /** `os.replace`: atomic, or refused without effect. */
    method Replace(src: Path, dst: Path) returns (ok: bool)
      requires Valid()
      modifies this
      ensures Valid() && log == old(log) && moments == old(moments) + [Moment(files, log)]
      ensures ok ==> src in old(files) && files == old(files)[dst := old(files)[src]] - {src}
      ensures !ok ==> files == old(files)
    {
      ok := *;
      if src !in files { ok := false; }
      if ok {
        files := files[dst := files[src]] - {src};
      }
      moments := moments + [Moment(files, log)];
    }

    /** Opening a file for writing empties it, and writing takes time: a stop or
        an error may leave any prefix. `note` tells which file was opened. */
    method Write(dst: Path, content: File, note: seq<Event>) returns (ok: bool)
      requires Valid()
      modifies this
      ensures Valid()
      ensures ok ==> files == old(files)[dst := content]
      ensures (log == old(log) + note && SameExcept(old(files), files, {dst}) && dst in files && files[dst].gen == content.gen)
              || (!ok && log == old(log) && files == old(files) && moments == old(moments))
      ensures ok ==> log == old(log) + note
      ensures |old(moments)| <= |moments| && moments[..|old(moments)|] == old(moments)
      ensures forall i :: |old(moments)| <= i < |moments| ==>
                moments[i].log == old(log) + note && SameExcept(old(files), moments[i].files, {dst})
                && dst in moments[i].files && moments[i].files[dst].gen == content.gen
    {
      var created: bool := *;
      if !created { return false; }
      ok := *;
      var before := files;
      var partial: Bytes := *;
      files, log := before[dst := File(partial, content.gen)], log + note;
      moments := moments + [Moment(files, log)];
      if ok {
        files := before[dst := content];
        moments := moments + [Moment(files, log)];
      }
    }

    /** SQLite opens the database at db, read-only or not. */
    method Open(db: Path, writes: bool)
      requires Valid()
      modifies this
      ensures Valid() && log == old(log) && moments == old(moments) + [Moment(files, log)]
      ensures Opened(old(files), files, db, writes)
    {
      if db in files {
        var gen := files[db].gen;
        if writes {
          var bytes: Bytes := *;
          files := files[db := File(bytes, gen)];
        }
        TouchSidecar(db, "-wal", gen);
        TouchSidecar(db, "-shm", gen);
        TouchSidecar(db, "-journal", gen);
      }
      moments := moments + [Moment(files, log)];
    }

    method TouchSidecar(db: Path, suffix: string, gen: Generation)
      requires suffix != ""
      modifies this`files
      ensures var p := Path(db.dir, db.name + suffix);
              SameExcept(old(files), files, {p}) &&
              (p in files ==> (p in old(files) && files[p] == old(files)[p]) || files[p].gen == gen)
    {
      var p := Path(db.dir, db.name + suffix);
      var kept, present: bool := *, *;
      var bytes: Bytes := *;
      if !kept {
        files := if present then files[p := File(bytes, gen)] else files - {p};
      }
    }

    /** The running service may write its database, or not. */
    method Serve(db: Path)
      requires Valid() && db in files
      modifies this
      ensures Valid()
      ensures (log == old(log) && files == old(files) && moments == old(moments))
              || (log == old(log) + [Served] && Opened(old(files), files, db, true) && moments == old(moments) + [Moment(files, log)])
    {
      var writes: bool := *;
      if writes {
        var gen := files[db].gen;
        var bytes: Bytes := *;
        files := files[db := File(bytes, gen)];
        TouchSidecar(db, "-wal", gen);
        TouchSidecar(db, "-shm", gen);
        TouchSidecar(db, "-journal", gen);
        log := log + [Served];
        moments := moments + [Moment(files, log)];
      }
    }

    /** `quick_check`: an ordinary read-only open. */
    method QuickCheck(db: Path) returns (r: Check)
      requires Valid()
      modifies this
      ensures Valid() && Opened(old(files), files, db, false)
      ensures r == CheckOk ==> db in files
      ensures log == old(log) + [Examined(Ordinary, db, r)] + (if r == CheckOk then [Passed(files[db].bytes)] else [])
      ensures |old(moments)| <= |moments| && moments[..|old(moments)|] == old(moments)
      ensures forall i :: |old(moments)| <= i < |moments| ==> moments[i].files == files && moments[i].log in {old(log), log}
    {
      Open(db, false);
      r := *;
      if db !in files { r := CheckSqliteError; }
      log := log + [Examined(Ordinary, db, r)] + (if r == CheckOk then [Passed(files[db].bytes)] else []);
      moments := moments + [Moment(files, log)];
    }

    /** The read-only table count; it may raise. */
    method CountTables(db: Path) returns (ok: bool)
      requires Valid()
      modifies this
      ensures Valid() && log == old(log) && moments == old(moments) + [Moment(files, log)]
      ensures Opened(old(files), files, db, false)
    {
      Open(db, false);
      ok := *;
    }

    /** `immutable_quick_check` reads the main image alone and creates nothing. */
    method ImmutableQuickCheck(db: Path) returns (r: Check)
      requires Valid()
      modifies this`log, this`moments
      ensures Valid() && log == old(log) + [Examined(MainOnly, db, r)] && moments == old(moments) + [Moment(files, log)]
      ensures r == CheckOk ==> db in files
    {
      r := *;
      if db !in files { r := CheckSqliteError; }
      log := log + [Examined(MainOnly, db, r)];
      moments := moments + [Moment(files, log)];
    }

    method Launchctl(e: Event) returns (ok: bool)
      requires Valid()
      modifies this`log, this`moments
      ensures Valid() && log == old(log) + [e] && moments == old(moments) + [Moment(files, log)]
    {
      ok := *;
      log := log + [e];
      moments := moments + [Moment(files, log)];
    }
  }

  // ---------- the promises, moment by moment ----------

  /** The main image as it was when its digest was taken is still at the source
      path or in the evidence directory. */
  ghost predicate MainKept(n: string, original: Files, m: Moment) {
    var source, copy := Path(Live, n), Path(Evidence, n);
    source in original &&
    ((source in m.files && m.files[source] == original[source]) || (copy in m.files && m.files[copy] == original[source]))
  }

  /** Every database file that existed is in evidence, byte for byte. */
  ghost predicate Preserved(n: string, original: Files, files: Files) {
    forall s :: s in DATABASE_FILES && Path(Live, n + s) in original ==>
      Path(Evidence, n + s) in files && files[Path(Evidence, n + s)] == original[Path(Live, n + s)]
  }

  /** No rebuilt main image beside a sidecar of the original generation. */
  ghost predicate NoMix(n: string, files: Files) {
    Path(Live, n) in files && files[Path(Live, n)].gen == Rebuilt ==>
      forall p :: p in Sidecars(Path(Live, n)) && p in files ==> files[p].gen != Original
  }

  predicate Announced(log: seq<Event>) {
    Bootstrap in log || Kickstart in log || Receipting in log || Served in log
  }

  /** When the service is restarted, and when a receipt is written, the live main
      image is one that has passed an ordinary quick_check, until the restarted
      service itself writes to it. */
  ghost predicate Vetted(n: string, m: Moment) {
    && (Served in m.log ==> Bootstrap in m.log)
    && (Announced(m.log) && Served !in m.log ==> Path(Live, n) in m.files && Passed(m.files[Path(Live, n)].bytes) in m.log)
  }

  /** The evidence copy of the main image has been opened for writing again: as
      the dump, for a source of that name that is being rebuilt, or as the
      receipt. */
  predicate Overwritten(n: string, log: seq<Event>) {
    (n == DUMP && Dumping in log) || (n == RECEIPT && Receipting in log)
  }

  /** Every database file that existed is in evidence, byte for byte, except a
      main image's copy that was overwritten. */
  ghost predicate Stands(n: string, original: Files, m: Moment) {
    forall s :: s in DATABASE_FILES && Path(Live, n + s) in original ==>
      var copy := Path(Evidence, n + s);
      copy in m.files && if s == "" && Overwritten(n, m.log) then m.files[copy].gen == Neither else m.files[copy] == original[Path(Live, n + s)]
  }

  ghost predicate Safe(n: string, original: Files, m: Moment) {
    NoMix(n, m.files) && Vetted(n, m) && Stands(n, original, m)
  }

  ghost predicate AllOriginal(files: Files) {
    forall p :: p in files ==> files[p].gen == Original
  }

  // ---------- names ----------

  lemma TailsDiffer(n: string, a: string, b: string)
    ensures n + a == n + b <==> a == b
  {
    if n + a == n + b {
      assert (n + a)[|n|..] == a && (n + b)[|n|..] == b;
    }
  }

  lemma NameEndsIn(n: string, s: string, fixed: string)
    requires s in SIDECARS && fixed in {RECEIPT, DUMP}
    ensures n + s != fixed
  {
    assert (n + s)[|n + s| - 2] == s[|s| - 2];
  }

  /** Writing p leaves the evidence copies of the database files alone. */
  ghost predicate SparesCopies(n: string, p: Path) {
    p.dir == Live || forall s :: s in DATABASE_FILES ==> p.name != n + s
  }

  lemma LongTailSpares(n: string, tail: string, p: Path)
    requires p.name == n + tail && |tail| > 8
    ensures SparesCopies(n, p)
  {
    forall s | s in DATABASE_FILES
      ensures p.name != n + s
    {
      TailsDiffer(n, s, tail);
    }
  }

  lemma FixedNameSpares(n: string, fixed: string)
    requires fixed in {RECEIPT, DUMP} && n != fixed
    ensures SparesCopies(n, Path(Evidence, fixed))
  {
    forall s | s in DATABASE_FILES
      ensures fixed != n + s
    {
      if s == "" { assert n + s == n; } else { NameEndsIn(n, s, fixed); }
    }
  }

  lemma RebuiltDatabaseSpares(n: string, p: Path)
    requires p in Sidecars(Path(Evidence, n + ".recovered")) + {Path(Evidence, n + ".recovered")}
    ensures SparesCopies(n, p)
  {
    if p.name == n + ".recovered" {
      LongTailSpares(n, ".recovered", p);
    } else {
      var s :| s in SIDECARS && p.name == n + ".recovered" + s;
      assert p.name == n + (".recovered" + s);
      LongTailSpares(n, ".recovered" + s, p);
    }
  }

  // ---------- what the steps keep ----------

  ghost predicate GrowsSafely(n: string, original: Files, before: seq<Moment>, after: seq<Moment>) {
    && |before| <= |after| && after[..|before|] == before
    && forall i :: |before| <= i < |after| ==> Safe(n, original, after[i])
  }

  lemma GrowsTwice(n: string, original: Files, a: seq<Moment>, b: seq<Moment>, c: seq<Moment>)
    requires GrowsSafely(n, original, a, b) && GrowsSafely(n, original, b, c)
    ensures GrowsSafely(n, original, a, c)
  {
    assert c[..|a|] == b[..|a|];
    forall i | |a| <= i < |c|
      ensures Safe(n, original, c[i])
    {
      if i < |b| { assert c[i] == b[i]; }
    }
  }

  /** Before the rebuilt image goes live: evidence is complete, whatever is at
      the source path is original, and nothing has been announced. */
  ghost predicate Pending(n: string, original: Files, m: Moment) {
    && Stands(n, original, m)
    && (Path(Live, n) in m.files ==> m.files[Path(Live, n)].gen == Original)
    && !Announced(m.log)
  }

  /** The live image has passed its check, unless the service has written to it
      since, and stands beside no foreign sidecar. */
  ghost predicate Ready(n: string, original: Files, m: Moment) {
    && Stands(n, original, m)
    && NoMix(n, m.files)
    && Path(Live, n) in m.files
    && (if Served in m.log then Bootstrap in m.log else Passed(m.files[Path(Live, n)].bytes) in m.log)
  }

  /** Steps that leave the copies' names alone leave the evidence as it was. */
  lemma StandsByFrame(n: string, original: Files, a: Moment, b: Moment, changed: set<Path>)
    requires Stands(n, original, a) && SameExcept(a.files, b.files, changed)
    requires forall p :: p in changed ==> SparesCopies(n, p)
    requires Overwritten(n, a.log) <==> Overwritten(n, b.log)
    ensures Stands(n, original, b)
  {
    forall s | s in DATABASE_FILES
      ensures Path(Evidence, n + s) !in changed
    {
      assert !SparesCopies(n, Path(Evidence, n + s));
    }
  }

  /** Writing the dump or the receipt overwrites a copy of that very name. */
  lemma StandsAfterFixed(n: string, original: Files, a: Moment, b: Moment, fixed: string, note: Event)
    requires Stands(n, original, a) && SameExcept(a.files, b.files, {Path(Evidence, fixed)}) && b.log == a.log + [note]
    requires (fixed == DUMP && note == Dumping) || (fixed == RECEIPT && note == Receipting)
    requires Path(Evidence, fixed) in b.files && b.files[Path(Evidence, fixed)].gen == Neither
    ensures Stands(n, original, b)
  {
    DumpIsNotReceipt();
    if n == fixed {
      assert Overwritten(n, b.log);
      forall s | s in DATABASE_FILES && s != ""
        ensures n + s != fixed
      {
        assert |n + s| > |n|;
      }
      assert n + "" == n;
    } else {
      FixedNameSpares(n, fixed);
      assert Overwritten(n, a.log) <==> Overwritten(n, b.log);
      StandsByFrame(n, original, a, b, {Path(Evidence, fixed)});
    }
  }

  lemma DumpIsNotReceipt()
    ensures DUMP != RECEIPT
  {
    assert DUMP[0] == 's' && RECEIPT[0] == 'r';
  }

  /** The original main image is kept exactly when its copy was not overwritten
      or it is still at the source path. */
  lemma MainKeptIff(n: string, original: Files, m: Moment)
    requires Stands(n, original, m) && AllOriginal(original) && Path(Live, n) in original
    ensures MainKept(n, original, m) <==> !Overwritten(n, m.log) || SameAt(original, m.files, Path(Live, n))
  {
    assert "" == DATABASE_FILES[0] && n + "" == n;
  }

  /** The evidence is complete exactly when no copy was overwritten. */
  lemma PreservedUnlessOverwritten(n: string, original: Files, m: Moment)
    requires Stands(n, original, m) && AllOriginal(original) && Path(Live, n) in original
    ensures Preserved(n, original, m.files) <==> !Overwritten(n, m.log)
  {
    assert "" == DATABASE_FILES[0] && n + "" == n;
  }

  ghost predicate SameAt(a: Files, b: Files, p: Path) {
    (p in a <==> p in b) && (p in a ==> a[p] == b[p])
  }

  // ---------- where detached sidecars go ----------

  function DetachedName(n: string, s: string): Path {
    Path(Evidence, n + s + ".detached")
  }

  /** The detached sidecars are the same in a and b. */
  ghost predicate SameDetached(n: string, a: Files, b: Files) {
    forall s :: s in SIDECARS ==> SameAt(a, b, DetachedName(n, s))
  }

  ghost predicate SparesDetached(n: string, p: Path) {
    forall s :: s in SIDECARS ==> p != DetachedName(n, s)
  }

  lemma OtherTail(n: string, s: string, tail: string)
    requires s in SIDECARS && (|tail| < 9 || tail[|tail| - 1] != 'd' || tail[|tail| - 9] != '.')
    ensures n + s + ".detached" != n + tail
  {
    var end := s + ".detached";
    assert n + s + ".detached" == n + end;
    assert end[|end| - 9] == '.' && end[|end| - 1] == 'd';
    TailsDiffer(n, end, tail);
  }

  lemma SidecarTails(s: string)
    requires s in SIDECARS
    ensures s == "-wal" || s == "-shm" || s == "-journal"
  {}

  lemma RecoveredSparesDetached(n: string, p: Path)
    requires p in Sidecars(Path(Evidence, n + ".recovered")) + {Path(Evidence, n + ".recovered")}
    ensures SparesDetached(n, p)
  {
    forall s | s in SIDECARS ensures p != DetachedName(n, s) {
      if p.name == n + ".recovered" {
        OtherTail(n, s, ".recovered");
      } else {
        var t :| t in SIDECARS && p.name == n + ".recovered" + t;
        SidecarTails(t);
        assert p.name == n + (".recovered" + t);
        assert (".recovered" + t)[|".recovered" + t| - 1] == t[|t| - 1] != 'd';
        OtherTail(n, s, ".recovered" + t);
      }
    }
  }

  lemma FixedSparesDetached(n: string, fixed: string)
    requires fixed in {RECEIPT, DUMP}
    ensures SparesDetached(n, Path(Evidence, fixed))
  {
    forall s | s in SIDECARS ensures fixed != n + s + ".detached" {
      var x := n + s + ".detached";
      assert x[|x| - 1] == 'd';
    }
  }

  lemma SameDetachedByFrame(n: string, a: Files, b: Files, changed: set<Path>)
    requires SameExcept(a, b, changed) && forall p :: p in changed ==> SparesDetached(n, p)
    ensures SameDetached(n, a, b)
  {
    forall s | s in SIDECARS ensures DetachedName(n, s) !in changed {
      assert !SparesDetached(n, DetachedName(n, s));
    }
  }

  lemma LiveSparesDetached(n: string, a: Files, b: Files, changed: set<Path>)
    requires SameExcept(a, b, changed) && forall p :: p in changed ==> p.dir == Live
    ensures SameDetached(n, a, b)
  {
    SameDetachedByFrame(n, a, b, changed);
  }

  lemma OpenedSameDetached(n: string, a: Files, b: Files, db: Path, writes: bool)
    requires Opened(a, b, db, writes) && (db == Path(Live, n) || db == Path(Evidence, n + ".recovered"))
    ensures SameDetached(n, a, b)
  {
    var changed := Sidecars(db) + (if writes then {db} else {});
    forall p | p in changed ensures SparesDetached(n, p) {
      if db.dir == Evidence { RecoveredSparesDetached(n, p); }
    }
    SameDetachedByFrame(n, a, b, changed);
  }

  ghost predicate NoneDetached(n: string, files: Files) {
    forall s :: s in SIDECARS ==> DetachedName(n, s) !in files
  }

  lemma CopiesAreNotDetached(n: string, s: string)
    requires s in DATABASE_FILES
    ensures SparesDetached(n, Path(Evidence, n + s))
  {
    assert |s| < 9;
    forall t | t in SIDECARS ensures Path(Evidence, n + s) != DetachedName(n, t) { OtherTail(n, t, s); }
  }

  // ---------- the procedure ----------

  ghost predicate Untouched(original: Files, m: Moment) {
    && AllOriginal(m.files) && !Announced(m.log)
    && forall p: Path :: p.dir == Live ==> (p in m.files <==> p in original) && (p in m.files ==> m.files[p] == original[p])
  }

  ghost predicate CopiedUpTo(n: string, k: nat, original: Files, files: Files)
    requires k <= |DATABASE_FILES|
  {
    forall j :: 0 <= j < k ==> Copied(Path(Live, n + DATABASE_FILES[j]), original, files)
  }

  ghost predicate Copied(p: Path, original: Files, files: Files) {
    p in original ==> Path(Evidence, p.name) in files && files[Path(Evidence, p.name)] == original[p]
  }

  lemma CopiedStays(n: string, k: nat, original: Files, a: Files, b: Files)
    requires k < |DATABASE_FILES| && CopiedUpTo(n, k, original, a)
    requires SameExcept(a, b, {Path(Evidence, n + DATABASE_FILES[k])})
    ensures CopiedUpTo(n, k, original, b)
  {
    forall j | 0 <= j < k
      ensures Copied(Path(Live, n + DATABASE_FILES[j]), original, b)
    {
      assert Copied(Path(Live, n + DATABASE_FILES[j]), original, a);
      TailsDiffer(n, DATABASE_FILES[j], DATABASE_FILES[k]);
      assert DATABASE_FILES[j] != DATABASE_FILES[k];
    }
  }

  lemma AllCopied(n: string, original: Files, files: Files)
    requires CopiedUpTo(n, |DATABASE_FILES|, original, files)
    ensures Preserved(n, original, files)
  {
    forall s | s in DATABASE_FILES && Path(Live, n + s) in original
      ensures Path(Evidence, n + s) in files && files[Path(Evidence, n + s)] == original[Path(Live, n + s)]
    {
      var j :| 0 <= j < |DATABASE_FILES| && DATABASE_FILES[j] == s;
      assert Copied(Path(Live, n + DATABASE_FILES[j]), original, files);
    }
  }

  /** The copy loop. */
  method CopyEvidence(d: Disk, n: string) returns (ok: bool)
    requires d.Valid() && AllOriginal(d.files) && !Announced(d.log)
    requires forall p :: p in d.files ==> p.dir == Live
    modifies d
    ensures d.Valid() && d.log == old(d.log) && Untouched(old(d.files), Moment(d.files, d.log))
    ensures ok ==> Preserved(n, old(d.files), d.files)
    ensures NoneDetached(n, d.files)
    ensures |old(d.moments)| <= |d.moments| && d.moments[..|old(d.moments)|] == old(d.moments)
    ensures forall i :: |old(d.moments)| <= i < |d.moments| ==> Untouched(old(d.files), d.moments[i])
  {
    ghost var original := d.files;
    ghost var start := |d.moments|;
    for k := 0 to |DATABASE_FILES|
      invariant d.Valid() && d.log == old(d.log) && Untouched(original, Moment(d.files, d.log))
      invariant start <= |d.moments| && d.moments[..start] == old(d.moments)
      invariant forall i :: start <= i < |d.moments| ==> Untouched(original, d.moments[i])
      invariant CopiedUpTo(n, k, original, d.files) && NoneDetached(n, d.files)
    {
      ok := CopyOne(d, n, k, original);
      if !ok { return; }
    }
    AllCopied(n, original, d.files);
    ok := true;
  }

  /** One file of the copy loop. */
  method CopyOne(d: Disk, n: string, k: nat, ghost original: Files) returns (ok: bool)
    requires k < |DATABASE_FILES| && d.Valid() && Untouched(original, Moment(d.files, d.log)) && CopiedUpTo(n, k, original, d.files)
    requires NoneDetached(n, d.files)
    modifies d
    ensures NoneDetached(n, d.files)
    ensures d.Valid() && d.log == old(d.log) && Untouched(original, Moment(d.files, d.log))
    ensures ok ==> CopiedUpTo(n, k + 1, original, d.files)
    ensures |old(d.moments)| <= |d.moments| && d.moments[..|old(d.moments)|] == old(d.moments)
    ensures forall i :: |old(d.moments)| <= i < |d.moments| ==> Untouched(original, d.moments[i])
  {
    var candidate := Path(Live, n + DATABASE_FILES[k]);
    ok := true;
    if candidate in d.files {
      ghost var before := d.files;
      ok := d.Write(Path(Evidence, candidate.name), d.files[candidate], []);
      CopiedStays(n, k, original, before, d.files);
      CopiesAreNotDetached(n, DATABASE_FILES[k]);
      SameDetachedByFrame(n, before, d.files, {Path(Evidence, candidate.name)});
    }
    assert ok ==> Copied(candidate, original, d.files);
  }

  lemma ReadyRestarts(n: string, original: Files, a: Moment, b: Moment, e: Event)
    requires Ready(n, original, a) && b.files == a.files && b.log == a.log + [e] && e in {Bootstrap, Kickstart}
    ensures Ready(n, original, b) && Safe(n, original, b)
  {
    StandsByFrame(n, original, a, b, {});
  }

  lemma ReadyServes(n: string, original: Files, a: Moment, b: Moment)
    requires Ready(n, original, a) && Bootstrap in a.log
    requires b.log == a.log + [Served] && Opened(a.files, b.files, Path(Live, n), true)
    ensures Ready(n, original, b) && Safe(n, original, b)
    ensures b.files[Path(Live, n)].gen == a.files[Path(Live, n)].gen
  {
    StandsByFrame(n, original, a, b, Sidecars(Path(Live, n)) + {Path(Live, n)});
  }

  lemma ReadyWritesReceipt(n: string, original: Files, a: Moment, b: Moment)
    requires Ready(n, original, a)
    requires SameExcept(a.files, b.files, {Path(Evidence, RECEIPT)}) && b.log == a.log + [Receipting]
    requires Path(Evidence, RECEIPT) in b.files && b.files[Path(Evidence, RECEIPT)].gen == Neither
    ensures Ready(n, original, b) && Safe(n, original, b)
  {
    StandsAfterFixed(n, original, a, b, RECEIPT, Receipting);
  }

  /** A recovery that returned: the receipt names the source's image and the
      live one, which passed its check unless the restarted service has written
      to it, and the service was restarted if asked. */
  ghost predicate Completed(d: Disk, n: string, original: Files, r: Receipt, sourceImage: Bytes, manageLaunchd: bool)
    reads d
  {
    && Ready(n, original, Moment(d.files, d.log))
    && Receipting in d.log && Path(Evidence, RECEIPT) in d.files && d.files[Path(Evidence, RECEIPT)].gen == Neither
    && r == Receipt(sourceImage, d.files[Path(Live, n)].bytes, manageLaunchd)
    && (Served !in d.log ==> Passed(r.liveImage) in d.log)
    && (if manageLaunchd then Bootstrap in d.log && Kickstart in d.log else Served !in d.log)
  }

  /** The live image as it was, unless the service has written to it. */
  ghost predicate Handed(n: string, before: Files, m: Moment) {
    var source := Path(Live, n);
    source in before && source in m.files && m.files[source].gen == before[source].gen
    && (Served !in m.log ==> m.files[source] == before[source])
  }

  /** One launchd call. From then on the service may write its database. */
  method Restart(d: Disk, n: string, e: Event, ghost original: Files) returns (ok: bool)
    requires d.Valid() && Ready(n, original, Moment(d.files, d.log)) && (e == Bootstrap || (e == Kickstart && Bootstrap in d.log))
    modifies d
    ensures d.Valid() && GrowsSafely(n, original, old(d.moments), d.moments) && Ready(n, original, Moment(d.files, d.log))
    ensures d.log == old(d.log) + [e] || d.log == old(d.log) + [e] + [Served]
    ensures Path(Live, n) in old(d.files) && d.files[Path(Live, n)].gen == old(d.files)[Path(Live, n)].gen
    ensures d.log == old(d.log) + [e] ==> d.files == old(d.files)
    ensures SameDetached(n, old(d.files), d.files)
    ensures SameExcept(old(d.files), d.files, Sidecars(Path(Live, n)) + {Path(Live, n)})
  {
    ghost var a := Moment(d.files, d.log);
    ok := d.Launchctl(e);
    ghost var b := Moment(d.files, d.log);
    ReadyRestarts(n, original, a, b, e);
    d.Serve(Path(Live, n));
    if d.log != b.log {
      ReadyServes(n, original, b, Moment(d.files, d.log));
      OpenedSameDetached(n, b.files, d.files, Path(Live, n), true);
    }
  }

  /** Bootstrap and kickstart, in this order. */
  method RestartService(d: Disk, n: string, ghost original: Files) returns (ok: bool)
    requires d.Valid() && Ready(n, original, Moment(d.files, d.log)) && Served !in d.log
    modifies d
    ensures d.Valid() && GrowsSafely(n, original, old(d.moments), d.moments) && Ready(n, original, Moment(d.files, d.log))
    ensures Handed(n, old(d.files), Moment(d.files, d.log)) && (Dumping in d.log <==> Dumping in old(d.log))
    ensures SameDetached(n, old(d.files), d.files)
    ensures SameExcept(old(d.files), d.files, Sidecars(Path(Live, n)) + {Path(Live, n)})
    ensures ok ==> Bootstrap in d.log && Kickstart in d.log
  {
    ok := Restart(d, n, Bootstrap, original);
    if !ok { return; }
    ghost var before := d.moments;
    ok := Restart(d, n, Kickstart, original);
    GrowsTwice(n, original, old(d.moments), before, d.moments);
  }

  /** Restart and receipt, the common end of both paths. */
  method Announce(d: Disk, n: string, ghost original: Files, sourceImage: Bytes, manageLaunchd: bool) returns (r: Result<Receipt, Failure>)
    requires d.Valid() && Ready(n, original, Moment(d.files, d.log)) && Served !in d.log
    modifies d
    ensures d.Valid() && GrowsSafely(n, original, old(d.moments), d.moments)
    ensures Handed(n, old(d.files), Moment(d.files, d.log)) && (Dumping in d.log <==> Dumping in old(d.log))
    ensures SameDetached(n, old(d.files), d.files)
    ensures SameExcept(old(d.files), d.files, Sidecars(Path(Live, n)) + {Path(Live, n), Path(Evidence, RECEIPT)})
    ensures r.Ok? ==> Completed(d, n, original, r.value, sourceImage, manageLaunchd)
  {
    if manageLaunchd {
      var restarted := RestartService(d, n, original);
      if !restarted { return Err(LaunchdFailed); }
    }
    var live := d.files[Path(Live, n)].bytes;
    ghost var restarted := d.moments;
    ghost var files := d.files;
    var written := WriteReceipt(d, n, original);
    FixedSparesDetached(n, RECEIPT);
    SameDetachedByFrame(n, files, d.files, {Path(Evidence, RECEIPT)});
    GrowsTwice(n, original, old(d.moments), restarted, d.moments);
    if !written { return Err(ReceiptFailed); }
    var chmodded: bool := *;
    if !chmodded { return Err(ReceiptFailed); }
    return Ok(Receipt(sourceImage, live, manageLaunchd));
  }

  method WriteReceipt(d: Disk, n: string, ghost original: Files) returns (ok: bool)
    requires d.Valid() && Ready(n, original, Moment(d.files, d.log))
    modifies d
    ensures d.Valid() && GrowsSafely(n, original, old(d.moments), d.moments)
    ensures SameExcept(old(d.files), d.files, {Path(Evidence, RECEIPT)})
    ensures d.log == old(d.log) || d.log == old(d.log) + [Receipting]
    ensures ok ==>
      && Ready(n, original, Moment(d.files, d.log)) && d.log == old(d.log) + [Receipting]
      && Path(Evidence, RECEIPT) in d.files && d.files[Path(Evidence, RECEIPT)].gen == Neither
  {
    ghost var m := Moment(d.files, d.log);
    var receipt: Bytes := *;
    ok := d.Write(Path(Evidence, RECEIPT), File(receipt, Neither), [Receipting]);
    forall i | |old(d.moments)| <= i < |d.moments|
      ensures Safe(n, original, d.moments[i])
    {
      ReadyWritesReceipt(n, original, m, d.moments[i]);
    }
    if ok { ReadyWritesReceipt(n, original, m, Moment(d.files, d.log)); }
  }

  lemma PendingFrame(n: string, original: Files, a: Moment, b: Moment, changed: set<Path>)
    requires Pending(n, original, a) && SameExcept(a.files, b.files, changed)
    requires forall p :: p in changed ==> SparesCopies(n, p)
    requires Dumping in a.log <==> Dumping in b.log
    requires Path(Live, n) in b.files ==> b.files[Path(Live, n)].gen == Original
    requires !Announced(b.log)
    ensures Pending(n, original, b) && Safe(n, original, b)
  {
    StandsByFrame(n, original, a, b, changed);
  }

  lemma NoSidecarOfItself(db: Path)
    ensures db !in Sidecars(db)
  {
    assert |db.name + "-wal"| > |db.name| && |db.name + "-shm"| > |db.name| && |db.name + "-journal"| > |db.name|;
  }

  /** SQLite opens the database at the source path, or the one being rebuilt. */
  lemma PendingOpen(n: string, original: Files, a: Moment, b: Moment, db: Path, writes: bool)
    requires Pending(n, original, a) && Opened(a.files, b.files, db, writes) && !Announced(b.log)
    requires Dumping in a.log <==> Dumping in b.log
    requires db == Path(Live, n) || db == Path(Evidence, n + ".recovered")
    ensures Pending(n, original, b) && Safe(n, original, b)
  {
    var changed := Sidecars(db) + (if writes then {db} else {});
    forall p | p in changed
      ensures SparesCopies(n, p)
    {
      if db.dir == Evidence { RebuiltDatabaseSpares(n, p); }
    }
    PendingFrame(n, original, a, b, changed);
  }

  /** One sidecar goes to evidence. */
  method DetachSidecar(d: Disk, n: string, s: string, ghost original: Files) returns (ok: bool)
    requires d.Valid() && Pending(n, original, Moment(d.files, d.log)) && s in SIDECARS
    modifies d
    ensures d.Valid() && Pending(n, original, Moment(d.files, d.log)) && d.log == old(d.log)
    ensures GrowsSafely(n, original, old(d.moments), d.moments)
    ensures SameExcept(old(d.files), d.files, {Path(Live, n + s), Path(Evidence, n + s + ".detached")})
    ensures ok ==> Path(Live, n + s) !in d.files
    ensures ok ==> Path(Live, n + s) in old(d.files) && DetachedName(n, s) in d.files && d.files[DetachedName(n, s)] == old(d.files)[Path(Live, n + s)]
  {
    var sidecar := Path(Live, n + s);
    var detached := Path(Evidence, sidecar.name + ".detached");
    ok := d.Replace(sidecar, detached);
    assert detached.name == n + (s + ".detached");
    LongTailSpares(n, s + ".detached", detached);
    assert |n + s| > |n|;
    PendingFrame(n, original, old(Moment(d.files, d.log)), Moment(d.files, d.log), {sidecar, detached});
  }

  /** An ordinary check while nothing is announced; passing it is what makes
      the checked image fit to go live. */
  method CheckPending(d: Disk, n: string, db: Path, ghost original: Files) returns (r: Check)
    requires d.Valid() && Pending(n, original, Moment(d.files, d.log))
    requires db == Path(Live, n) || db == Path(Evidence, n + ".recovered")
    modifies d
    ensures d.Valid() && Pending(n, original, Moment(d.files, d.log))
    ensures GrowsSafely(n, original, old(d.moments), d.moments)
    ensures Opened(old(d.files), d.files, db, false)
    ensures Dumping in d.log <==> Dumping in old(d.log)
    ensures r == CheckOk ==> db in d.files && Passed(d.files[db].bytes) in d.log
    ensures d.log == old(d.log) + [Examined(Ordinary, db, r)] + (if r == CheckOk then [Passed(d.files[db].bytes)] else [])
    ensures SameDetached(n, old(d.files), d.files)
  {
    ghost var m := Moment(d.files, d.log);
    r := d.QuickCheck(db);
    OpenedSameDetached(n, m.files, d.files, db, false);
    assert !Announced(d.log);
    PendingOpen(n, original, m, Moment(d.files, m.log), db, false);
    PendingOpen(n, original, m, Moment(d.files, d.log), db, false);
  }

  method CountPending(d: Disk, n: string, db: Path, ghost original: Files) returns (ok: bool)
    requires d.Valid() && Pending(n, original, Moment(d.files, d.log))
    requires db == Path(Live, n) || db == Path(Evidence, n + ".recovered")
    modifies d
    ensures d.Valid() && Pending(n, original, Moment(d.files, d.log)) && d.log == old(d.log)
    ensures GrowsSafely(n, original, old(d.moments), d.moments)
    ensures Opened(old(d.files), d.files, db, false) && SameDetached(n, old(d.files), d.files)
  {
    ok := d.CountTables(db);
    OpenedSameDetached(n, old(d.files), d.files, db, false);
    PendingOpen(n, original, old(Moment(d.files, d.log)), Moment(d.files, d.log), db, false);
  }

  /** Every sidecar there was is among the detached ones. */
  ghost predicate AllDetached(n: string, before: Files, files: Files) {
    forall s :: s in SIDECARS && Path(Live, n + s) in before ==>
      DetachedName(n, s) in files && files[DetachedName(n, s)] == before[Path(Live, n + s)]
  }

  /** The first k sidecars are detached, the others where they were. */
  ghost predicate DetachedUpTo(n: string, k: nat, before: Files, files: Files)
    requires k <= |SIDECARS|
  {
    && (forall j :: 0 <= j < k && Path(Live, n + SIDECARS[j]) in before ==>
          DetachedName(n, SIDECARS[j]) in files && files[DetachedName(n, SIDECARS[j])] == before[Path(Live, n + SIDECARS[j])])
    && (forall j :: k <= j < |SIDECARS| ==> SameAt(before, files, Path(Live, n + SIDECARS[j])))
  }

  lemma DetachedNext(n: string, k: nat, before: Files, a: Files, b: Files)
    requires k < |SIDECARS| && DetachedUpTo(n, k, before, a)
    requires SameExcept(a, b, {Path(Live, n + SIDECARS[k]), DetachedName(n, SIDECARS[k])})
    requires Path(Live, n + SIDECARS[k]) in a ==> DetachedName(n, SIDECARS[k]) in b && b[DetachedName(n, SIDECARS[k])] == a[Path(Live, n + SIDECARS[k])]
    ensures DetachedUpTo(n, k + 1, before, b)
  {
    forall j | 0 <= j < |SIDECARS| && j != k ensures n + SIDECARS[j] != n + SIDECARS[k] && DetachedName(n, SIDECARS[j]) != DetachedName(n, SIDECARS[k]) {
      TailsDiffer(n, SIDECARS[j], SIDECARS[k]);
      assert SIDECARS[j] != SIDECARS[k];
      var x, y := n + SIDECARS[j] + ".detached", n + SIDECARS[k] + ".detached";
      assert x[..|x| - 9] == n + SIDECARS[j] && y[..|y| - 9] == n + SIDECARS[k];
    }
  }

  lemma AllAreDetached(n: string, before: Files, files: Files)
    requires DetachedUpTo(n, |SIDECARS|, before, files)
    ensures AllDetached(n, before, files)
  {
    forall s | s in SIDECARS && Path(Live, n + s) in before
      ensures DetachedName(n, s) in files && files[DetachedName(n, s)] == before[Path(Live, n + s)]
    {
      var j :| 0 <= j < |SIDECARS| && SIDECARS[j] == s;
    }
  }

  /** The healthy image is kept as it is; its sidecars go to evidence. */
  method DetachPath(d: Disk, n: string, ghost original: Files, sourceImage: Bytes, manageLaunchd: bool) returns (r: Result<Receipt, Failure>)
    requires d.Valid() && Pending(n, original, Moment(d.files, d.log))
    modifies d
    ensures d.Valid() && GrowsSafely(n, original, old(d.moments), d.moments)
    ensures Path(Live, n) in old(d.files) ==> Handed(n, old(d.files), Moment(d.files, d.log))
    ensures r.Ok? ==> Path(Live, n) in old(d.files) && AllDetached(n, old(d.files), d.files)
    ensures Dumping in d.log <==> Dumping in old(d.log)
    ensures r.Ok? ==> Completed(d, n, original, r.value, sourceImage, manageLaunchd)
  {
    var source := Path(Live, n);
    NoSidecarOfItself(source);
    for k := 0 to |SIDECARS|
      invariant d.Valid() && Pending(n, original, Moment(d.files, d.log)) && d.log == old(d.log)
      invariant GrowsSafely(n, original, old(d.moments), d.moments)
      invariant SameAt(old(d.files), d.files, source) && DetachedUpTo(n, k, old(d.files), d.files)
    {
      ghost var files := d.files;
      if Path(Live, n + SIDECARS[k]) in d.files {
        ghost var before := d.moments;
        assert |n + SIDECARS[k]| > |n|;
        var moved := DetachSidecar(d, n, SIDECARS[k], original);
        GrowsTwice(n, original, old(d.moments), before, d.moments);
        if !moved { return Err(DetachFailed); }
      }
      DetachedNext(n, k, old(d.files), files, d.files);
    }
    AllAreDetached(n, old(d.files), d.files);
    ghost var before := d.moments;
    var integrity := CheckPending(d, n, source, original);
    GrowsTwice(n, original, old(d.moments), before, d.moments);
    if integrity == CheckSqliteError || integrity == CheckOtherError { return Err(CheckRaised); }
    if integrity != CheckOk { return Err(DetachIntegrityFailed); }
    before := d.moments;
    var counted := CountPending(d, n, source, original);
    GrowsTwice(n, original, old(d.moments), before, d.moments);
    if !counted { return Err(QueryFailed); }
    before := d.moments;
    r := Announce(d, n, original, sourceImage, manageLaunchd);
    GrowsTwice(n, original, old(d.moments), before, d.moments);
  }

  ghost function Recovered(n: string): Path {
    Path(Evidence, n + ".recovered")
  }

  /** The replacement database stands in evidence, not yet necessarily checked. */
  ghost predicate Drafted(n: string, files: Files) {
    Recovered(n) in files && files[Recovered(n)].gen == Rebuilt
  }

  /** The replacement's main image is written. */
  method WritePending(d: Disk, n: string, p: Path, gen: Generation, ghost original: Files) returns (ok: bool)
    requires d.Valid() && Pending(n, original, Moment(d.files, d.log))
    requires p.dir == Evidence && SparesCopies(n, p) && SparesDetached(n, p)
    modifies d
    ensures d.Valid() && Pending(n, original, Moment(d.files, d.log)) && d.log == old(d.log)
    ensures GrowsSafely(n, original, old(d.moments), d.moments)
    ensures SameExcept(old(d.files), d.files, {p})
    ensures ok ==> p in d.files && d.files[p].gen == gen
    ensures SameDetached(n, old(d.files), d.files)
  {
    var content: Bytes := *;
    ghost var m := Moment(d.files, d.log);
    ok := d.Write(p, File(content, gen), []);
    SameDetachedByFrame(n, m.files, d.files, {p});
    forall i | |old(d.moments)| <= i < |d.moments|
      ensures Safe(n, original, d.moments[i])
    {
      PendingFrame(n, original, m, d.moments[i], {p});
    }
    PendingFrame(n, original, m, Moment(d.files, d.log), {p});
  }

  lemma PendingDumps(n: string, original: Files, a: Moment, b: Moment)
    requires Pending(n, original, a) && SameExcept(a.files, b.files, {Path(Evidence, DUMP)}) && b.log == a.log + [Dumping]
    requires Path(Evidence, DUMP) in b.files && b.files[Path(Evidence, DUMP)].gen == Neither
    ensures Pending(n, original, b) && Safe(n, original, b)
  {
    StandsAfterFixed(n, original, a, b, DUMP, Dumping);
  }

  /** The dump's file is opened and written. */
  method WriteDump(d: Disk, n: string, ghost original: Files) returns (ok: bool)
    requires d.Valid() && Pending(n, original, Moment(d.files, d.log))
    modifies d
    ensures d.Valid() && Pending(n, original, Moment(d.files, d.log))
    ensures GrowsSafely(n, original, old(d.moments), d.moments)
    ensures ok ==> Dumping in d.log
    ensures SameDetached(n, old(d.files), d.files)
  {
    var content: Bytes := *;
    ghost var m := Moment(d.files, d.log);
    ok := d.Write(Path(Evidence, DUMP), File(content, Neither), [Dumping]);
    forall i | |old(d.moments)| <= i < |d.moments|
      ensures Safe(n, original, d.moments[i])
    {
      PendingDumps(n, original, m, d.moments[i]);
    }
    if d.log != m.log { PendingDumps(n, original, m, Moment(d.files, d.log)); }
    FixedSparesDetached(n, DUMP);
    SameDetachedByFrame(n, m.files, d.files, {Path(Evidence, DUMP)});
  }

  method OpenPending(d: Disk, n: string, db: Path, ghost original: Files)
    requires d.Valid() && Pending(n, original, Moment(d.files, d.log))
    requires db == Path(Live, n) || db == Recovered(n)
    modifies d
    ensures d.Valid() && Pending(n, original, Moment(d.files, d.log)) && d.log == old(d.log)
    ensures GrowsSafely(n, original, old(d.moments), d.moments)
    ensures Opened(old(d.files), d.files, db, true) && SameDetached(n, old(d.files), d.files)
  {
    d.Open(db, true);
    OpenedSameDetached(n, old(d.files), d.files, db, true);
    PendingOpen(n, original, old(Moment(d.files, d.log)), Moment(d.files, d.log), db, true);
  }

  /** Dump the damaged database, import the dump into a separate file, migrate
      it and check it. */
  method BuildReplacement(d: Disk, n: string, ghost original: Files) returns (failure: Option<Failure>)
    requires d.Valid() && Pending(n, original, Moment(d.files, d.log))
    modifies d
    ensures d.Valid() && Pending(n, original, Moment(d.files, d.log))
    ensures GrowsSafely(n, original, old(d.moments), d.moments)
    ensures SameDetached(n, old(d.files), d.files)
    ensures failure == None ==> Drafted(n, d.files) && Passed(d.files[Recovered(n)].bytes) in d.log && Dumping in d.log
  {
    var recovered := Path(Evidence, n + ".recovered");
    ghost var start, before := d.moments, d.moments;
    RebuiltDatabaseSpares(n, recovered);
    RecoveredSparesDetached(n, recovered);
    NoSidecarOfItself(recovered);
    var dumped := WriteDump(d, n, original);
    before := d.moments;
    OpenPending(d, n, Path(Live, n), original);
    GrowsTwice(n, original, start, before, d.moments);
    if !dumped { return Some(RecoverFailed); }

    before := d.moments;
    var imported := WritePending(d, n, recovered, Rebuilt, original);
    GrowsTwice(n, original, start, before, d.moments);
    if !imported { return Some(ImportFailed); }

    before := d.moments;
    var migrated := WritePending(d, n, recovered, Rebuilt, original);
    GrowsTwice(n, original, start, before, d.moments);
    if !migrated { return Some(MigrationFailed); }
    before := d.moments;
    OpenPending(d, n, recovered, original);
    GrowsTwice(n, original, start, before, d.moments);

    before := d.moments;
    var integrity := CheckPending(d, n, recovered, original);
    GrowsTwice(n, original, start, before, d.moments);
    if integrity == CheckSqliteError || integrity == CheckOtherError { return Some(CheckRaised); }
    if integrity != CheckOk { return Some(RebuiltIntegrityFailed); }
    before := d.moments;
    var counted := CountPending(d, n, recovered, original);
    GrowsTwice(n, original, start, before, d.moments);
    if !counted { return Some(QueryFailed); }
    return None;
  }

  lemma QuarantineApart(n: string, stamp: string, s: string, t: string)
    requires t in DATABASE_FILES
    ensures n + ".corrupt-" + stamp + s != n + t
  {
    var tail := ".corrupt-" + stamp + s;
    assert n + ".corrupt-" + stamp + s == n + tail;
    TailsDiffer(n, tail, t);
    assert |tail| > 8;
  }

  /** Where a live database file goes in quarantine. */
  function Aside(n: string, stamp: string, s: string): Path {
    Path(Live, n + ".corrupt-" + stamp + s)
  }

  /** The main image and the first k sidecars are in quarantine, the other
      sidecars where they were. */
  ghost predicate AsideUpTo(n: string, stamp: string, k: nat, before: Files, files: Files)
    requires k <= |SIDECARS|
  {
    && Path(Live, n) in before && Aside(n, stamp, "") in files && files[Aside(n, stamp, "")] == before[Path(Live, n)]
    && (forall j :: 0 <= j < k && Path(Live, n + SIDECARS[j]) in before ==>
          Aside(n, stamp, SIDECARS[j]) in files && files[Aside(n, stamp, SIDECARS[j])] == before[Path(Live, n + SIDECARS[j])])
    && (forall j :: k <= j < |SIDECARS| ==> SameAt(before, files, Path(Live, n + SIDECARS[j])))
  }

  lemma AsideNext(n: string, stamp: string, k: nat, before: Files, a: Files, b: Files)
    requires k < |SIDECARS| && AsideUpTo(n, stamp, k, before, a)
    requires SameExcept(a, b, {Path(Live, n + SIDECARS[k]), Aside(n, stamp, SIDECARS[k])})
    requires Path(Live, n + SIDECARS[k]) in a ==> Aside(n, stamp, SIDECARS[k]) in b && b[Aside(n, stamp, SIDECARS[k])] == a[Path(Live, n + SIDECARS[k])]
    ensures AsideUpTo(n, stamp, k + 1, before, b)
  {
    var q := n + ".corrupt-" + stamp;
    TailsDiffer(q, "", SIDECARS[k]);
    assert q + "" == q;
    QuarantineApart(n, stamp, "", SIDECARS[k]);
    forall j | 0 <= j < |SIDECARS| && j != k ensures Path(Live, n + SIDECARS[j]) != Path(Live, n + SIDECARS[k]) && Aside(n, stamp, SIDECARS[j]) != Aside(n, stamp, SIDECARS[k]) {
      assert SIDECARS[j] != SIDECARS[k];
      TailsDiffer(n, SIDECARS[j], SIDECARS[k]);
      TailsDiffer(q, SIDECARS[j], SIDECARS[k]);
    }
    forall i, j | 0 <= i < |SIDECARS| && 0 <= j < |SIDECARS| ensures Aside(n, stamp, SIDECARS[i]) != Path(Live, n + SIDECARS[j]) {
      QuarantineApart(n, stamp, SIDECARS[i], SIDECARS[j]);
    }
  }

  /** Every live database file there was is in quarantine. */
  ghost predicate Quarantined(n: string, stamp: string, before: Files, files: Files) {
    forall s :: s in DATABASE_FILES && Path(Live, n + s) in before ==>
      Aside(n, stamp, s) in files && files[Aside(n, stamp, s)] == before[Path(Live, n + s)]
  }

  lemma AllAside(n: string, stamp: string, before: Files, a: Files, b: Files, changed: set<Path>)
    requires AsideUpTo(n, stamp, |SIDECARS|, before, a) && SameExcept(a, b, changed)
    requires changed <= Sidecars(Path(Live, n)) + {Path(Live, n), Recovered(n), Path(Evidence, RECEIPT)}
    ensures Quarantined(n, stamp, before, b)
  {
    forall s | s in DATABASE_FILES && Path(Live, n + s) in before
      ensures Aside(n, stamp, s) in b && b[Aside(n, stamp, s)] == before[Path(Live, n + s)]
    {
      forall t | t in DATABASE_FILES ensures Aside(n, stamp, s) != Path(Live, n + t) { QuarantineApart(n, stamp, s, t); }
      assert n + "" == n && "" == DATABASE_FILES[0];
      assert Aside(n, stamp, s) !in changed;
      if s != "" {
        assert DATABASE_FILES == [""] + SIDECARS;
        var j :| 0 <= j < |SIDECARS| && SIDECARS[j] == s;
      }
    }
  }

  lemma QuarantineStays(n: string, stamp: string, before: Files, a: Files, b: Files, changed: set<Path>)
    requires Quarantined(n, stamp, before, a) && SameExcept(a, b, changed)
    requires changed <= Sidecars(Path(Live, n)) + {Path(Live, n), Path(Evidence, RECEIPT)}
    ensures Quarantined(n, stamp, before, b)
  {
    forall s | s in DATABASE_FILES
      ensures Aside(n, stamp, s) !in changed
    {
      forall t | t in DATABASE_FILES ensures Aside(n, stamp, s) != Path(Live, n + t) { QuarantineApart(n, stamp, s, t); }
      assert n + "" == n && "" == DATABASE_FILES[0];
    }
  }

  method MoveAside(d: Disk, n: string, s: string, stamp: string, ghost original: Files) returns (ok: bool)
    requires d.Valid() && Pending(n, original, Moment(d.files, d.log)) && s in SIDECARS && Path(Live, n) !in d.files
    modifies d
    ensures d.Valid() && Pending(n, original, Moment(d.files, d.log)) && d.log == old(d.log)
    ensures GrowsSafely(n, original, old(d.moments), d.moments)
    ensures Path(Live, n) !in d.files
    ensures forall p :: p in d.files && p in Sidecars(Path(Live, n)) ==> p in old(d.files)
    ensures SameAt(old(d.files), d.files, Recovered(n))
    ensures ok ==> Path(Live, n + s) !in d.files
    ensures SameExcept(old(d.files), d.files, {Path(Live, n + s), Aside(n, stamp, s)})
    ensures ok ==> Path(Live, n + s) in old(d.files) && Aside(n, stamp, s) in d.files && d.files[Aside(n, stamp, s)] == old(d.files)[Path(Live, n + s)]
  {
    var sidecar, aside := Path(Live, n + s), Path(Live, n + ".corrupt-" + stamp + s);
    ok := d.Replace(sidecar, aside);
    forall t | t in DATABASE_FILES
      ensures aside.name != n + t
    {
      QuarantineApart(n, stamp, s, t);
    }
    assert n + "" == n;
    PendingFrame(n, original, old(Moment(d.files, d.log)), Moment(d.files, d.log), {sidecar, aside});
  }

  /** The damaged database's sidecars follow its main image into quarantine. */
  method MoveSidecarsAside(d: Disk, n: string, stamp: string, ghost original: Files, ghost whole: Files) returns (ok: bool)
    requires d.Valid() && Pending(n, original, Moment(d.files, d.log)) && Path(Live, n) !in d.files
    requires AsideUpTo(n, stamp, 0, whole, d.files)
    modifies d
    ensures d.Valid() && Pending(n, original, Moment(d.files, d.log)) && d.log == old(d.log)
    ensures GrowsSafely(n, original, old(d.moments), d.moments)
    ensures Path(Live, n) !in d.files && SameAt(old(d.files), d.files, Recovered(n))
    ensures ok ==> forall p :: p in Sidecars(Path(Live, n)) ==> p !in d.files
    ensures SameDetached(n, old(d.files), d.files)
    ensures ok ==> AsideUpTo(n, stamp, |SIDECARS|, whole, d.files)
  {
    for k := 0 to |SIDECARS|
      invariant d.Valid() && Pending(n, original, Moment(d.files, d.log)) && d.log == old(d.log)
      invariant GrowsSafely(n, original, old(d.moments), d.moments)
      invariant Path(Live, n) !in d.files && SameAt(old(d.files), d.files, Recovered(n))
      invariant forall j :: 0 <= j < k ==> Path(Live, n + SIDECARS[j]) !in d.files
      invariant SameDetached(n, old(d.files), d.files) && AsideUpTo(n, stamp, k, whole, d.files)
    {
      ghost var files := d.files;
      if Path(Live, n + SIDECARS[k]) in d.files {
        ghost var before := d.moments;
        ok := MoveAside(d, n, SIDECARS[k], stamp, original);
        GrowsTwice(n, original, old(d.moments), before, d.moments);
        LiveSparesDetached(n, files, d.files, {Path(Live, n + SIDECARS[k]), Aside(n, stamp, SIDECARS[k])});
        if !ok { return; }
        forall j | 0 <= j < k
          ensures Path(Live, n + SIDECARS[j]) !in d.files
        {
          assert Path(Live, n + SIDECARS[j]) in Sidecars(Path(Live, n));
        }
      }
      AsideNext(n, stamp, k, whole, files, d.files);
    }
    assert SIDECARS[0] == "-wal" && SIDECARS[1] == "-shm" && SIDECARS[2] == "-journal";
    ok := true;
  }

  method QuarantineMain(d: Disk, n: string, stamp: string, ghost original: Files) returns (ok: bool)
    requires d.Valid() && Pending(n, original, Moment(d.files, d.log))
    modifies d
    ensures d.Valid() && Pending(n, original, Moment(d.files, d.log)) && d.log == old(d.log)
    ensures GrowsSafely(n, original, old(d.moments), d.moments)
    ensures SameAt(old(d.files), d.files, Recovered(n)) && SameDetached(n, old(d.files), d.files)
    ensures ok ==> Path(Live, n) !in d.files && AsideUpTo(n, stamp, 0, old(d.files), d.files)
  {
    var source, aside := Path(Live, n), Path(Live, n + ".corrupt-" + stamp);
    ok := d.Replace(source, aside);
    QuarantineApart(n, stamp, "", "");
    assert n + ".corrupt-" + stamp + "" == aside.name && n + "" == n;
    LiveSparesDetached(n, old(d.files), d.files, {source, aside});
    forall j | 0 <= j < |SIDECARS| ensures Path(Live, n + SIDECARS[j]) !in {source, aside} {
      QuarantineApart(n, stamp, "", SIDECARS[j]);
      assert |n + SIDECARS[j]| > |n|;
    }
    PendingFrame(n, original, old(Moment(d.files, d.log)), Moment(d.files, d.log), {source, aside});
  }

  /** The checked replacement takes the empty place. */
  method PutLive(d: Disk, n: string, ghost original: Files) returns (ok: bool)
    requires d.Valid() && Pending(n, original, Moment(d.files, d.log))
    requires Drafted(n, d.files) && Passed(d.files[Recovered(n)].bytes) in d.log
    requires forall p :: p in Sidecars(Path(Live, n)) ==> p !in d.files
    modifies d
    ensures d.Valid() && d.log == old(d.log) && GrowsSafely(n, original, old(d.moments), d.moments)
    ensures ok ==> Ready(n, original, Moment(d.files, d.log))
    ensures ok ==> d.files[Path(Live, n)] == old(d.files[Recovered(n)])
    ensures SameExcept(old(d.files), d.files, {Path(Live, n), Recovered(n)}) && SameDetached(n, old(d.files), d.files)
  {
    var source, recovered := Path(Live, n), Path(Evidence, n + ".recovered");
    ok := d.Replace(recovered, source);
    RebuiltDatabaseSpares(n, recovered);
    RecoveredSparesDetached(n, recovered);
    SameDetachedByFrame(n, old(d.files), d.files, {source, recovered});
    NoSidecarOfItself(source);
    StandsByFrame(n, original, old(Moment(d.files, d.log)), Moment(d.files, d.log), {source, recovered});
  }

  /** Move the damaged database aside, main image first, then its sidecars, and
      only then put the replacement at the source path. */
  method GoLive(d: Disk, n: string, stamp: string, ghost original: Files) returns (ok: bool)
    requires d.Valid() && Pending(n, original, Moment(d.files, d.log))
    requires Drafted(n, d.files) && Passed(d.files[Recovered(n)].bytes) in d.log
    modifies d
    ensures d.Valid() && d.log == old(d.log) && GrowsSafely(n, original, old(d.moments), d.moments)
    ensures ok ==> Ready(n, original, Moment(d.files, d.log))
    ensures ok ==> d.files[Path(Live, n)] == old(d.files[Recovered(n)])
    ensures ok ==> Path(Live, n) in old(d.files) && Quarantined(n, stamp, old(d.files), d.files)
    ensures SameDetached(n, old(d.files), d.files)
  {
    ok := QuarantineMain(d, n, stamp, original);
    if !ok { return; }
    ghost var before := d.moments;
    ok := MoveSidecarsAside(d, n, stamp, original, old(d.files));
    GrowsTwice(n, original, old(d.moments), before, d.moments);
    if !ok { return; }
    before := d.moments;
    ghost var aside := d.files;
    ok := PutLive(d, n, original);
    GrowsTwice(n, original, old(d.moments), before, d.moments);
    AllAside(n, stamp, old(d.files), aside, d.files, {Path(Live, n), Recovered(n)});
  }

  /** The damaged image is replaced by one rebuilt from its recoverable rows. */
  method RebuildPath(d: Disk, n: string, stamp: string, ghost original: Files, sourceImage: Bytes, manageLaunchd: bool) returns (r: Result<Receipt, Failure>)
    requires d.Valid() && Pending(n, original, Moment(d.files, d.log))
    modifies d
    ensures d.Valid() && GrowsSafely(n, original, old(d.moments), d.moments)
    ensures r.Ok? ==> Completed(d, n, original, r.value, sourceImage, manageLaunchd)
    ensures r.Ok? ==> d.files[Path(Live, n)].gen == Rebuilt && Dumping in d.log
    ensures r.Ok? ==> Aside(n, stamp, "") in d.files && d.files[Aside(n, stamp, "")].gen == Original
    ensures SameDetached(n, old(d.files), d.files)
  {
    var failure := BuildReplacement(d, n, original);
    if failure != None { return Err(failure.value); }
    ghost var before, built := d.moments, d.files;
    assert "" == DATABASE_FILES[0] && n + "" == n;
    var live := GoLive(d, n, stamp, original);
    GrowsTwice(n, original, old(d.moments), before, d.moments);
    if !live { return Err(ReplaceFailed); }
    var chowned: bool := *;
    if !chowned { return Err(ReplaceFailed); }
    before := d.moments;
    ghost var placed := d.files;
    r := Announce(d, n, original, sourceImage, manageLaunchd);
    GrowsTwice(n, original, old(d.moments), before, d.moments);
    QuarantineStays(n, stamp, built, placed, d.files, Sidecars(Path(Live, n)) + {Path(Live, n), Path(Evidence, RECEIPT)});
  }

  /** The two checks as the log tells them at m, both answered. */
  ghost predicate Answered(n: string, before: seq<Event>, live: Check, main: Check, m: Moment) {
    var source := Path(Live, n);
    && live != CheckOtherError && main != CheckOtherError
    && (live == CheckOk ==> source in m.files)
    && m.log == before + [Examined(Ordinary, source, live)] + (if live == CheckOk then [Passed(m.files[source].bytes)] else []) + [Examined(MainOnly, source, main)]
  }

  /** The database does not read, its main image alone does, and there is a
      sidecar to blame. */
  ghost predicate DetachDue(n: string, live: Check, main: Check, files: Files) {
    live != CheckOk && main == CheckOk && exists s :: s in SIDECARS && Path(Live, n + s) in files
  }

  /** Which path was taken from the files `at` on, told by what it leaves: the
      detached image was never dumped and is the one handed back, the rebuilt
      one loses no sidecar to the detached ones. */
  ghost predicate PathTaken(n: string, due: bool, at: Files, r: Result<Receipt, Failure>, m: Moment) {
    && (due ==> Dumping !in m.log && Handed(n, at, m) && (r.Ok? ==> AllDetached(n, at, m.files)))
    && (!due ==> SameDetached(n, at, m.files) && (r.Ok? ==> Dumping in m.log))
  }

  /** The two checks; the second is not made when the first raised. */
  method Examine(d: Disk, n: string, ghost original: Files) returns (live: Check, main: Check)
    requires d.Valid() && Pending(n, original, Moment(d.files, d.log)) && Dumping !in d.log
    modifies d
    ensures d.Valid() && GrowsSafely(n, original, old(d.moments), d.moments)
    ensures Pending(n, original, Moment(d.files, d.log)) && Dumping !in d.log
    ensures SameDetached(n, old(d.files), d.files) && SameAt(old(d.files), d.files, Path(Live, n))
    ensures main == CheckOk ==> Path(Live, n) in d.files
    ensures live != CheckOtherError && main != CheckOtherError ==> Answered(n, old(d.log), live, main, Moment(d.files, d.log)) && |d.moments| > |old(d.moments)|
  {
    var source := Path(Live, n);
    NoSidecarOfItself(source);
    main := CheckOtherError;
    live := CheckPending(d, n, source, original);
    if live == CheckOtherError { return; }
    ghost var before, a := d.moments, Moment(d.files, d.log);
    main := d.ImmutableQuickCheck(source);
    PendingFrame(n, original, a, Moment(d.files, d.log), {});
    GrowsTwice(n, original, old(d.moments), before, d.moments);
  }

  /** From the two checks on: a healthy image behind damaged sidecars is
      detached from them, anything else is rebuilt. `decided` is the position of
      the moment after the checks, past the end when one of them raised. */
  method AfterCopy(d: Disk, n: string, stamp: string, ghost original: Files, sourceImage: Bytes, manageLaunchd: bool)
    returns (r: Result<Receipt, Failure>, ghost decided: nat, ghost live: Check, ghost main: Check)
    requires d.Valid() && Pending(n, original, Moment(d.files, d.log)) && Dumping !in d.log
    modifies d
    ensures d.Valid() && GrowsSafely(n, original, old(d.moments), d.moments)
    ensures decided < |d.moments| || (r == Err(CheckRaised) && SameDetached(n, old(d.files), d.files))
    ensures decided < |d.moments| ==>
      && |old(d.moments)| <= decided
      && Answered(n, old(d.log), live, main, d.moments[decided]) && SameDetached(n, old(d.files), d.moments[decided].files)
      && PathTaken(n, DetachDue(n, live, main, d.moments[decided].files), d.moments[decided].files, r, Moment(d.files, d.log))
    ensures r.Ok? ==> Completed(d, n, original, r.value, sourceImage, manageLaunchd)
    ensures r.Ok? ==> (Dumping in d.log <==> d.files[Path(Live, n)].gen == Rebuilt)
    ensures r.Ok? ==> if d.files[Path(Live, n)].gen == Rebuilt
                      then Aside(n, stamp, "") in d.files && d.files[Aside(n, stamp, "")].gen == Original
                      else Handed(n, old(d.files), Moment(d.files, d.log))
  {
    var liveIntegrity, mainIntegrity := Examine(d, n, original);
    live, main, decided := liveIntegrity, mainIntegrity, |d.moments|;
    if liveIntegrity == CheckOtherError || mainIntegrity == CheckOtherError { return Err(CheckRaised), decided, live, main; }
    decided := |d.moments| - 1;
    ghost var before, at := d.moments, Moment(d.files, d.log);
    r := TakePath(d, n, stamp, original, sourceImage, manageLaunchd, liveIntegrity, mainIntegrity);
    GrowsTwice(n, original, old(d.moments), before, d.moments);
    assert d.moments[decided] == at;
  }

  method TakePath(d: Disk, n: string, stamp: string, ghost original: Files, sourceImage: Bytes, manageLaunchd: bool, live: Check, main: Check)
    returns (r: Result<Receipt, Failure>)
    requires d.Valid() && Pending(n, original, Moment(d.files, d.log)) && Dumping !in d.log
    requires main == CheckOk ==> Path(Live, n) in d.files
    modifies d
    ensures d.Valid() && GrowsSafely(n, original, old(d.moments), d.moments)
    ensures PathTaken(n, DetachDue(n, live, main, old(d.files)), old(d.files), r, Moment(d.files, d.log))
    ensures r.Ok? ==> Completed(d, n, original, r.value, sourceImage, manageLaunchd)
    ensures r.Ok? ==> (Dumping in d.log <==> d.files[Path(Live, n)].gen == Rebuilt)
    ensures r.Ok? ==> if d.files[Path(Live, n)].gen == Rebuilt
                      then Aside(n, stamp, "") in d.files && d.files[Aside(n, stamp, "")].gen == Original
                      else Handed(n, old(d.files), Moment(d.files, d.log))
  {
    var anySidecar := exists s :: s in SIDECARS && Path(Live, n + s) in d.files;
    if live != CheckOk && main == CheckOk && anySidecar {
      r := DetachPath(d, n, original, sourceImage, manageLaunchd);
    } else {
      r := RebuildPath(d, n, stamp, original, sourceImage, manageLaunchd);
    }
  }

  /** The whole record of a recovery: up to `copied` nothing live has changed
      since the digest at `began`; from there on every moment is safe. */
  ghost predicate Phases(n: string, moments: seq<Moment>, began: nat, copied: nat) {
    && began <= copied <= |moments|
    && (forall i :: 0 <= i < copied ==> AllOriginal(moments[i].files) && !Announced(moments[i].log))
    && (began < |moments| ==>
          && began < copied && Path(Live, n) in moments[began].files
          && (forall i :: began <= i < copied ==> Untouched(moments[began].files, moments[i]))
          && (forall i :: copied <= i < |moments| ==> Safe(n, moments[began].files, moments[i])))
  }

  lemma PhasesKeepEvidence(n: string, moments: seq<Moment>, began: nat, copied: nat)
    requires Phases(n, moments, began, copied)
    ensures forall i :: began <= i < |moments| && i < copied ==> MainKept(n, moments[began].files, moments[i])
    ensures forall i :: copied <= i < |moments| ==> Kept(n, moments[began].files, moments[i])
    ensures forall i :: 0 <= i < |moments| ==> NoMix(n, moments[i].files) && Vetted(n, moments[i])
  {
    forall i | copied <= i < |moments|
      ensures Safe(n, moments[began].files, moments[i]) && Kept(n, moments[began].files, moments[i])
    {
      PreservedUnlessOverwritten(n, moments[began].files, moments[i]);
      MainKeptIff(n, moments[began].files, moments[i]);
    }
  }

  /** What the evidence directory holds after the copies, exactly: everything
      unless the main image's copy was overwritten, and then the image is lost
      unless it is still at the source path. */
  ghost predicate Kept(n: string, original: Files, m: Moment) {
    && Stands(n, original, m)
    && (Preserved(n, original, m.files) <==> !Overwritten(n, m.log))
    && (MainKept(n, original, m) <==> !Overwritten(n, m.log) || SameAt(original, m.files, Path(Live, n)))
  }

  /** The evidence a returned recovery leaves, by the source's name, its path
      and the receipt's digests. */
  ghost predicate LeftAtReturn(n: string, original: Files, m: Moment, r: Receipt) {
    var source := Path(Live, n);
    && source in m.files
    && (MainKept(n, original, m)
        <==> (n != RECEIPT && (n == DUMP ==> m.files[source].gen != Rebuilt)) || (m.files[source].gen != Rebuilt && r.liveImage == r.sourceImage))
    && (Preserved(n, original, m.files) <==> n != RECEIPT && (n == DUMP ==> m.files[source].gen != Rebuilt))
  }

  lemma WhatIsLeft(n: string, original: Files, m: Moment, r: Receipt)
    requires AllOriginal(original) && Path(Live, n) in original && Path(Live, n) in m.files && Kept(n, original, m)
    requires Receipting in m.log && (Dumping in m.log <==> m.files[Path(Live, n)].gen == Rebuilt)
    requires r.sourceImage == original[Path(Live, n)].bytes && r.liveImage == m.files[Path(Live, n)].bytes
    requires m.files[Path(Live, n)].gen in {Original, Rebuilt}
    ensures LeftAtReturn(n, original, m, r)
  {
    DumpIsNotReceipt();
  }

  /** Stop the service. It may write its database while it stops. */
  method StopService(d: Disk, n: string, manageLaunchd: bool) returns (ok: bool)
    requires d.Valid() && d.moments == [Moment(d.files, [])] && AllOriginal(d.files)
    requires forall p :: p in d.files ==> p.dir == Live
    modifies d
    ensures d.Valid() && AllOriginal(d.files) && !Announced(d.log) && Dumping !in d.log
    ensures forall p :: p in d.files ==> p.dir == Live
    ensures d.log == (if manageLaunchd then [Bootout] else [])
    ensures forall i :: 0 <= i < |d.moments| ==> AllOriginal(d.moments[i].files) && !Announced(d.moments[i].log)
  {
    ok := true;
    if manageLaunchd {
      ok := d.Launchctl(Bootout);
      ghost var before := d.files;
      d.Open(Path(Live, n), true);
      assert AllOriginal(d.files);
    }
  }

  /** The checks follow the copies at once, and what they answered decides the
      path: on a rebuild no sidecar ever goes to the detached ones. */
  ghost predicate Decided(n: string, manageLaunchd: bool, moments: seq<Moment>, copied: nat, decided: nat, live: Check, main: Check, r: Result<Receipt, Failure>)
    requires copied <= decided < |moments|
  {
    var m, due := moments[decided], DetachDue(n, live, main, moments[decided].files);
    && Answered(n, if manageLaunchd then [Bootout] else [], live, main, m) && NoneDetached(n, m.files)
    && PathTaken(n, due, m.files, r, moments[|moments| - 1])
    && (!due ==> NoneDetached(n, moments[|moments| - 1].files))
  }

  /** A successful recovery rebuilt the database exactly when detaching was not
      due; the damaged image is then in quarantine. */
  ghost predicate Returned(n: string, stamp: string, due: bool, original: Files, m: Moment, r: Receipt) {
    && LeftAtReturn(n, original, m, r)
    && (Dumping in m.log <==> !due) && (m.files[Path(Live, n)].gen == Rebuilt <==> !due)
    && (if due then Handed(n, original, m) else Aside(n, stamp, "") in m.files && m.files[Aside(n, stamp, "")].gen == Original)
  }

  /** From the digest of the source on. */
  method RecoverFrom(d: Disk, n: string, stamp: string, manageLaunchd: bool)
    returns (r: Result<Receipt, Failure>, ghost began: nat, ghost copied: nat, ghost decided: nat, ghost live: Check, ghost main: Check)
    requires d.Valid() && Path(Live, n) in d.files && AllOriginal(d.files) && !Announced(d.log) && Dumping !in d.log
    requires d.log == if manageLaunchd then [Bootout] else []
    requires forall p :: p in d.files ==> p.dir == Live
    requires forall i :: 0 <= i < |d.moments| ==> AllOriginal(d.moments[i].files) && !Announced(d.moments[i].log)
    modifies d
    ensures began < |d.moments|
    ensures decided < |d.moments| || (r.Err? && r.error in {CopyFailed, CheckRaised})
    ensures d.Valid() && Phases(n, d.moments, began, copied)
    ensures forall i :: began <= i < |d.moments| && i < copied ==> MainKept(n, d.moments[began].files, d.moments[i])
    ensures forall i :: copied <= i < |d.moments| ==> Kept(n, d.moments[began].files, d.moments[i])
    ensures forall i :: 0 <= i < |d.moments| ==> NoMix(n, d.moments[i].files) && Vetted(n, d.moments[i])
    ensures decided < |d.moments| ==> copied <= decided && Decided(n, manageLaunchd, d.moments, copied, decided, live, main, r)
    ensures r.Ok? ==>
      && copied <= decided && decided < |d.moments|
      && Completed(d, n, d.moments[began].files, r.value, d.moments[began].files[Path(Live, n)].bytes, manageLaunchd)
      && Returned(n, stamp, DetachDue(n, live, main, d.moments[decided].files), d.moments[began].files, Moment(d.files, d.log), r.value)
  {
    var sourceImage := d.files[Path(Live, n)].bytes;
    ghost var original, early := d.files, d.moments;
    began := |early| - 1;
    var ok := CopyEvidence(d, n);
    copied, decided, live, main := |d.moments|, |d.moments|, CheckOtherError, CheckOtherError;
    PhasesAfterCopy(n, original, early, d.moments);
    if !ok {
      PhasesKeepEvidence(n, d.moments, began, copied);
      return Err(CopyFailed), began, copied, decided, live, main;
    }
    ghost var copies := d.moments;
    r, decided, live, main := AfterCopy(d, n, stamp, original, sourceImage, manageLaunchd);
    PhasesGrow(n, original, copies, began, d.moments);
    PhasesKeepEvidence(n, d.moments, began, copied);
    if r.Ok? { WhatIsLeft(n, original, Moment(d.files, d.log), r.value); }
  }

  /** `recover_system_monitor_database`. `began`, `copied` and `decided` are the
      positions in `d.moments` at which the source's digest was taken, the copy
      loop ended and the two checks had answered `live` and `main`; each is past
      the end when the procedure raised before. */
  method Recover(d: Disk, n: string, stamp: string, root: bool, evidenceExists: bool, manageLaunchd: bool)
    returns (r: Result<Receipt, Failure>, ghost began: nat, ghost copied: nat, ghost decided: nat, ghost live: Check, ghost main: Check)
    requires d.Valid() && d.moments == [Moment(d.files, [])] && AllOriginal(d.files)
    requires !evidenceExists ==> forall p :: p in d.files ==> p.dir == Live
    modifies d
    ensures !root ==> r == Err(NotRoot) && d.files == old(d.files) && d.log == []
    ensures root && evidenceExists ==> r == Err(EvidenceExists) && d.files == old(d.files) && d.log == []
    ensures began < |d.moments| || (r.Err? && r.error in {NotRoot, EvidenceExists, LaunchdFailed, SourceMissing})
    ensures decided < |d.moments| || (r.Err? && r.error in {NotRoot, EvidenceExists, LaunchdFailed, SourceMissing, CopyFailed, CheckRaised})
    ensures d.Valid() && Phases(n, d.moments, began, copied)
    ensures forall i :: began <= i < |d.moments| && i < copied ==> MainKept(n, d.moments[began].files, d.moments[i])
    ensures forall i :: copied <= i < |d.moments| ==> Kept(n, d.moments[began].files, d.moments[i])
    ensures forall i :: 0 <= i < |d.moments| ==> NoMix(n, d.moments[i].files) && Vetted(n, d.moments[i])
    ensures decided < |d.moments| ==> copied <= decided && Decided(n, manageLaunchd, d.moments, copied, decided, live, main, r)
    ensures r.Ok? ==>
      && copied <= decided && decided < |d.moments|
      && Completed(d, n, d.moments[began].files, r.value, d.moments[began].files[Path(Live, n)].bytes, manageLaunchd)
      && Returned(n, stamp, DetachDue(n, live, main, d.moments[decided].files), d.moments[began].files, Moment(d.files, d.log), r.value)
  {
    began, copied, decided, live, main := |d.moments|, |d.moments|, |d.moments|, CheckOtherError, CheckOtherError;
    if !root { return Err(NotRoot), began, copied, decided, live, main; }
    if evidenceExists { return Err(EvidenceExists), began, copied, decided, live, main; }
    var stopped := StopService(d, n, manageLaunchd);
    began, copied, decided := |d.moments|, |d.moments|, |d.moments|;
    if !stopped { return Err(LaunchdFailed), began, copied, decided, live, main; }
    if Path(Live, n) !in d.files { return Err(SourceMissing), began, copied, decided, live, main; }
    r, began, copied, decided, live, main := RecoverFrom(d, n, stamp, manageLaunchd);
  }

  lemma PhasesAfterCopy(n: string, original: Files, early: seq<Moment>, moments: seq<Moment>)
    requires |early| > 0 && early[|early| - 1].files == original && Path(Live, n) in original
    requires forall i :: 0 <= i < |early| ==> AllOriginal(early[i].files) && !Announced(early[i].log)
    requires |early| <= |moments| && moments[..|early|] == early
    requires forall i :: |early| <= i < |moments| ==> Untouched(original, moments[i])
    ensures Phases(n, moments, |early| - 1, |moments|) && moments[|early| - 1].files == original
  {
    assert forall i :: 0 <= i < |early| ==> moments[i] == early[i];
  }

  lemma PhasesGrow(n: string, original: Files, copies: seq<Moment>, began: nat, moments: seq<Moment>)
    requires began < |copies| && copies[began].files == original
    requires Phases(n, copies, began, |copies|) && GrowsSafely(n, original, copies, moments)
    ensures Phases(n, moments, began, |copies|) && moments[began].files == original
  {
    assert forall i :: 0 <= i < |copies| ==> moments[i] == copies[i];
  }
}
