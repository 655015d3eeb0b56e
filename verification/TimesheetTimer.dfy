/** The consultant's timer (mac_audit_agent/consultant_timesheet.py,
    ConsultantTimesheetRepository): one entry runs at a time. The clock, fresh
    ids and the parsing of timestamps are inputs. */
module TimesheetTimer {
  import opened Common
  import opened Rounding

  /** `ended` is "" while the entry runs. */
  datatype Entry = Entry(id: string, contractor: string, engagement: string, started: string, ended: string, seconds: int, notes: seq<string>, updated: string)

  datatype EventKind = TimerStarted | NotesSaved | TimerStopped
  datatype Event = Event(kind: EventKind, entry: string, time: string)

  datatype Store = Store(rows: seq<Entry>, events: seq<Event>)

  datatype Error = AlreadyRunning | MissingNames | DuplicateId | NotFound | BadTimestamp

  function WithoutNul(s: string): string {
    if s == "" then "" else (if s[0] == '\0' then [] else [s[0]]) + WithoutNul(s[1..])
  }

  /** `_clean`. */
  function Clean(s: string, limit: nat): string {
    var t := Strip(WithoutNul(s));
    if |t| <= limit then t else t[..limit]
  }

  // ---------- what the calls do ----------

  /** Where the row with an id is, if it is there. */
  function Find(rows: seq<Entry>, id: string): (r: Option<nat>)
    ensures r.Some? ==> r.value < |rows| && rows[r.value].id == id
    ensures r.None? ==> forall i :: 0 <= i < |rows| ==> rows[i].id != id
  {
    if rows == [] then None
    else if rows[|rows| - 1].id == id then Some(|rows| - 1)
    else Find(rows[..|rows| - 1], id)
  }

  predicate Running(rows: seq<Entry>) {
    exists i :: 0 <= i < |rows| && rows[i].ended == ""
  }

  /** `start`; a clash of ids is refused by the table's primary key. */
  function Started(s: Store, contractor: string, engagement: string, now: string, id: string): Result<Store, Error> {
    var c, e := Clean(contractor, 300), Clean(engagement, 300);
    if Running(s.rows) then Err(AlreadyRunning)
    else if c == "" || e == "" then Err(MissingNames)
    else if Find(s.rows, id).Some? then Err(DuplicateId)
    else Ok(Store(s.rows + [Entry(id, c, e, now, "", 0, [], now)], s.events + [Event(TimerStarted, id, now)]))
  }

  /** `save_notes`. */
  function Noted(s: Store, id: string, notes: seq<string>, now: string): Result<Store, Error> {
    match Find(s.rows, id)
    case None => Err(NotFound)
    case Some(i) =>
      Ok(Store(s.rows[i := s.rows[i].(notes := notes, updated := now)], s.events + [Event(NotesSaved, id, now)]))
  }

  /** Whole seconds from `micros`, never negative. */
  function Duration(micros: int): int {
    var r := Round(micros, 1000000);
    if r > 0 then r else 0
  }

  /** `stop`; `elapsed` gives the microseconds between two timestamps, or None
      where one of them cannot be read. */
  function Stopped(s: Store, id: string, now: string, elapsed: (string, string) -> Option<int>): Result<Store, Error> {
    match Find(s.rows, id)
    case None => Err(NotFound)
    case Some(i) =>
      var row := s.rows[i];
      if row.ended != "" then Ok(s)
      else match elapsed(row.started, now)
        case None => Err(BadTimestamp)
        case Some(micros) =>
          Ok(Store(s.rows[i := row.(ended := now, seconds := Duration(micros), updated := now)], s.events + [Event(TimerStopped, id, now)]))
  }

  // ---------- cleaned texts ----------

  /** Nothing of the text is left after cleaning. */
  predicate Empty(s: string) {
    forall c :: c in s ==> c == '\0' || IsSpace(c)
  }

  lemma {:induction false} WithoutNulIs(s: string)
    ensures '\0' !in WithoutNul(s) && (forall c :: c in WithoutNul(s) <==> c in s && c != '\0')
    ensures '\0' !in s ==> WithoutNul(s) == s
  {
    if s != "" {
      WithoutNulIs(s[1..]);
      assert s == [s[0]] + s[1..];
    }
  }

  lemma StripIsPart(s: string)
    ensures forall c :: c in Strip(s) ==> c in s
  {
    var before, after := StripTakesBlanks(s);
    forall c | c in Strip(s) ensures c in s { assert c in before + Strip(s) + after; }
  }

  lemma BlankIffAll(s: string)
    ensures Blank(s) <==> forall c :: c in s ==> IsSpace(c)
  {}

  /** Cleaning keeps to the limit, leaves no NUL and no leading space, leaves
      nothing exactly when there are only spaces and NULs, and leaves a clean
      text alone. */
  lemma CleanIs(s: string, limit: nat)
    requires limit > 0
    ensures var r := Clean(s, limit);
            && |r| <= limit && '\0' !in r && (r != "" ==> !IsSpace(r[0]))
            && (r == "" <==> Empty(s))
            && ('\0' !in s && Trim(s) && |s| <= limit ==> r == s)
  {
    var u := WithoutNul(s);
    WithoutNulIs(s);
    StripIsPart(u);
    BlankIffAll(u);
    if Trim(u) { TrimStays(u); }
  }

  // ---------- what each call asks for and leaves ----------

  predicate Present(rows: seq<Entry>, id: string) {
    exists i :: 0 <= i < |rows| && rows[i].id == id
  }

  lemma FoundIff(rows: seq<Entry>, id: string)
    ensures Find(rows, id).Some? <==> Present(rows, id)
  {}

  /** `start` fails for a running entry, an empty name or a used id, in this
      order, and otherwise adds one running entry of no time. */
  lemma StartOutcome(s: Store, contractor: string, engagement: string, now: string, id: string)
    ensures var r := Started(s, contractor, engagement, now, id);
            && (r == Err(AlreadyRunning) <==> Running(s.rows))
            && (r == Err(MissingNames) <==> !Running(s.rows) && (Empty(contractor) || Empty(engagement)))
            && (r == Err(DuplicateId) <==> !Running(s.rows) && !Empty(contractor) && !Empty(engagement) && Present(s.rows, id))
            && (r.Ok? <==> !Running(s.rows) && !Empty(contractor) && !Empty(engagement) && !Present(s.rows, id))
            && (r.Ok? ==> r.value.rows == s.rows + [Entry(id, Clean(contractor, 300), Clean(engagement, 300), now, "", 0, [], now)]
                          && r.value.events == s.events + [Event(TimerStarted, id, now)])
  {
    CleanIs(contractor, 300);
    CleanIs(engagement, 300);
    FoundIff(s.rows, id);
  }

  /** t is s with the row at i replaced, and one event more. */
  predicate OneRowChanged(s: Store, t: Store, i: nat, row: Entry, event: Event)
    requires i < |s.rows|
  {
    && |t.rows| == |s.rows| && t.rows[i] == row && t.events == s.events + [event]
    && forall k :: 0 <= k < |s.rows| && k != i ==> t.rows[k] == s.rows[k]
  }

  lemma NotesOutcome(s: Store, id: string, notes: seq<string>, now: string)
    requires Sound(s)
    ensures Noted(s, id, notes, now).Err? <==> !Present(s.rows, id)
    ensures Noted(s, id, notes, now).Err? ==> Noted(s, id, notes, now) == Err(NotFound)
    ensures forall i :: 0 <= i < |s.rows| && s.rows[i].id == id ==>
              OneRowChanged(s, Noted(s, id, notes, now).value, i, s.rows[i].(notes := notes, updated := now), Event(NotesSaved, id, now))
  {
    FoundIff(s.rows, id);
    FindIsTheRow(s, id);
  }

  /** The whole seconds a stop bills: the nearest, none for a negative time. */
  predicate NearestSeconds(micros: int, seconds: int) {
    if micros < 0 then seconds == 0 else 2 * micros - 1000000 <= 2000000 * seconds <= 2 * micros + 1000000
  }

  lemma DurationIsNearest(micros: int)
    ensures NearestSeconds(micros, Duration(micros)) && Duration(micros) >= 0
  {
    RoundIsNear(micros, 1000000);
  }

  /** `stop` fails only for an unknown id or an unreadable time, leaves an ended
      entry alone, and ends a running one with its nearest whole seconds. */
  lemma StopOutcome(s: Store, id: string, now: string, elapsed: (string, string) -> Option<int>)
    requires Sound(s)
    ensures Stopped(s, id, now, elapsed) == Err(NotFound) <==> !Present(s.rows, id)
    ensures forall i :: 0 <= i < |s.rows| && s.rows[i].id == id ==>
              var r, between := Stopped(s, id, now, elapsed), elapsed(s.rows[i].started, now);
              && (r.Err? <==> s.rows[i].ended == "" && between == None)
              && (r.Ok? ==> if s.rows[i].ended != "" then r.value == s else Stops(s, r.value, i, now, between.value))
  {
    FoundIff(s.rows, id);
    FindIsTheRow(s, id);
    forall i | 0 <= i < |s.rows| && s.rows[i].id == id && s.rows[i].ended == "" && elapsed(s.rows[i].started, now).Some?
      ensures Stops(s, Stopped(s, id, now, elapsed).value, i, now, elapsed(s.rows[i].started, now).value)
    {
      DurationIsNearest(elapsed(s.rows[i].started, now).value);
    }
  }

  predicate Stops(s: Store, t: Store, i: nat, now: string, micros: int)
    requires i < |s.rows|
  {
    && |t.rows| == |s.rows| && NearestSeconds(micros, t.rows[i].seconds)
    && OneRowChanged(s, t, i, s.rows[i].(ended := now, seconds := t.rows[i].seconds, updated := now), Event(TimerStopped, s.rows[i].id, now))
  }

  // ---------- the repository ----------

  class ConsultantTimesheetRepository {
    var store: Store

    constructor ()
      ensures store == Store([], [])
    {
      store := Store([], []);
    }

    /** `active`. At most one row runs, so the order of the query is immaterial. */
    method Active() returns (row: Option<Entry>)
      requires Sound(store)
      ensures row.None? <==> !Running(store.rows)
      ensures row.Some? ==> row.value in store.rows && row.value.ended == ""
      ensures row.Some? ==> forall e :: e in store.rows && e.ended == "" ==> e == row.value
    {
      row := None;
      for i := 0 to |store.rows|
        invariant row.None? ==> forall k :: 0 <= k < i ==> store.rows[k].ended != ""
        invariant row.Some? ==> row.value in store.rows && row.value.ended == ""
      {
        if store.rows[i].ended == "" {
          row := Some(store.rows[i]);
        }
      }
    }

    method DoStart(contractor: string, engagement: string, now: string, id: string) returns (r: Result<Entry, Error>)
      requires Sound(store)
      modifies this
      ensures match Started(old(store), contractor, engagement, now, id)
              case Ok(s) => store == s && r == Ok(s.rows[|s.rows| - 1])
              case Err(e) => store == old(store) && r == Err(e)
    {
      var active := Active();
      if active.Some? { return Err(AlreadyRunning); }
      var c, e := Clean(contractor, 300), Clean(engagement, 300);
      if c == "" || e == "" { return Err(MissingNames); }
      var found := Find(store.rows, id);
      if found.Some? { return Err(DuplicateId); }
      var row := Entry(id, c, e, now, "", 0, [], now);
      store := Store(store.rows + [row], store.events + [Event(TimerStarted, id, now)]);
      r := Ok(row);
    }

    method DoSaveNotes(id: string, notes: seq<string>, now: string) returns (r: Result<Entry, Error>)
      modifies this
      ensures var cleaned := seq(|notes|, i requires 0 <= i < |notes| => Clean(notes[i], 20000));
              match Noted(old(store), id, cleaned, now)
              case Ok(s) => store == s && r.Ok? && r.value.id == id && r.value in s.rows
              case Err(e) => store == old(store) && r == Err(e)
    {
      var cleaned := seq(|notes|, i requires 0 <= i < |notes| => Clean(notes[i], 20000));
      var found := Find(store.rows, id);
      if found.None? { return Err(NotFound); }
      var row := store.rows[found.value].(notes := cleaned, updated := now);
      store := Store(store.rows[found.value := row], store.events + [Event(NotesSaved, id, now)]);
      assert store.rows[found.value] == row;
      r := Ok(row);
    }

    method DoStop(id: string, now: string, elapsed: (string, string) -> Option<int>) returns (r: Result<Entry, Error>)
      modifies this
      ensures match Stopped(old(store), id, now, elapsed)
              case Ok(s) => store == s && r.Ok? && r.value.id == id && r.value in s.rows && (now != "" ==> r.value.ended != "")
              case Err(e) => store == old(store) && r == Err(e)
    {
      var found := Find(store.rows, id);
      if found.None? { return Err(NotFound); }
      var row := store.rows[found.value];
      if row.ended != "" { return Ok(row); }
      var between := elapsed(row.started, now);
      if between.None? { return Err(BadTimestamp); }
      row := row.(ended := now, seconds := Duration(between.value), updated := now);
      store := Store(store.rows[found.value := row], store.events + [Event(TimerStopped, id, now)]);
      assert store.rows[found.value] == row;
      r := Ok(row);
    }
  }

  // ---------- every run ----------

  /** Ids are unique, at most one entry runs, and only ended ones have time. */
  predicate Sound(s: Store) {
    && (forall i, j :: 0 <= i < j < |s.rows| ==> s.rows[i].id != s.rows[j].id)
    && (forall i, j :: 0 <= i < j < |s.rows| ==> s.rows[i].ended != "" || s.rows[j].ended != "")
    && (forall i :: 0 <= i < |s.rows| ==> s.rows[i].seconds >= 0 && (s.rows[i].ended == "" ==> s.rows[i].seconds == 0))
    && (forall i :: 0 <= i < |s.rows| ==> s.rows[i].contractor != "" && s.rows[i].engagement != "")
  }

  datatype Call =
    | Start(contractor: string, engagement: string, startTime: string, newId: string)
    | SaveNotes(noteId: string, notes: seq<string>, noteTime: string)
    | Stop(stopId: string, stopTime: string)

  /** The source falls back on the clock, so no time is empty. */
  predicate Timed(call: Call) {
    match call
    case Start(_, _, t, _) => t != ""
    case SaveNotes(_, _, t) => t != ""
    case Stop(_, t) => t != ""
  }

  function Outcome(s: Store, call: Call, elapsed: (string, string) -> Option<int>): Result<Store, Error> {
    match call
    case Start(c, e, t, id) => Started(s, c, e, t, id)
    case SaveNotes(id, notes, t) => Noted(s, id, notes, t)
    case Stop(id, t) => Stopped(s, id, t, elapsed)
  }

  /** A call that raises changes nothing. */
  function After(s: Store, call: Call, elapsed: (string, string) -> Option<int>): Store {
    match Outcome(s, call, elapsed) case Ok(t) => t case Err(_) => s
  }

  function Run(s: Store, calls: seq<Call>, elapsed: (string, string) -> Option<int>): Store {
    if calls == [] then s else After(Run(s, calls[..|calls| - 1], elapsed), calls[|calls| - 1], elapsed)
  }

  /** Rows are never lost or reordered; the times of an ended one are final, and
      names and start of every one. */
  predicate Grows(a: Store, b: Store) {
    && |a.rows| <= |b.rows| && a.events <= b.events
    && forall i :: 0 <= i < |a.rows| ==>
         && b.rows[i].id == a.rows[i].id && b.rows[i].started == a.rows[i].started
         && b.rows[i].contractor == a.rows[i].contractor && b.rows[i].engagement == a.rows[i].engagement
         && (a.rows[i].ended != "" ==> b.rows[i].ended == a.rows[i].ended && b.rows[i].seconds == a.rows[i].seconds)
  }

  lemma RowKeeps(s: Store, i: nat, row: Entry, event: Event)
    requires Sound(s) && i < |s.rows|
    requires row.id == s.rows[i].id && row.started == s.rows[i].started && row.contractor == s.rows[i].contractor && row.engagement == s.rows[i].engagement
    requires row.seconds >= 0 && (row.ended == "" ==> row.seconds == 0) && (s.rows[i].ended != "" ==> row.ended == s.rows[i].ended && row.seconds == s.rows[i].seconds)
    ensures var t := Store(s.rows[i := row], s.events + [event]);
            Sound(t) && Grows(s, t)
  {}

  lemma StartKeeps(s: Store, contractor: string, engagement: string, now: string, id: string)
    requires Sound(s) && Started(s, contractor, engagement, now, id).Ok?
    ensures var t := Started(s, contractor, engagement, now, id).value;
            Sound(t) && Grows(s, t)
  {}

  lemma StopKeeps(s: Store, id: string, now: string, elapsed: (string, string) -> Option<int>)
    requires Sound(s) && now != "" && Stopped(s, id, now, elapsed).Ok?
    ensures var t := Stopped(s, id, now, elapsed).value;
            Sound(t) && Grows(s, t)
  {
    var i := Find(s.rows, id).value;
    var row := s.rows[i];
    if row.ended == "" {
      RowKeeps(s, i, row.(ended := now, seconds := Duration(elapsed(row.started, now).value), updated := now), Event(TimerStopped, id, now));
    }
  }

  lemma CallKeeps(s: Store, call: Call, elapsed: (string, string) -> Option<int>)
    requires Sound(s) && Timed(call)
    ensures Sound(After(s, call, elapsed)) && Grows(s, After(s, call, elapsed))
  {
    match call
    case Start(c, e, t, id) => if Started(s, c, e, t, id).Ok? { StartKeeps(s, c, e, t, id); }
    case SaveNotes(id, notes, t) =>
      if Find(s.rows, id).Some? {
        var i := Find(s.rows, id).value;
        RowKeeps(s, i, s.rows[i].(notes := notes, updated := t), Event(NotesSaved, id, t));
      }
    case Stop(id, t) => if Stopped(s, id, t, elapsed).Ok? { StopKeeps(s, id, t, elapsed); }
  }

  /** Over every run at most one entry runs, and nothing recorded is lost. */
  lemma {:induction false} EveryRunIsSound(s: Store, calls: seq<Call>, elapsed: (string, string) -> Option<int>)
    requires Sound(s) && forall i :: 0 <= i < |calls| ==> Timed(calls[i])
    ensures Sound(Run(s, calls, elapsed)) && Grows(s, Run(s, calls, elapsed))
  {
    if calls != [] {
      var n := |calls| - 1;
      EveryRunIsSound(s, calls[..n], elapsed);
      CallKeeps(Run(s, calls[..n], elapsed), calls[n], elapsed);
    }
  }

  /** Stopping twice is stopping once. */
  lemma StopIsIdempotent(s: Store, id: string, now: string, later: string, elapsed: (string, string) -> Option<int>)
    requires Sound(s) && now != "" && Stopped(s, id, now, elapsed).Ok?
    ensures Stopped(Stopped(s, id, now, elapsed).value, id, later, elapsed) == Ok(Stopped(s, id, now, elapsed).value)
  {
    FindIsTheRow(s, id);
    var t := Stopped(s, id, now, elapsed).value;
    CallKeeps(s, Stop(id, now), elapsed);
    FindIsTheRow(t, id);
  }

  lemma {:induction false} FindAt(rows: seq<Entry>, id: string, i: nat)
    requires i < |rows| && rows[i].id == id && forall j, k :: 0 <= j < k < |rows| ==> rows[j].id != rows[k].id
    ensures Find(rows, id) == Some(i)
  {
    var n := |rows| - 1;
    if i < n { FindAt(rows[..n], id, i); }
  }

  lemma FindIsTheRow(s: Store, id: string)
    requires Sound(s)
    ensures forall i :: 0 <= i < |s.rows| && s.rows[i].id == id ==> Find(s.rows, id) == Some(i)
  {
    forall i | 0 <= i < |s.rows| && s.rows[i].id == id ensures Find(s.rows, id) == Some(i) {
      FindAt(s.rows, id, i);
    }
  }

  // ---------- when the timer can be stopped ----------

  /** No reading of the entry's start gives a duration. */
  ghost predicate Unreadable(started: string, elapsed: (string, string) -> Option<int>) {
    forall now :: elapsed(started, now) == None
  }

  /** The running entry at i can be stopped by some later call exactly when its
      start can be read against some time. */
  lemma CanStopIff(s: Store, i: nat, elapsed: (string, string) -> Option<int>)
    requires Sound(s) && i < |s.rows| && s.rows[i].ended == ""
    ensures (exists now :: Stopped(s, s.rows[i].id, now, elapsed).Ok?) <==> !Unreadable(s.rows[i].started, elapsed)
  {
    FindAt(s.rows, s.rows[i].id, i);
    forall now ensures Stopped(s, s.rows[i].id, now, elapsed).Ok? <==> elapsed(s.rows[i].started, now).Some? {}
  }

  /** An entry started at an unreadable time runs for ever and keeps every other
      entry from being started: `start` accepts any text as a time. */
  lemma {:induction false} UnreadableStartBlocks(s: Store, i: nat, calls: seq<Call>, elapsed: (string, string) -> Option<int>)
    requires Sound(s) && i < |s.rows| && s.rows[i].ended == "" && Unreadable(s.rows[i].started, elapsed)
    requires forall k :: 0 <= k < |calls| ==> Timed(calls[k])
    ensures var t := Run(s, calls, elapsed);
            && |t.rows| == |s.rows| && t.rows[i].ended == ""
            && forall c, e, now, id :: Started(t, c, e, now, id) == Err(AlreadyRunning)
  {
    EveryRunIsSound(s, calls, elapsed);
    if calls != [] {
      var n := |calls| - 1;
      UnreadableStartBlocks(s, i, calls[..n], elapsed);
      EveryRunIsSound(s, calls[..n], elapsed);
      OneMoreCallBlocked(Run(s, calls[..n], elapsed), i, calls[n], elapsed);
    }
  }

  /** So a successful `start` at an unreadable time is the last one ever. */
  lemma UnreadableStartIsTheLast(s: Store, contractor: string, engagement: string, now: string, id: string, calls: seq<Call>, elapsed: (string, string) -> Option<int>)
    requires Sound(s) && now != "" && Started(s, contractor, engagement, now, id).Ok? && Unreadable(now, elapsed)
    requires forall k :: 0 <= k < |calls| ==> Timed(calls[k])
    ensures var t := Run(Started(s, contractor, engagement, now, id).value, calls, elapsed);
            && |t.rows| == |s.rows| + 1 && t.rows[|s.rows|].ended == ""
            && forall c, e, later, other :: Started(t, c, e, later, other) == Err(AlreadyRunning)
  {
    StartKeeps(s, contractor, engagement, now, id);
    UnreadableStartBlocks(Started(s, contractor, engagement, now, id).value, |s.rows|, calls, elapsed);
  }

  lemma OneMoreCallBlocked(s: Store, i: nat, call: Call, elapsed: (string, string) -> Option<int>)
    requires Sound(s) && i < |s.rows| && s.rows[i].ended == "" && Unreadable(s.rows[i].started, elapsed)
    ensures var t := After(s, call, elapsed);
            |t.rows| == |s.rows| && t.rows[i].ended == ""
  {
    FindIsTheRow(s, s.rows[i].id);
  }

  // ---------- billed time ----------

  function Billed(rows: seq<Entry>): int {
    if rows == [] then 0 else Billed(rows[..|rows| - 1]) + rows[|rows| - 1].seconds
  }

  lemma {:induction false} BilledUpdate(rows: seq<Entry>, i: nat, row: Entry)
    requires i < |rows|
    ensures Billed(rows[i := row]) == Billed(rows) - rows[i].seconds + row.seconds
  {
    var n := |rows| - 1;
    if i == n {
      assert rows[i := row][..n] == rows[..n];
    } else {
      assert rows[i := row][..n] == rows[..n][i := row];
      BilledUpdate(rows[..n], i, row);
    }
  }

  /** Stopping a running entry bills the time it ran, to the nearest second. */
  lemma StopBills(s: Store, i: nat, now: string, elapsed: (string, string) -> Option<int>)
    requires Sound(s) && i < |s.rows| && s.rows[i].ended == "" && now != "" && elapsed(s.rows[i].started, now).Some?
    ensures NearestSeconds(elapsed(s.rows[i].started, now).value, Billed(After(s, Stop(s.rows[i].id, now), elapsed).rows) - Billed(s.rows))
  {
    FindIsTheRow(s, s.rows[i].id);
    var row, between := s.rows[i], elapsed(s.rows[i].started, now).value;
    BilledUpdate(s.rows, i, row.(ended := now, seconds := Duration(between), updated := now));
    DurationIsNearest(between);
  }

  /** Stopping the running entry now is worth so many seconds. */
  predicate Bills(row: Entry, now: string, seconds: int, elapsed: (string, string) -> Option<int>) {
    && row.ended == "" && elapsed(row.started, now).Some?
    && 2 * elapsed(row.started, now).value - 1000000 <= 2000000 * seconds <= 2 * elapsed(row.started, now).value + 1000000
  }

  /** Only stopping a running entry bills time: the whole seconds from its start
      to its end, to the nearest, and nothing when the end is before the start. */
  lemma OnlyStoppingBills(s: Store, call: Call, elapsed: (string, string) -> Option<int>)
    requires Sound(s) && Timed(call)
    ensures var more := Billed(After(s, call, elapsed).rows) - Billed(s.rows);
            && more >= 0
            && (more > 0 ==> call.Stop? && (exists i :: 0 <= i < |s.rows| && s.rows[i].id == call.stopId && Bills(s.rows[i], call.stopTime, more, elapsed)))
  {
    match call
    case Start(c, e, t, id) =>
      var row := Entry(id, Clean(c, 300), Clean(e, 300), t, "", 0, [], t);
      assert (s.rows + [row])[..|s.rows|] == s.rows;
    case SaveNotes(id, notes, t) =>
      var found := Find(s.rows, id);
      if found.Some? { BilledUpdate(s.rows, found.value, s.rows[found.value].(notes := notes, updated := t)); }
    case Stop(id, t) =>
      var found := Find(s.rows, id);
      if found.Some? {
        var row := s.rows[found.value];
        var between := elapsed(row.started, t);
        if row.ended == "" && between.Some? {
          BilledUpdate(s.rows, found.value, row.(ended := t, seconds := Duration(between.value), updated := t));
          RoundIsNear(between.value, 1000000);
        }
      }
  }
}
