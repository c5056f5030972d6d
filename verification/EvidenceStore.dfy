/**
 * Content-addressed evidence snapshots, the triggers that guard them, and the transactions that
 * write and purge them (app/agents/evidence.py, app/database/repository.py).
 */
module EvidenceStore {
  import opened Options
  import opened Tables

  type CaseId = nat
  type AnalysisId = nat

  datatype Kind = Evidence | Flows

  /** One stored row; `size` is the length of its canonical text in bytes. */
  datatype Record = Record(tag: string, value: string, protocol: string, source: string, destination: string,
                           time: Option<real>, size: nat)

  /** What is captured of an analysis. */
  datatype Analysis = Analysis(id: AnalysisId, caseId: CaseId, iocs: set<string>, manifest: nat,
                               evidence: seq<Record>, flows: seq<Record>)

  /** The digest over manifest and rows, as an injective name. */
  datatype SnapshotId = Digest(analysis: AnalysisId, caseId: CaseId, manifest: nat, evidence: seq<Record>, flows: seq<Record>)

  datatype SnapshotKey = SnapshotKey(analysis: AnalysisId, snapshot: SnapshotId)
  datatype RecordKey = RecordKey(owner: SnapshotKey, kind: Kind, position: nat)
  datatype Snapshot = Snapshot(caseId: CaseId, manifest: nat)
  datatype Note = Note(caseId: Option<CaseId>, analysis: Option<AnalysisId>)

  datatype Db = Db(
    cases: set<CaseId>,
    analyses: map<AnalysisId, CaseId>,
    iocs: set<(AnalysisId, string)>,
    notes: map<nat, Note>,
    tags: set<(CaseId, nat)>,
    jobs: map<nat, CaseId>,
    snapshots: map<SnapshotKey, Snapshot>,
    order: seq<SnapshotKey>,
    records: Rows,
    retries: map<nat, Option<CaseId>>
  )

  datatype Outcome = Committed(db: Db) | Aborted

  /* ---------- Statements, each with its trigger ---------- */

  function DeleteSnapshots(db: Db, gone: set<SnapshotKey>): Outcome {
    if exists k | k in gone && k in db.snapshots :: db.snapshots[k].caseId in db.cases then Aborted
    else Committed(db.(snapshots := db.snapshots - gone, order := Kept(db.order, gone)))
  }

  function DeleteRecords(db: Db, gone: set<RecordKey>): Outcome {
    if exists r | r in gone && r in db.records :: r.owner in db.snapshots && db.snapshots[r.owner].caseId in db.cases
    then Aborted
    else Committed(db.(records := db.records - gone))
  }

  /** Updates of evidence abort whenever they would touch a row; without the trigger they would overwrite it. */
  function UpdateSnapshots(db: Db, touched: set<SnapshotKey>, value: Snapshot): Outcome {
    if exists k | k in touched :: k in db.snapshots then Aborted
    else Committed(db.(snapshots := map k | k in db.snapshots :: if k in touched then value else db.snapshots[k]))
  }

  function UpdateRecords(db: Db, touched: set<RecordKey>, value: Record): Outcome {
    if exists r | r in touched :: r in db.records then Aborted
    else Committed(db.(records := map r | r in db.records :: if r in touched then value else db.records[r]))
  }

  /** A row of the same snapshot, of either kind. */
  datatype Place = Place(kind: Kind, position: nat)

  /** The rows a new row clashes with: the one at its place, and the one that has its identifier already. */
  function Clashes(db: Db, r: RecordKey, twin: Option<Place>): set<RecordKey> {
    set x | x in Wanted(r, twin) && x in db.records
  }

  function Wanted(r: RecordKey, twin: Option<Place>): set<RecordKey> {
    if twin.None? then {r} else {r, RecordKey(r.owner, twin.value.kind, twin.value.position)}
  }

  function InsertSnapshot(db: Db, k: SnapshotKey, value: Snapshot): Outcome {
    if k in db.snapshots then Aborted
    else Committed(db.(snapshots := db.snapshots[k := value], order := db.order + [k]))
  }

  function InsertRecord(db: Db, r: RecordKey, value: Record, twin: Option<Place>): Outcome {
    if Clashes(db, r, twin) != {} then Aborted else Committed(db.(records := db.records[r := value]))
  }

  /** REPLACE deletes what it clashes with; SQLite fires delete triggers for that only with `recursive_triggers` on. */
  function ReplaceSnapshot(db: Db, k: SnapshotKey, value: Snapshot, recursive: bool): Outcome {
    if recursive && DeleteSnapshots(db, {k}).Aborted? then Aborted
    else Committed(db.(snapshots := db.snapshots[k := value], order := Kept(db.order, {k}) + [k]))
  }

  function ReplaceRecord(db: Db, r: RecordKey, value: Record, twin: Option<Place>, recursive: bool): Outcome {
    if recursive && DeleteRecords(db, Clashes(db, r, twin)).Aborted? then Aborted
    else Committed(db.(records := (db.records - Clashes(db, r, twin))[r := value]))
  }

  function Kept(order: seq<SnapshotKey>, gone: set<SnapshotKey>): seq<SnapshotKey> {
    if order == [] then []
    else (if order[0] in gone then [] else [order[0]]) + Kept(order[1..], gone)
  }

  /* ---------- Transactions ---------- */

  function Name(a: Analysis): SnapshotId { Digest(a.id, a.caseId, a.manifest, a.evidence, a.flows) }

  function Content(id: SnapshotId, kind: Kind): seq<Record> { if kind.Evidence? then id.evidence else id.flows }

  type Rows = map<RecordKey, Record>

  function FirstRows(k: SnapshotKey, kind: Kind, n: nat): Rows
    requires n <= |Content(k.snapshot, kind)|
  {
    map i | 0 <= i < n :: RecordKey(k, kind, i) := Content(k.snapshot, kind)[i]
  }

  function KindRows(k: SnapshotKey, kind: Kind): Rows { FirstRows(k, kind, |Content(k.snapshot, kind)|) }

  function RowsOf(k: SnapshotKey): Rows { KindRows(k, Evidence) + KindRows(k, Flows) }

  lemma PutLast(rows: Rows, more: Rows, r: RecordKey, value: Record)
    ensures (rows + more)[r := value] == rows + more[r := value]
  {}

  lemma NextRow(rows: Rows, k: SnapshotKey, kind: Kind, n: nat)
    requires n < |Content(k.snapshot, kind)|
    ensures (rows + FirstRows(k, kind, n))[RecordKey(k, kind, n) := Content(k.snapshot, kind)[n]]
         == rows + FirstRows(k, kind, n + 1)
  {
    var r, value := RecordKey(k, kind, n), Content(k.snapshot, kind)[n];
    PutLast(rows, FirstRows(k, kind, n), r, value);
    assert FirstRows(k, kind, n)[r := value] == FirstRows(k, kind, n + 1);
  }

  lemma RowsTogether(rows: Rows, a: Rows, b: Rows)
    ensures (rows + a) + b == rows + (a + b)
  {}

  function Capture(db: Db, a: Analysis): Db {
    var k := SnapshotKey(a.id, Name(a));
    if k in db.snapshots then db
    else db.(snapshots := db.snapshots[k := Snapshot(a.caseId, a.manifest)],
             order := db.order + [k],
             records := db.records + RowsOf(k))
  }

  function Save(db: Db, a: Analysis): Db {
    Capture(
      db.(analyses := db.analyses[a.id := a.caseId],
          iocs := (set p | p in db.iocs && p.0 != a.id) + (set v | v in a.iocs :: (a.id, v))),
      a)
  }

  /**
   * What saving an analysis leaves in each table: its row and its indicators are what it says now, its content has a
   * snapshot with all rows of both kinds, and everything else is as it was.
   */
  ghost predicate Replaced(before: Db, after: Db, a: Analysis) {
    && RowReplaced(before.analyses, after.analyses, a)
    && (forall p :: p in after.iocs <==> if p.0 == a.id then p.1 in a.iocs else p in before.iocs)
    && Snapped(before, after, a)
    && after.cases == before.cases && after.notes == before.notes && after.tags == before.tags
    && after.jobs == before.jobs && after.retries == before.retries
  }

  ghost predicate RowReplaced(before: map<AnalysisId, CaseId>, after: map<AnalysisId, CaseId>, a: Analysis) {
    && (forall x :: x in after <==> x == a.id || x in before)
    && forall x | x in after :: after[x] == if x == a.id then a.caseId else before[x]
  }

  /** The snapshot of the content and its rows are there, new or as before; nothing else is. */
  ghost predicate Snapped(before: Db, after: Db, a: Analysis) {
    var k := SnapshotKey(a.id, Name(a));
    if k in before.snapshots then
      after.snapshots == before.snapshots && after.records == before.records && after.order == before.order
    else
      && after.snapshots == before.snapshots[k := Snapshot(a.caseId, a.manifest)] && after.order == before.order + [k]
      && (forall i | 0 <= i < |a.evidence| :: Holds(after.records, RecordKey(k, Evidence, i), a.evidence[i]))
      && (forall i | 0 <= i < |a.flows| :: Holds(after.records, RecordKey(k, Flows, i), a.flows[i]))
      && (forall r: RecordKey | r.owner != k :: r in after.records <==> r in before.records)
      && (forall r: RecordKey | r.owner != k && r in before.records :: after.records[r] == before.records[r])
  }

  predicate Holds(records: Rows, r: RecordKey, value: Record) { r in records && records[r] == value }

  lemma SaveReplaces(db: Db, a: Analysis)
    ensures Replaced(db, Save(db, a), a)
  {
    var after := Save(db, a);
    forall p ensures p in after.iocs <==> if p.0 == a.id then p.1 in a.iocs else p in db.iocs {
      if p.0 == a.id && p.1 in a.iocs { assert (a.id, p.1) == p; }
    }
    CaptureSnaps(db.(analyses := after.analyses, iocs := after.iocs), a);
  }

  /** A capture adds the snapshot of its content and that snapshot's rows, unless it is there already. */
  lemma CaptureSnaps(db: Db, a: Analysis)
    ensures Snapped(db, Capture(db, a), a)
  {
    var k := SnapshotKey(a.id, Name(a));
    RowsPlaced(k, Evidence);
    RowsPlaced(k, Flows);
  }

  lemma RowsPlaced(k: SnapshotKey, kind: Kind)
    ensures forall i | 0 <= i < |Content(k.snapshot, kind)| ::
              Holds(RowsOf(k), RecordKey(k, kind, i), Content(k.snapshot, kind)[i])
    ensures forall r | r in RowsOf(k) :: r.owner == k
  {}

  /** Everything of a case, in every table. */
  function Purged(db: Db, c: CaseId): Db {
    var mine := set a | a in db.analyses && db.analyses[a] == c;
    var snaps := set k | k in db.snapshots && db.snapshots[k].caseId == c;
    Db(
      db.cases - {c},
      db.analyses - mine,
      set p | p in db.iocs && p.0 !in mine,
      map n | n in db.notes && db.notes[n].caseId != Some(c)
              && !(db.notes[n].analysis.Some? && db.notes[n].analysis.value in mine) :: db.notes[n],
      set t | t in db.tags && t.0 != c,
      map j | j in db.jobs && db.jobs[j] != c :: db.jobs[j],
      db.snapshots - snaps,
      Kept(db.order, snaps),
      map r | r in db.records && r.owner !in snaps :: db.records[r],
      map x | x in db.retries && db.retries[x] != Some(c) :: db.retries[x])
  }

  class Repository {
    var db: Db

    method SaveAnalysis(a: Analysis)
      modifies this
      ensures db == Save(old(db), a) && Replaced(old(db), db, a)
    {
      var work := db;
      work := work.(analyses := work.analyses[a.id := a.caseId]);
      work := work.(iocs := set p | p in work.iocs && p.0 != a.id);
      work := work.(iocs := work.iocs + set v | v in a.iocs :: (a.id, v));
      var k := SnapshotKey(a.id, Name(a));
      assert work == db.(analyses := work.analyses, iocs := work.iocs);
      if k !in work.snapshots {
        work := work.(snapshots := work.snapshots[k := Snapshot(a.caseId, a.manifest)], order := work.order + [k]);
        ghost var rows := work.records;
        work := InsertRows(work, k, Evidence);
        work := InsertRows(work, k, Flows);
        RowsTogether(rows, KindRows(k, Evidence), KindRows(k, Flows));
      }
      db := work;
      SaveReplaces(old(db), a);
    }

    static method InsertRows(work: Db, k: SnapshotKey, kind: Kind) returns (r: Db)
      ensures r == work.(records := work.records + KindRows(k, kind))
    {
      var rows := Content(k.snapshot, kind);
      var records := work.records;
      for i := 0 to |rows|
        invariant records == work.records + FirstRows(k, kind, i)
      {
        NextRow(work.records, k, kind, i);
        records := records[RecordKey(k, kind, i) := rows[i]];
      }
      r := work.(records := records);
    }

    /** One transaction in this statement order; a trigger that fires rolls all of it back. */
    method DeleteCase(c: CaseId) returns (deleted: bool)
      modifies this
      ensures deleted <==> c in old(db).cases
      ensures db == Purged(old(db), c)
    {
      var work := db;
      var mine := set a | a in work.analyses && work.analyses[a] == c;
      work := work.(iocs := set p | p in work.iocs && p.0 !in mine);
      work := work.(notes := map n | n in work.notes && work.notes[n].caseId != Some(c)
        && !(work.notes[n].analysis.Some? && work.notes[n].analysis.value in mine) :: work.notes[n]);
      work := work.(analyses := work.analyses - mine);
      work := work.(tags := set t | t in work.tags && t.0 != c);
      work := work.(jobs := map j | j in work.jobs && work.jobs[j] != c :: work.jobs[j]);
      var existed := c in work.cases;
      work := work.(cases := work.cases - {c});
      var snaps := set k | k in work.snapshots && work.snapshots[k].caseId == c;
      match DeleteRecords(work, set r | r in work.records && r.owner in snaps) {
        case Aborted => return false;
        case Committed(next) => work := next;
      }
      match DeleteSnapshots(work, snaps) {
        case Aborted => return false;
        case Committed(next) => work := next;
      }
      work := work.(retries := map x | x in work.retries && work.retries[x] != Some(c) :: work.retries[x]);
      db := work;
      assert db.records == Purged(old(db), c).records;
      return existed;
    }
  }

  /* ---------- Runs of the program's transactions ---------- */

  datatype Op =
    | OpenCase(c: CaseId)
    | AddNote(n: nat, note: Note)
    | AddTag(c: CaseId, t: nat)
    | AddJob(j: nat, c: CaseId)
    | SaveOp(a: Analysis)
    | CaptureOp(a: Analysis)
    | DeleteOp(c: CaseId)
    | DropOrphans
    | ClearAll

  predicate Orphaned(note: Note, lost: set<AnalysisId>, cases: set<CaseId>) {
    (note.analysis.Some? && note.analysis.value in lost) || (note.caseId.Some? && note.caseId.value !in cases)
  }

  function Apply(db: Db, op: Op): Db {
    match op
    case OpenCase(c) => db.(cases := db.cases + {c})
    case AddNote(n, note) => db.(notes := db.notes[n := note])
    case AddTag(c, t) => db.(tags := db.tags + {(c, t)})
    case AddJob(j, c) => db.(jobs := db.jobs[j := c])
    case SaveOp(a) => Save(db, a)
    case CaptureOp(a) => Capture(db, a)
    case DeleteOp(c) => Purged(db, c)
    case DropOrphans =>
      var lost := set a | a in db.analyses && db.analyses[a] !in db.cases;
      db.(analyses := db.analyses - lost,
          iocs := (set p | p in db.iocs && p.0 !in lost),
          notes := map n | n in db.notes && !Orphaned(db.notes[n], lost, db.cases) :: db.notes[n],
          tags := (set t | t in db.tags && t.0 in db.cases),
          jobs := map j | j in db.jobs && db.jobs[j] in db.cases :: db.jobs[j])
    case ClearAll => EMPTY
  }

  function Run(db: Db, ops: seq<Op>): Db
    decreases |ops|
  {
    if ops == [] then db else Run(Apply(db, ops[0]), ops[1..])
  }

  /** A run takes its transactions one after the other. */
  lemma {:induction false} RunGoesOn(db: Db, ops: seq<Op>, op: Op)
    ensures Run(db, ops + [op]) == Apply(Run(db, ops), op)
    decreases |ops|
  {
    if ops == [] {
      assert [] + [op] == [op] && [op][1..] == [];
      assert Run(Apply(db, op), []) == Apply(db, op);
    } else {
      assert (ops + [op])[1..] == ops[1..] + [op];
      RunGoesOn(Apply(db, ops[0]), ops[1..], op);
    }
  }

  type Snapshots = map<SnapshotKey, Snapshot>

  predicate Sound(k: SnapshotKey, s: Snapshot) {
    k.snapshot.analysis == k.analysis && k.snapshot.caseId == s.caseId && k.snapshot.manifest == s.manifest
  }

  function StoredIn(records: Rows, k: SnapshotKey): Rows {
    map r | r in records && r.owner == k :: records[r]
  }

  function Stored(db: Db, k: SnapshotKey): Rows { StoredIn(db.records, k) }

  ghost predicate Listed(snapshots: Snapshots, order: seq<SnapshotKey>) {
    forall k :: k in snapshots <==> k in order
  }

  /** The rows of a snapshot are exactly the content its digest names. */
  ghost predicate Filled(snapshots: Snapshots, records: Rows) {
    && (forall k | k in snapshots :: Sound(k, snapshots[k]) && StoredIn(records, k) == RowsOf(k))
    && (forall r | r in records :: r.owner in snapshots)
  }

  /** Indicators belong to saved analyses. */
  ghost predicate Attached(iocs: set<(AnalysisId, string)>, analyses: map<AnalysisId, CaseId>) {
    forall p | p in iocs :: p.0 in analyses
  }

  ghost predicate Consistent(db: Db) {
    Listed(db.snapshots, db.order) && Filled(db.snapshots, db.records) && Attached(db.iocs, db.analyses)
  }

  lemma {:induction false} KeptExactly(order: seq<SnapshotKey>, gone: set<SnapshotKey>, k: SnapshotKey)
    ensures k in Kept(order, gone) <==> k in order && k !in gone
  {
    if order != [] { KeptExactly(order[1..], gone, k); }
  }

  /** What a deletion leaves keeps its order, on which the latest snapshot of an analysis depends. */
  lemma {:induction false} KeptInOrder(a: seq<SnapshotKey>, b: seq<SnapshotKey>, gone: set<SnapshotKey>)
    ensures Kept(a + b, gone) == Kept(a, gone) + Kept(b, gone)
  {
    if a == [] {
      assert a + b == b;
    } else {
      assert (a + b)[1..] == a[1..] + b;
      KeptInOrder(a[1..], b, gone);
    }
  }

  lemma FilledOneMore(snapshots: Snapshots, records: Rows, k: SnapshotKey, s: Snapshot)
    requires Filled(snapshots, records) && k !in snapshots && Sound(k, s)
    ensures Filled(snapshots[k := s], records + RowsOf(k))
  {
    RowsOwned(k);
    FilledWith(snapshots, records, RowsOf(k), k, s);
  }

  lemma FilledWith(snapshots: Snapshots, records: Rows, rows: Rows, k: SnapshotKey, s: Snapshot)
    requires Filled(snapshots, records) && k !in snapshots && Sound(k, s)
    requires rows == RowsOf(k) && forall r | r in rows :: r.owner == k
    ensures Filled(snapshots[k := s], records + rows)
  {
    StoredMore(records, rows, k);
    forall other | other in snapshots ensures StoredIn(records + rows, other) == StoredIn(records, other) {
    }
  }

  lemma StoredMore(records: Rows, rows: Rows, k: SnapshotKey)
    requires (forall r | r in rows :: r.owner == k) && forall r | r in records :: r.owner != k
    ensures StoredIn(records + rows, k) == rows
    ensures forall other | other != k :: StoredIn(records + rows, other) == StoredIn(records, other)
  {}

  lemma CaptureConsistent(db: Db, a: Analysis)
    requires Consistent(db)
    ensures Consistent(Capture(db, a))
  {
    var k := SnapshotKey(a.id, Name(a));
    if k !in db.snapshots { FilledOneMore(db.snapshots, db.records, k, Snapshot(a.caseId, a.manifest)); }
  }

  lemma PurgeConsistent(db: Db, c: CaseId)
    requires Consistent(db)
    ensures Consistent(Purged(db, c))
  {
    var v := Purged(db, c);
    var snaps := set k | k in db.snapshots && db.snapshots[k].caseId == c;
    forall k ensures k in v.snapshots <==> k in v.order {
      KeptExactly(db.order, snaps, k);
    }
    FilledLess(db.snapshots, db.records, snaps);
  }

  lemma FilledLess(snapshots: Snapshots, records: Rows, gone: set<SnapshotKey>)
    requires Filled(snapshots, records)
    ensures Filled(snapshots - gone, map r | r in records && r.owner !in gone :: records[r])
  {
    var less := map r | r in records && r.owner !in gone :: records[r];
    forall k | k in snapshots && k !in gone ensures StoredIn(less, k) == StoredIn(records, k) {}
  }

  lemma SaveConsistent(db: Db, a: Analysis)
    requires Consistent(db)
    ensures Consistent(Save(db, a))
  {
    var iocs := (set p | p in db.iocs && p.0 != a.id) + (set v | v in a.iocs :: (a.id, v));
    CaptureConsistent(db.(analyses := db.analyses[a.id := a.caseId], iocs := iocs), a);
  }

  lemma StepConsistent(db: Db, op: Op)
    requires Consistent(db)
    ensures Consistent(Apply(db, op))
  {
    match op
    case SaveOp(a) => SaveConsistent(db, a);
    case CaptureOp(a) => CaptureConsistent(db, a);
    case DeleteOp(c) => PurgeConsistent(db, c);
    case _ =>
  }

  lemma {:induction false} RunConsistent(db: Db, ops: seq<Op>)
    requires Consistent(db)
    ensures Consistent(Run(db, ops))
    decreases |ops|
  {
    if ops != [] {
      StepConsistent(db, ops[0]);
      RunConsistent(Apply(db, ops[0]), ops[1..]);
    }
  }

  const EMPTY := Db({}, map[], {}, map[], {}, map[], map[], [], map[], map[])

  /** So every database the program can produce is consistent. */
  lemma ReachableIsConsistent(ops: seq<Op>)
    ensures Consistent(Run(EMPTY, ops))
  {
    RunConsistent(EMPTY, ops);
  }

  /* ---------- Immutability, and what the triggers do not catch ---------- */

  /** A transaction of the program, or a statement of any other client on the two evidence tables. */
  datatype Act =
    | Program(op: Op)
    | DeleteSnapshotRows(snaps: set<SnapshotKey>)
    | DeleteRecordRows(rows: set<RecordKey>)
    | UpdateSnapshotRows(snaps: set<SnapshotKey>, snapshot: Snapshot)
    | UpdateRecordRows(rows: set<RecordKey>, record: Record)
    | InsertSnapshotRow(k: SnapshotKey, snapshot: Snapshot)
    | InsertRecordRow(r: RecordKey, record: Record, twin: Option<Place>)
    | ReplaceSnapshotRow(k: SnapshotKey, snapshot: Snapshot, recursive: bool)
    | ReplaceRecordRow(r: RecordKey, record: Record, twin: Option<Place>, recursive: bool)

  function Settled(db: Db, outcome: Outcome): Db { if outcome.Committed? then outcome.db else db }

  function Execute(db: Db, act: Act): Db {
    match act
    case Program(op) => Apply(db, op)
    case DeleteSnapshotRows(snaps) => Settled(db, DeleteSnapshots(db, snaps))
    case DeleteRecordRows(rows) => Settled(db, DeleteRecords(db, rows))
    case UpdateSnapshotRows(snaps, value) => Settled(db, UpdateSnapshots(db, snaps, value))
    case UpdateRecordRows(rows, value) => Settled(db, UpdateRecords(db, rows, value))
    case InsertSnapshotRow(k, value) => Settled(db, InsertSnapshot(db, k, value))
    case InsertRecordRow(r, value, twin) => Settled(db, InsertRecord(db, r, value, twin))
    case ReplaceSnapshotRow(k, value, recursive) => Settled(db, ReplaceSnapshot(db, k, value, recursive))
    case ReplaceRecordRow(r, value, twin, recursive) => Settled(db, ReplaceRecord(db, r, value, twin, recursive))
  }

  function RunActs(db: Db, acts: seq<Act>): Db
    decreases |acts|
  {
    if acts == [] then db else RunActs(Execute(db, acts[0]), acts[1..])
  }

  lemma {:induction false} ActsGoOn(db: Db, acts: seq<Act>, act: Act)
    ensures RunActs(db, acts + [act]) == Execute(RunActs(db, acts), act)
    decreases |acts|
  {
    if acts == [] {
      assert [] + [act] == [act] && [act][1..] == [];
      assert RunActs(Execute(db, act), []) == Execute(db, act);
    } else {
      assert (acts + [act])[1..] == acts[1..] + [act];
      ActsGoOn(Execute(db, acts[0]), acts[1..], act);
    }
  }

  /** The snapshot has its manifest and every record it had; it may have more. */
  ghost predicate Keeps(before: Db, after: Db, k: SnapshotKey)
    requires k in before.snapshots
  {
    && k in after.snapshots && after.snapshots[k] == before.snapshots[k]
    && forall r | r in before.records && r.owner == k :: r in after.records && after.records[r] == before.records[r]
  }

  /** The snapshot is what it was, no more and no less. */
  ghost predicate Same(before: Db, after: Db, k: SnapshotKey)
    requires k in before.snapshots
  {
    k in after.snapshots && after.snapshots[k] == before.snapshots[k] && Stored(after, k) == Stored(before, k)
  }

  /** A REPLACE that meets other content under one of the snapshot's own keys, on a connection without the pragma. */
  predicate Rewrites(db: Db, act: Act, k: SnapshotKey) {
    match act
    case ReplaceSnapshotRow(x, value, recursive) => !recursive && x == k && x in db.snapshots && db.snapshots[x] != value
    case ReplaceRecordRow(r, value, twin, recursive) =>
      !recursive && r.owner == k && exists x | x in Clashes(db, r, twin) :: x != r || db.records[x] != value
    case _ => false
  }

  /** A row inserted at a free place of the snapshot. */
  predicate Extends(db: Db, act: Act, k: SnapshotKey) {
    match act
    case InsertRecordRow(r, _, twin) => r.owner == k && Clashes(db, r, twin) == {}
    case ReplaceRecordRow(r, _, twin, _) => r.owner == k && Clashes(db, r, twin) == {}
    case _ => false
  }

  /** The case row is there before the run and after each of its transactions. */
  ghost predicate Throughout(db: Db, acts: seq<Act>, c: CaseId)
    decreases |acts|
  {
    c in db.cases && (acts != [] ==> Throughout(Execute(db, acts[0]), acts[1..], c))
  }

  lemma RowsOwned(k: SnapshotKey)
    ensures forall r | r in RowsOf(k) :: r.owner == k
  {
  }

  lemma StoredApart(records: Rows, rows: Rows, k: SnapshotKey)
    requires forall r | r in rows :: r.owner != k
    ensures StoredIn(records + rows, k) == StoredIn(records, k)
  {
  }

  lemma CaptureKeeps(db: Db, a: Analysis, k: SnapshotKey)
    requires k in db.snapshots
    ensures k in Capture(db, a).snapshots && Capture(db, a).snapshots[k] == db.snapshots[k]
    ensures Stored(Capture(db, a), k) == Stored(db, k)
  {
    var captured := SnapshotKey(a.id, Name(a));
    if captured !in db.snapshots {
      RowsOwned(captured);
      StoredApart(db.records, RowsOf(captured), k);
    }
  }

  lemma PurgeSpares(db: Db, c: CaseId, k: SnapshotKey)
    requires k in db.snapshots && db.snapshots[k].caseId != c
    ensures k in Purged(db, c).snapshots && Purged(db, c).snapshots[k] == db.snapshots[k]
    ensures Stored(Purged(db, c), k) == Stored(db, k)
  {
  }

  lemma SnapshotStep(db: Db, op: Op, k: SnapshotKey)
    requires k in db.snapshots && db.snapshots[k].caseId in Apply(db, op).cases && db.snapshots[k].caseId in db.cases
    ensures Same(db, Apply(db, op), k)
  {
    match op
    case SaveOp(a) =>
      var iocs := (set p | p in db.iocs && p.0 != a.id) + (set v | v in a.iocs :: (a.id, v));
      CaptureKeeps(db.(analyses := db.analyses[a.id := a.caseId], iocs := iocs), a, k);
    case CaptureOp(a) => CaptureKeeps(db, a, k);
    case DeleteOp(c) => PurgeSpares(db, c, k);
    case _ =>
  }

  lemma DeletesSpareSnapshots(db: Db, snaps: set<SnapshotKey>, k: SnapshotKey)
    requires k in db.snapshots && db.snapshots[k].caseId in db.cases
    ensures Same(db, Settled(db, DeleteSnapshots(db, snaps)), k)
  {
    assert k in snaps ==> DeleteSnapshots(db, snaps).Aborted?;
  }

  lemma DeletesSpareRecords(db: Db, rows: set<RecordKey>, k: SnapshotKey)
    requires k in db.snapshots && db.snapshots[k].caseId in db.cases
    ensures Same(db, Settled(db, DeleteRecords(db, rows)), k)
  {
    forall r | r in rows && r in db.records && r.owner == k ensures DeleteRecords(db, rows).Aborted? {
    }
  }

  lemma UpdatesSpare(db: Db, snaps: set<SnapshotKey>, snapshot: Snapshot, rows: set<RecordKey>, record: Record)
    ensures Settled(db, UpdateSnapshots(db, snaps, snapshot)) == db
    ensures Settled(db, UpdateRecords(db, rows, record)) == db
  {
  }

  lemma FreePlace(db: Db, r: RecordKey, twin: Option<Place>)
    requires Clashes(db, r, twin) == {}
    ensures r !in db.records
  {
    assert r in Wanted(r, twin);
    assert r in db.records ==> r in Clashes(db, r, twin);
  }

  /** A row at a free place is one more for its snapshot, and nothing to any other. */
  lemma RowAdded(db: Db, r: RecordKey, record: Record, k: SnapshotKey)
    requires r !in db.records && k in db.snapshots
    ensures var v := db.(records := db.records[r := record]); Keeps(db, v, k) && (Same(db, v, k) <==> r.owner != k)
  {
    var v := db.(records := db.records[r := record]);
    if r.owner == k {
      assert r in Stored(v, k) && r !in Stored(db, k);
    } else {
      assert Stored(v, k) == Stored(db, k);
    }
  }

  lemma InsertsKeep(db: Db, act: Act, k: SnapshotKey)
    requires (act.InsertSnapshotRow? || act.InsertRecordRow?) && k in db.snapshots
    ensures Keeps(db, Execute(db, act), k)
    ensures Same(db, Execute(db, act), k) <==> !Extends(db, act, k)
  {
    match act
    case InsertSnapshotRow(x, value) => assert Execute(db, act).records == db.records;
    case InsertRecordRow(r, record, twin) =>
      if Clashes(db, r, twin) == {} {
        FreePlace(db, r, twin);
        RowAdded(db, r, record, k);
      } else {
        assert Execute(db, act) == db;
      }
  }

  lemma SnapshotReplaced(db: Db, x: SnapshotKey, value: Snapshot, recursive: bool, k: SnapshotKey)
    requires k in db.snapshots && db.snapshots[k].caseId in db.cases
    ensures var v := Settled(db, ReplaceSnapshot(db, x, value, recursive));
      && v.records == db.records && k in v.snapshots
      && v.snapshots[k] == if x == k && !recursive then value else db.snapshots[k]
  {
    if x == k { assert DeleteSnapshots(db, {k}).Aborted?; }
  }

  /** What a REPLACE on another snapshot's keys leaves, what one at a free place adds, and what one that clashes does. */
  lemma RecordReplacedElsewhere(db: Db, act: Act, k: SnapshotKey)
    requires act.ReplaceRecordRow? && k in db.snapshots && act.r.owner != k
    ensures Same(db, Execute(db, act), k)
  {
    assert forall x | x in Clashes(db, act.r, act.twin) :: x.owner == act.r.owner;
    assert Stored(Execute(db, act), k) == Stored(db, k);
  }

  lemma RecordReplacedFree(db: Db, act: Act, k: SnapshotKey)
    requires act.ReplaceRecordRow? && k in db.snapshots && act.r.owner == k && Clashes(db, act.r, act.twin) == {}
    ensures Keeps(db, Execute(db, act), k) && !Same(db, Execute(db, act), k)
  {
    FreePlace(db, act.r, act.twin);
    RowAdded(db, act.r, act.record, k);
    assert DeleteRecords(db, {}).Committed? && db.records - {} == db.records;
  }

  lemma RecordGuarded(db: Db, act: Act, k: SnapshotKey)
    requires act.ReplaceRecordRow? && act.recursive && k in db.snapshots && db.snapshots[k].caseId in db.cases
    requires act.r.owner == k && Clashes(db, act.r, act.twin) != {}
    ensures Execute(db, act) == db
  {
    var x :| x in Clashes(db, act.r, act.twin);
    assert x in db.records && x.owner == k;
  }

  lemma RecordReplaced(db: Db, act: Act, k: SnapshotKey)
    requires act.ReplaceRecordRow? && k in db.snapshots && db.snapshots[k].caseId in db.cases
    ensures Keeps(db, Execute(db, act), k) <==> !Rewrites(db, act, k)
    ensures Same(db, Execute(db, act), k) <==> !Rewrites(db, act, k) && !Extends(db, act, k)
  {
    if act.r.owner != k {
      RecordReplacedElsewhere(db, act, k);
      SameKeeps(db, Execute(db, act), k);
    } else if Clashes(db, act.r, act.twin) == {} {
      RecordReplacedFree(db, act, k);
    } else if act.recursive {
      RecordGuarded(db, act, k);
    } else if Rewrites(db, act, k) {
      ClashReplaced(db, act);
      if Same(db, Execute(db, act), k) { SameKeeps(db, Execute(db, act), k); }
    } else {
      ClashIsSame(db, act);
    }
  }

  /** Without the pragma a clashing row goes, and the new one stands at its own place. */
  lemma ClashReplaced(db: Db, act: Act)
    requires act.ReplaceRecordRow? && act.r.owner in db.snapshots && Rewrites(db, act, act.r.owner)
    ensures !Keeps(db, Execute(db, act), act.r.owner)
  {
    var x :| x in Clashes(db, act.r, act.twin) && (x != act.r || db.records[x] != act.record);
    assert x in db.records && x.owner == act.r.owner;
  }

  lemma ClashIsSame(db: Db, act: Act)
    requires act.ReplaceRecordRow? && !act.recursive && Clashes(db, act.r, act.twin) != {}
    requires !Rewrites(db, act, act.r.owner)
    ensures Execute(db, act) == db
  {
    var clashes := Clashes(db, act.r, act.twin);
    var x :| x in clashes;
    assert clashes == {act.r};
    assert (db.records - {act.r})[act.r := act.record] == db.records;
  }

  /** What a foreign statement does to the evidence of a live case, exactly. */
  lemma StatementSpares(db: Db, act: Act, k: SnapshotKey)
    requires !act.Program? && k in db.snapshots && db.snapshots[k].caseId in db.cases
    ensures Execute(db, act).cases == db.cases
    ensures Keeps(db, Execute(db, act), k) <==> !Rewrites(db, act, k)
    ensures Same(db, Execute(db, act), k) <==> !Rewrites(db, act, k) && !Extends(db, act, k)
  {
    match act
    case DeleteSnapshotRows(snaps) =>
      DeletesSpareSnapshots(db, snaps, k);
      SameKeeps(db, Execute(db, act), k);
    case DeleteRecordRows(rows) =>
      DeletesSpareRecords(db, rows, k);
      SameKeeps(db, Execute(db, act), k);
    case UpdateSnapshotRows(snaps, value) => UpdatesSpare(db, snaps, value, {}, Record("", "", "", "", "", None, 0));
    case UpdateRecordRows(rows, value) => UpdatesSpare(db, {}, Snapshot(0, 0), rows, value);
    case InsertSnapshotRow(_, _) => InsertsKeep(db, act, k);
    case InsertRecordRow(_, _, _) => InsertsKeep(db, act, k);
    case ReplaceSnapshotRow(x, value, recursive) => SnapshotReplaced(db, x, value, recursive, k);
    case ReplaceRecordRow(_, _, _, _) => RecordReplaced(db, act, k);
  }

  lemma SameKeeps(before: Db, after: Db, k: SnapshotKey)
    requires k in before.snapshots && Same(before, after, k)
    ensures Keeps(before, after, k)
  {
    forall r | r in before.records && r.owner == k ensures r in after.records && after.records[r] == before.records[r] {
      assert r in Stored(before, k) && r in Stored(after, k);
    }
  }

  /** Every record of a live snapshot is overwritten by a REPLACE at its place, and by none with the pragma on. */
  lemma ReplaceOverwrites(db: Db, r: RecordKey, record: Record, recursive: bool)
    requires r in db.records && r.owner in db.snapshots && db.snapshots[r.owner].caseId in db.cases
    ensures var v := Execute(db, ReplaceRecordRow(r, record, None, recursive));
      r in v.records && v.records[r] == if recursive then db.records[r] else record
  {
    assert r in Clashes(db, r, None);
    assert recursive ==> DeleteRecords(db, Clashes(db, r, None)).Aborted?;
  }

  /* ---------- Over runs ---------- */

  /** No statement rewrites the snapshot where it is executed. */
  predicate NeverRewritten(db: Db, acts: seq<Act>, k: SnapshotKey)
    decreases |acts|
  {
    acts != [] ==> !Rewrites(db, acts[0], k) && NeverRewritten(Execute(db, acts[0]), acts[1..], k)
  }

  /** Nor adds a row to it. */
  predicate LeftAlone(db: Db, acts: seq<Act>, k: SnapshotKey)
    decreases |acts|
  {
    acts != [] ==>
      !Rewrites(db, acts[0], k) && !Extends(db, acts[0], k) && LeftAlone(Execute(db, acts[0]), acts[1..], k)
  }

  ghost predicate KeptThroughout(db: Db, acts: seq<Act>, k: SnapshotKey)
    requires k in db.snapshots
    decreases |acts|
  {
    acts != [] ==> Keeps(db, Execute(db, acts[0]), k) && KeptThroughout(Execute(db, acts[0]), acts[1..], k)
  }

  lemma ActKeeps(db: Db, act: Act, k: SnapshotKey)
    requires k in db.snapshots && db.snapshots[k].caseId in db.cases && db.snapshots[k].caseId in Execute(db, act).cases
    ensures Keeps(db, Execute(db, act), k) <==> !Rewrites(db, act, k)
    ensures Same(db, Execute(db, act), k) <==> !Rewrites(db, act, k) && !Extends(db, act, k)
  {
    if act.Program? {
      SnapshotStep(db, act.op, k);
      SameKeeps(db, Execute(db, act), k);
    } else {
      StatementSpares(db, act, k);
    }
  }

  /**
   * While its case row exists, a committed snapshot keeps its manifest and every one of its records at every step of a
   * run exactly when no REPLACE rewrites it; whatever else the program and other clients do.
   */
  lemma {:induction false} SnapshotsAreImmutable(db: Db, acts: seq<Act>, k: SnapshotKey)
    requires k in db.snapshots && Throughout(db, acts, db.snapshots[k].caseId)
    ensures KeptThroughout(db, acts, k) <==> NeverRewritten(db, acts, k)
    ensures NeverRewritten(db, acts, k) ==> Keeps(db, RunActs(db, acts), k)
    decreases |acts|
  {
    if acts != [] {
      var next := Execute(db, acts[0]);
      assert Throughout(next, acts[1..], db.snapshots[k].caseId);
      ActKeeps(db, acts[0], k);
      if !Rewrites(db, acts[0], k) { SnapshotsAreImmutable(next, acts[1..], k); }
    }
  }

  /** With the pragma on every connection nothing rewrites anything. */
  lemma {:induction false} RecursiveTriggersSuffice(db: Db, acts: seq<Act>, k: SnapshotKey)
    requires forall act | act in acts && (act.ReplaceSnapshotRow? || act.ReplaceRecordRow?) :: act.recursive
    ensures NeverRewritten(db, acts, k)
    decreases |acts|
  {
    if acts != [] {
      assert acts[0] in acts;
      RecursiveTriggersSuffice(Execute(db, acts[0]), acts[1..], k);
    }
  }

  /** A snapshot that no statement rewrites or adds to is the same afterwards. */
  lemma {:induction false} SnapshotStays(db: Db, acts: seq<Act>, k: SnapshotKey)
    requires k in db.snapshots && Throughout(db, acts, db.snapshots[k].caseId) && LeftAlone(db, acts, k)
    ensures Same(db, RunActs(db, acts), k)
    decreases |acts|
  {
    if acts != [] {
      var next := Execute(db, acts[0]);
      assert Throughout(next, acts[1..], db.snapshots[k].caseId);
      ActKeeps(db, acts[0], k);
      SnapshotStays(next, acts[1..], k);
    }
  }

  /* ---------- Deletion ---------- */

  /** Purging evidence before the case row is gone would be rolled back exactly when there is evidence to purge. */
  lemma CaseRowMustGoFirst(db: Db, c: CaseId)
    requires c in db.cases
    ensures var snaps := set k | k in db.snapshots && db.snapshots[k].caseId == c;
            && (DeleteSnapshots(db, snaps).Aborted? <==> snaps != {})
            && DeleteSnapshots(db.(cases := db.cases - {c}), snaps).Committed?
  {
    var snaps := set k | k in db.snapshots && db.snapshots[k].caseId == c;
    if snaps != {} {
      var k :| k in snaps;
      assert k in db.snapshots && db.snapshots[k].caseId in db.cases;
    }
  }

  predicate Of(analyses: map<AnalysisId, CaseId>, a: AnalysisId, c: CaseId) { a in analyses && analyses[a] == c }

  predicate About(db: Db, note: Note, c: CaseId) {
    note.caseId == Some(c) || (note.analysis.Some? && Of(db.analyses, note.analysis.value, c))
  }

  /** The rows of a case, outside the evidence. */
  ghost predicate RowsGone(db: Db, v: Db, c: CaseId) {
    && (forall d :: d in v.cases <==> d in db.cases && d != c)
    && Without(db.analyses, v.analyses, iset a | Of(db.analyses, a, c))
    && (forall p :: p in v.iocs <==> p in db.iocs && !Of(db.analyses, p.0, c))
    && Without(db.notes, v.notes, iset n | n in db.notes && About(db, db.notes[n], c))
    && (forall t :: t in v.tags <==> t in db.tags && t.0 != c)
    && Without(db.jobs, v.jobs, iset j | j in db.jobs && db.jobs[j] == c)
    && Without(db.retries, v.retries, iset x | x in db.retries && db.retries[x] == Some(c))
  }

  ghost predicate EvidenceGone(db: Db, v: Db, c: CaseId) {
    && Without(db.snapshots, v.snapshots, iset k: SnapshotKey | k.snapshot.caseId == c)
    && Without(db.records, v.records, iset r: RecordKey | r.owner.snapshot.caseId == c)
  }

  lemma RowsGo(db: Db, c: CaseId)
    ensures RowsGone(db, Purged(db, c), c)
  {}

  lemma EvidenceGoes(db: Db, c: CaseId)
    requires forall k | k in db.snapshots :: db.snapshots[k].caseId == k.snapshot.caseId
    requires forall r | r in db.records :: r.owner in db.snapshots
    ensures EvidenceGone(db, Purged(db, c), c)
  {}

  /** Deleting a case leaves nothing of it in any table, and everything of the others. */
  lemma DeletionIsExact(db: Db, c: CaseId)
    requires Consistent(db)
    ensures RowsGone(db, Purged(db, c), c) && EvidenceGone(db, Purged(db, c), c)
  {
    RowsGo(db, c);
    EvidenceGoes(db, c);
  }

  predicate Homeless(db: Db, a: AnalysisId) { a in db.analyses && db.analyses[a] !in db.cases }

  /** Dropping orphans takes what hangs on a missing case, and leaves the snapshots to their own guards. */
  lemma OrphansAreExact(db: Db)
    ensures var v := Apply(db, DropOrphans);
      && Without(db.analyses, v.analyses, iset a | Homeless(db, a))
      && (forall p :: p in v.iocs <==> p in db.iocs && !Homeless(db, p.0))
      && Without(db.notes, v.notes, iset n | n in db.notes && Adrift(db, db.notes[n]))
      && (forall t :: t in v.tags <==> t in db.tags && t.0 in db.cases)
      && Without(db.jobs, v.jobs, iset j | j in db.jobs && db.jobs[j] !in db.cases)
      && v.cases == db.cases && v.snapshots == db.snapshots && v.order == db.order && v.records == db.records
      && v.retries == db.retries
  {}

  /** A note on a missing case, or on an analysis of one. */
  predicate Adrift(db: Db, note: Note) {
    (note.caseId.Some? && note.caseId.value !in db.cases) || (note.analysis.Some? && Homeless(db, note.analysis.value))
  }

  /** A case with what hangs on it. */
  datatype Hung = Hung(c: CaseId, tag: nat, job: nat, note: nat)

  predicate Holding(db: Db, h: Hung) {
    && h.c in db.cases && (h.c, h.tag) in db.tags
    && h.job in db.jobs && db.jobs[h.job] == h.c
    && h.note in db.notes && db.notes[h.note] == Note(Some(h.c), None)
  }

  /** It neither deletes the case nor writes another job or note over these. */
  predicate Leaves(op: Op, h: Hung) {
    op != DeleteOp(h.c) && !op.ClearAll? && !(op.AddJob? && op.j == h.job) && !(op.AddNote? && op.n == h.note)
  }

  lemma LeavesKept(db: Db, op: Op, h: Hung)
    requires Holding(db, h) && Leaves(op, h)
    ensures Holding(Apply(db, op), h)
  {}

  lemma {:induction false} StaysKept(db: Db, ops: seq<Op>, h: Hung)
    requires Holding(db, h) && forall op | op in ops :: Leaves(op, h)
    ensures Holding(Run(db, ops), h)
    decreases |ops|
  {
    if ops != [] {
      LeavesKept(db, ops[0], h);
      StaysKept(Apply(db, ops[0]), ops[1..], h);
    }
  }

  /** What was put on a case stays on it until that case is deleted, whatever else is saved, deleted or dropped. */
  lemma AddedStays(db: Db, ops: seq<Op>, h: Hung)
    requires forall op | op in ops :: Leaves(op, h)
    ensures var tagged := Apply(Apply(db, OpenCase(h.c)), AddTag(h.c, h.tag));
      Holding(Run(Apply(Apply(tagged, AddJob(h.job, h.c)), AddNote(h.note, Note(Some(h.c), None))), ops), h)
  {
    var tagged := Apply(Apply(db, OpenCase(h.c)), AddTag(h.c, h.tag));
    StaysKept(Apply(Apply(tagged, AddJob(h.job, h.c)), AddNote(h.note, Note(Some(h.c), None))), ops, h);
  }

  /* ---------- What the triggers let through ---------- */

  /** Only the two evidence tables have changed. */
  ghost predicate OnlyEvidence(db: Db, v: Db) {
    v == db.(snapshots := v.snapshots, order := v.order, records := v.records)
  }

  predicate Live(db: Db, k: SnapshotKey) { k in db.snapshots && db.snapshots[k].caseId in db.cases }

  /** Evidence of a case that is there cannot be deleted; any other goes, and nothing beside it. */
  lemma DeletesExactly(db: Db, snaps: set<SnapshotKey>, rows: set<RecordKey>)
    ensures DeleteSnapshots(db, snaps).Aborted? <==> exists k :: k in snaps && Live(db, k)
    ensures DeleteSnapshots(db, snaps).Committed? ==>
      var v := DeleteSnapshots(db, snaps).db;
      && OnlyEvidence(db, v) && v.records == db.records && v.order == Kept(db.order, snaps)
      && Without(db.snapshots, v.snapshots, iset k | k in snaps)
    ensures DeleteRecords(db, rows).Aborted? <==> exists r :: r in rows && r in db.records && Live(db, r.owner)
    ensures DeleteRecords(db, rows).Committed? ==>
      var v := DeleteRecords(db, rows).db;
      v == db.(records := v.records) && Without(db.records, v.records, iset r | r in rows)
  {
    if exists k :: k in snaps && Live(db, k) {
      var k :| k in snaps && Live(db, k);
      assert k in db.snapshots;
    }
    if exists r :: r in rows && r in db.records && Live(db, r.owner) {
      var r :| r in rows && r in db.records && Live(db, r.owner);
      assert r in db.records;
    }
  }

  /** No update of evidence ever changes a row: it meets none, or it is stopped. */
  lemma UpdatesExactly(db: Db, snaps: set<SnapshotKey>, rows: set<RecordKey>, snapshot: Snapshot, record: Record)
    ensures UpdateSnapshots(db, snaps, snapshot) == if snaps !! db.snapshots.Keys then Committed(db) else Aborted
    ensures UpdateRecords(db, rows, record) == if rows !! db.records.Keys then Committed(db) else Aborted
  {
    if snaps !! db.snapshots.Keys {
      assert forall k | k in snaps :: k !in db.snapshots.Keys;
    } else {
      var k :| k in snaps && k in db.snapshots.Keys;
      assert k in db.snapshots;
    }
    if rows !! db.records.Keys {
      assert forall r | r in rows :: r !in db.records.Keys;
    } else {
      var r :| r in rows && r in db.records.Keys;
      assert r in db.records;
    }
  }

  predicate Taken(db: Db, r: RecordKey, twin: Option<Place>) {
    r in db.records || (twin.Some? && RecordKey(r.owner, twin.value.kind, twin.value.position) in db.records)
  }

  lemma ClashesAre(db: Db, r: RecordKey, twin: Option<Place>)
    ensures forall x :: x in Clashes(db, r, twin) <==>
      x in db.records
      && (x == r || (twin.Some? && x == RecordKey(r.owner, twin.value.kind, twin.value.position)))
    ensures Clashes(db, r, twin) != {} <==> Taken(db, r, twin)
  {
    if Taken(db, r, twin) {
      var x := if r in db.records then r else RecordKey(r.owner, twin.value.kind, twin.value.position);
      assert x in Clashes(db, r, twin);
    }
  }

  /** A snapshot is inserted where there is none of its key, last in order, and nothing else changes. */
  lemma SnapshotInserts(db: Db, k: SnapshotKey, value: Snapshot)
    ensures InsertSnapshot(db, k, value).Committed? <==> k !in db.snapshots
    ensures k !in db.snapshots ==>
      var v := InsertSnapshot(db, k, value).db;
      && v == db.(snapshots := v.snapshots, order := db.order + [k]) && k in v.snapshots && v.snapshots[k] == value
      && Without(v.snapshots, db.snapshots, iset{k})
  {}

  /** A record is inserted where its place and that of its identifier are free, and nothing else changes. */
  lemma RecordInserts(db: Db, r: RecordKey, value: Record, twin: Option<Place>)
    ensures InsertRecord(db, r, value, twin).Committed? <==> !Taken(db, r, twin)
    ensures !Taken(db, r, twin) ==>
      var v := InsertRecord(db, r, value, twin).db;
      v == db.(records := v.records) && Holds(v.records, r, value) && Without(v.records, db.records, iset{r})
  {
    ClashesAre(db, r, twin);
  }

  /** A REPLACE of a snapshot is stopped only where the pragma makes it delete a live one; else its row stands, as the last. */
  lemma SnapshotReplaces(db: Db, k: SnapshotKey, value: Snapshot, recursive: bool)
    ensures ReplaceSnapshot(db, k, value, recursive).Aborted? <==> recursive && Live(db, k)
    ensures ReplaceSnapshot(db, k, value, recursive).Committed? ==>
      var v := ReplaceSnapshot(db, k, value, recursive).db;
      && v == db.(snapshots := v.snapshots, order := Kept(db.order, {k}) + [k])
      && v.snapshots == db.snapshots + map[k := value]
  {
    DeletesExactly(db, {k}, {});
  }

  /** Of a record likewise: the rows it met at its place and at that of its identifier are gone. */
  lemma RecordReplaces(db: Db, r: RecordKey, value: Record, twin: Option<Place>, recursive: bool)
    ensures ReplaceRecord(db, r, value, twin, recursive).Aborted? <==> recursive && Live(db, r.owner) && Taken(db, r, twin)
    ensures ReplaceRecord(db, r, value, twin, recursive).Committed? ==>
      RowReplacedBy(db, ReplaceRecord(db, r, value, twin, recursive).db, r, value, twin)
  {
    ClashesAre(db, r, twin);
    GuardedDelete(db, Clashes(db, r, twin), r.owner);
  }

  ghost predicate RowReplacedBy(db: Db, v: Db, r: RecordKey, value: Record, twin: Option<Place>) {
    && v == db.(records := v.records) && Holds(v.records, r, value)
    && forall x | x != r :: (x in v.records <==> x in db.records && x !in Clashes(db, r, twin))
                            && (x in v.records ==> v.records[x] == db.records[x])
  }

  lemma GuardedDelete(db: Db, rows: set<RecordKey>, owner: SnapshotKey)
    requires forall r | r in rows :: r in db.records && r.owner == owner
    ensures DeleteRecords(db, rows).Aborted? <==> rows != {} && Live(db, owner)
  {
    DeletesExactly(db, {}, rows);
    if rows != {} { var r :| r in rows; }
  }
}
