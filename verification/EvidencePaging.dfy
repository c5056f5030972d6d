/** Bounded evidence queries with cursors pinned to a snapshot (app/agents/evidence.py). */
module EvidencePaging {
  import opened Options
  import opened EvidenceStore

  const MAX_RESPONSE := 1024 * 1024

  datatype Filters = Filters(tag: Option<string>, value: Option<string>, protocol: Option<string>,
                             source: Option<string>, destination: Option<string>, start: Option<real>, end: Option<real>)

  /** Who asks for what; the digest that binds a cursor is an injective name of this. */
  datatype Request = Request(actor: nat, analysis: AnalysisId, kind: Kind, filters: Filters)
  datatype Cursor = Cursor(binding: Request, snapshot: SnapshotId, offset: nat)

  /** A presented cursor decodes to what was encoded, or its signature does not verify. */
  datatype Presented = Absent | Forged | Signed(cursor: Cursor)

  datatype Reply =
    | Page(snapshot: SnapshotId, items: seq<Record>, total: nat, next: Option<Cursor>)
    | Unprocessable
    | NotFound
    | TooLarge
    | Busy

  /** Filters as they are handed in, and how times and letters are read; times without an offset are not read at all. */
  datatype Texts = Texts(tag: Option<string>, value: Option<string>, protocol: Option<string>,
                         source: Option<string>, destination: Option<string>, start: Option<string>, end: Option<string>)
  datatype Reading = Reading(upper: string -> string, instant: string -> Option<real>)

  const MAX_FILTER := 512

  /** An empty filter is no filter. */
  function Given(t: Option<string>): Option<string> { if t == Some("") then None else t }

  predicate Short(t: Option<string>) { Given(t).Some? ==> |t.value| <= MAX_FILTER }

  predicate Readable(t: Option<string>, kind: Kind, reading: Reading) {
    Given(t).Some? ==> kind.Flows? && reading.instant(t.value).Some?
  }

  function Instant(t: Option<string>, reading: Reading): Option<real> {
    if Given(t).Some? then reading.instant(t.value) else None
  }

  /** The filters that bind a cursor; `None` when one is too long or a time cannot be read or does not apply. */
  function Parsed(t: Texts, kind: Kind, reading: Reading): Option<Filters> {
    if Short(t.tag) && Short(t.value) && Short(t.protocol) && Short(t.source) && Short(t.destination)
       && Short(t.start) && Short(t.end) && Readable(t.start, kind, reading) && Readable(t.end, kind, reading)
    then
      var protocol := if Given(t.protocol).Some? then Some(reading.upper(t.protocol.value)) else None;
      Some(Filters(Given(t.tag), Given(t.value), protocol, Given(t.source), Given(t.destination),
                   Instant(t.start, reading), Instant(t.end, reading)))
    else None
  }

  /** Which filters are refused. */
  predicate TooLong(t: Option<string>) { t.Some? && |t.value| > 512 }

  /** A time for rows that have none, or one that cannot be read. */
  predicate Untimely(t: Option<string>, kind: Kind, reading: Reading) {
    t.Some? && t.value != "" && (kind.Evidence? || reading.instant(t.value).None?)
  }

  /** Filters are refused exactly for these reasons; an empty one is none, and only protocol and times are changed. */
  lemma ParsedExactly(t: Texts, kind: Kind, reading: Reading)
    ensures Parsed(t, kind, reading).None? <==>
      TooLong(t.tag) || TooLong(t.value) || TooLong(t.protocol) || TooLong(t.source) || TooLong(t.destination)
      || TooLong(t.start) || TooLong(t.end) || Untimely(t.start, kind, reading) || Untimely(t.end, kind, reading)
    ensures Parsed(t, kind, reading).Some? ==>
      var f := Parsed(t, kind, reading).value;
      && AsGiven(t.tag, f.tag) && AsGiven(t.value, f.value)
      && AsGiven(t.source, f.source) && AsGiven(t.destination, f.destination)
      && (f.protocol.Some? <==> t.protocol.Some? && t.protocol.value != "")
      && (f.protocol.Some? ==> f.protocol.value == reading.upper(t.protocol.value))
      && (f.start.Some? <==> t.start.Some? && t.start.value != "")
      && (f.start.Some? ==> f.start == reading.instant(t.start.value))
      && (f.end.Some? <==> t.end.Some? && t.end.value != "")
      && (f.end.Some? ==> f.end == reading.instant(t.end.value))
  {}

  predicate AsGiven(given: Option<string>, kept: Option<string>) {
    if given.None? || given.value == "" then kept == None else kept == given
  }

  predicate Agrees(wanted: Option<string>, actual: string) { wanted.Some? ==> wanted.value == actual }

  /** A comparison with an absent time is not true. */
  predicate Matches(r: Record, f: Filters) {
    && Agrees(f.tag, r.tag) && Agrees(f.value, r.value) && Agrees(f.protocol, r.protocol)
    && Agrees(f.source, r.source) && Agrees(f.destination, r.destination)
    && (f.start.Some? ==> r.time.Some? && r.time.value >= f.start.value)
    && (f.end.Some? ==> r.time.Some? && r.time.value <= f.end.value)
  }

  /** Each filter tests its own column, and they narrow one another; without any, every row matches. */
  lemma FiltersNarrow(r: Record, f: Filters, text: string, time: real)
    ensures Matches(r, Filters(None, None, None, None, None, None, None))
    ensures Matches(r, f.(tag := Some(text))) <==> Matches(r, f.(tag := None)) && r.tag == text
    ensures Matches(r, f.(value := Some(text))) <==> Matches(r, f.(value := None)) && r.value == text
    ensures Matches(r, f.(protocol := Some(text))) <==> Matches(r, f.(protocol := None)) && r.protocol == text
    ensures Matches(r, f.(source := Some(text))) <==> Matches(r, f.(source := None)) && r.source == text
    ensures Matches(r, f.(destination := Some(text))) <==> Matches(r, f.(destination := None)) && r.destination == text
    ensures Matches(r, f.(start := Some(time))) <==>
            Matches(r, f.(start := None)) && r.time.Some? && time <= r.time.value
    ensures Matches(r, f.(end := Some(time))) <==>
            Matches(r, f.(end := None)) && r.time.Some? && r.time.value <= time
  {}

  function Filtered(rows: seq<Record>, f: Filters): seq<Record> {
    if rows == [] then [] else (if Matches(rows[0], f) then [rows[0]] else []) + Filtered(rows[1..], f)
  }

  /** The matching rows, in the order of the rows. */
  lemma {:induction false} FilteredInOrder(a: seq<Record>, b: seq<Record>, r: Record, f: Filters)
    ensures Filtered([r], f) == if Matches(r, f) then [r] else []
    ensures Filtered(a + b, f) == Filtered(a, f) + Filtered(b, f)
  {
    if a == [] {
      assert a + b == b;
    } else {
      assert (a + b)[1..] == a[1..] + b;
      FilteredInOrder(a[1..], b, r, f);
    }
  }

  /* ---------- SELECT ... ORDER BY position ---------- */

  function Positions(rows: Rows, k: SnapshotKey, kind: Kind): set<nat> {
    set r | r in rows && r.owner == k && r.kind == kind :: r.position
  }

  ghost predicate IsLargest(ps: set<nat>, p: nat) { p in ps && forall q | q in ps :: q <= p }

  lemma {:induction false} LargestExists(ps: set<nat>)
    requires ps != {}
    ensures exists p :: IsLargest(ps, p)
    decreases |ps|
  {
    var p :| p in ps;
    if !IsLargest(ps, p) {
      var q :| q in ps && q > p;
      var rest := ps - {p};
      assert q in rest;
      LargestExists(rest);
      var m :| IsLargest(rest, m);
      assert q <= m && ps == rest + {p};
      assert IsLargest(ps, m);
    }
  }

  /** One more than the largest position. */
  function Bound(ps: set<nat>): (b: nat)
    ensures forall p | p in ps :: p < b
    ensures ps != {} ==> b > 0 && b - 1 in ps
  {
    if ps == {} then 0
    else
      LargestExists(ps);
      assert exists p :: IsLargest(ps, p);
      var p: nat :| p in ps && forall q | q in ps :: q <= p;
      p + 1
  }

  /** The rows of one kind from a position on, in ascending order of position. */
  function RowsFrom(rows: Rows, k: SnapshotKey, kind: Kind, from: nat, bound: nat): seq<Record>
    requires from <= bound
    decreases bound - from
  {
    if from == bound then []
    else
      var at := RecordKey(k, kind, from);
      (if at in rows then [rows[at]] else []) + RowsFrom(rows, k, kind, from + 1, bound)
  }

  function Matching(db: Db, k: SnapshotKey, kind: Kind, f: Filters): seq<Record> {
    var rows := Stored(db, k);
    Filtered(RowsFrom(rows, k, kind, 0, Bound(Positions(rows, k, kind))), f)
  }

  /* ---------- One page ---------- */

  /** How many leading rows stay within the byte budget together. */
  function Fitting(rows: seq<Record>, budget: nat): (n: nat)
    ensures n <= |rows|
  {
    if rows == [] || rows[0].size > budget then 0 else 1 + Fitting(rows[1..], budget - rows[0].size)
  }

  function Slice(rows: seq<Record>, offset: nat, limit: nat): seq<Record> {
    if offset >= |rows| then [] else if offset + limit <= |rows| then rows[offset..offset + limit] else rows[offset..]
  }

  function Answer(db: Db, req: Request, limit: nat, offset: nat, snapshot: SnapshotId): Reply {
    var all := Matching(db, SnapshotKey(req.analysis, snapshot), req.kind, req.filters);
    var rows := Slice(all, offset, limit);
    var n := Fitting(rows, MAX_RESPONSE);
    if n == 0 && rows != [] then TooLarge
    else Page(snapshot, rows[..n], |all|, if offset + n < |all| then Some(Cursor(req, snapshot, offset + n)) else None)
  }

  /** The most recently captured snapshot of an analysis. */
  function Latest(order: seq<SnapshotKey>, analysis: AnalysisId): Option<SnapshotId> {
    if order == [] then None
    else if order[|order| - 1].analysis == analysis then Some(order[|order| - 1].snapshot)
    else Latest(order[..|order| - 1], analysis)
  }

  predicate Acceptable(req: Request, limit: int, presented: Presented, snapshot: Option<SnapshotId>) {
    && 1 <= limit <= 200
    && (req.filters.start.Some? || req.filters.end.Some? ==> req.kind.Flows?)
    && (req.filters.start.Some? && req.filters.end.Some? ==> req.filters.start.value <= req.filters.end.value)
    && !presented.Forged?
    && (presented.Signed? ==>
          && presented.cursor.binding == req
          && (snapshot.Some? ==> snapshot.value == presented.cursor.snapshot))
  }

  /** The snapshot a query reads, and the database after finding it: without any, the analysis is captured on demand. */
  function Manifest(db: Db, current: Analysis, named: Option<SnapshotId>): (Option<SnapshotId>, Db) {
    match named
    case Some(id) => (if SnapshotKey(current.id, id) in db.snapshots then Some(id) else None, db)
    case None =>
      match Latest(db.order, current.id)
      case Some(id) => (Some(id), db)
      case None => (Some(Name(current)), Capture(db, current))
  }

  function Named(presented: Presented, snapshot: Option<SnapshotId>): Option<SnapshotId> {
    if presented.Signed? then Some(presented.cursor.snapshot) else snapshot
  }

  function Offset(presented: Presented): nat { if presented.Signed? then presented.cursor.offset else 0 }

  /** One request: refused without effect, or answered from the snapshot that the cursor or the caller names. */
  function Ask(db: Db, current: Analysis, req: Request, limit: int, presented: Presented,
               snapshot: Option<SnapshotId>): (Reply, Db)
  {
    if !Acceptable(req, limit, presented, snapshot) then (Unprocessable, db)
    else
      var (id, found) := Manifest(db, current, Named(presented, snapshot));
      (if id.None? then NotFound else Answer(found, req, limit, Offset(presented), id.value), found)
  }

  /** The request itself is malformed. */
  predicate Malformed(req: Request, limit: int) {
    || limit < 1 || limit > 200
    || (req.kind.Evidence? && (req.filters.start.Some? || req.filters.end.Some?))
    || (req.filters.start.Some? && req.filters.end.Some? && req.filters.end.value < req.filters.start.value)
  }

  /** The cursor is not one given out for this request, or another snapshot is named beside it. */
  predicate Mistaken(req: Request, presented: Presented, snapshot: Option<SnapshotId>) {
    presented.Forged?
    || (presented.Signed?
        && (presented.cursor.binding != req || (snapshot.Some? && presented.cursor.snapshot != snapshot.value)))
  }

  /** Each refusal has its own reason and leaves the database alone; a page is of the snapshot that is named or pinned. */
  lemma AnswersExactly(db: Db, current: Analysis, req: Request, limit: int, presented: Presented,
                       snapshot: Option<SnapshotId>)
    ensures var (reply, after) := Ask(db, current, req, limit, presented, snapshot);
      var named := if presented.Signed? then Some(presented.cursor.snapshot) else snapshot;
      && (reply.Unprocessable? <==> Malformed(req, limit) || Mistaken(req, presented, snapshot))
      && (reply.NotFound? <==> !Malformed(req, limit) && !Mistaken(req, presented, snapshot)
                               && named.Some? && SnapshotKey(current.id, named.value) !in db.snapshots)
      && (reply.Page? && named.Some? ==> reply.snapshot == named.value)
      && (named.Some? || reply.Unprocessable? || Latest(db.order, current.id).Some? ==> after == db)
  {}

  /** `query` up to its cursor: the filters are read, and everything malformed is refused before anything is looked up. */
  method Query(db: Db, current: Analysis, actor: nat, kind: Kind, texts: Texts, limit: int, presented: Presented,
               snapshot: Option<SnapshotId>, reading: Reading, inTime: bool)
    returns (reply: Reply, after: Db)
    ensures Parsed(texts, kind, reading).None? ==> reply == Unprocessable && after == db
    ensures Parsed(texts, kind, reading).Some? ==>
              var asked := Ask(db, current, Request(actor, current.id, kind, Parsed(texts, kind, reading).value), limit,
                               presented, snapshot);
              && after == asked.1
              && reply == if !inTime && !asked.0.Unprocessable? && !asked.0.NotFound? then Busy else asked.0
  {
    if limit < 1 || limit > 200 { return Unprocessable, db; }
    var filters := ReadFilters(texts, kind, reading);
    if filters.None? { return Unprocessable, db; }
    var f := filters.value;
    if f.start.Some? && f.end.Some? && f.start.value > f.end.value { return Unprocessable, db; }
    var binding := Request(actor, current.id, kind, f);
    var offset, named := 0, snapshot;
    if presented.Forged? { return Unprocessable, db; }
    if presented.Signed? {
      var cursor := presented.cursor;
      if cursor.binding != binding { return Unprocessable, db; }
      if snapshot.Some? && snapshot.value != cursor.snapshot { return Unprocessable, db; }
      named, offset := Some(cursor.snapshot), cursor.offset;
    }
    var id;
    id, after := FindManifest(db, current, named);
    if id.None? { return NotFound, after; }
    if !inTime { return Busy, after; }
    reply := AnswerPage(after, binding, limit, offset, id.value);
  }

  /** The loops over the filters. */
  method ReadFilters(t: Texts, kind: Kind, reading: Reading) returns (filters: Option<Filters>)
    ensures filters == Parsed(t, kind, reading)
  {
    var texts := [t.tag, t.value, t.protocol, t.source, t.destination, t.start, t.end];
    for i := 0 to |texts|
      invariant forall j | 0 <= j < i :: Short(texts[j])
    {
      if Given(texts[i]).Some? && |texts[i].value| > MAX_FILTER { return None; }
    }
    assert Short(texts[0]) && Short(texts[1]) && Short(texts[2]) && Short(texts[3]) && Short(texts[4]) && Short(texts[5]);
    assert Short(texts[6]);
    var protocol := Given(t.protocol);
    if protocol.Some? { protocol := Some(reading.upper(protocol.value)); }
    if !Readable(t.start, kind, reading) || !Readable(t.end, kind, reading) { return None; }
    filters := Some(Filters(Given(t.tag), Given(t.value), protocol, Given(t.source), Given(t.destination),
                            Instant(t.start, reading), Instant(t.end, reading)));
  }

  method FindManifest(db: Db, current: Analysis, named: Option<SnapshotId>) returns (id: Option<SnapshotId>, after: Db)
    ensures (id, after) == Manifest(db, current, named)
  {
    after, id := db, named;
    if named.Some? {
      if SnapshotKey(current.id, named.value) !in db.snapshots { id := None; }
    } else {
      id := Latest(db.order, current.id);
      if id.None? { id, after := Some(Name(current)), Capture(db, current); }
    }
  }

  method AnswerPage(db: Db, req: Request, limit: nat, offset: nat, id: SnapshotId) returns (reply: Reply)
    ensures reply == Answer(db, req, limit, offset, id)
  {
    var all := Matching(db, SnapshotKey(req.analysis, id), req.kind, req.filters);
    var items, oversized := TakeFitting(Slice(all, offset, limit));
    if oversized { return TooLarge; }
    var next := if offset + |items| < |all| then Some(Cursor(req, id, offset + |items|)) else None;
    reply := Page(id, items, |all|, next);
  }

  method TakeFitting(rows: seq<Record>) returns (items: seq<Record>, oversized: bool)
    ensures items == rows[..Fitting(rows, MAX_RESPONSE)]
    ensures oversized <==> rows != [] && items == []
  {
    var size := 0;
    items, oversized := [], false;
    for i := 0 to |rows|
      invariant items == rows[..i] && 0 <= size <= MAX_RESPONSE && !oversized
      invariant Fitting(rows, MAX_RESPONSE) == i + Fitting(rows[i..], MAX_RESPONSE - size)
    {
      assert rows[i..][0] == rows[i] && rows[i..][1..] == rows[i + 1..];
      size := size + rows[i].size;
      if size > MAX_RESPONSE {
        oversized := items == [];
        return;
      }
      assert rows[..i + 1] == rows[..i] + [rows[i]];
      items := items + [rows[i]];
    }
  }

  /* ---------- What a snapshot's rows are ---------- */

  lemma {:induction false} RowsInOrder(rows: Rows, k: SnapshotKey, kind: Kind, from: nat, content: seq<Record>)
    requires from <= |content|
    requires forall i | from <= i < |content| :: RecordKey(k, kind, i) in rows && rows[RecordKey(k, kind, i)] == content[i]
    ensures RowsFrom(rows, k, kind, from, |content|) == content[from..]
    decreases |content| - from
  {
    if from < |content| { RowsInOrder(rows, k, kind, from + 1, content); }
  }

  lemma BoundOfPrefix(ps: set<nat>, n: nat)
    requires forall i: nat :: i in ps <==> i < n
    ensures Bound(ps) == n
  {
    if n == 0 {
      assert ps == {};
    } else {
      assert n - 1 in ps;
    }
  }

  /** `rows` hold exactly `content`, one row at each position. */
  ghost predicate Hold(rows: Rows, k: SnapshotKey, kind: Kind, content: seq<Record>) {
    && (forall i | 0 <= i < |content| :: RecordKey(k, kind, i) in rows && rows[RecordKey(k, kind, i)] == content[i])
    && (forall r | r in rows && r.owner == k && r.kind == kind :: r.position < |content|)
  }

  lemma SelectsContent(rows: Rows, k: SnapshotKey, kind: Kind, content: seq<Record>)
    requires Hold(rows, k, kind, content)
    ensures RowsFrom(rows, k, kind, 0, Bound(Positions(rows, k, kind))) == content
  {
    forall i: nat ensures i in Positions(rows, k, kind) <==> i < |content| {
      if i < |content| { assert RecordKey(k, kind, i) in rows; }
    }
    BoundOfPrefix(Positions(rows, k, kind), |content|);
    RowsInOrder(rows, k, kind, 0, content);
  }

  lemma RowsHold(k: SnapshotKey, kind: Kind)
    ensures Hold(RowsOf(k), k, kind, Content(k.snapshot, kind))
  {
    var other := if kind.Flows? then Evidence else Flows;
    forall r | r in KindRows(k, other) ensures r.kind != kind {
    }
    assert Hold(KindRows(k, kind), k, kind, Content(k.snapshot, kind));
  }

  /** A query of a stored snapshot selects, in order and each once, the named rows that match. */
  lemma MatchingIsContent(db: Db, k: SnapshotKey, kind: Kind, f: Filters)
    requires Filled(db.snapshots, db.records) && k in db.snapshots
    ensures Matching(db, k, kind, f) == Filtered(Content(k.snapshot, kind), f)
  {
    RowsHold(k, kind);
    SelectsContent(RowsOf(k), k, kind, Content(k.snapshot, kind));
  }

  /* ---------- Following cursors ---------- */

  /** The rows taken fit, and one more would not. */
  lemma {:induction false} FittingBytes(rows: seq<Record>, budget: nat)
    ensures var n := Fitting(rows, budget);
      Bytes(rows[..n]) <= budget && (n < |rows| ==> Bytes(rows[..n]) + rows[n].size > budget)
  {
    if rows != [] && rows[0].size <= budget {
      FittingBytes(rows[1..], budget - rows[0].size);
      var n := Fitting(rows, budget);
      assert rows[..n][1..] == rows[1..][..n - 1];
    }
  }

  function Bytes(rows: seq<Record>): nat {
    if rows == [] then 0 else rows[0].size + Bytes(rows[1..])
  }

  /** Each page is a bounded run of the matching rows; it is refused exactly when the row it starts with is oversized. */
  lemma PageIsBounded(db: Db, req: Request, limit: nat, offset: nat, id: SnapshotId)
    requires limit >= 1
    ensures var all := Matching(db, SnapshotKey(req.analysis, id), req.kind, req.filters);
            match Answer(db, req, limit, offset, id)
            case Page(snapshot, items, total, next) =>
              && snapshot == id && total == |all| && |items| <= limit && Bytes(items) <= MAX_RESPONSE
              && items == Slice(all, offset, |items|)
              && (offset < total ==> items != [])
              && (|items| == limit || offset + |items| >= total
                  || Bytes(items) + all[offset + |items|].size > MAX_RESPONSE)
              && next == if offset + |items| < total then Some(Cursor(req, id, offset + |items|)) else None
            case TooLarge => offset < |all| && all[offset].size > MAX_RESPONSE
            case _ => false
  {
    var all := Matching(db, SnapshotKey(req.analysis, id), req.kind, req.filters);
    var rows := Slice(all, offset, limit);
    FittingBytes(rows, MAX_RESPONSE);
    assert rows[..Fitting(rows, MAX_RESPONSE)] == Slice(all, offset, Fitting(rows, MAX_RESPONSE));
  }

  /** One page request: the database it meets, and the limit it asks for. */
  datatype Visit = Visit(db: Db, limit: nat)
  datatype Trail = Trail(items: seq<Record>, finished: bool, refused: bool)

  /** The pages of one snapshot from an offset on, until the last one or until the visits run out. */
  function Pages(visits: seq<Visit>, req: Request, offset: nat, id: SnapshotId): Trail
    decreases |visits|
  {
    if visits == [] then Trail([], false, false)
    else
      match Answer(visits[0].db, req, visits[0].limit, offset, id)
      case Page(_, items, _, None) => Trail(items, true, false)
      case Page(_, items, _, Some(c)) =>
        var rest := Pages(visits[1..], req, c.offset, c.snapshot);
        rest.(items := items + rest.items)
      case _ => Trail([], false, true)
  }

  /** Every visit asks for a page of a legal size, and meets the same matching rows. */
  ghost predicate Answers(visits: seq<Visit>, req: Request, id: SnapshotId, all: seq<Record>) {
    Others(visits, req, id, all) == {}
  }

  ghost function Others(visits: seq<Visit>, req: Request, id: SnapshotId, all: seq<Record>): set<Visit> {
    set v | v in visits && !AnswersOne(v, req, id, all)
  }

  ghost predicate AnswersOne(v: Visit, req: Request, id: SnapshotId, all: seq<Record>) {
    1 <= v.limit <= 200 && Matching(v.db, SnapshotKey(req.analysis, id), req.kind, req.filters) == all
  }

  ghost predicate AllFit(rows: seq<Record>) { forall r | r in rows :: r.size <= MAX_RESPONSE }

  lemma {:induction false} BytesFit(rows: seq<Record>)
    requires Bytes(rows) <= MAX_RESPONSE
    ensures AllFit(rows)
  {
    if rows != [] { BytesFit(rows[1..]); }
  }

  /** What following the cursors from an offset on has to end in. */
  ghost predicate Ends(trail: Trail, rest: seq<Record>) {
    (if trail.refused && !trail.finished then Trail([], false, true) else trail) == Expected(rest)
  }

  ghost function Expected(rest: seq<Record>): Trail {
    if AllFit(rest) then Trail(rest, true, false) else Trail([], false, true)
  }

  lemma EndsAfter(trail: Trail, items: seq<Record>, rest: seq<Record>)
    requires AllFit(items) && Ends(trail, rest)
    ensures Ends(trail.(items := items + trail.items), items + rest)
  {
    assert AllFit(items + rest) <==> AllFit(rest) by {
      assert forall r | r in rest :: r in items + rest;
    }
  }

  function TrailAfter(reply: Reply, visits: seq<Visit>, req: Request): Trail {
    match reply
    case Page(_, items, _, None) => Trail(items, true, false)
    case Page(_, items, _, Some(c)) => Joined(items, Pages(visits, req, c.offset, c.snapshot))
    case _ => Trail([], false, true)
  }

  function Joined(items: seq<Record>, rest: Trail): Trail { rest.(items := items + rest.items) }

  /** What the page at an offset is, given the matching rows that are left from there on. */
  ghost predicate PageOf(reply: Reply, req: Request, id: SnapshotId, offset: nat, rest: seq<Record>) {
    match reply
    case Page(_, items, _, next) =>
      && items <= rest && Bytes(items) <= MAX_RESPONSE && (rest != [] ==> items != [])
      && next == if |items| < |rest| then Some(Cursor(req, id, offset + |items|)) else None
    case TooLarge => rest != [] && rest[0].size > MAX_RESPONSE
    case _ => false
  }

  lemma SliceOfRest(all: seq<Record>, offset: nat, n: nat)
    requires offset <= |all| && |Slice(all, offset, n)| == n
    ensures Slice(all, offset, n) <= all[offset..]
  {
  }

  /** The first visit of a trail is answered with such a page, whatever the database it meets. */
  lemma FirstReply(visits: seq<Visit>, req: Request, id: SnapshotId, all: seq<Record>, offset: nat, rest: seq<Record>)
    returns (reply: Reply)
    requires visits != [] && Answers(visits, req, id, all) && offset <= |all| && all[offset..] == rest
    ensures PageOf(reply, req, id, offset, rest)
    ensures Pages(visits, req, offset, id) == TrailAfter(reply, visits[1..], req)
  {
    var v := visits[0];
    assert v in visits && v !in Others(visits, req, id, all);
    PageIsBounded(v.db, req, v.limit, offset, id);
    reply := Answer(v.db, req, v.limit, offset, id);
    match reply
    case Page(_, items, _, _) => SliceOfRest(all, offset, |items|);
    case _ =>
  }

  lemma JoinedEnds(items: seq<Record>, later: seq<Record>, trail: Trail)
    requires Bytes(items) <= MAX_RESPONSE && Ends(trail, later)
    ensures Ends(Joined(items, trail), items + later)
  {
    BytesFit(items);
    EndsAfter(trail, items, later);
  }

  lemma LastEnds(reply: Reply, visits: seq<Visit>, req: Request, id: SnapshotId, offset: nat, rest: seq<Record>)
    requires PageOf(reply, req, id, offset, rest) && !(reply.Page? && reply.next.Some?)
    ensures Ends(TrailAfter(reply, visits, req), rest)
  {
    if reply.Page? {
      assert reply.items == rest;
      BytesFit(rest);
    } else {
      assert rest[0] in rest;
    }
  }

  /** The matching rows from an offset on. */
  ghost predicate Left(all: seq<Record>, offset: nat, rest: seq<Record>) { offset <= |all| && all[offset..] == rest }

  lemma LeftLater(all: seq<Record>, offset: nat, rest: seq<Record>, items: seq<Record>) returns (later: seq<Record>)
    requires Left(all, offset, rest) && items <= rest
    ensures rest == items + later && Left(all, offset + |items|, later) && |later| == |rest| - |items|
  {
    later := rest[|items|..];
  }

  /** Enough visits collect what is left when every row fits into a response, and are refused at a row that does not. */
  lemma {:induction false} PagesCollect(visits: seq<Visit>, req: Request, id: SnapshotId, all: seq<Record>, offset: nat,
                                        rest: seq<Record>)
    requires Answers(visits, req, id, all) && Left(all, offset, rest) && |visits| > |rest|
    ensures Ends(Pages(visits, req, offset, id), rest)
    decreases |visits|, 2
  {
    var reply := FirstReply(visits, req, id, all, offset, rest);
    ReplyEnds(visits, req, id, all, offset, rest, reply);
  }

  lemma {:induction false} ReplyEnds(visits: seq<Visit>, req: Request, id: SnapshotId, all: seq<Record>, offset: nat,
                                     rest: seq<Record>, reply: Reply)
    requires Answers(visits, req, id, all) && Left(all, offset, rest) && |visits| > |rest|
    requires PageOf(reply, req, id, offset, rest)
    ensures Ends(TrailAfter(reply, visits[1..], req), rest)
    decreases |visits|, 1
  {
    if reply.Page? && reply.next.Some? {
      var items, at := reply.items, offset + |reply.items|;
      assert reply.next == Some(Cursor(req, id, at));
      var later := LeftLater(all, offset, rest, items);
      PagesGoOn(visits, req, id, all, at, later, items);
      assert TrailAfter(reply, visits[1..], req) == Joined(items, Pages(visits[1..], req, at, id));
    } else {
      LastEnds(reply, visits[1..], req, id, offset, rest);
    }
  }

  lemma {:induction false} PagesGoOn(visits: seq<Visit>, req: Request, id: SnapshotId, all: seq<Record>, offset: nat,
                                     later: seq<Record>, items: seq<Record>)
    requires Answers(visits, req, id, all) && Left(all, offset, later) && |visits| > |later| + 1
    requires Bytes(items) <= MAX_RESPONSE
    ensures Ends(Joined(items, Pages(visits[1..], req, offset, id)), items + later)
    decreases |visits|, 0
  {
    AnswersLater(visits, req, id, all);
    PagesCollect(visits[1..], req, id, all, offset, later);
    JoinedEnds(items, later, Pages(visits[1..], req, offset, id));
  }

  lemma AnswersLater(visits: seq<Visit>, req: Request, id: SnapshotId, all: seq<Record>)
    requires visits != [] && Answers(visits, req, id, all)
    ensures Answers(visits[1..], req, id, all)
  {
    assert Others(visits[1..], req, id, all) <= Others(visits, req, id, all);
  }

  lemma AnswersMore(v: Visit, visits: seq<Visit>, req: Request, id: SnapshotId, all: seq<Record>)
    requires AnswersOne(v, req, id, all) && Answers(visits, req, id, all)
    ensures Answers([v] + visits, req, id, all)
  {
    forall x | x in [v] + visits ensures AnswersOne(x, req, id, all) {
      if x != v { assert x !in Others(visits, req, id, all); }
    }
  }

  /* ---------- While other transactions run between the pages ---------- */

  /** One request of a traversal, and what other clients do to the database after it. */
  datatype Visitor = Visitor(current: Analysis, limit: int, acts: seq<Act>)

  /** A client that presents no cursor first, and then each time the one it was given, until none comes back. */
  function Follow(db: Db, visitors: seq<Visitor>, req: Request, presented: Presented, snapshot: Option<SnapshotId>): Trail
    decreases |visitors|
  {
    if visitors == [] then Trail([], false, false)
    else
      var (reply, after) := Ask(db, visitors[0].current, req, visitors[0].limit, presented, snapshot);
      match reply
      case Page(_, items, _, None) => Trail(items, true, false)
      case Page(_, items, _, Some(c)) =>
        var rest := Follow(RunActs(after, visitors[0].acts), visitors[1..], req, Signed(c), None);
        rest.(items := items + rest.items)
      case _ => Trail([], false, true)
  }

  /** What the client meets at each request, once its snapshot is there. */
  function Visits(db: Db, visitors: seq<Visitor>): seq<Visit>
    requires forall v | v in visitors :: v.limit >= 0
    decreases |visitors|
  {
    if visitors == [] then []
    else [Visit(db, visitors[0].limit)] + Visits(RunActs(db, visitors[0].acts), visitors[1..])
  }

  /** The case stays, and no foreign statement writes under the snapshot's own keys. */
  ghost predicate Undisturbed(db: Db, visitors: seq<Visitor>, k: SnapshotKey, c: CaseId)
    decreases |visitors|
  {
    visitors != [] ==>
      && Throughout(db, visitors[0].acts, c) && LeftAlone(db, visitors[0].acts, k)
      && Undisturbed(RunActs(db, visitors[0].acts), visitors[1..], k, c)
  }

  ghost predicate Askable(req: Request, visitors: seq<Visitor>) {
    forall v | v in visitors :: Acceptable(req, v.limit, Absent, None)
  }

  lemma {:induction false} VisitsAgree(db: Db, visitors: seq<Visitor>, req: Request, id: SnapshotId)
    requires var k := SnapshotKey(req.analysis, id); k in db.snapshots && Undisturbed(db, visitors, k, db.snapshots[k].caseId)
    requires Askable(req, visitors)
    ensures |Visits(db, visitors)| == |visitors|
    ensures Answers(Visits(db, visitors), req, id, Matching(db, SnapshotKey(req.analysis, id), req.kind, req.filters))
    decreases |visitors|
  {
    if visitors != [] {
      var k := SnapshotKey(req.analysis, id);
      SnapshotStays(db, visitors[0].acts, k);
      assert visitors[0] in visitors;
      VisitsAgree(RunActs(db, visitors[0].acts), visitors[1..], req, id);
      AnswersMore(Visit(db, visitors[0].limit), Visits(RunActs(db, visitors[0].acts), visitors[1..]), req, id,
                  Matching(db, k, req.kind, req.filters));
    }
  }

  /** A cursor it was given is accepted, and reads on in the same snapshot. */
  lemma CursorIsAccepted(db: Db, v: Visitor, req: Request, id: SnapshotId, offset: nat)
    requires Acceptable(req, v.limit, Absent, None) && SnapshotKey(req.analysis, id) in db.snapshots
    requires v.current.id == req.analysis
    ensures Ask(db, v.current, req, v.limit, Signed(Cursor(req, id, offset)), None) == (Answer(db, req, v.limit, offset, id), db)
  {
  }

  lemma {:induction false} FollowIsPages(db: Db, visitors: seq<Visitor>, req: Request, id: SnapshotId, offset: nat)
    requires var k := SnapshotKey(req.analysis, id); k in db.snapshots && Undisturbed(db, visitors, k, db.snapshots[k].caseId)
    requires Askable(req, visitors) && forall v | v in visitors :: v.current.id == req.analysis
    ensures Follow(db, visitors, req, Signed(Cursor(req, id, offset)), None) == Pages(Visits(db, visitors), req, offset, id)
    decreases |visitors|
  {
    if visitors != [] {
      var v := visitors[0];
      assert v in visitors;
      CursorIsAccepted(db, v, req, id, offset);
      SnapshotStays(db, v.acts, SnapshotKey(req.analysis, id));
      PageIsBounded(db, req, v.limit, offset, id);
      var visits := Visits(db, visitors);
      assert visits[0] == Visit(db, v.limit) && visits[1..] == Visits(RunActs(db, v.acts), visitors[1..]);
      match Answer(db, req, v.limit, offset, id) {
        case Page(_, _, _, next) =>
          if next.Some? { FollowIsPages(RunActs(db, v.acts), visitors[1..], req, id, next.value.offset); }
        case _ =>
      }
    }
  }

  /**
   * A client that starts without a cursor and follows those it is given to the end gets exactly the matching rows of
   * the snapshot it named, of the latest one, or of one captured for it: in position order, each once, whatever limits
   * it asks for and whatever is saved, captured, deleted or attempted between the pages, short of statements that
   * rewrite or add to that snapshot. It is refused instead exactly when a matching row alone exceeds a response.
   */
  lemma PagingIsComplete(db: Db, visitors: seq<Visitor>, req: Request, snapshot: Option<SnapshotId>, id: SnapshotId)
    requires Consistent(db) && visitors != [] && Askable(req, visitors)
    requires forall v | v in visitors :: v.current.id == req.analysis
    requires Manifest(db, visitors[0].current, snapshot).0 == Some(id)
    requires Undisturbed(Manifest(db, visitors[0].current, snapshot).1, visitors, SnapshotKey(req.analysis, id), id.caseId)
    requires |visitors| > |Filtered(Content(id, req.kind), req.filters)|
    ensures Ends(Follow(db, visitors, req, Absent, snapshot), Filtered(Content(id, req.kind), req.filters))
  {
    var found := Manifest(db, visitors[0].current, snapshot).1;
    FoundIsStored(db, visitors[0].current, snapshot, id);
    assert visitors[0] in visitors;
    FirstIsPinned(db, visitors, req, snapshot, id);
    FollowIsPages(found, visitors, req, id, 0);
    MatchingIsContent(found, SnapshotKey(req.analysis, id), req.kind, req.filters);
    VisitsAgree(found, visitors, req, id);
    var all := Filtered(Content(id, req.kind), req.filters);
    assert all[0..] == all;
    PagesCollect(Visits(found, visitors), req, id, all, 0, all);
  }

  lemma {:induction false} LatestIsListed(order: seq<SnapshotKey>, analysis: AnalysisId)
    ensures Latest(order, analysis).Some? ==> SnapshotKey(analysis, Latest(order, analysis).value) in order
  {
    if order != [] && order[|order| - 1].analysis != analysis { LatestIsListed(order[..|order| - 1], analysis); }
  }

  /** The entry at a position is of the analysis, and no later one is. */
  predicate LastOf(order: seq<SnapshotKey>, analysis: AnalysisId, i: nat) {
    i < |order| && order[i].analysis == analysis && forall j | i < j < |order| :: order[j].analysis != analysis
  }

  /** The snapshot read by default is the one captured last; there is none exactly when the analysis never was. */
  lemma {:induction false} LatestExactly(order: seq<SnapshotKey>, analysis: AnalysisId, id: SnapshotId)
    ensures Latest(order, analysis) == Some(id) <==>
            exists i: nat :: LastOf(order, analysis, i) && order[i] == SnapshotKey(analysis, id)
    ensures Latest(order, analysis) == None <==> forall i | 0 <= i < |order| :: order[i].analysis != analysis
  {
    if order != [] {
      var n := |order| - 1;
      if order[n].analysis == analysis {
        assert LastOf(order, analysis, n);
      } else {
        LatestExactly(order[..n], analysis, id);
        forall i: nat ensures LastOf(order[..n], analysis, i) <==> LastOf(order, analysis, i) {}
        if i: nat :| LastOf(order[..n], analysis, i) && order[..n][i] == SnapshotKey(analysis, id) {
          assert LastOf(order, analysis, i) && order[i] == SnapshotKey(analysis, id);
        }
      }
    }
  }

  /** After a capture of new content, a request that names no snapshot reads that one; of known content, the latest. */
  lemma CapturedIsRead(db: Db, a: Analysis, current: Analysis)
    requires current.id == a.id
    ensures SnapshotKey(a.id, Name(a)) !in db.snapshots ==> Manifest(Capture(db, a), current, None).0 == Some(Name(a))
    ensures SnapshotKey(a.id, Name(a)) !in db.snapshots ==> Manifest(Save(db, a), current, None).0 == Some(Name(a))
    ensures SnapshotKey(a.id, Name(a)) in db.snapshots ==>
              Manifest(Capture(db, a), current, None).0 == Manifest(db, current, None).0
  {
    var k := SnapshotKey(a.id, Name(a));
    if k !in db.snapshots {
      var order := db.order + [k];
      assert LastOf(order, a.id, |db.order|);
      LatestExactly(order, a.id, Name(a));
    }
  }

  /** Whatever was found or captured is a stored snapshot of a consistent database. */
  lemma FoundIsStored(db: Db, current: Analysis, snapshot: Option<SnapshotId>, id: SnapshotId)
    requires Consistent(db) && Manifest(db, current, snapshot).0 == Some(id)
    ensures var found := Manifest(db, current, snapshot).1;
      var k := SnapshotKey(current.id, id);
      Consistent(found) && k in found.snapshots && found.snapshots[k].caseId == id.caseId
  {
    if snapshot.None? {
      LatestIsListed(db.order, current.id);
      CaptureConsistent(db, current);
    }
  }

  /** Asking without a cursor is asking with one for the start of the snapshot found. */
  lemma FirstIsPinned(db: Db, visitors: seq<Visitor>, req: Request, snapshot: Option<SnapshotId>, id: SnapshotId)
    requires visitors != [] && Acceptable(req, visitors[0].limit, Absent, None) && visitors[0].current.id == req.analysis
    requires Manifest(db, visitors[0].current, snapshot).0 == Some(id)
    requires SnapshotKey(req.analysis, id) in Manifest(db, visitors[0].current, snapshot).1.snapshots
    ensures Follow(db, visitors, req, Absent, snapshot)
         == Follow(Manifest(db, visitors[0].current, snapshot).1, visitors, req, Signed(Cursor(req, id, 0)), None)
  {
    CursorIsAccepted(Manifest(db, visitors[0].current, snapshot).1, visitors[0], req, id, 0);
  }
}
