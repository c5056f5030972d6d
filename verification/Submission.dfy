/**
 * Idempotent capture submission under daily quotas (app/agents/submission.py, app/agents/registry.py,
 * app/agents/routes.py).
 */
module Submission {
  import opened Options
  import opened Tables

  const DAY := 86_400

  /** A digest is injective in what it fingerprints, so it stands for it. */
  type Digest = seq<bv8>

  datatype Slot = Slot(actor: string, key: string)

  datatype Operation = Capture | Draft

  datatype Response = Response(caseId: string, id: string)

  datatype Row = Row(operation: Operation, digest: Digest, response: Response, at: nat)

  datatype Key = Key(grants: set<string>, submits: bool, revoked: bool, expires: nat, daily: nat)

  datatype Status = Queued | Running | Ended

  datatype Job = Job(caseId: string, actor: string, upload: string, status: Status)

  datatype Database = Database(retries: map<Slot, Row>, cases: set<string>, jobs: map<string, Job>,
                               notes: map<string, string>, keys: map<string, Key>)

  /**
   * One call: `clean` when it carries the capture and nothing else. The clock is read for the quota, for the expiry
   * and for the row, in that order.
   */
  datatype Request = Request(slot: Slot, digest: Digest, upload: string, caseId: string, jobId: string,
                             begun: nat, checked: nat, ended: nat, depth: nat, clean: bool)

  datatype Refusal = PermissionDenied | Malformed | KeyConflict | BudgetExhausted | QueueFull | InvalidKey

  datatype Transaction = Replay(response: Response) | Refuse(refusal: Refusal) | Commit(db: Database, response: Response)

  function UsedSince(retries: map<Slot, Row>, actor: string, start: nat): set<Slot> {
    set s | s in retries && s.actor == actor && retries[s].operation == Capture && retries[s].at >= start
  }

  function Midnight(at: nat): nat { at / DAY * DAY }

  function Active(jobs: map<string, Job>): set<string> { set j | j in jobs && !jobs[j].status.Ended? }

  /** `AgentRegistry.retry`, then the inserts when the slot is new. */
  function Submitted(db: Database, r: Request): Transaction
    requires r.slot.actor in db.keys
  {
    var key := db.keys[r.slot.actor];
    if r.slot in db.retries then
      var row := db.retries[r.slot];
      if row.digest != r.digest || row.operation != Capture then Refuse(KeyConflict) else Replay(row.response)
    else if |UsedSince(db.retries, r.slot.actor, Midnight(r.begun))| >= key.daily then Refuse(BudgetExhausted)
    else if |Active(db.jobs)| >= r.depth then Refuse(QueueFull)
    else if key.revoked || key.expires <= r.checked then Refuse(InvalidKey)
    else Commit(Inserted(db, r), Response(r.caseId, r.jobId))
  }

  function Inserted(db: Database, r: Request): Database
    requires r.slot.actor in db.keys
  {
    var key := db.keys[r.slot.actor];
    db.(cases := db.cases + {r.caseId},
        jobs := db.jobs[r.jobId := Job(r.caseId, r.slot.actor, r.upload, Queued)],
        keys := db.keys[r.slot.actor := key.(grants := key.grants + {r.caseId})],
        retries := db.retries[r.slot := Row(Capture, r.digest, Response(r.caseId, r.jobId), r.ended)])
  }

  /** `append_draft`'s transaction. */
  function AppendDraft(db: Database, slot: Slot, digest: Digest, caseId: string, noteId: string, at: nat): Transaction {
    if slot in db.retries then
      var row := db.retries[slot];
      if row.digest != digest || row.operation != Draft then Refuse(KeyConflict) else Replay(row.response)
    else
      var response := Response(caseId, noteId);
      Commit(db.(notes := db.notes[noteId := caseId], retries := db.retries[slot := Row(Draft, digest, response, at)]), response)
  }

  /** What `delete_case` removes of these tables. */
  function DeleteCase(db: Database, c: string): Database {
    db.(cases := db.cases - {c},
        jobs := map j | j in db.jobs && db.jobs[j].caseId != c :: db.jobs[j],
        notes := map n | n in db.notes && db.notes[n] != c :: db.notes[n],
        retries := map s | s in db.retries && db.retries[s].response.caseId != c :: db.retries[s])
  }

  predicate KeyCharacter(c: char) {
    'A' <= c <= 'Z' || 'a' <= c <= 'z' || '0' <= c <= '9' || c in {'_', '.', ':', '-'}
  }

  predicate WellKeyed(key: string) { 8 <= |key| <= 128 && forall c | c in key :: KeyCharacter(c) }

  const UPPER := "ABCDEFGHIJKLMNOPQRSTUVWXYZ"
  const LOWER := "abcdefghijklmnopqrstuvwxyz"
  const DIGITS := "0123456789"

  predicate InAlphabet(c: char) { c in UPPER || c in LOWER || c in DIGITS || c in "_.:-" }

  lemma UpperAre(c: char)
    ensures 'A' <= c <= 'Z' <==> c in UPPER
  {
    if 'A' <= c <= 'Z' { assert UPPER[c as int - 'A' as int] == c; }
  }

  lemma LowerAre(c: char)
    ensures 'a' <= c <= 'z' <==> c in LOWER
  {
    if 'a' <= c <= 'z' { assert LOWER[c as int - 'a' as int] == c; }
  }

  lemma DigitsAre(c: char)
    ensures '0' <= c <= '9' <==> c in DIGITS
  {
    if '0' <= c <= '9' { assert DIGITS[c as int - '0' as int] == c; }
  }

  lemma KeyCharactersAre(c: char)
    ensures KeyCharacter(c) <==> InAlphabet(c)
  {
    UpperAre(c);
    LowerAre(c);
    DigitsAre(c);
    var signs := "_.:-";
    assert signs[0] == '_' && signs[1] == '.' && signs[2] == ':' && signs[3] == '-';
  }

  /** Any word over the alphabet is a key from eight characters up to 128, and nothing else is one. */
  lemma KeysAreWords(key: string)
    ensures WellKeyed(key) <==> |key| > 7 && |key| < 129 && forall i | 0 <= i < |key| :: InAlphabet(key[i])
  {
    forall i | 0 <= i < |key| ensures KeyCharacter(key[i]) <==> InAlphabet(key[i]) { KeyCharactersAre(key[i]); }
    forall c | c in key ensures KeyCharacter(c) <==> InAlphabet(c) { KeyCharactersAre(c); }
  }

  function Handled(db: Database, r: Request): Transaction
    requires r.slot.actor in db.keys
  {
    if !db.keys[r.slot.actor].submits then Refuse(PermissionDenied)
    else if !r.clean || !WellKeyed(r.slot.key) then Refuse(Malformed)
    else Submitted(db, r)
  }

  /** The agent may submit, and the call is in form. */
  predicate Admissible(db: Database, r: Request) {
    r.slot.actor in db.keys && db.keys[r.slot.actor].submits && r.clean && WellKeyed(r.slot.key)
  }

  /** The key is good when it is looked at. */
  predicate Current(db: Database, r: Request) {
    r.slot.actor in db.keys && !db.keys[r.slot.actor].revoked && r.checked < db.keys[r.slot.actor].expires
  }

  /** There is room for one more capture of the agent's day. */
  predicate InBudget(db: Database, r: Request) {
    r.slot.actor in db.keys && |UsedSince(db.retries, r.slot.actor, Midnight(r.begun))| < db.keys[r.slot.actor].daily
  }

  predicate InQueue(db: Database, r: Request) { |Active(db.jobs)| < r.depth }

  /** The same call, or another one, was remembered under the key. */
  predicate Known(db: Database, r: Request) { r.slot in db.retries }

  predicate Same(db: Database, r: Request) {
    Known(db, r) && db.retries[r.slot].digest == r.digest && db.retries[r.slot].operation == Capture
  }

  /** What each answer to a call says about it: every refusal is for its own reason. */
  lemma AnswersExactly(db: Database, r: Request)
    requires r.slot.actor in db.keys
    ensures var t := Handled(db, r);
      && (t == Refuse(PermissionDenied) <==> !db.keys[r.slot.actor].submits)
      && (t == Refuse(Malformed) <==> db.keys[r.slot.actor].submits && !(r.clean && WellKeyed(r.slot.key)))
      && (t.Replay? <==> Admissible(db, r) && Same(db, r))
      && (t == Refuse(KeyConflict) <==> Admissible(db, r) && Known(db, r) && !Same(db, r))
      && (t == Refuse(BudgetExhausted) <==> Admissible(db, r) && !Known(db, r) && !InBudget(db, r))
      && (t == Refuse(QueueFull) <==> Admissible(db, r) && !Known(db, r) && InBudget(db, r) && !InQueue(db, r))
      && (t == Refuse(InvalidKey) <==>
            Admissible(db, r) && !Known(db, r) && InBudget(db, r) && InQueue(db, r) && !Current(db, r))
      && (t.Commit? <==>
            Admissible(db, r) && !Known(db, r) && InBudget(db, r) && InQueue(db, r) && Current(db, r))
  {
  }

  function Waiting(jobs: map<string, Job>): set<string> { set j | j in jobs && jobs[j].status == Queued }

  /** The job to hand to the queue after the call: the one answered with, while it is waiting. */
  function ToDispatch(db: Database, answered: bool, response: Response): Option<string> {
    if answered && response.id in db.jobs && db.jobs[response.id].status.Queued? then Some(response.id) else None
  }

  /** The registry's database and the upload directory beside it. */
  class Registry {
    var db: Database
    var uploads: set<string>

    /** The file is written first and removed again unless a commit was attempted; a commit can still fail. */
    method Submit(r: Request, commits: bool) returns (transaction: Transaction, dispatched: Option<string>)
      requires r.slot.actor in db.keys && r.upload !in uploads
      modifies this
      ensures transaction == Handled(old(db), r)
      ensures db == if transaction.Commit? && commits then transaction.db else old(db)
      ensures uploads == if transaction.Commit? then old(uploads) + {r.upload} else old(uploads)
      ensures dispatched == if transaction.Refuse? then None
                            else ToDispatch(db, transaction.Replay? || commits, transaction.response)
      ensures !transaction.Commit? ==> db == old(db) && uploads == old(uploads)
      ensures transaction.Refuse? ==> dispatched == None
      ensures transaction.Commit? && commits ==>
                && dispatched == Some(r.jobId) && r.caseId in db.cases && r.upload in uploads
                && db.jobs[r.jobId] == Job(r.caseId, r.slot.actor, r.upload, Queued)
                && r.caseId in db.keys[r.slot.actor].grants
      ensures transaction.Replay? ==> transaction.response == old(db).retries[r.slot].response
      ensures dispatched.Some? ==> dispatched.value == transaction.response.id
      ensures transaction.Replay? ==> (dispatched.Some? <==> transaction.response.id in Waiting(db.jobs))
    {
      dispatched := None;
      if !db.keys[r.slot.actor].submits { return Refuse(PermissionDenied), None; }
      if !r.clean || !WellKeyed(r.slot.key) { return Refuse(Malformed), None; }
      uploads := uploads + {r.upload};
      transaction := Transact(r, commits);
      if transaction.Commit? {
        if !commits { return; }
      } else {
        uploads := uploads - {r.upload};
        if transaction.Refuse? { return; }
      }
      var id := transaction.response.id;
      if id in db.jobs && db.jobs[id].status.Queued? { dispatched := Some(id); }
    }

    /** The transaction: its inserts are made on the connection and rolled back together. */
    method Transact(r: Request, commits: bool) returns (transaction: Transaction)
      requires r.slot.actor in db.keys
      modifies this`db
      ensures transaction == Submitted(old(db), r)
      ensures db == if transaction.Commit? && commits then transaction.db else old(db)
    {
      var conn := db;
      if r.slot in conn.retries {
        var row := conn.retries[r.slot];
        if row.digest != r.digest || row.operation != Capture { return Refuse(KeyConflict); }
        return Replay(row.response);
      }
      var used := |UsedSince(conn.retries, r.slot.actor, Midnight(r.begun))|;
      if used >= conn.keys[r.slot.actor].daily { return Refuse(BudgetExhausted); }
      var active := |Active(conn.jobs)|;
      if active >= r.depth { return Refuse(QueueFull); }
      conn := conn.(cases := conn.cases + {r.caseId});
      conn := conn.(jobs := conn.jobs[r.jobId := Job(r.caseId, r.slot.actor, r.upload, Queued)]);
      var current := conn.keys[r.slot.actor];
      if current.revoked || current.expires <= r.checked { return Refuse(InvalidKey); }
      conn := conn.(keys := conn.keys[r.slot.actor := current.(grants := current.grants + {r.caseId})]);
      var result := Response(r.caseId, r.jobId);
      conn := conn.(retries := conn.retries[r.slot := Row(Capture, r.digest, result, r.ended)]);
      if commits { db := conn; }
      transaction := Commit(conn, result);
    }
  }

  datatype Read = TooLarge | InvalidFormat | Accepted(content: seq<bv8>)

  function Concat(chunks: seq<seq<bv8>>): seq<bv8> {
    if chunks == [] then [] else Concat(chunks[..|chunks| - 1]) + chunks[|chunks| - 1]
  }

  /** The content is the chunks end to end. */
  lemma {:induction false} ConcatIsFlat(a: seq<seq<bv8>>, b: seq<seq<bv8>>, chunk: seq<bv8>)
    ensures Concat([chunk]) == chunk && Concat(a + b) == Concat(a) + Concat(b)
    decreases |b|
  {
    assert [chunk][..0] == [];
    if b == [] {
      assert a + b == a;
    } else {
      var front := b[..|b| - 1];
      ConcatIsFlat(a, front, chunk);
      assert (a + b)[..|a + b| - 1] == a + front;
    }
  }

  function First8(chunk: seq<bv8>): (r: seq<bv8>)
    ensures r <= chunk && (r == chunk || |r| == 8) && |r| <= 8
  {
    if |chunk| < 8 then chunk else chunk[..8]
  }

  lemma {:induction false} ConcatGrows(chunks: seq<seq<bv8>>, i: nat)
    requires i <= |chunks|
    ensures |Concat(chunks[..i])| <= |Concat(chunks)|
  {
    if i == |chunks| {
      assert chunks[..i] == chunks;
    } else {
      ConcatGrows(chunks[..|chunks| - 1], i);
      assert chunks[..|chunks| - 1][..i] == chunks[..i];
    }
  }

  /**
   * The reading loop: the content is accepted whole, exactly when it is within the maximum and its first chunk
   * has a capture's magic.
   */
  method ReadCapture(chunks: seq<seq<bv8>>, maximum: nat, magic: seq<bv8> -> bool) returns (r: Read)
    requires forall c | c in chunks :: c != []
    ensures r.TooLarge? <==> |Concat(chunks)| > maximum
    ensures r.Accepted? <==> |Concat(chunks)| <= maximum && magic(if chunks == [] then [] else First8(chunks[0]))
    ensures r.Accepted? ==> r.content == Concat(chunks)
  {
    var head, size, output: seq<bv8> := [], 0, [];
    for i := 0 to |chunks|
      invariant output == Concat(chunks[..i]) && size == |output| <= maximum
      invariant head == if i == 0 then [] else First8(chunks[0])
    {
      var chunk := chunks[i];
      assert chunk in chunks && chunks[0] in chunks;
      assert |First8(chunks[0])| > 0;
      assert chunks[..i + 1][..i] == chunks[..i];
      if head == [] { head := First8(chunk); }
      size := size + |chunk|;
      if size > maximum {
        ConcatGrows(chunks, i + 1);
        return TooLarge;
      }
      output := output + chunk;
    }
    assert chunks[..|chunks|] == chunks;
    if !magic(head) { return InvalidFormat; }
    r := Accepted(output);
  }

  // Runs of the registry.

  /** A committed submission, remembered by its case for good. */
  datatype Made = Made(slot: Slot, digest: Digest, jobId: string, upload: string, at: nat)

  datatype World = World(db: Database, uploads: set<string>, clock: nat, made: map<string, Made>,
                         orphans: set<string>, swept: set<string>)

  datatype Step =
    | Submit(request: Request, commits: bool)
    | Append(slot: Slot, digest: Digest, caseId: string, noteId: string, at: nat)
    | Delete(caseId: string)
    | Move(jobId: string, status: Status)
    | Create(actor: string, key: Key)
    | Revoke(actor: string)
    | Sweep(jobs: set<string>, files: set<string>)
    | ClearAll

  /** Identifiers are drawn at random and never repeat; the clock never runs backwards. */
  ghost predicate Enabled(w: World, step: Step) {
    match step
    case Submit(r, _) =>
      && r.slot.actor in w.db.keys
      && w.clock <= r.begun <= r.checked <= r.ended
      && r.upload !in w.uploads && r.upload !in w.swept
      && r.caseId !in w.db.cases && r.caseId !in w.made
      && r.jobId !in w.db.jobs && forall c | c in w.made :: w.made[c].jobId != r.jobId
    case Append(slot, _, caseId, noteId, at) =>
      slot.actor in w.db.keys && caseId in w.db.cases && noteId !in w.db.notes && w.clock <= at
    case Delete(_) => true
    case Move(jobId, status) =>
      jobId in w.db.jobs && status != Queued && (w.db.jobs[jobId].status.Ended? ==> status.Ended?)
    case Create(actor, _) => actor !in w.db.keys
    case Revoke(actor) => actor in w.db.keys
    case Sweep(jobs, _) => forall j | j in jobs :: j in w.db.jobs && w.db.jobs[j].status.Ended?
    case ClearAll => true
  }

  ghost function Apply(w: World, step: Step): World
    requires Enabled(w, step)
  {
    match step
    case Submit(r, commits) => ApplySubmit(w, r, commits)
    case Append(slot, digest, caseId, noteId, at) =>
      var t := AppendDraft(w.db, slot, digest, caseId, noteId, at);
      w.(db := if t.Commit? then t.db else w.db, clock := at)
    case Delete(c) => w.(db := DeleteCase(w.db, c))
    case Move(j, status) => w.(db := w.db.(jobs := w.db.jobs[j := w.db.jobs[j].(status := status)]))
    case Create(a, key) => w.(db := w.db.(keys := w.db.keys[a := key]))
    case Revoke(a) => w.(db := w.db.(keys := w.db.keys[a := w.db.keys[a].(revoked := true)]))
    case Sweep(jobs, files) =>
      w.(db := w.db.(jobs := w.db.jobs - jobs), uploads := w.uploads - files, swept := w.swept + w.uploads * files)
    case ClearAll => w.(db := Database(map[], {}, map[], map[], map a | a in w.db.keys :: w.db.keys[a].(grants := {})))
  }

  ghost function ApplySubmit(w: World, r: Request, commits: bool): World
    requires r.slot.actor in w.db.keys
  {
    var t := Handled(w.db, r);
    var timed := w.(clock := r.ended);
    if !t.Commit? then timed
    else if !commits then timed.(uploads := w.uploads + {r.upload}, orphans := w.orphans + {r.upload})
    else timed.(db := t.db, uploads := w.uploads + {r.upload},
                made := w.made[r.caseId := Made(r.slot, r.digest, r.jobId, r.upload, r.ended)])
  }

  ghost predicate Legal(w: World, steps: seq<Step>)
    decreases |steps|
  {
    steps == [] || (Enabled(w, steps[0]) && Legal(Apply(w, steps[0]), steps[1..]))
  }

  ghost function Run(w: World, steps: seq<Step>): World
    requires Legal(w, steps)
    decreases |steps|
  {
    if steps == [] then w else Run(Apply(w, steps[0]), steps[1..])
  }

  /** An empty registry in front of any other cases and jobs. */
  ghost predicate Initial(w: World) {
    w.db.retries == map[] && w.made == map[] && w.uploads == {} && w.orphans == {} && w.swept == {}
  }

  /** A capture row remembers a case that is there and was made for it. */
  ghost predicate RowsAreMade(retries: map<Slot, Row>, cases: set<string>, made: map<string, Made>) {
    forall s | s in retries && retries[s].operation == Capture ::
      var row := retries[s];
      && row.response.caseId in cases && row.response.caseId in made
      && var m := made[row.response.caseId]; m.slot == s && m.digest == row.digest && m.jobId == row.response.id && m.at == row.at
  }

  /** A case made and still there is remembered under its key. */
  ghost predicate MadeHasRow(retries: map<Slot, Row>, cases: set<string>, made: map<string, Made>) {
    forall c | c in made && c in cases ::
      made[c].slot in retries && retries[made[c].slot].operation == Capture && retries[made[c].slot].response.caseId == c
  }

  /** Its job, until that is swept, is the one created with it, and its creator is granted the case. */
  ghost predicate MadeHasJob(db: Database, made: map<string, Made>) {
    forall c | c in made && c in db.cases ::
      var m := made[c];
      && (m.jobId in db.jobs ==> db.jobs[m.jobId].(status := Queued) == Job(c, m.slot.actor, m.upload, Queued))
      && m.slot.actor in db.keys && c in db.keys[m.slot.actor].grants
  }

  ghost predicate Timely(retries: map<Slot, Row>, keys: map<string, Key>, clock: nat) {
    forall s | s in retries :: s.actor in keys && retries[s].at <= clock
  }

  /** The capture rows of one actor and one day. */
  function UsedOn(retries: map<Slot, Row>, actor: string, day: nat): set<Slot> {
    set s | s in retries && s.actor == actor && retries[s].operation == Capture && retries[s].at / DAY == day
  }

  ghost predicate Within(retries: map<Slot, Row>, keys: map<string, Key>) {
    forall a, day: nat | a in keys :: |UsedOn(retries, a, day)| <= keys[a].daily
  }

  function UploadsOf(made: map<string, Made>): set<string> { set c | c in made :: made[c].upload }

  ghost predicate Inv(w: World) {
    && RowsAreMade(w.db.retries, w.db.cases, w.made)
    && MadeHasRow(w.db.retries, w.db.cases, w.made)
    && MadeHasJob(w.db, w.made)
    && Timely(w.db.retries, w.db.keys, w.clock)
    && Within(w.db.retries, w.db.keys)
    && Accounted(w)
  }

  /** Every file kept belongs to one created job or to one failed commit, until it is swept. */
  ghost predicate Accounted(w: World) {
    w.uploads == UploadsOf(w.made) + w.orphans - w.swept && w.swept <= UploadsOf(w.made) + w.orphans
  }

  lemma InitialInv(w: World)
    requires Initial(w)
    ensures Inv(w)
  {
    forall a, day: nat | a in w.db.keys ensures |UsedOn(w.db.retries, a, day)| <= w.db.keys[a].daily {
      assert UsedOn(w.db.retries, a, day) == {};
    }
  }

  lemma Smaller<T>(a: set<T>, b: set<T>)
    requires a <= b
    ensures |a| <= |b|
  {
    assert b == a + (b - a);
  }

  /** A call that straddles midnight is checked against the old day and counted on the new one, where it is the first. */
  lemma QuotaKept(retries: map<Slot, Row>, slot: Slot, row: Row, begun: nat, clock: nat, daily: nat, day: nat)
    requires slot !in retries && (forall s | s in retries :: retries[s].at <= clock)
    requires clock <= begun <= row.at
    requires |UsedSince(retries, slot.actor, Midnight(begun))| < daily
    requires |UsedOn(retries, slot.actor, day)| <= daily
    ensures |UsedOn(retries[slot := row], slot.actor, day)| <= daily
  {
    var before, after := UsedOn(retries, slot.actor, day), UsedOn(retries[slot := row], slot.actor, day);
    assert after <= before + {slot};
    if row.at / DAY != day {
      assert after == before;
    } else {
      Smaller(after, before + {slot});
      if begun / DAY == day {
        assert before <= UsedSince(retries, slot.actor, Midnight(begun));
        Smaller(before, UsedSince(retries, slot.actor, Midnight(begun)));
      } else {
        assert before == {};
      }
    }
  }

  lemma SubmitKeepsQuota(w: World, r: Request, commits: bool)
    requires Enabled(w, Step.Submit(r, commits)) && Timely(w.db.retries, w.db.keys, w.clock)
    requires Within(w.db.retries, w.db.keys)
    requires Handled(w.db, r).Commit?
    ensures Within(Inserted(w.db, r).retries, Inserted(w.db, r).keys)
  {
    var after := Inserted(w.db, r);
    forall a, day: nat | a in after.keys ensures |UsedOn(after.retries, a, day)| <= after.keys[a].daily {
      if a == r.slot.actor {
        QuotaKept(w.db.retries, r.slot, after.retries[r.slot], r.begun, w.clock, w.db.keys[a].daily, day);
      } else {
        assert UsedOn(after.retries, a, day) == UsedOn(w.db.retries, a, day);
      }
    }
  }

  lemma SubmitKeepsRows(db: Database, r: Request, made: map<string, Made>)
    requires r.slot.actor in db.keys && r.slot !in db.retries && r.caseId !in made && r.caseId !in db.cases
    requires RowsAreMade(db.retries, db.cases, made) && MadeHasRow(db.retries, db.cases, made)
    ensures var made' := made[r.caseId := Made(r.slot, r.digest, r.jobId, r.upload, r.ended)];
      && RowsAreMade(Inserted(db, r).retries, Inserted(db, r).cases, made')
      && MadeHasRow(Inserted(db, r).retries, Inserted(db, r).cases, made')
  {
  }

  lemma SubmitKeepsJobs(db: Database, r: Request, made: map<string, Made>)
    requires r.slot.actor in db.keys && r.jobId !in db.jobs && forall c | c in made :: made[c].jobId != r.jobId
    requires r.caseId !in made && r.caseId !in db.cases && MadeHasJob(db, made)
    ensures MadeHasJob(Inserted(db, r), made[r.caseId := Made(r.slot, r.digest, r.jobId, r.upload, r.ended)])
  {
  }

  lemma SubmitKeeps(w: World, r: Request, commits: bool)
    requires Enabled(w, Step.Submit(r, commits)) && Inv(w)
    ensures Inv(ApplySubmit(w, r, commits))
  {
    if Handled(w.db, r).Commit? && commits {
      var made := w.made[r.caseId := Made(r.slot, r.digest, r.jobId, r.upload, r.ended)];
      SubmitKeepsQuota(w, r, commits);
      SubmitKeepsRows(w.db, r, w.made);
      SubmitKeepsJobs(w.db, r, w.made);
      UploadAdded(w.made, r.caseId, made[r.caseId]);
    }
  }

  lemma UploadAdded(made: map<string, Made>, c: string, m: Made)
    requires c !in made
    ensures UploadsOf(made[c := m]) == UploadsOf(made) + {m.upload}
  {
    var after := made[c := m];
    assert c in after && after[c].upload == m.upload;
    assert forall d | d in made :: d in after && after[d] == made[d];
  }

  lemma RowsShrink(before: map<Slot, Row>, after: map<Slot, Row>, keys: map<string, Key>)
    requires Within(before, keys)
    requires forall s | s in after && after[s].operation == Capture :: s in before && before[s] == after[s]
    ensures Within(after, keys)
  {
    forall a, day: nat | a in keys ensures |UsedOn(after, a, day)| <= keys[a].daily {
      Smaller(UsedOn(after, a, day), UsedOn(before, a, day));
    }
  }

  lemma AppendKeeps(w: World, step: Step)
    requires step.Append? && Enabled(w, step) && Inv(w)
    ensures Inv(Apply(w, step))
  {
    RowsShrink(w.db.retries, Apply(w, step).db.retries, w.db.keys);
  }

  lemma DeleteKeeps(w: World, c: string)
    requires Inv(w)
    ensures Inv(w.(db := DeleteCase(w.db, c)))
  {
    RowsShrink(w.db.retries, DeleteCase(w.db, c).retries, w.db.keys);
  }

  lemma KeysKeep(w: World, step: Step)
    requires (step.Move? || step.Create? || step.Revoke? || step.Sweep?) && Enabled(w, step) && Inv(w)
    ensures Inv(Apply(w, step))
  {
    var after := Apply(w, step).db;
    forall a, day: nat | a in after.keys ensures |UsedOn(after.retries, a, day)| <= after.keys[a].daily {
      if a !in w.db.keys { assert UsedOn(after.retries, a, day) == {}; }
    }
  }

  lemma ClearKeeps(w: World)
    requires Inv(w)
    ensures Inv(Apply(w, ClearAll))
  {
    var after := Apply(w, ClearAll).db;
    forall a, day: nat | a in after.keys ensures |UsedOn(after.retries, a, day)| <= after.keys[a].daily {
      assert UsedOn(after.retries, a, day) == {};
    }
  }

  lemma StepKeeps(w: World, step: Step)
    requires Enabled(w, step) && Inv(w)
    ensures Inv(Apply(w, step))
  {
    match step
    case Submit(r, commits) => SubmitKeeps(w, r, commits);
    case Append(_, _, _, _, _) => AppendKeeps(w, step);
    case Delete(c) => DeleteKeeps(w, c);
    case ClearAll => ClearKeeps(w);
    case _ => KeysKeep(w, step);
  }

  lemma {:induction false} RunKeeps(w: World, steps: seq<Step>)
    requires Legal(w, steps) && Inv(w)
    ensures Inv(Run(w, steps))
    decreases |steps|
  {
    if steps != [] {
      StepKeeps(w, steps[0]);
      RunKeeps(Apply(w, steps[0]), steps[1..]);
    }
  }

  // What clients and operators may rely on.

  /**
   * However often a key is retried, at most one live case answers to it, with one job and one upload, and its
   * creator may read it.
   */
  lemma OneCasePerKey(start: World, steps: seq<Step>, c: string, d: string)
    requires Initial(start) && Legal(start, steps)
    requires var w := Run(start, steps);
      c in w.made && c in w.db.cases && d in w.made && d in w.db.cases && w.made[c].slot == w.made[d].slot
    ensures c == d
    ensures var w := Run(start, steps); var m := w.made[c];
      && (m.jobId in w.db.jobs ==> w.db.jobs[m.jobId].caseId == c && w.db.jobs[m.jobId].upload == m.upload)
      && (m.upload in w.uploads || m.upload in w.swept)
      && m.slot.actor in w.db.keys && c in w.db.keys[m.slot.actor].grants
  {
    InitialInv(start);
    RunKeeps(start, steps);
    var w := Run(start, steps);
    assert w.made[c].upload in UploadsOf(w.made);
  }

  ghost predicate Spares(steps: seq<Step>, c: string) {
    forall i | 0 <= i < |steps| :: steps[i] != Delete(c) && !steps[i].ClearAll?
  }

  lemma {:induction false} LivesOn(w: World, steps: seq<Step>, c: string)
    requires Legal(w, steps) && Inv(w) && c in w.made && c in w.db.cases && Spares(steps, c)
    ensures Inv(Run(w, steps)) && c in Run(w, steps).made && c in Run(w, steps).db.cases
    ensures Run(w, steps).made[c] == w.made[c]
    decreases |steps|
  {
    if steps != [] {
      var next := Apply(w, steps[0]);
      StepKeeps(w, steps[0]);
      assert next.made[c] == w.made[c] && c in next.db.cases by {
        assert steps[0] != Delete(c) && !steps[0].ClearAll?;
      }
      assert Spares(steps[1..], c);
      LivesOn(next, steps[1..], c);
    }
  }

  /**
   * A stored response is given back for as long as its case is kept: to the same capture, and to nothing else
   * under that key.
   */
  lemma ReplayForever(start: World, before: seq<Step>, after: seq<Step>, r: Request, retry: Request)
    requires Initial(start) && Legal(start, before)
    requires var w := Run(start, before); Enabled(w, Step.Submit(r, true)) && Handled(w.db, r).Commit?
    requires var w := ApplySubmit(Run(start, before), r, true); Legal(w, after) && Spares(after, r.caseId)
    requires retry.slot == r.slot && retry.clean
    ensures var w := Run(ApplySubmit(Run(start, before), r, true), after);
      && r.slot.actor in w.db.keys
      && Handled(w.db, retry) == (if retry.digest == r.digest then Replay(Response(r.caseId, r.jobId)) else Refuse(KeyConflict))
      && forall digest, caseId, noteId, at :: AppendDraft(w.db, r.slot, digest, caseId, noteId, at) == Refuse(KeyConflict)
  {
    InitialInv(start);
    RunKeeps(start, before);
    var created := ApplySubmit(Run(start, before), r, true);
    SubmitKeeps(Run(start, before), r, true);
    LivesOn(created, after, r.caseId);
    PermissionStays(created, after, r.slot.actor);
  }

  /** Permission and expiry of a key are set when it is made. */
  lemma {:induction false} PermissionStays(w: World, steps: seq<Step>, actor: string)
    requires Legal(w, steps) && actor in w.db.keys
    ensures var after := Run(w, steps).db.keys;
      && actor in after && after[actor].submits == w.db.keys[actor].submits
      && after[actor].expires == w.db.keys[actor].expires && after[actor].daily == w.db.keys[actor].daily
    decreases |steps|
  {
    if steps != [] { PermissionStays(Apply(w, steps[0]), steps[1..], actor); }
  }

  // What the single steps do.

  /** A draft is stored once: the same call is answered with it, and every other call under its key is refused. */
  lemma DraftIsRemembered(db: Database, slot: Slot, digest: Digest, c: string, n: string, at: nat, again: Digest, r: Request)
    requires slot !in db.retries && slot.actor in db.keys && r.slot == slot
    ensures var t := AppendDraft(db, slot, digest, c, n, at);
      && t.Commit? && t.response == Response(c, n) && t.db.notes == db.notes + map[n := c]
      && t.db.retries - {slot} == db.retries
      && t.db.cases == db.cases && t.db.jobs == db.jobs && t.db.keys == db.keys
      && (forall c', n', later :: AppendDraft(t.db, slot, again, c', n', later) ==
            if again == digest then Replay(Response(c, n)) else Refuse(KeyConflict))
      && (Admissible(db, r) ==> Handled(t.db, r) == Refuse(KeyConflict))
  {
  }

  /** A deletion takes one case's rows and no others. */
  lemma DeletionIsExact(db: Database, c: string)
    ensures var after := DeleteCase(db, c);
      && (forall d :: d in after.cases <==> d in db.cases && d != c)
      && Without(db.jobs, after.jobs, iset j | j in db.jobs && db.jobs[j].caseId == c)
      && Without(db.notes, after.notes, iset n | n in db.notes && db.notes[n] == c)
      && Without(db.retries, after.retries, iset s | s in db.retries && db.retries[s].response.caseId == c)
      && after.keys == db.keys
  {
  }

  /** A job that ends makes room in a full queue, one that starts does not; it stays the job it was. */
  lemma MoveMakesRoom(w: World, j: string, status: Status)
    requires Enabled(w, Move(j, status))
    ensures var before, after := w.db.jobs, Apply(w, Move(j, status)).db.jobs;
      && after.Keys == before.Keys && after[j].status == status
      && after[j].caseId == before[j].caseId && after[j].actor == before[j].actor && after[j].upload == before[j].upload
      && (forall i | i in before && i != j :: after[i] == before[i])
      && |Active(after)| == |Active(before)| - if j in Active(before) && status.Ended? then 1 else 0
  {
    var before, after := Active(w.db.jobs), Active(Apply(w, Move(j, status)).db.jobs);
    if status.Ended? && j in before {
      assert after == before - {j};
    } else {
      assert after == before;
    }
  }

  /** The key a new agent is given is the one its calls are judged by. */
  lemma CreatedKeyCounts(w: World, actor: string, key: Key, r: Request)
    requires Inv(w) && Enabled(w, Create(actor, key)) && r.slot.actor == actor
    requires r.clean && WellKeyed(r.slot.key) && |Active(w.db.jobs)| < r.depth
    ensures var db := Apply(w, Create(actor, key)).db;
      && (Handled(db, r).Commit? <==> key.submits && !key.revoked && r.checked < key.expires && key.daily > 0)
      && forall other | other in w.db.keys :: other in db.keys && db.keys[other] == w.db.keys[other]
  {
    assert UsedSince(w.db.retries, actor, Midnight(r.begun)) == {};
  }

  /** Nothing of a cleared registry is left but the keys, which reach no case any more. */
  lemma ClearedIsEmpty(w: World)
    ensures var db := Apply(w, ClearAll).db;
      && db.cases == {} && db.jobs == map[] && db.notes == map[] && db.retries == map[]
      && db.keys.Keys == w.db.keys.Keys
      && forall a | a in db.keys ::
           && db.keys[a].grants == {} && db.keys[a].submits == w.db.keys[a].submits
           && db.keys[a].revoked == w.db.keys[a].revoked && db.keys[a].expires == w.db.keys[a].expires
           && db.keys[a].daily == w.db.keys[a].daily
  {
  }

  /** A sweep takes the ended jobs and the files it names, and nothing else. */
  lemma SweepTakesOnly(w: World, jobs: set<string>, files: set<string>)
    requires Enabled(w, Sweep(jobs, files))
    ensures var after := Apply(w, Sweep(jobs, files));
      && Without(w.db.jobs, after.db.jobs, iset j | j in jobs)
      && (forall f :: f in after.uploads <==> f in w.uploads && f !in files)
      && Active(after.db.jobs) == Active(w.db.jobs)
      && after.db.cases == w.db.cases && after.db.retries == w.db.retries && after.db.keys == w.db.keys
  {
  }

  /** The live captures of one actor on one day. */
  ghost function LiveOn(w: World, actor: string, day: nat): set<string> {
    set c | c in w.made && c in w.db.cases && w.made[c].slot.actor == actor && w.made[c].at / DAY == day
  }

  ghost function MadeOn(w: World, actor: string, day: nat): set<string> {
    set c | c in w.made && w.made[c].slot.actor == actor && w.made[c].at / DAY == day
  }

  lemma {:induction false} SlotsOf(cases: set<string>, made: map<string, Made>, slots: set<Slot>)
    requires forall c | c in cases :: c in made && made[c].slot in slots
    requires forall c, d | c in cases && d in cases :: made[c].slot == made[d].slot ==> c == d
    ensures |cases| <= |slots|
    decreases cases
  {
    if cases != {} {
      var c :| c in cases;
      SlotsOf(cases - {c}, made, slots - {made[c].slot});
    }
  }

  lemma LiveBound(w: World, actor: string, day: nat)
    requires Inv(w) && actor in w.db.keys
    ensures |LiveOn(w, actor, day)| <= w.db.keys[actor].daily
  {
    SlotsOf(LiveOn(w, actor, day), w.made, UsedOn(w.db.retries, actor, day));
  }

  /** At every moment, deletions or not, the captures of a day that are still there stay within the quota. */
  lemma LiveWithinQuota(start: World, steps: seq<Step>, actor: string, day: nat)
    requires Initial(start) && Legal(start, steps) && actor in Run(start, steps).db.keys
    ensures |LiveOn(Run(start, steps), actor, day)| <= Run(start, steps).db.keys[actor].daily
  {
    InitialInv(start);
    RunKeeps(start, steps);
    LiveBound(Run(start, steps), actor, day);
  }

  lemma {:induction false} CasesOf(slots: set<Slot>, retries: map<Slot, Row>, made: map<string, Made>, cases: set<string>)
    requires forall s | s in slots :: s in retries && retries[s].response.caseId in cases
    requires forall s | s in slots :: retries[s].response.caseId in made && made[retries[s].response.caseId].slot == s
    ensures |slots| <= |cases|
    decreases slots
  {
    if slots != {} {
      var s :| s in slots;
      CasesOf(slots - {s}, retries, made, cases - {retries[s].response.caseId});
    }
  }

  lemma UsedIsLive(w: World, actor: string, day: nat)
    requires Inv(w)
    ensures |UsedOn(w.db.retries, actor, day)| == |LiveOn(w, actor, day)|
  {
    SlotsOf(LiveOn(w, actor, day), w.made, UsedOn(w.db.retries, actor, day));
    CasesOf(UsedOn(w.db.retries, actor, day), w.db.retries, w.made, LiveOn(w, actor, day));
  }

  /** A new key is refused for want of budget exactly when the day's captures that are still there fill the quota. */
  lemma RefusedExactlyWhenFull(w: World, r: Request)
    requires Inv(w) && r.slot.actor in w.db.keys && r.slot !in w.db.retries && w.clock <= r.begun
    ensures Handled(w.db, r) == Refuse(BudgetExhausted) <==>
            Admissible(w.db, r) && |LiveOn(w, r.slot.actor, r.begun / DAY)| >= w.db.keys[r.slot.actor].daily
  {
    UsedIsLive(w, r.slot.actor, r.begun / DAY);
    assert UsedSince(w.db.retries, r.slot.actor, Midnight(r.begun)) == UsedOn(w.db.retries, r.slot.actor, r.begun / DAY);
  }

  /** Over any run, what was created on a day is within the quota and what was deleted of that day. */
  lemma CreatedWithinQuotaAndDeleted(start: World, steps: seq<Step>, actor: string, day: nat)
    requires Initial(start) && Legal(start, steps) && actor in Run(start, steps).db.keys
    ensures var w := Run(start, steps);
      |MadeOn(w, actor, day)| <= w.db.keys[actor].daily + |MadeOn(w, actor, day) - w.db.cases|
  {
    LiveWithinQuota(start, steps, actor, day);
    var w := Run(start, steps);
    assert MadeOn(w, actor, day) == LiveOn(w, actor, day) + (MadeOn(w, actor, day) - w.db.cases);
  }

  ghost predicate NoDeletions(steps: seq<Step>) {
    forall i | 0 <= i < |steps| :: !steps[i].Delete? && !steps[i].ClearAll?
  }

  lemma {:induction false} MadeLives(w: World, steps: seq<Step>)
    requires Legal(w, steps) && Inv(w) && NoDeletions(steps) && w.made.Keys <= w.db.cases
    ensures Run(w, steps).made.Keys <= Run(w, steps).db.cases
    decreases |steps|
  {
    if steps != [] {
      StepKeeps(w, steps[0]);
      MadeLives(Apply(w, steps[0]), steps[1..]);
    }
  }

  /** Without case deletion no actor ever creates more captures on a day than its quota, whatever the interleaving. */
  lemma CreatedWithinQuota(start: World, steps: seq<Step>, actor: string, day: nat)
    requires Initial(start) && Legal(start, steps) && NoDeletions(steps)
    requires actor in Run(start, steps).db.keys
    ensures |MadeOn(Run(start, steps), actor, day)| <= Run(start, steps).db.keys[actor].daily
  {
    InitialInv(start);
    RunKeeps(start, steps);
    MadeLives(start, steps);
    var w := Run(start, steps);
    LiveBound(w, actor, day);
    assert MadeOn(w, actor, day) == LiveOn(w, actor, day);
  }

  /** A capture whose case is deleted no longer counts against the day. */
  lemma DeletionFreesItsRow(w: World, c: string, start: nat)
    requires Inv(w) && c in w.made && c in w.db.cases
    ensures var actor := w.made[c].slot.actor;
      UsedSince(DeleteCase(w.db, c).retries, actor, start) == UsedSince(w.db.retries, actor, start) - {w.made[c].slot}
  {
  }

  /** So the quota reopens: submit, delete and submit again makes two captures on one day under a quota of one. */
  lemma DeletionReopensTheQuota(r: Request, q: Request, key: Key)
    requires r.slot.actor == q.slot.actor && r.slot != q.slot
    requires r.caseId != q.caseId && r.jobId != q.jobId && r.upload != q.upload
    requires r.begun <= r.checked <= r.ended <= q.begun <= q.checked <= q.ended < DAY
    requires r.depth > 0 && q.depth > 0 && key == Key({}, true, false, DAY, 1)
    requires r.clean && q.clean && WellKeyed(r.slot.key) && WellKeyed(q.slot.key)
    ensures var start := Empty(r, key);
      var steps := [Step.Submit(r, true), Delete(r.caseId), Step.Submit(q, true)];
      Initial(start) && Legal(start, steps) && |MadeOn(Run(start, steps), r.slot.actor, 0)| == 2
  {
    var start := Empty(r, key);
    SubmitThenDelete(r, key);
    SecondCounts(r, q, key);
    RunOfThree(start, [Step.Submit(r, true), Delete(r.caseId), Step.Submit(q, true)]);
  }

  lemma SecondCounts(r: Request, q: Request, key: Key)
    requires r.slot.actor == q.slot.actor && r.caseId != q.caseId && r.ended < DAY && q.checked <= q.ended < DAY
    requires q.depth > 0 && key == Key({}, true, false, DAY, 1) && q.clean && WellKeyed(q.slot.key)
    ensures var two := Deleted(r, key); |MadeOn(ApplySubmit(two, q, true), r.slot.actor, 0)| == 2
  {
    var two := Deleted(r, key);
    AcceptedWhenEmpty(two.db, q);
    assert MadeOn(ApplySubmit(two, q, true), r.slot.actor, 0) == {r.caseId, q.caseId};
  }

  ghost function Empty(r: Request, key: Key): World {
    World(Database(map[], {}, map[], map[], map[r.slot.actor := key]), {}, 0, map[], {}, {})
  }

  ghost function Deleted(r: Request, key: Key): World {
    World(Database(map[], {}, map[], map[], map[r.slot.actor := key.(grants := key.grants + {r.caseId})]), {r.upload}, r.ended,
          map[r.caseId := Made(r.slot, r.digest, r.jobId, r.upload, r.ended)], {}, {})
  }

  lemma SubmitThenDelete(r: Request, key: Key)
    requires r.begun <= r.checked <= r.ended && r.depth > 0 && !key.revoked && key.expires > r.checked && key.daily > 0
    requires key.submits && r.clean && WellKeyed(r.slot.key)
    ensures var start := Empty(r, key);
      Enabled(start, Step.Submit(r, true)) && Apply(ApplySubmit(start, r, true), Delete(r.caseId)) == Deleted(r, key)
  {
    AcceptedWhenEmpty(Empty(r, key).db, r);
  }

  lemma AcceptedWhenEmpty(db: Database, r: Request)
    requires db.retries == map[] && db.jobs == map[] && r.depth > 0
    requires Admissible(db, r) && Current(db, r) && db.keys[r.slot.actor].daily > 0
    ensures Handled(db, r) == Commit(Inserted(db, r), Response(r.caseId, r.jobId))
  {
    assert UsedSince(db.retries, r.slot.actor, Midnight(r.begun)) == {} && Active(db.jobs) == {};
  }

  lemma RunOfThree(w: World, steps: seq<Step>)
    requires |steps| == 3 && Enabled(w, steps[0])
    requires var one := Apply(w, steps[0]); Enabled(one, steps[1]) && Enabled(Apply(one, steps[1]), steps[2])
    ensures Legal(w, steps) && Run(w, steps) == Apply(Apply(Apply(w, steps[0]), steps[1]), steps[2])
  {
    var one := Apply(w, steps[0]);
    var two := Apply(one, steps[1]);
    var three := Apply(two, steps[2]);
    var last := steps[1..][1..];
    assert last == [steps[2]] && last[1..] == [];
    assert Legal(three, []) && Run(three, []) == three;
    assert Legal(two, last) && Run(two, last) == three;
    assert Legal(one, steps[1..]) && Run(one, steps[1..]) == three;
  }

  lemma ActiveAdded(jobs: map<string, Job>, id: string, job: Job)
    requires id !in jobs && !job.status.Ended?
    ensures |Active(jobs[id := job])| == |Active(jobs)| + 1
  {
    var after := jobs[id := job];
    forall j ensures j in Active(after) <==> j in Active(jobs) + {id} {}
    assert Active(after) == Active(jobs) + {id} && id !in Active(jobs);
  }

  lemma OneMoreActive(db: Database, r: Request)
    requires r.slot.actor in db.keys && r.jobId !in db.jobs
    ensures |Active(Inserted(db, r).jobs)| == |Active(db.jobs)| + 1
  {
    ActiveAdded(db.jobs, r.jobId, Job(r.caseId, r.slot.actor, r.upload, Queued));
  }

  /** A committed submission never takes the queue over its depth. */
  lemma DepthRespected(db: Database, r: Request)
    requires r.slot.actor in db.keys && r.jobId !in db.jobs && Handled(db, r).Commit?
    ensures |Active(Inserted(db, r).jobs)| == |Active(db.jobs)| + 1 <= r.depth
  {
    OneMoreActive(db, r);
    AnswersExactly(db, r);
  }

  ghost predicate Bounded(steps: seq<Step>, depth: nat) {
    forall i | 0 <= i < |steps| && steps[i].Submit? :: steps[i].request.depth <= depth
  }

  lemma ActiveShrinks(w: World, step: Step)
    requires Enabled(w, step) && !step.Submit?
    ensures Active(Apply(w, step).db.jobs) <= Active(w.db.jobs)
  {
  }

  /** Over any run, submissions never fill the queue beyond the depth they are given, whatever else ends or is deleted. */
  lemma {:induction false} QueueWithinDepth(w: World, steps: seq<Step>, depth: nat)
    requires Legal(w, steps) && Bounded(steps, depth) && |Active(w.db.jobs)| <= depth
    ensures |Active(Run(w, steps).db.jobs)| <= depth
    decreases |steps|
  {
    if steps != [] {
      var next := Apply(w, steps[0]);
      if steps[0].Submit? {
        if Handled(w.db, steps[0].request).Commit? { DepthRespected(w.db, steps[0].request); }
      } else {
        ActiveShrinks(w, steps[0]);
        Smaller(Active(next.db.jobs), Active(w.db.jobs));
      }
      QueueWithinDepth(next, steps[1..], depth);
    }
  }

  ghost function MadeBy(made: map<string, Made>, actor: string): set<string> {
    set c | c in made && made[c].slot.actor == actor
  }

  /** The agent was never allowed to submit, or its key is revoked or has expired. */
  ghost predicate Powerless(w: World, actor: string) {
    actor in w.db.keys
    && (!w.db.keys[actor].submits || w.db.keys[actor].revoked || w.db.keys[actor].expires <= w.clock)
  }

  /** Such an agent creates nothing any more, in any run. */
  lemma {:induction false} PowerlessCreatesNothing(w: World, steps: seq<Step>, actor: string)
    requires Legal(w, steps) && Powerless(w, actor)
    ensures Powerless(Run(w, steps), actor) && MadeBy(Run(w, steps).made, actor) == MadeBy(w.made, actor)
    decreases |steps|
  {
    if steps != [] {
      PowerlessStep(w, steps[0], actor);
      PowerlessCreatesNothing(Apply(w, steps[0]), steps[1..], actor);
    }
  }

  /** From the moment an agent is revoked it creates nothing, whatever happens after. */
  lemma RevokedCreatesNothing(w: World, steps: seq<Step>, actor: string)
    requires actor in w.db.keys && Legal(Apply(w, Revoke(actor)), steps)
    ensures MadeBy(Run(Apply(w, Revoke(actor)), steps).made, actor) == MadeBy(w.made, actor)
  {
    PowerlessCreatesNothing(Apply(w, Revoke(actor)), steps, actor);
  }

  /** From the moment its key expires it creates nothing either. */
  lemma ExpiredCreatesNothing(w: World, steps: seq<Step>, actor: string)
    requires actor in w.db.keys && w.db.keys[actor].expires <= w.clock && Legal(w, steps)
    ensures MadeBy(Run(w, steps).made, actor) == MadeBy(w.made, actor)
  {
    PowerlessCreatesNothing(w, steps, actor);
  }

  lemma PowerlessStep(w: World, step: Step, actor: string)
    requires Enabled(w, step) && Powerless(w, actor)
    ensures Powerless(Apply(w, step), actor) && MadeBy(Apply(w, step).made, actor) == MadeBy(w.made, actor)
  {
    if step.Submit? && step.request.slot.actor == actor { AnswersExactly(w.db, step.request); }
  }

  /** Every file there is belongs to one created job or to one failed commit; refused and replayed calls leave none. */
  lemma UploadsAccounted(start: World, steps: seq<Step>)
    requires Initial(start) && Legal(start, steps)
    ensures var w := Run(start, steps); w.uploads == UploadsOf(w.made) + w.orphans - w.swept
  {
    InitialInv(start);
    RunKeeps(start, steps);
  }

  /** A call leaves a file without a job behind exactly when the commit itself fails. */
  lemma OrphanedExactly(w: World, r: Request, commits: bool)
    requires Enabled(w, Step.Submit(r, commits)) && Inv(w)
    ensures var next := ApplySubmit(w, r, commits);
      r.upload in next.uploads && r.upload !in UploadsOf(next.made) <==> Handled(w.db, r).Commit? && !commits
  {
    if Handled(w.db, r).Commit? && commits {
      UploadAdded(w.made, r.caseId, Made(r.slot, r.digest, r.jobId, r.upload, r.ended));
    }
  }

  /** The uploads of the calls whose commit failed. */
  ghost function FailedCommits(w: World, steps: seq<Step>): set<string>
    requires Legal(w, steps)
    decreases |steps|
  {
    if steps == [] then {}
    else
      var s := steps[0];
      (if s.Submit? && !s.commits && Handled(w.db, s.request).Commit? then {s.request.upload} else {})
      + FailedCommits(Apply(w, s), steps[1..])
  }

  lemma {:induction false} OrphansAre(w: World, steps: seq<Step>)
    requires Legal(w, steps)
    ensures Run(w, steps).orphans == w.orphans + FailedCommits(w, steps)
    decreases |steps|
  {
    if steps != [] { OrphansAre(Apply(w, steps[0]), steps[1..]); }
  }

  lemma {:induction false} OrphansApart(w: World, steps: seq<Step>)
    requires Inv(w) && Legal(w, steps) && UploadsOf(w.made) !! w.orphans
    ensures UploadsOf(Run(w, steps).made) !! Run(w, steps).orphans
    decreases |steps|
  {
    if steps != [] {
      StepKeeps(w, steps[0]);
      if steps[0].Submit? { SubmitApart(w, steps[0].request, steps[0].commits); }
      OrphansApart(Apply(w, steps[0]), steps[1..]);
    }
  }

  lemma SubmitApart(w: World, r: Request, commits: bool)
    requires Inv(w) && Enabled(w, Step.Submit(r, commits)) && UploadsOf(w.made) !! w.orphans
    ensures var next := ApplySubmit(w, r, commits); UploadsOf(next.made) !! next.orphans
  {
    OrphanedExactly(w, r, commits);
    if Handled(w.db, r).Commit? && commits {
      UploadAdded(w.made, r.caseId, Made(r.slot, r.digest, r.jobId, r.upload, r.ended));
    }
  }

  /** Over any run, the files without a created job are exactly those of the failed commits that were not swept. */
  lemma OrphansAreFailedCommits(start: World, steps: seq<Step>)
    requires Initial(start) && Legal(start, steps)
    ensures var w := Run(start, steps); w.uploads - UploadsOf(w.made) == FailedCommits(start, steps) - w.swept
  {
    InitialInv(start);
    UploadsAccounted(start, steps);
    OrphansApart(start, steps);
    OrphansAre(start, steps);
  }
}
