/** When regenerating a report gives an agent job's analysis another snapshot (app/api/queue.py). */
module JobReports {
  import opened Options
  import opened JobTable
  import opened JobProtocol
  import JobCollection
  import JobVerdicts

  /** The step saves a content other than the one the report job read, under the agent job's analysis. */
  predicate Alters(w: World, s: Step, j: JobId)
    requires Enabled(w, s)
  {
    s.Resave? && w.workers[s.k].analysis == OfJob(j) && s.content != w.workers[s.k].content
  }

  ghost predicate NeverAltered(w: World, run: seq<Step>, j: JobId)
    requires Legal(w, run)
    decreases |run|
  {
    run != [] ==> !Alters(w, run[0], j) && NeverAltered(Apply(w, run[0]), run[1..], j)
  }

  /** All that was ever captured of the job's analysis is the same. */
  ghost predicate OneContent(captured: Captures, j: JobId) {
    forall d, e | (OfJob(j), d) in captured && (OfJob(j), e) in captured :: d == e
  }

  /** What a step captures. */
  function Newly(w: World, s: Step): Captures
    requires Enabled(w, s)
  {
    match s
    case Save => {(OfJob(w.broker.job), OfOutput(w.broker.job, w.broker.payload))}
    case Persist(_, n, d) => {(Fresh(n), OfPackets(d))}
    case Resave(k, content) => {(w.workers[k].analysis, content)}
    case _ => {}
  }

  lemma CapturedByBroker(w: World, s: Step)
    requires BrokerEnabled(w, s)
    ensures BrokerStep(w, s).log.captured == w.log.captured + Newly(w, s)
  {}

  lemma CapturedByQueue(w: World, s: Step)
    requires QueueEnabled(w, s)
    ensures QueueStep(w, s).log.captured == w.log.captured
  {}

  lemma CapturedByClaim(w: World, s: Step)
    requires ClaimEnabled(w, s)
    ensures ClaimStep(w, s).log.captured == w.log.captured
  {}

  lemma CapturedBySave(w: World, s: Step)
    requires SaveEnabled(w, s)
    ensures SaveStep(w, s).log.captured == w.log.captured + Newly(w, s)
  {}

  lemma CapturedByEnding(w: World, s: Step)
    requires EndingEnabled(w, s)
    ensures EndingStep(w, s).log.captured == w.log.captured
  {}

  lemma CapturedByIntake(w: World, s: Step)
    requires IntakeEnabled(w, s)
    ensures IntakeStep(w, s).log.captured == w.log.captured
  {}

  lemma CapturedByOperator(w: World, s: Step)
    requires OperatorEnabled(w, s)
    ensures OperatorStep(w, s).log.captured == w.log.captured
  {}

  lemma CapturedByRemoval(w: World, s: Step)
    requires RemovalEnabled(w, s)
    ensures RemovalStep(w, s).log.captured == w.log.captured
  {}

  lemma CapturedAfter(w: World, s: Step)
    requires Enabled(w, s)
    ensures Apply(w, s).log.captured == w.log.captured + Newly(w, s)
  {
    if OfBroker(s) {
      CapturedByBroker(w, s);
    } else if OfQueue(s) {
      CapturedByQueue(w, s);
    } else if OfClaim(s) {
      CapturedByClaim(w, s);
    } else if OfSave(s) {
      CapturedBySave(w, s);
    } else if OfEnding(s) {
      CapturedByEnding(w, s);
    } else if OfIntake(s) {
      CapturedByIntake(w, s);
    } else if OfOperator(s) {
      CapturedByOperator(w, s);
    } else {
      CapturedByRemoval(w, s);
    }
  }

  /* ---------- Several contents exactly when a report altered one ---------- */

  ghost predicate NoReports(captured: Captures, j: JobId) {
    forall d | (OfJob(j), d) in captured :: !d.OfReport?
  }

  /** Saving again what was read captures nothing that was not captured before. */
  lemma NoReportsKept(w: World, s: Step, j: JobId)
    requires Inv(w) && Enabled(w, s) && NoReports(w.log.captured, j) && !Alters(w, s, j)
    ensures NoReports(Apply(w, s).log.captured, j)
  {
    CapturedAfter(w, s);
    if s.Resave? && w.workers[s.k].analysis == OfJob(j) {
      assert WorkerBorn(w.workers[s.k], w.log);
    }
  }

  lemma {:induction false} NoReportsInRun(w: World, run: seq<Step>, j: JobId)
    requires Inv(w) && Legal(w, run) && NoReports(w.log.captured, j) && NeverAltered(w, run, j)
    ensures NoReports(Run(w, run).log.captured, j)
    decreases |run|
  {
    if run != [] {
      NoReportsKept(w, run[0], j);
      StepKeeps(w, run[0]);
      NoReportsInRun(Apply(w, run[0]), run[1..], j);
    }
  }

  lemma NoReportsOneContent(w: World, j: JobId)
    requires Inv(w) && NoReports(w.log.captured, j)
    ensures OneContent(w.log.captured, j)
  {
    forall d, e | (OfJob(j), d) in w.log.captured && (OfJob(j), e) in w.log.captured ensures d == e {
      var k := (OfJob(j), d);
      assert k in w.log.captured && k.0.OfJob?;
    }
  }

  lemma {:induction false} CapturedGrows(w: World, run: seq<Step>)
    requires Legal(w, run)
    ensures w.log.captured <= Run(w, run).log.captured
    decreases |run|
  {
    if run != [] {
      CapturedAfter(w, run[0]);
      CapturedGrows(Apply(w, run[0]), run[1..]);
    }
  }

  lemma {:induction false} AlteredShows(w: World, run: seq<Step>, j: JobId)
    requires Inv(w) && Legal(w, run) && !NeverAltered(w, run, j)
    ensures !OneContent(Run(w, run).log.captured, j)
    decreases |run|
  {
    var s, next := run[0], Apply(w, run[0]);
    if Alters(w, s, j) {
      assert WorkerBorn(w.workers[s.k], w.log);
      CapturedAfter(w, s);
      CapturedGrows(next, run[1..]);
      var d, e := w.workers[s.k].content, s.content;
      assert (OfJob(j), d) in next.log.captured && (OfJob(j), e) in next.log.captured && d != e;
    } else {
      StepKeeps(w, s);
      AlteredShows(next, run[1..], j);
    }
  }

  /** Over every run, an agent job's analysis is captured with one content exactly when no report altered what it read. */
  lemma OneContentExactly(run: seq<Step>, j: JobId)
    requires Legal(EMPTY, run)
    ensures OneContent(Run(EMPTY, run).log.captured, j) <==> NeverAltered(EMPTY, run, j)
  {
    if NeverAltered(EMPTY, run, j) {
      NoReportsInRun(EMPTY, run, j);
      RunKeeps(EMPTY, run);
      NoReportsOneContent(Run(EMPTY, run), j);
    } else {
      AlteredShows(EMPTY, run, j);
    }
  }

  /* ---------- It can always happen ---------- */

  datatype Stage = Waits | Admits | Claims | Reads

  /** A report job on its way: where its worker stands, with the snapshot it is about to read still there. */
  predicate OnItsWay(w: World, stage: Stage, r: JobId, k: WorkerId, a: AnalysisId, d: Digest) {
    && r in w.rows && k in w.workers && r in w.log.jobs && w.log.jobs[r].target == Some(a)
    && a in w.analyses && (a, d) in w.snapshots && w.workers[k].job == r
    && match stage
       case Waits => w.workers[k].Waiting? && w.rows[r].status.Queued?
       case Admits => w.workers[k].Admitted? && w.rows[r].status.Queued?
       case Claims => w.workers[k].Claimed?
       case Reads => w.workers[k].Reporting? && w.workers[k].analysis == a && w.workers[k].content == d
  }

  lemma Dispatched(w: World, r: JobId, k: WorkerId, a: AnalysisId, c: CaseId, d: Digest)
    requires Enabled(w, EnqueueReport(r, a, c)) && k !in w.workers && a in w.analyses && (a, d) in w.snapshots
    ensures var v := Apply(w, EnqueueReport(r, a, c));
      Enabled(v, Dispatch(r, k)) && OnItsWay(Apply(v, Dispatch(r, k)), Waits, r, k, a, d)
  {}

  lemma Admitting(w: World, r: JobId, k: WorkerId, a: AnalysisId, d: Digest)
    requires OnItsWay(w, Waits, r, k, a, d)
    ensures Enabled(w, Admit(k)) && OnItsWay(Apply(w, Admit(k)), Admits, r, k, a, d)
  {}

  lemma Claiming(w: World, r: JobId, k: WorkerId, a: AnalysisId, d: Digest)
    requires OnItsWay(w, Admits, r, k, a, d)
    ensures Enabled(w, Claim(k)) && OnItsWay(Apply(w, Claim(k)), Claims, r, k, a, d)
  {}

  lemma Rereading(w: World, r: JobId, k: WorkerId, a: AnalysisId, d: Digest)
    requires OnItsWay(w, Claims, r, k, a, d)
    ensures Enabled(w, Reread(k, d)) && OnItsWay(Apply(w, Reread(k, d)), Reads, r, k, a, d)
  {}

  lemma Resaving(w: World, r: JobId, k: WorkerId, a: AnalysisId, d: Digest, n: nat)
    requires OnItsWay(w, Reads, r, k, a, d)
    ensures var s := Resave(k, OfReport(n));
      && Enabled(w, s)
      && (a, d) in Apply(w, s).snapshots && (a, OfReport(n)) in Apply(w, s).snapshots
  {}

  /** The last three steps. */
  lemma Regenerates(w: World, r: JobId, k: WorkerId, a: AnalysisId, d: Digest, n: nat) returns (rest: seq<Step>)
    requires OnItsWay(w, Admits, r, k, a, d)
    ensures Legal(w, rest) && (a, d) in Run(w, rest).snapshots && (a, OfReport(n)) in Run(w, rest).snapshots
  {
    Claiming(w, r, k, a, d);
    var claimed := Apply(w, Claim(k));
    Rereading(claimed, r, k, a, d);
    var read := Apply(claimed, Reread(k, d));
    Resaving(read, r, k, a, d, n);
    LegalStep(read, Resave(k, OfReport(n)), []);
    LegalStep(claimed, Reread(k, d), [Resave(k, OfReport(n))] + []);
    rest := [Reread(k, d)] + ([Resave(k, OfReport(n))] + []);
    LegalStep(w, Claim(k), rest);
    rest := [Claim(k)] + rest;
  }

  lemma Enqueues(w: World, r: JobId, k: WorkerId, a: AnalysisId, c: CaseId, d: Digest, n: nat) returns (rest: seq<Step>)
    requires Enabled(w, EnqueueReport(r, a, c)) && k !in w.workers && a in w.analyses && (a, d) in w.snapshots
    ensures Legal(w, rest) && (a, d) in Run(w, rest).snapshots && (a, OfReport(n)) in Run(w, rest).snapshots
  {
    Dispatched(w, r, k, a, c, d);
    var queued := Apply(w, EnqueueReport(r, a, c));
    var waiting := Apply(queued, Dispatch(r, k));
    Admitting(waiting, r, k, a, d);
    rest := Regenerates(Apply(waiting, Admit(k)), r, k, a, d, n);
    LegalStep(waiting, Admit(k), rest);
    rest := [Admit(k)] + rest;
    LegalStep(queued, Dispatch(r, k), rest);
    rest := [Dispatch(r, k)] + rest;
    LegalStep(w, EnqueueReport(r, a, c), rest);
    rest := [EnqueueReport(r, a, c)] + rest;
  }

  /** From every reachable state, an agent job's analysis that is there can be given another snapshot. */
  lemma ReportAddsSnapshot(w: World, j: JobId) returns (rest: seq<Step>, d: Digest, e: Digest)
    requires Inv(w) && OfJob(j) in w.analyses
    ensures Legal(w, rest) && d != e
    ensures (OfJob(j), d) in Run(w, rest).snapshots && (OfJob(j), e) in Run(w, rest).snapshots
  {
    var a, c := OfJob(j), w.analyses[OfJob(j)];
    assert Captured(w.analyses, w.snapshots, a, c) && Owned(w.log, a, c);
    d :| (a, d) in w.snapshots;
    var n := if d.OfReport? then d.n + 1 else 0;
    e := OfReport(n);
    var r := JobVerdicts.FreshNumber(w.log.jobs.Keys);
    var k := JobVerdicts.FreshNumber(w.workers.Keys);
    rest := Enqueues(w, r, k, a, c, d, n);
  }

  lemma Collected(w: World, j: JobId)
    requires Inv(w) && JobCollection.Collectable(w, j)
    ensures var run := JobCollection.Collection(j); Legal(w, run) && Inv(Run(w, run)) && OfJob(j) in Run(w, run).analyses
  {
    JobCollection.CollectOnce(w, j);
    RunKeeps(w, JobCollection.Collection(j));
    assert JobCollection.Stored(Run(w, JobCollection.Collection(j))).analyses == JobCollection.Outcome(w, j).analyses;
  }

  lemma CollectedThenReported(w: World, j: JobId) returns (rest: seq<Step>, d: Digest, e: Digest)
    requires Inv(w) && JobCollection.Collectable(w, j)
    ensures Legal(w, rest) && d != e
    ensures (OfJob(j), d) in Run(w, rest).snapshots && (OfJob(j), e) in Run(w, rest).snapshots
  {
    Collected(w, j);
    rest, d, e := ReportAddsSnapshot(Run(w, JobCollection.Collection(j)), j);
    LegalConcat(w, JobCollection.Collection(j), rest);
    rest := JobCollection.Collection(j) + rest;
  }

  /** One agent job, submitted, handed over and published for. */
  const SUBMITTED := EMPTY.(
    cases := {0}, rows := map[0 := Job(0, true, Queued, None)],
    log := EMPTY.log.(cases := {0}, jobs := map[0 := Birth(0, true, None)]))
  const HANDED := SUBMITTED.(inbox := {0}, log := SUBMITTED.log.(dispatched := {0}))
  const PUBLISHED := HANDED.(outputs := map[0 := Payload(true, 0)])

  lemma Submits() ensures JobVerdicts.Leads(EMPTY, SubmitAgent(0, 0), SUBMITTED) {}

  lemma Hands() ensures JobVerdicts.Leads(SUBMITTED, DropInput(0), HANDED) {}

  lemma Publishes()
    ensures JobVerdicts.Leads(HANDED, Publish(0, Payload(true, 0)), PUBLISHED) && JobCollection.Collectable(PUBLISHED, 0)
  {}

  const TO_PUBLISH := [SubmitAgent(0, 0)] + ([DropInput(0)] + [Publish(0, Payload(true, 0))])

  lemma PublishedInTheEnd()
    ensures Legal(EMPTY, TO_PUBLISH) && Run(EMPTY, TO_PUBLISH) == PUBLISHED
  {
    Submits();
    Hands();
    Publishes();
    var last := [Publish(0, Payload(true, 0))];
    assert last + [] == last;
    JobVerdicts.Before(HANDED, Publish(0, Payload(true, 0)), PUBLISHED, [], PUBLISHED);
    JobVerdicts.Before(SUBMITTED, DropInput(0), HANDED, last, PUBLISHED);
    JobVerdicts.Before(EMPTY, SubmitAgent(0, 0), SUBMITTED, [DropInput(0)] + last, PUBLISHED);
  }

  /** A run from nothing that ends with two snapshots of one agent job's analysis. */
  lemma TwoSnapshots() returns (run: seq<Step>, d: Digest, e: Digest)
    ensures Legal(EMPTY, run) && d != e
    ensures (OfJob(0), d) in Run(EMPTY, run).snapshots && (OfJob(0), e) in Run(EMPTY, run).snapshots
  {
    PublishedInTheEnd();
    RunKeeps(EMPTY, TO_PUBLISH);
    Publishes();
    run, d, e := CollectedThenReported(PUBLISHED, 0);
    LegalConcat(EMPTY, TO_PUBLISH, run);
    run := TO_PUBLISH + run;
  }
}
