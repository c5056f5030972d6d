/** Queue workers, broker, canceller, recovery and garbage collection as steps over one shared state. */
module JobProtocol {
  import opened Options
  import opened JobTable

  type WorkerId = nat

  /** A published result file; `valid` when it passes every check of the collector. */
  datatype Payload = Payload(valid: bool, content: nat)

  /** Content addressing: an injective name for what was captured, and where that content came from. */
  datatype Digest = OfOutput(job: JobId, payload: Payload) | OfPackets(n: nat) | OfReport(n: nat)

  datatype Worker =
    | Waiting(job: JobId)
    | Admitted(job: JobId, caseId: CaseId)
    | Claimed(job: JobId, caseId: CaseId)
    | Reporting(job: JobId, caseId: CaseId, analysis: AnalysisId, content: Digest)
    | Persisted(job: JobId, caseId: CaseId, analysis: AnalysisId)

  datatype Broker =
    | Idle
    | Beating(job: JobId)
    | Reading(job: JobId, caseId: CaseId, payload: Payload)
    | Saved(job: JobId, caseId: CaseId, payload: Payload)
    | Removing(job: JobId)

  type Analyses = map<AnalysisId, CaseId>
  type Snapshots = map<(AnalysisId, Digest), CaseId>

  datatype World = World(
    cases: set<CaseId>,
    rows: Rows,
    analyses: Analyses,
    snapshots: Snapshots,
    inbox: set<JobId>,
    outputs: map<JobId, Payload>,
    broker: Broker,
    workers: map<WorkerId, Worker>,
    stale: set<JobId>,
    log: Log
  )

  /** A job with a target only regenerates the report of that analysis. */
  datatype Birth = Birth(caseId: CaseId, agent: bool, target: Option<AnalysisId>)

  /** History: identifiers are never issued twice, and what was once captured is remembered after it is deleted. */
  datatype Log = Log(
    jobs: map<JobId, Birth>,
    cases: set<CaseId>,
    analyses: map<nat, CaseId>,
    dispatched: set<JobId>,
    captured: set<(AnalysisId, Digest)>
  )

  const EMPTY := World({}, map[], map[], map[], {}, map[], Idle, map[], {}, Log(map[], {}, map[], {}, {}))

  datatype Step =
    | OpenCase(c: CaseId)
    | SubmitAgent(j: JobId, c: CaseId)
    | Enqueue(j: JobId, c: CaseId)
    | EnqueueReport(j: JobId, a: AnalysisId, c: CaseId)
    | Dispatch(j: JobId, k: WorkerId)
    | DropInput(j: JobId)
    | Admit(k: WorkerId)
    | Claim(k: WorkerId)
    | Persist(k: WorkerId, n: nat, d: nat)
    | Reread(k: WorkerId, content: Digest)
    | Resave(k: WorkerId, content: Digest)
    | Finish(k: WorkerId)
    | Fault(k: WorkerId)
    | Die(k: WorkerId)
    | ScanStale(js: set<JobId>)
    | FailStale(j: JobId)
    | Beat(j: JobId)
    | InputLost
    | Begin
    | Read(j: JobId)
    | Reject
    | Save
    | Conclude
    | Remove
    | Acknowledge(j: JobId)
    | Crash
    | AgentCancel(j: JobId)
    | UserCancel(j: JobId)
    | DeleteCase(c: CaseId)
    | CollectGarbage(js: set<JobId>)
    | DropOrphans
    | ClearAll
    | Publish(j: JobId, p: Payload)
    | Unpublish(j: JobId)

  predicate AgentActive(w: World, j: JobId) { IsActive(w.rows, j) && w.rows[j].agent }

  /** The collecting loop of the API broker. */
  predicate OfBroker(s: Step) {
    s.Beat? || s.InputLost? || s.Begin? || s.Read? || s.Reject? || s.Save?
    || s.Conclude? || s.Remove? || s.Acknowledge? || s.Crash?
  }

  /** A queue worker is given its job, looks at the row, or dies. */
  predicate OfQueue(s: Step) {
    s.Dispatch? || s.Admit? || s.Die?
  }

  /** A queue worker wins or loses the compare-and-set. */
  predicate OfClaim(s: Step) {
    s.Claim?
  }

  /** A queue worker stores evidence. */
  predicate OfSave(s: Step) {
    s.Persist? || s.Reread? || s.Resave?
  }

  /** A queue worker writes its verdict. */
  predicate OfEnding(s: Step) {
    s.Finish? || s.Fault?
  }

  /** Cases, jobs, input folders and published outputs come and go. */
  predicate OfIntake(s: Step) {
    s.OpenCase? || s.SubmitAgent? || s.Enqueue? || s.EnqueueReport? || s.DropInput? || s.Publish?
    || s.Unpublish?
  }

  /** Cancellation and stale recovery. */
  predicate OfOperator(s: Step) {
    s.ScanStale? || s.FailStale? || s.AgentCancel? || s.UserCancel?
  }

  predicate Born(log: Log, j: JobId, c: CaseId, agent: bool) {
    j in log.jobs && log.jobs[j].caseId == c && log.jobs[j].agent == agent
  }

  /** Every analysis, and with it its snapshots, belongs to one case for good. */
  predicate Owned(log: Log, a: AnalysisId, c: CaseId) {
    if a.OfJob? then Born(log, a.job, c, true) else a.n in log.analyses && log.analyses[a.n] == c
  }

  predicate Targets(log: Log, j: JobId, target: Option<AnalysisId>) { j in log.jobs && log.jobs[j].target == target }

  /** A worker that has claimed its job and not yet let go of it. */
  predicate Holding(worker: Worker) { worker.Claimed? || worker.Reporting? || worker.Persisted? }

  /** What a report job saves: the content it read, or that with a stage or a warning added. */
  predicate Regenerated(before: Digest, after: Digest) { after == before || after.OfReport? }

  predicate BrokerEnabled(w: World, s: Step) {
    || (s.Beat? && w.broker.Idle? && AgentActive(w, s.j))
    || (s.InputLost? && w.broker.Beating?)
    || (s.Begin? && w.broker.Beating?)
    || (s.Read? && w.broker.Idle? && s.j in w.outputs && AgentActive(w, s.j))
    || (s.Reject? && w.broker.Reading?)
    || (s.Save? && w.broker.Reading? && w.broker.payload.valid)
    || (s.Conclude? && w.broker.Saved?)
    || (s.Remove? && w.broker.Removing?)
    || (s.Acknowledge? && w.broker.Idle? && s.j in w.outputs && Is(w.rows, s.j, Cancelled))
    || s.Crash?
  }

  predicate QueueEnabled(w: World, s: Step) {
    || (s.Dispatch? && Is(w.rows, s.j, Queued) && !w.rows[s.j].agent && s.k !in w.workers)
    || (s.Admit? && s.k in w.workers && w.workers[s.k].Waiting?)
    || (s.Die? && s.k in w.workers)
  }

  predicate ClaimEnabled(w: World, s: Step) {
    s.Claim? && s.k in w.workers && w.workers[s.k].Admitted?
  }

  predicate SaveEnabled(w: World, s: Step) {
    || (s.Persist? && s.k in w.workers && w.workers[s.k].Claimed? && Targets(w.log, w.workers[s.k].job, None)
        && s.n !in w.log.analyses)
    || (s.Reread? && s.k in w.workers && w.workers[s.k].Claimed? && CanReread(w, w.workers[s.k].job, s.content))
    || (s.Resave? && s.k in w.workers && w.workers[s.k].Reporting? && Regenerated(w.workers[s.k].content, s.content))
  }

  /** The analysis to report on is there, with that content. */
  predicate CanReread(w: World, j: JobId, content: Digest) {
    j in w.log.jobs
    && var target := w.log.jobs[j].target;
       target.Some? && target.value in w.analyses && (target.value, content) in w.snapshots
  }

  predicate EndingEnabled(w: World, s: Step) {
    || (s.Finish? && s.k in w.workers && w.workers[s.k].Persisted?)
    || (s.Fault? && s.k in w.workers && Holding(w.workers[s.k]))
  }

  predicate IntakeEnabled(w: World, s: Step) {
    || (s.OpenCase? && s.c !in w.log.cases)
    || (s.SubmitAgent? && s.j !in w.log.jobs && s.c !in w.log.cases)
    || (s.Enqueue? && s.j !in w.log.jobs && s.c in w.log.cases)
    // The analysis may be gone by the time its report job is queued.
    || (s.EnqueueReport? && s.j !in w.log.jobs && s.c in w.log.cases && Owned(w.log, s.a, s.c))
    // The row may have been read long before the input folder is written.
    || (s.DropInput? && s.j in w.log.jobs && w.log.jobs[s.j].agent)
    || (s.Publish? && s.j in w.log.dispatched && s.j !in w.outputs)
    || (s.Unpublish? && s.j in w.outputs && s.j !in w.inbox)
  }

  predicate OperatorEnabled(w: World, s: Step) {
    || (s.ScanStale? && forall j | j in s.js :: Is(w.rows, j, Running) && !w.rows[j].agent)
    || (s.FailStale? && s.j in w.stale)
    || (s.AgentCancel? && s.j in w.rows && w.rows[s.j].agent)
    || s.UserCancel?
  }

  predicate RemovalEnabled(w: World, s: Step) {
    || s.DeleteCase?
    || (s.CollectGarbage? && forall j | j in s.js :: j in w.rows && !Active(w.rows[j].status))
    || s.DropOrphans?
    || s.ClearAll?
  }

  function Insert(w: World, j: JobId, b: Birth): World {
    w.(rows := w.rows[j := Job(b.caseId, b.agent, Queued, None)], log := w.log.(jobs := w.log.jobs[j := b]))
  }

  function Open(w: World, c: CaseId): World {
    w.(cases := w.cases + {c}, log := w.log.(cases := w.log.cases + {c}))
  }

  /** One transaction: the analysis row, and the snapshot unless it is already there. */
  function Saving(w: World, a: AnalysisId, d: Digest, c: CaseId): World {
    w.(analyses := w.analyses[a := c],
       snapshots := if (a, d) in w.snapshots then w.snapshots else w.snapshots[(a, d) := c],
       log := w.log.(captured := w.log.captured + {(a, d)}))
  }

  function Gone(w: World, k: WorkerId): World { w.(workers := w.workers - {k}) }

  function Without(w: World, gone: set<CaseId>): World {
    w.(rows := map j | j in w.rows && w.rows[j].caseId !in gone :: w.rows[j],
       analyses := map a | a in w.analyses && w.analyses[a] !in gone :: w.analyses[a])
  }

  function BrokerStep(w: World, s: Step): World
    requires BrokerEnabled(w, s)
  {
    match s
    case Beat(j) => w.(broker := Beating(j))
    case InputLost => w.(rows := FailActive(w.rows, w.broker.job), broker := Idle)
    case Begin => w.(rows := Start(w.rows, w.broker.job), broker := Idle)
    case Read(j) => w.(broker := Reading(j, w.rows[j].caseId, w.outputs[j]))
    case Reject => w.(rows := FailActive(w.rows, w.broker.job), broker := Removing(w.broker.job))
    case Save =>
      var b := w.broker;
      Saving(w, OfJob(b.job), OfOutput(b.job, b.payload), b.caseId).(broker := Saved(b.job, b.caseId, b.payload))
    case Conclude =>
      w.(rows := Complete(w.rows, w.broker.job, OfJob(w.broker.job), true), broker := Removing(w.broker.job))
    case Remove => w.(inbox := w.inbox - {w.broker.job}, broker := Idle)
    case Acknowledge(j) => w.(inbox := w.inbox - {j})
    case Crash => w.(broker := Idle)
    case _ => w
  }

  function QueueStep(w: World, s: Step): World
    requires QueueEnabled(w, s)
  {
    match s
    case Dispatch(j, k) => w.(workers := w.workers[k := Waiting(j)])
    case Admit(k) =>
      var j := w.workers[k].job;
      if j !in w.rows || w.rows[j].status.Cancelled? then Gone(w, k)
      else w.(workers := w.workers[k := Admitted(j, w.rows[j].caseId)])
    case Die(k) => Gone(w, k)
    case _ => w
  }

  function ClaimStep(w: World, s: Step): World
    requires ClaimEnabled(w, s)
  {
    match s
    case Claim(k) =>
      var worker := w.workers[k];
      if Is(w.rows, worker.job, Queued)
      then w.(rows := Start(w.rows, worker.job), workers := w.workers[k := Claimed(worker.job, worker.caseId)])
      else Gone(w, k)
    case _ => w
  }

  function SaveStep(w: World, s: Step): World
    requires SaveEnabled(w, s)
  {
    match s
    case Persist(k, n, d) =>
      var worker := w.workers[k];
      Saving(w.(log := w.log.(analyses := w.log.analyses[n := worker.caseId])), Fresh(n), OfPackets(d), worker.caseId).(
        workers := w.workers[k := Persisted(worker.job, worker.caseId, Fresh(n))])
    case Reread(k, content) =>
      var job := w.workers[k].job;
      var a := w.log.jobs[job].target.value;
      w.(workers := w.workers[k := Reporting(job, w.analyses[a], a, content)])
    case Resave(k, content) =>
      var worker := w.workers[k];
      Saving(w, worker.analysis, content, worker.caseId).(
        workers := w.workers[k := Persisted(worker.job, worker.caseId, worker.analysis)])
    case _ => w
  }

  function EndingStep(w: World, s: Step): World
    requires EndingEnabled(w, s)
  {
    match s
    case Finish(k) => Gone(w.(rows := Complete(w.rows, w.workers[k].job, w.workers[k].analysis, false)), k)
    case Fault(k) => Gone(w.(rows := Write(w.rows, w.workers[k].job, Failed, None)), k)
    case _ => w
  }

  function IntakeStep(w: World, s: Step): World
    requires IntakeEnabled(w, s)
  {
    match s
    case OpenCase(c) => Open(w, c)
    case SubmitAgent(j, c) => Insert(Open(w, c), j, Birth(c, true, None))
    case Enqueue(j, c) => Insert(w, j, Birth(c, false, None))
    case EnqueueReport(j, a, c) => Insert(w, j, Birth(c, false, Some(a)))
    case DropInput(j) => w.(inbox := w.inbox + {j}, log := w.log.(dispatched := w.log.dispatched + {j}))
    case Publish(j, p) => w.(outputs := w.outputs[j := p])
    case Unpublish(j) => w.(outputs := w.outputs - {j})
    case _ => w
  }

  function OperatorStep(w: World, s: Step): World
    requires OperatorEnabled(w, s)
  {
    match s
    case ScanStale(js) => w.(stale := w.stale + js)
    case FailStale(j) => w.(rows := Write(w.rows, j, Failed, None), stale := w.stale - {j})
    case AgentCancel(j) => w.(rows := CancelActive(w.rows, j))
    case UserCancel(j) => w.(rows := CancelQueued(w.rows, j))
    case _ => w
  }

  function RemovalStep(w: World, s: Step): World
    requires RemovalEnabled(w, s)
  {
    match s
    case DeleteCase(c) =>
      var kept := map k | k in w.snapshots && w.snapshots[k] != c :: w.snapshots[k];
      Without(w, {c}).(cases := w.cases - {c}, snapshots := kept)
    case CollectGarbage(js) => w.(rows := w.rows - js)
    case DropOrphans => Without(w, w.log.cases - w.cases)
    case ClearAll => w.(cases := {}, rows := map[], analyses := map[], snapshots := map[])
    case _ => w
  }

  /** The state after a step, for a step that can be taken. */
  function Next(w: World, s: Step): Option<World> {
    if OfBroker(s) then if BrokerEnabled(w, s) then Some(BrokerStep(w, s)) else None
    else if OfQueue(s) then if QueueEnabled(w, s) then Some(QueueStep(w, s)) else None
    else if OfClaim(s) then if ClaimEnabled(w, s) then Some(ClaimStep(w, s)) else None
    else if OfSave(s) then if SaveEnabled(w, s) then Some(SaveStep(w, s)) else None
    else if OfEnding(s) then if EndingEnabled(w, s) then Some(EndingStep(w, s)) else None
    else if OfIntake(s) then if IntakeEnabled(w, s) then Some(IntakeStep(w, s)) else None
    else if OfOperator(s) then if OperatorEnabled(w, s) then Some(OperatorStep(w, s)) else None
    else if RemovalEnabled(w, s) then Some(RemovalStep(w, s))
    else None
  }

  predicate Enabled(w: World, s: Step) { Next(w, s).Some? }

  function Apply(w: World, s: Step): World
    requires Enabled(w, s)
  {
    Next(w, s).value
  }

  predicate Legal(w: World, run: seq<Step>)
    decreases |run|
  {
    run != [] ==> Enabled(w, run[0]) && Legal(Apply(w, run[0]), run[1..])
  }

  function Run(w: World, run: seq<Step>): World
    requires Legal(w, run)
    decreases |run|
  {
    if run == [] then w else Run(Apply(w, run[0]), run[1..])
  }

  /* ---------- Invariants ---------- */

  /** Every row belongs to an issued job and keeps its case and kind. */
  ghost predicate RowsBorn(rows: Rows, log: Log) {
    forall j | j in rows :: Born(log, j, rows[j].caseId, rows[j].agent)
  }

  /** Report jobs are not agent jobs and belong to the case of their analysis. */
  ghost predicate CasesIssued(log: Log) {
    forall j | j in log.jobs ::
      && log.jobs[j].caseId in log.cases
      && (log.jobs[j].target.Some? ==> !log.jobs[j].agent && Owned(log, log.jobs[j].target.value, log.jobs[j].caseId))
  }

  /** Queue workers only ever speak of issued jobs that no agent submitted. */
  ghost predicate WorkerBorn(worker: Worker, log: Log) {
    && worker.job in log.jobs && !log.jobs[worker.job].agent
    && (!worker.Waiting? ==> log.jobs[worker.job].caseId == worker.caseId)
    && (worker.Reporting? || worker.Persisted? ==> Owned(log, worker.analysis, worker.caseId))
    && (worker.Reporting? ==> (worker.analysis, worker.content) in log.captured)
  }

  ghost predicate WorkersBorn(workers: map<WorkerId, Worker>, log: Log) {
    forall k | k in workers :: WorkerBorn(workers[k], log)
  }

  ghost predicate StaleBorn(stale: set<JobId>, log: Log) {
    forall j | j in stale :: j in log.jobs && !log.jobs[j].agent
  }

  /** The broker only ever speaks of issued agent jobs. */
  ghost predicate BrokerBorn(broker: Broker, log: Log) {
    && (!broker.Idle? ==> broker.job in log.jobs && log.jobs[broker.job].agent)
    && (broker.Reading? || broker.Saved? ==> log.jobs[broker.job].caseId == broker.caseId)
  }

  ghost predicate AnalysesBorn(analyses: Analyses, log: Log) {
    forall a | a in analyses :: Owned(log, a, analyses[a])
  }

  ghost predicate SnapshotsBorn(snapshots: Snapshots, log: Log) {
    forall k | k in snapshots :: k in log.captured && Owned(log, k.0, snapshots[k])
  }

  /** Only issued identifiers were ever captured under. */
  ghost predicate CapturesBorn(log: Log) {
    forall k | k in log.captured :: if k.0.OfJob? then k.0.job in log.jobs else k.0.n in log.analyses
  }

  ghost predicate Identified(w: World) {
    && RowsBorn(w.rows, w.log) && CasesIssued(w.log)
    && WorkersBorn(w.workers, w.log) && StaleBorn(w.stale, w.log) && BrokerBorn(w.broker, w.log)
    && AnalysesBorn(w.analyses, w.log) && SnapshotsBorn(w.snapshots, w.log) && CapturesBorn(w.log)
  }

  /** A committed analysis of the case, with a captured snapshot. */
  ghost predicate Captured(analyses: Analyses, snapshots: Snapshots, a: AnalysisId, c: CaseId) {
    a in analyses && analyses[a] == c && exists d :: (a, d) in snapshots && snapshots[(a, d)] == c
  }

  /** Done rows, and saves about to be marked done, have their evidence. */
  ghost predicate DoneBacked(rows: Rows, analyses: Analyses, snapshots: Snapshots) {
    forall j | Is(rows, j, Done) :: rows[j].result.Some? && Captured(analyses, snapshots, rows[j].result.value, rows[j].caseId)
  }

  ghost predicate PersistedBacked(workers: map<WorkerId, Worker>, rows: Rows, analyses: Analyses, snapshots: Snapshots) {
    forall k | k in workers && workers[k].Persisted? && workers[k].job in rows ::
      Captured(analyses, snapshots, workers[k].analysis, workers[k].caseId)
  }

  /** An agent job that is done, or about to be, has its collected output among the snapshots of its own analysis. */
  ghost predicate AgentsBacked(rows: Rows, snapshots: Snapshots) {
    forall j | Is(rows, j, Done) && rows[j].agent ::
      rows[j].result == Some(OfJob(j)) && exists p :: (OfJob(j), OfOutput(j, p)) in snapshots
  }

  ghost predicate SavedBacked(broker: Broker, rows: Rows, analyses: Analyses, snapshots: Snapshots) {
    broker.Saved? && broker.job in rows ==>
      && (OfJob(broker.job), OfOutput(broker.job, broker.payload)) in snapshots
      && Captured(analyses, snapshots, OfJob(broker.job), broker.caseId)
  }

  /** No analysis row is ever without a snapshot, so a report job always has content to start from. */
  ghost predicate Evidenced(analyses: Analyses, snapshots: Snapshots) {
    forall a | a in analyses :: Captured(analyses, snapshots, a, analyses[a])
  }

  ghost predicate Backed(w: World) {
    && DoneBacked(w.rows, w.analyses, w.snapshots)
    && AgentsBacked(w.rows, w.snapshots)
    && PersistedBacked(w.workers, w.rows, w.analyses, w.snapshots)
    && SavedBacked(w.broker, w.rows, w.analyses, w.snapshots)
    && Evidenced(w.analyses, w.snapshots)
  }

  /** An input folder is removed only after its job has ended. */
  ghost predicate InputsKept(rows: Rows, inbox: set<JobId>, log: Log) {
    forall j | j in log.dispatched && IsActive(rows, j) :: j in inbox
  }

  ghost predicate Dispatched(outputs: map<JobId, Payload>, log: Log) {
    outputs.Keys <= log.dispatched <= log.jobs.Keys
  }

  predicate Holds(broker: Broker, j: JobId) { (broker.Reading? || broker.Saved?) && broker.job == j }

  /** What the broker holds is the published output, as long as the job can still be completed from it. */
  ghost predicate BrokerCurrent(broker: Broker, rows: Rows, outputs: map<JobId, Payload>) {
    && (broker.Removing? ==> !IsActive(rows, broker.job))
    && ((broker.Reading? || broker.Saved?) && IsActive(rows, broker.job) ==>
          broker.job in outputs && outputs[broker.job] == broker.payload)
  }

  type Captures = set<(AnalysisId, Digest)>

  /** What was ever captured of an agent job's analysis: one output of that job, and reports. */
  ghost predicate OneOutput(captured: Captures) {
    forall k | k in captured && k.0.OfJob? && !k.1.OfReport? ::
      k.1.OfOutput? && k.1.job == k.0.job && forall d | (k.0, d) in captured && !d.OfReport? :: d == k.1
  }

  ghost predicate OutputCurrent(captured: Captures, rows: Rows, outputs: map<JobId, Payload>, broker: Broker) {
    forall k | k in captured && k.0.OfJob? && k.1.OfOutput? ::
      && (IsActive(rows, k.0.job) ==> k.0.job in outputs && outputs[k.0.job] == k.1.payload)
      && (Holds(broker, k.0.job) ==> broker.payload == k.1.payload)
  }

  ghost predicate Collected(w: World) {
    && InputsKept(w.rows, w.inbox, w.log) && Dispatched(w.outputs, w.log)
    && BrokerCurrent(w.broker, w.rows, w.outputs)
    && OneOutput(w.log.captured) && OutputCurrent(w.log.captured, w.rows, w.outputs, w.broker)
  }

  ghost predicate Inv(w: World) { Identified(w) && Backed(w) && Collected(w) }

  lemma RowsKeptByBroker(w: World, s: Step)
    requires Identified(w) && BrokerEnabled(w, s)
    ensures var v := BrokerStep(w, s);
      RowsBorn(v.rows, v.log) && CasesIssued(v.log) && StaleBorn(v.stale, v.log) && BrokerBorn(v.broker, v.log)
  {}

  lemma WorkersKeptByBroker(w: World, s: Step)
    requires Identified(w) && BrokerEnabled(w, s)
    ensures var v := BrokerStep(w, s); WorkersBorn(v.workers, v.log)
  {}

  lemma EvidenceKeptByBroker(w: World, s: Step)
    requires Identified(w) && BrokerEnabled(w, s)
    ensures var v := BrokerStep(w, s);
      AnalysesBorn(v.analyses, v.log) && SnapshotsBorn(v.snapshots, v.log) && CapturesBorn(v.log)
  {}

  lemma DonesKeptByBroker(w: World, s: Step)
    requires Identified(w) && Backed(w) && BrokerEnabled(w, s)
    ensures var v := BrokerStep(w, s); DoneBacked(v.rows, v.analyses, v.snapshots)
  {}

  lemma AgentsKeptByBroker(w: World, s: Step)
    requires Identified(w) && Backed(w) && BrokerEnabled(w, s)
    ensures var v := BrokerStep(w, s); AgentsBacked(v.rows, v.snapshots)
  {}

  lemma PersistedKeptByBroker(w: World, s: Step)
    requires RowsBorn(w.rows, w.log) && WorkersBorn(w.workers, w.log)
    requires BrokerBorn(w.broker, w.log) && SnapshotsBorn(w.snapshots, w.log) && AnalysesBorn(w.analyses, w.log)
    requires PersistedBacked(w.workers, w.rows, w.analyses, w.snapshots) && BrokerEnabled(w, s)
    ensures var v := BrokerStep(w, s); PersistedBacked(v.workers, v.rows, v.analyses, v.snapshots)
  {}

  lemma SavedKeptByBroker(w: World, s: Step)
    requires Identified(w) && SavedBacked(w.broker, w.rows, w.analyses, w.snapshots) && BrokerEnabled(w, s)
    ensures var v := BrokerStep(w, s); SavedBacked(v.broker, v.rows, v.analyses, v.snapshots)
  {}

  lemma EvidencedKeptByBroker(w: World, s: Step)
    requires Identified(w) && Evidenced(w.analyses, w.snapshots) && BrokerEnabled(w, s)
    ensures var v := BrokerStep(w, s); Evidenced(v.analyses, v.snapshots)
  {}

  lemma InputsKeptByBroker(w: World, s: Step)
    requires Identified(w) && InputsKept(w.rows, w.inbox, w.log) && Dispatched(w.outputs, w.log)
    requires BrokerCurrent(w.broker, w.rows, w.outputs) && BrokerEnabled(w, s)
    ensures var v := BrokerStep(w, s); InputsKept(v.rows, v.inbox, v.log)
  {}

  lemma BrokersKeptByBroker(w: World, s: Step)
    requires Identified(w) && InputsKept(w.rows, w.inbox, w.log) && Dispatched(w.outputs, w.log)
    requires BrokerCurrent(w.broker, w.rows, w.outputs) && BrokerEnabled(w, s)
    ensures var v := BrokerStep(w, s); Dispatched(v.outputs, v.log) && BrokerCurrent(v.broker, v.rows, v.outputs)
  {}

  lemma CapturesKeptByBroker(w: World, s: Step)
    requires Identified(w) && OneOutput(w.log.captured)
    requires OutputCurrent(w.log.captured, w.rows, w.outputs, w.broker) && BrokerEnabled(w, s)
    ensures var v := BrokerStep(w, s); OneOutput(v.log.captured)
  {}

  lemma CurrentsKeptByBroker(w: World, s: Step)
    requires Identified(w) && Collected(w) && BrokerEnabled(w, s)
    ensures var v := BrokerStep(w, s); OutputCurrent(v.log.captured, v.rows, v.outputs, v.broker)
  {}

  lemma BrokerKeeps(w: World, s: Step)
    requires Inv(w) && BrokerEnabled(w, s)
    ensures Inv(BrokerStep(w, s))
  {
    RowsKeptByBroker(w, s);
    WorkersKeptByBroker(w, s);
    EvidenceKeptByBroker(w, s);
    DonesKeptByBroker(w, s);
    AgentsKeptByBroker(w, s);
    PersistedKeptByBroker(w, s);
    SavedKeptByBroker(w, s);
    EvidencedKeptByBroker(w, s);
    InputsKeptByBroker(w, s);
    BrokersKeptByBroker(w, s);
    CapturesKeptByBroker(w, s);
    CurrentsKeptByBroker(w, s);
  }

  lemma WorkersKeptByQueue(w: World, s: Step)
    requires RowsBorn(w.rows, w.log) && WorkersBorn(w.workers, w.log) && QueueEnabled(w, s)
    ensures var v := QueueStep(w, s); WorkersBorn(v.workers, v.log)
  {}

  lemma PersistedKeptByQueue(w: World, s: Step)
    requires RowsBorn(w.rows, w.log) && WorkersBorn(w.workers, w.log)
    requires BrokerBorn(w.broker, w.log) && SnapshotsBorn(w.snapshots, w.log) && AnalysesBorn(w.analyses, w.log)
    requires PersistedBacked(w.workers, w.rows, w.analyses, w.snapshots) && QueueEnabled(w, s)
    ensures var v := QueueStep(w, s); PersistedBacked(v.workers, v.rows, v.analyses, v.snapshots)
  {}

  lemma QueueFrame(w: World, s: Step)
    requires QueueEnabled(w, s)
    ensures QueueStep(w, s).(workers := w.workers) == w
  {}

  lemma QueueKeeps(w: World, s: Step)
    requires Inv(w) && QueueEnabled(w, s)
    ensures Inv(QueueStep(w, s))
  {
    QueueFrame(w, s);
    WorkersKeptByQueue(w, s);
    PersistedKeptByQueue(w, s);
  }

  lemma RowsKeptByClaim(w: World, s: Step)
    requires Identified(w) && ClaimEnabled(w, s)
    ensures var v := ClaimStep(w, s);
      RowsBorn(v.rows, v.log) && CasesIssued(v.log) && StaleBorn(v.stale, v.log) && BrokerBorn(v.broker, v.log)
  {}

  lemma WorkersKeptByClaim(w: World, s: Step)
    requires Identified(w) && ClaimEnabled(w, s)
    ensures var v := ClaimStep(w, s); WorkersBorn(v.workers, v.log)
  {}

  lemma DonesKeptByClaim(w: World, s: Step)
    requires Identified(w) && Backed(w) && ClaimEnabled(w, s)
    ensures var v := ClaimStep(w, s); DoneBacked(v.rows, v.analyses, v.snapshots)
  {}

  lemma AgentsKeptByClaim(w: World, s: Step)
    requires Identified(w) && Backed(w) && ClaimEnabled(w, s)
    ensures var v := ClaimStep(w, s); AgentsBacked(v.rows, v.snapshots)
  {}

  lemma PersistedKeptByClaim(w: World, s: Step)
    requires RowsBorn(w.rows, w.log) && WorkersBorn(w.workers, w.log)
    requires BrokerBorn(w.broker, w.log) && SnapshotsBorn(w.snapshots, w.log) && AnalysesBorn(w.analyses, w.log)
    requires PersistedBacked(w.workers, w.rows, w.analyses, w.snapshots) && ClaimEnabled(w, s)
    ensures var v := ClaimStep(w, s); PersistedBacked(v.workers, v.rows, v.analyses, v.snapshots)
  {}

  lemma SavedKeptByClaim(w: World, s: Step)
    requires Identified(w) && SavedBacked(w.broker, w.rows, w.analyses, w.snapshots) && ClaimEnabled(w, s)
    ensures var v := ClaimStep(w, s); SavedBacked(v.broker, v.rows, v.analyses, v.snapshots)
  {}

  lemma InputsKeptByClaim(w: World, s: Step)
    requires Identified(w) && InputsKept(w.rows, w.inbox, w.log) && Dispatched(w.outputs, w.log)
    requires BrokerCurrent(w.broker, w.rows, w.outputs) && ClaimEnabled(w, s)
    ensures var v := ClaimStep(w, s); InputsKept(v.rows, v.inbox, v.log)
  {}

  lemma BrokersKeptByClaim(w: World, s: Step)
    requires Identified(w) && InputsKept(w.rows, w.inbox, w.log) && Dispatched(w.outputs, w.log)
    requires BrokerCurrent(w.broker, w.rows, w.outputs) && ClaimEnabled(w, s)
    ensures var v := ClaimStep(w, s); Dispatched(v.outputs, v.log) && BrokerCurrent(v.broker, v.rows, v.outputs)
  {}

  lemma CurrentsKeptByClaim(w: World, s: Step)
    requires Identified(w) && Collected(w) && ClaimEnabled(w, s)
    ensures var v := ClaimStep(w, s); OutputCurrent(v.log.captured, v.rows, v.outputs, v.broker)
  {}

  lemma ClaimKeeps(w: World, s: Step)
    requires Inv(w) && ClaimEnabled(w, s)
    ensures Inv(ClaimStep(w, s))
  {
    RowsKeptByClaim(w, s);
    WorkersKeptByClaim(w, s);
    DonesKeptByClaim(w, s);
    AgentsKeptByClaim(w, s);
    PersistedKeptByClaim(w, s);
    SavedKeptByClaim(w, s);
    InputsKeptByClaim(w, s);
    BrokersKeptByClaim(w, s);
    CurrentsKeptByClaim(w, s);
  }

  lemma RowsKeptBySave(w: World, s: Step)
    requires Identified(w) && SaveEnabled(w, s)
    ensures var v := SaveStep(w, s);
      RowsBorn(v.rows, v.log) && CasesIssued(v.log) && StaleBorn(v.stale, v.log) && BrokerBorn(v.broker, v.log)
  {}

  lemma WorkersKeptBySave(w: World, s: Step)
    requires Identified(w) && SaveEnabled(w, s)
    ensures var v := SaveStep(w, s); WorkersBorn(v.workers, v.log)
  {}

  lemma EvidenceKeptBySave(w: World, s: Step)
    requires Identified(w) && SaveEnabled(w, s)
    ensures var v := SaveStep(w, s);
      AnalysesBorn(v.analyses, v.log) && SnapshotsBorn(v.snapshots, v.log) && CapturesBorn(v.log)
  {}

  lemma DonesKeptBySave(w: World, s: Step)
    requires Identified(w) && Backed(w) && SaveEnabled(w, s)
    ensures var v := SaveStep(w, s); DoneBacked(v.rows, v.analyses, v.snapshots)
  {
    SaveKeepsCaptured(w, s);
  }

  lemma AgentsKeptBySave(w: World, s: Step)
    requires Identified(w) && Backed(w) && SaveEnabled(w, s)
    ensures var v := SaveStep(w, s); AgentsBacked(v.rows, v.snapshots)
  {}

  lemma PersistedKeptBySave(w: World, s: Step)
    requires RowsBorn(w.rows, w.log) && WorkersBorn(w.workers, w.log)
    requires BrokerBorn(w.broker, w.log) && SnapshotsBorn(w.snapshots, w.log) && AnalysesBorn(w.analyses, w.log)
    requires PersistedBacked(w.workers, w.rows, w.analyses, w.snapshots) && SaveEnabled(w, s)
    ensures var v := SaveStep(w, s); PersistedBacked(v.workers, v.rows, v.analyses, v.snapshots)
  {
    SaveKeepsCaptured(w, s);
  }

  lemma SavedKeptBySave(w: World, s: Step)
    requires Identified(w) && SavedBacked(w.broker, w.rows, w.analyses, w.snapshots) && SaveEnabled(w, s)
    ensures var v := SaveStep(w, s); SavedBacked(v.broker, v.rows, v.analyses, v.snapshots)
  {}

  lemma EvidencedKeptBySave(w: World, s: Step)
    requires Identified(w) && Evidenced(w.analyses, w.snapshots) && SaveEnabled(w, s)
    ensures var v := SaveStep(w, s); Evidenced(v.analyses, v.snapshots)
  {}

  lemma InputsKeptBySave(w: World, s: Step)
    requires Identified(w) && InputsKept(w.rows, w.inbox, w.log) && Dispatched(w.outputs, w.log)
    requires BrokerCurrent(w.broker, w.rows, w.outputs) && SaveEnabled(w, s)
    ensures var v := SaveStep(w, s); InputsKept(v.rows, v.inbox, v.log)
  {}

  lemma BrokersKeptBySave(w: World, s: Step)
    requires Identified(w) && InputsKept(w.rows, w.inbox, w.log) && Dispatched(w.outputs, w.log)
    requires BrokerCurrent(w.broker, w.rows, w.outputs) && SaveEnabled(w, s)
    ensures var v := SaveStep(w, s); Dispatched(v.outputs, v.log) && BrokerCurrent(v.broker, v.rows, v.outputs)
  {}

  lemma CapturesKeptBySave(w: World, s: Step)
    requires Identified(w) && OneOutput(w.log.captured)
    requires OutputCurrent(w.log.captured, w.rows, w.outputs, w.broker) && SaveEnabled(w, s)
    ensures var v := SaveStep(w, s); OneOutput(v.log.captured)
  {}

  lemma CurrentsKeptBySave(w: World, s: Step)
    requires Identified(w) && Collected(w) && SaveEnabled(w, s)
    ensures var v := SaveStep(w, s); OutputCurrent(v.log.captured, v.rows, v.outputs, v.broker)
  {}

  /** What was captured stays captured when a worker saves. */
  lemma SaveKeepsCaptured(w: World, s: Step)
    requires WorkersBorn(w.workers, w.log) && AnalysesBorn(w.analyses, w.log) && SnapshotsBorn(w.snapshots, w.log)
    requires SaveEnabled(w, s)
    ensures var v := SaveStep(w, s);
      forall a, c :: Captured(w.analyses, w.snapshots, a, c) ==> Captured(v.analyses, v.snapshots, a, c)
  {}

  lemma SaveKeeps(w: World, s: Step)
    requires Inv(w) && SaveEnabled(w, s)
    ensures Inv(SaveStep(w, s))
  {
    RowsKeptBySave(w, s);
    WorkersKeptBySave(w, s);
    EvidenceKeptBySave(w, s);
    DonesKeptBySave(w, s);
    AgentsKeptBySave(w, s);
    PersistedKeptBySave(w, s);
    SavedKeptBySave(w, s);
    EvidencedKeptBySave(w, s);
    InputsKeptBySave(w, s);
    BrokersKeptBySave(w, s);
    CapturesKeptBySave(w, s);
    CurrentsKeptBySave(w, s);
  }

  lemma RowsKeptByEnding(w: World, s: Step)
    requires Identified(w) && EndingEnabled(w, s)
    ensures var v := EndingStep(w, s);
      RowsBorn(v.rows, v.log) && CasesIssued(v.log) && StaleBorn(v.stale, v.log) && BrokerBorn(v.broker, v.log)
  {}

  lemma WorkersKeptByEnding(w: World, s: Step)
    requires Identified(w) && EndingEnabled(w, s)
    ensures var v := EndingStep(w, s); WorkersBorn(v.workers, v.log)
  {}

  lemma DonesKeptByEnding(w: World, s: Step)
    requires Identified(w) && Backed(w) && EndingEnabled(w, s)
    ensures var v := EndingStep(w, s); DoneBacked(v.rows, v.analyses, v.snapshots)
  {}

  lemma AgentsKeptByEnding(w: World, s: Step)
    requires Identified(w) && Backed(w) && EndingEnabled(w, s)
    ensures var v := EndingStep(w, s); AgentsBacked(v.rows, v.snapshots)
  {}

  lemma PersistedKeptByEnding(w: World, s: Step)
    requires RowsBorn(w.rows, w.log) && WorkersBorn(w.workers, w.log)
    requires BrokerBorn(w.broker, w.log) && SnapshotsBorn(w.snapshots, w.log) && AnalysesBorn(w.analyses, w.log)
    requires PersistedBacked(w.workers, w.rows, w.analyses, w.snapshots) && EndingEnabled(w, s)
    ensures var v := EndingStep(w, s); PersistedBacked(v.workers, v.rows, v.analyses, v.snapshots)
  {}

  lemma SavedKeptByEnding(w: World, s: Step)
    requires Identified(w) && SavedBacked(w.broker, w.rows, w.analyses, w.snapshots) && EndingEnabled(w, s)
    ensures var v := EndingStep(w, s); SavedBacked(v.broker, v.rows, v.analyses, v.snapshots)
  {}

  lemma InputsKeptByEnding(w: World, s: Step)
    requires Identified(w) && InputsKept(w.rows, w.inbox, w.log) && Dispatched(w.outputs, w.log)
    requires BrokerCurrent(w.broker, w.rows, w.outputs) && EndingEnabled(w, s)
    ensures var v := EndingStep(w, s); InputsKept(v.rows, v.inbox, v.log)
  {}

  lemma BrokersKeptByEnding(w: World, s: Step)
    requires Identified(w) && InputsKept(w.rows, w.inbox, w.log) && Dispatched(w.outputs, w.log)
    requires BrokerCurrent(w.broker, w.rows, w.outputs) && EndingEnabled(w, s)
    ensures var v := EndingStep(w, s); Dispatched(v.outputs, v.log) && BrokerCurrent(v.broker, v.rows, v.outputs)
  {}

  lemma CurrentsKeptByEnding(w: World, s: Step)
    requires Identified(w) && Collected(w) && EndingEnabled(w, s)
    ensures var v := EndingStep(w, s); OutputCurrent(v.log.captured, v.rows, v.outputs, v.broker)
  {}

  lemma EndingKeeps(w: World, s: Step)
    requires Inv(w) && EndingEnabled(w, s)
    ensures Inv(EndingStep(w, s))
  {
    RowsKeptByEnding(w, s);
    WorkersKeptByEnding(w, s);
    DonesKeptByEnding(w, s);
    AgentsKeptByEnding(w, s);
    PersistedKeptByEnding(w, s);
    SavedKeptByEnding(w, s);
    InputsKeptByEnding(w, s);
    BrokersKeptByEnding(w, s);
    CurrentsKeptByEnding(w, s);
  }

  lemma RowsKeptByIntake(w: World, s: Step)
    requires Identified(w) && IntakeEnabled(w, s)
    ensures var v := IntakeStep(w, s);
      RowsBorn(v.rows, v.log) && CasesIssued(v.log) && StaleBorn(v.stale, v.log) && BrokerBorn(v.broker, v.log)
  {}

  lemma WorkersKeptByIntake(w: World, s: Step)
    requires Identified(w) && IntakeEnabled(w, s)
    ensures var v := IntakeStep(w, s); WorkersBorn(v.workers, v.log)
  {}

  lemma EvidenceKeptByIntake(w: World, s: Step)
    requires Identified(w) && IntakeEnabled(w, s)
    ensures var v := IntakeStep(w, s);
      AnalysesBorn(v.analyses, v.log) && SnapshotsBorn(v.snapshots, v.log) && CapturesBorn(v.log)
  {}

  lemma DonesKeptByIntake(w: World, s: Step)
    requires Identified(w) && Backed(w) && IntakeEnabled(w, s)
    ensures var v := IntakeStep(w, s); DoneBacked(v.rows, v.analyses, v.snapshots)
  {}

  lemma AgentsKeptByIntake(w: World, s: Step)
    requires Identified(w) && Backed(w) && IntakeEnabled(w, s)
    ensures var v := IntakeStep(w, s); AgentsBacked(v.rows, v.snapshots)
  {}

  lemma PersistedKeptByIntake(w: World, s: Step)
    requires RowsBorn(w.rows, w.log) && WorkersBorn(w.workers, w.log)
    requires BrokerBorn(w.broker, w.log) && SnapshotsBorn(w.snapshots, w.log) && AnalysesBorn(w.analyses, w.log)
    requires PersistedBacked(w.workers, w.rows, w.analyses, w.snapshots) && IntakeEnabled(w, s)
    ensures var v := IntakeStep(w, s); PersistedBacked(v.workers, v.rows, v.analyses, v.snapshots)
  {}

  lemma SavedKeptByIntake(w: World, s: Step)
    requires Identified(w) && SavedBacked(w.broker, w.rows, w.analyses, w.snapshots) && IntakeEnabled(w, s)
    ensures var v := IntakeStep(w, s); SavedBacked(v.broker, v.rows, v.analyses, v.snapshots)
  {}

  lemma InputsKeptByIntake(w: World, s: Step)
    requires Identified(w) && InputsKept(w.rows, w.inbox, w.log) && Dispatched(w.outputs, w.log)
    requires BrokerCurrent(w.broker, w.rows, w.outputs) && IntakeEnabled(w, s)
    ensures var v := IntakeStep(w, s); InputsKept(v.rows, v.inbox, v.log)
  {}

  lemma BrokersKeptByIntake(w: World, s: Step)
    requires Identified(w) && InputsKept(w.rows, w.inbox, w.log) && Dispatched(w.outputs, w.log)
    requires BrokerCurrent(w.broker, w.rows, w.outputs) && IntakeEnabled(w, s)
    ensures var v := IntakeStep(w, s); Dispatched(v.outputs, v.log) && BrokerCurrent(v.broker, v.rows, v.outputs)
  {}

  lemma CapturesKeptByIntake(w: World, s: Step)
    requires Identified(w) && OneOutput(w.log.captured)
    requires OutputCurrent(w.log.captured, w.rows, w.outputs, w.broker) && IntakeEnabled(w, s)
    ensures var v := IntakeStep(w, s); OneOutput(v.log.captured)
  {}

  lemma CurrentsKeptByIntake(w: World, s: Step)
    requires Identified(w) && Collected(w) && IntakeEnabled(w, s)
    ensures var v := IntakeStep(w, s); OutputCurrent(v.log.captured, v.rows, v.outputs, v.broker)
  {}

  lemma IntakeKeeps(w: World, s: Step)
    requires Inv(w) && IntakeEnabled(w, s)
    ensures Inv(IntakeStep(w, s))
  {
    RowsKeptByIntake(w, s);
    WorkersKeptByIntake(w, s);
    EvidenceKeptByIntake(w, s);
    DonesKeptByIntake(w, s);
    AgentsKeptByIntake(w, s);
    PersistedKeptByIntake(w, s);
    SavedKeptByIntake(w, s);
    InputsKeptByIntake(w, s);
    BrokersKeptByIntake(w, s);
    CapturesKeptByIntake(w, s);
    CurrentsKeptByIntake(w, s);
  }

  lemma RowsKeptByOperator(w: World, s: Step)
    requires Identified(w) && OperatorEnabled(w, s)
    ensures var v := OperatorStep(w, s);
      RowsBorn(v.rows, v.log) && CasesIssued(v.log) && StaleBorn(v.stale, v.log) && BrokerBorn(v.broker, v.log)
  {}

  lemma DonesKeptByOperator(w: World, s: Step)
    requires Identified(w) && Backed(w) && OperatorEnabled(w, s)
    ensures var v := OperatorStep(w, s); DoneBacked(v.rows, v.analyses, v.snapshots)
  {}

  lemma AgentsKeptByOperator(w: World, s: Step)
    requires Identified(w) && Backed(w) && OperatorEnabled(w, s)
    ensures var v := OperatorStep(w, s); AgentsBacked(v.rows, v.snapshots)
  {}

  lemma PersistedKeptByOperator(w: World, s: Step)
    requires RowsBorn(w.rows, w.log) && WorkersBorn(w.workers, w.log)
    requires BrokerBorn(w.broker, w.log) && SnapshotsBorn(w.snapshots, w.log) && AnalysesBorn(w.analyses, w.log)
    requires PersistedBacked(w.workers, w.rows, w.analyses, w.snapshots) && OperatorEnabled(w, s)
    ensures var v := OperatorStep(w, s); PersistedBacked(v.workers, v.rows, v.analyses, v.snapshots)
  {}

  lemma SavedKeptByOperator(w: World, s: Step)
    requires Identified(w) && SavedBacked(w.broker, w.rows, w.analyses, w.snapshots) && OperatorEnabled(w, s)
    ensures var v := OperatorStep(w, s); SavedBacked(v.broker, v.rows, v.analyses, v.snapshots)
  {}

  lemma InputsKeptByOperator(w: World, s: Step)
    requires Identified(w) && InputsKept(w.rows, w.inbox, w.log) && Dispatched(w.outputs, w.log)
    requires BrokerCurrent(w.broker, w.rows, w.outputs) && OperatorEnabled(w, s)
    ensures var v := OperatorStep(w, s); InputsKept(v.rows, v.inbox, v.log)
  {}

  lemma BrokersKeptByOperator(w: World, s: Step)
    requires Identified(w) && InputsKept(w.rows, w.inbox, w.log) && Dispatched(w.outputs, w.log)
    requires BrokerCurrent(w.broker, w.rows, w.outputs) && OperatorEnabled(w, s)
    ensures var v := OperatorStep(w, s); Dispatched(v.outputs, v.log) && BrokerCurrent(v.broker, v.rows, v.outputs)
  {}

  lemma CurrentsKeptByOperator(w: World, s: Step)
    requires Identified(w) && Collected(w) && OperatorEnabled(w, s)
    ensures var v := OperatorStep(w, s); OutputCurrent(v.log.captured, v.rows, v.outputs, v.broker)
  {}

  lemma OperatorKeeps(w: World, s: Step)
    requires Inv(w) && OperatorEnabled(w, s)
    ensures Inv(OperatorStep(w, s))
  {
    RowsKeptByOperator(w, s);
    DonesKeptByOperator(w, s);
    AgentsKeptByOperator(w, s);
    PersistedKeptByOperator(w, s);
    SavedKeptByOperator(w, s);
    InputsKeptByOperator(w, s);
    BrokersKeptByOperator(w, s);
    CurrentsKeptByOperator(w, s);
  }

  lemma RowsKeptByRemoval(w: World, s: Step)
    requires Identified(w) && RemovalEnabled(w, s)
    ensures var v := RemovalStep(w, s);
      RowsBorn(v.rows, v.log) && CasesIssued(v.log) && StaleBorn(v.stale, v.log) && BrokerBorn(v.broker, v.log)
  {}

  lemma EvidenceKeptByRemoval(w: World, s: Step)
    requires Identified(w) && RemovalEnabled(w, s)
    ensures var v := RemovalStep(w, s);
      AnalysesBorn(v.analyses, v.log) && SnapshotsBorn(v.snapshots, v.log) && CapturesBorn(v.log)
  {}

  lemma DonesKeptByRemoval(w: World, s: Step)
    requires Identified(w) && Backed(w) && RemovalEnabled(w, s)
    ensures var v := RemovalStep(w, s); DoneBacked(v.rows, v.analyses, v.snapshots)
  {}

  lemma AgentsKeptByRemoval(w: World, s: Step)
    requires Identified(w) && Backed(w) && RemovalEnabled(w, s)
    ensures var v := RemovalStep(w, s); AgentsBacked(v.rows, v.snapshots)
  {}

  lemma PersistedKeptByRemoval(w: World, s: Step)
    requires RowsBorn(w.rows, w.log) && WorkersBorn(w.workers, w.log)
    requires BrokerBorn(w.broker, w.log) && SnapshotsBorn(w.snapshots, w.log) && AnalysesBorn(w.analyses, w.log)
    requires PersistedBacked(w.workers, w.rows, w.analyses, w.snapshots) && RemovalEnabled(w, s)
    ensures var v := RemovalStep(w, s); PersistedBacked(v.workers, v.rows, v.analyses, v.snapshots)
  {}

  lemma SavedKeptByRemoval(w: World, s: Step)
    requires Identified(w) && SavedBacked(w.broker, w.rows, w.analyses, w.snapshots) && RemovalEnabled(w, s)
    ensures var v := RemovalStep(w, s); SavedBacked(v.broker, v.rows, v.analyses, v.snapshots)
  {}

  lemma EvidencedKeptByRemoval(w: World, s: Step)
    requires Identified(w) && Evidenced(w.analyses, w.snapshots) && RemovalEnabled(w, s)
    ensures var v := RemovalStep(w, s); Evidenced(v.analyses, v.snapshots)
  {}

  lemma InputsKeptByRemoval(w: World, s: Step)
    requires Identified(w) && InputsKept(w.rows, w.inbox, w.log) && Dispatched(w.outputs, w.log)
    requires BrokerCurrent(w.broker, w.rows, w.outputs) && RemovalEnabled(w, s)
    ensures var v := RemovalStep(w, s); InputsKept(v.rows, v.inbox, v.log)
  {}

  lemma BrokersKeptByRemoval(w: World, s: Step)
    requires Identified(w) && InputsKept(w.rows, w.inbox, w.log) && Dispatched(w.outputs, w.log)
    requires BrokerCurrent(w.broker, w.rows, w.outputs) && RemovalEnabled(w, s)
    ensures var v := RemovalStep(w, s); Dispatched(v.outputs, v.log) && BrokerCurrent(v.broker, v.rows, v.outputs)
  {}

  lemma CurrentsKeptByRemoval(w: World, s: Step)
    requires Identified(w) && Collected(w) && RemovalEnabled(w, s)
    ensures var v := RemovalStep(w, s); OutputCurrent(v.log.captured, v.rows, v.outputs, v.broker)
  {}

  lemma RemovalKeeps(w: World, s: Step)
    requires Inv(w) && RemovalEnabled(w, s)
    ensures Inv(RemovalStep(w, s))
  {
    RowsKeptByRemoval(w, s);
    EvidenceKeptByRemoval(w, s);
    DonesKeptByRemoval(w, s);
    AgentsKeptByRemoval(w, s);
    PersistedKeptByRemoval(w, s);
    SavedKeptByRemoval(w, s);
    EvidencedKeptByRemoval(w, s);
    InputsKeptByRemoval(w, s);
    BrokersKeptByRemoval(w, s);
    CurrentsKeptByRemoval(w, s);
  }

  /** Every step of every actor keeps the invariant. */
  lemma StepKeeps(w: World, s: Step)
    requires Inv(w) && Enabled(w, s)
    ensures Inv(Apply(w, s))
  {
    if OfBroker(s) {
      BrokerKeeps(w, s);
    } else if OfQueue(s) {
      QueueKeeps(w, s);
    } else if OfClaim(s) {
      ClaimKeeps(w, s);
    } else if OfSave(s) {
      SaveKeeps(w, s);
    } else if OfEnding(s) {
      EndingKeeps(w, s);
    } else if OfIntake(s) {
      IntakeKeeps(w, s);
    } else if OfOperator(s) {
      OperatorKeeps(w, s);
    } else {
      RemovalKeeps(w, s);
    }
  }

  lemma {:induction false} RunKeeps(w: World, run: seq<Step>)
    requires Inv(w) && Legal(w, run)
    ensures Inv(Run(w, run))
    decreases |run|
  {
    if run != [] {
      StepKeeps(w, run[0]);
      RunKeeps(Apply(w, run[0]), run[1..]);
    }
  }

  lemma {:induction false} LegalConcat(w: World, a: seq<Step>, b: seq<Step>)
    requires Legal(w, a) && Legal(Run(w, a), b)
    ensures Legal(w, a + b) && Run(w, a + b) == Run(Run(w, a), b)
    decreases |a|
  {
    if a == [] {
      assert a + b == b;
    } else {
      assert (a + b)[0] == a[0] && (a + b)[1..] == a[1..] + b;
      LegalConcat(Apply(w, a[0]), a[1..], b);
    }
  }

  lemma LegalStep(w: World, s: Step, rest: seq<Step>)
    requires Enabled(w, s) && Legal(Apply(w, s), rest)
    ensures Legal(w, [s] + rest) && Run(w, [s] + rest) == Run(Apply(w, s), rest)
  {
    assert ([s] + rest)[1..] == rest;
  }

  /* ---------- Main results: over every run of the whole system ---------- */

  /**
   * A job marked done has a committed analysis of its case with a captured snapshot, whether it parsed packets,
   * was parsed for an agent or regenerated a report; an agent job's is its own collected output.
   */
  lemma DoneHasEvidence(run: seq<Step>, j: JobId)
    requires Legal(EMPTY, run) && Is(Run(EMPTY, run).rows, j, Done)
    ensures var w := Run(EMPTY, run);
            && w.rows[j].result.Some?
            && Captured(w.analyses, w.snapshots, w.rows[j].result.value, w.rows[j].caseId)
            && (w.rows[j].agent ==>
                  w.rows[j].result.value == OfJob(j) && exists p :: (OfJob(j), OfOutput(j, p)) in w.snapshots)
  {
    RunKeeps(EMPTY, run);
  }

  /**
   * However many attempts at collecting it were interrupted, the snapshots of an agent job's analysis name at most
   * one output, its own; every other one comes from a report job.
   */
  lemma OneOutputEver(run: seq<Step>, j: JobId, d: Digest, e: Digest)
    requires Legal(EMPTY, run)
    requires (OfJob(j), d) in Run(EMPTY, run).snapshots && (OfJob(j), e) in Run(EMPTY, run).snapshots
    ensures d.OfReport? || (d.OfOutput? && d.job == j)
    ensures !d.OfReport? && !e.OfReport? ==> d == e
  {
    RunKeeps(EMPTY, run);
    var k := (OfJob(j), d);
    assert k in Run(EMPTY, run).log.captured && k.0.OfJob?;
  }
}
