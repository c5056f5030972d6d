/** Which verdicts of a job are final (app/agents/spool.py, app/api/queue.py, app/database/repository.py). */
module JobVerdicts {
  import opened Options
  import opened JobTable
  import opened JobProtocol

  /* ---------- One step: only three writes reach a job that has ended ---------- */

  /** The writes that ask nothing of the row they overwrite. */
  predicate Unconditional(w: World, s: Step, j: JobId)
    requires Enabled(w, s)
  {
    if s.Finish? || s.Fault? then w.workers[s.k].job == j else s == FailStale(j)
  }

  lemma SparedByBroker(w: World, s: Step, j: JobId)
    requires BrokerEnabled(w, s) && j in w.rows && !Active(w.rows[j].status)
    ensures var v := BrokerStep(w, s); j in v.rows ==> v.rows[j] == w.rows[j]
  {}

  lemma SparedByClaim(w: World, s: Step, j: JobId)
    requires ClaimEnabled(w, s) && j in w.rows && !Active(w.rows[j].status)
    ensures var v := ClaimStep(w, s); j in v.rows ==> v.rows[j] == w.rows[j]
  {}

  lemma SparedByEnding(w: World, s: Step, j: JobId)
    requires EndingEnabled(w, s) && j in w.rows && w.workers[s.k].job != j
    ensures var v := EndingStep(w, s); j in v.rows && v.rows[j] == w.rows[j]
  {}

  lemma SparedByIntake(w: World, s: Step, j: JobId)
    requires RowsBorn(w.rows, w.log) && IntakeEnabled(w, s) && j in w.rows
    ensures var v := IntakeStep(w, s); j in v.rows && v.rows[j] == w.rows[j]
  {}

  lemma SparedByOperator(w: World, s: Step, j: JobId)
    requires OperatorEnabled(w, s) && j in w.rows && !Active(w.rows[j].status) && s != FailStale(j)
    ensures var v := OperatorStep(w, s); j in v.rows && v.rows[j] == w.rows[j]
  {}

  lemma SparedByRemoval(w: World, s: Step, j: JobId)
    requires RemovalEnabled(w, s) && j in w.rows
    ensures var v := RemovalStep(w, s); j in v.rows ==> v.rows[j] == w.rows[j]
  {}

  lemma SparedAtWork(w: World, s: Step, j: JobId)
    requires Enabled(w, s) && !Unconditional(w, s, j) && (OfBroker(s) || OfClaim(s) || OfEnding(s))
    requires j in w.rows && !Active(w.rows[j].status)
    ensures var v := Apply(w, s); j in v.rows ==> v.rows[j] == w.rows[j]
  {
    if OfBroker(s) {
      SparedByBroker(w, s, j);
    } else if OfClaim(s) {
      SparedByClaim(w, s, j);
    } else {
      SparedByEnding(w, s, j);
    }
  }

  lemma RowsByQueue(w: World, s: Step)
    requires QueueEnabled(w, s)
    ensures QueueStep(w, s).rows == w.rows
  {}

  lemma RowsBySave(w: World, s: Step)
    requires SaveEnabled(w, s)
    ensures SaveStep(w, s).rows == w.rows
  {}

  lemma RowsBesides(w: World, s: Step)
    requires Enabled(w, s) && (OfQueue(s) || OfSave(s))
    ensures Apply(w, s).rows == w.rows
  {
    if OfQueue(s) { RowsByQueue(w, s); } else { RowsBySave(w, s); }
  }

  /** Any other step leaves the row of an ended job alone, or deletes it. */
  lemma Spared(w: World, s: Step, j: JobId)
    requires RowsBorn(w.rows, w.log) && Enabled(w, s) && !Unconditional(w, s, j)
    requires j in w.rows && !Active(w.rows[j].status)
    ensures var v := Apply(w, s); j in v.rows ==> v.rows[j] == w.rows[j]
  {
    if OfBroker(s) || OfClaim(s) || OfEnding(s) {
      SparedAtWork(w, s, j);
    } else if OfQueue(s) || OfSave(s) {
      RowsBesides(w, s);
    } else if OfIntake(s) {
      SparedByIntake(w, s, j);
    } else if OfOperator(s) {
      SparedByOperator(w, s, j);
    } else {
      SparedByRemoval(w, s, j);
    }
  }

  lemma NoneFromBroker(w: World, s: Step)
    requires BrokerEnabled(w, s)
    ensures BrokerStep(w, s).rows.Keys <= w.rows.Keys
  {}

  lemma NoneFromClaim(w: World, s: Step)
    requires ClaimEnabled(w, s)
    ensures ClaimStep(w, s).rows.Keys <= w.rows.Keys
  {}

  lemma NoneFromEnding(w: World, s: Step)
    requires EndingEnabled(w, s)
    ensures EndingStep(w, s).rows.Keys <= w.rows.Keys
  {}

  lemma NoneFromOperator(w: World, s: Step)
    requires OperatorEnabled(w, s)
    ensures OperatorStep(w, s).rows.Keys <= w.rows.Keys
  {}

  lemma NoneFromRemoval(w: World, s: Step)
    requires RemovalEnabled(w, s)
    ensures RemovalStep(w, s).rows.Keys <= w.rows.Keys
  {}

  lemma OnlyNewFromIntake(w: World, s: Step)
    requires IntakeEnabled(w, s)
    ensures forall j | j in IntakeStep(w, s).rows :: j in w.rows || j !in w.log.jobs
  {}

  lemma NoneBesidesIntake(w: World, s: Step)
    requires Enabled(w, s) && !OfIntake(s)
    ensures Apply(w, s).rows.Keys <= w.rows.Keys
  {
    if OfBroker(s) {
      NoneFromBroker(w, s);
    } else if OfQueue(s) || OfSave(s) {
      RowsBesides(w, s);
    } else if OfClaim(s) {
      NoneFromClaim(w, s);
    } else if OfEnding(s) {
      NoneFromEnding(w, s);
    } else if OfOperator(s) {
      NoneFromOperator(w, s);
    } else {
      NoneFromRemoval(w, s);
    }
  }

  lemma NewFromIntake(w: World, s: Step, j: JobId)
    requires Enabled(w, s) && OfIntake(s) && j in w.log.jobs && j !in w.rows
    ensures j !in Apply(w, s).rows
  {
    OnlyNewFromIntake(w, s);
  }

  /** A deleted row never comes back: identifiers are issued once. */
  lemma NotReissued(w: World, s: Step, j: JobId)
    requires Enabled(w, s) && j in w.log.jobs && j !in w.rows
    ensures j !in Apply(w, s).rows
  {
    if OfIntake(s) {
      NewFromIntake(w, s, j);
    } else {
      NoneBesidesIntake(w, s);
    }
  }

  lemma StaysByIntake(w: World, s: Step, j: JobId)
    requires IntakeEnabled(w, s) && j in w.log.jobs
    ensures var v := IntakeStep(w, s); j in v.log.jobs && v.log.jobs[j] == w.log.jobs[j]
  {}

  lemma JobsKeptByBroker(w: World, s: Step)
    requires BrokerEnabled(w, s)
    ensures BrokerStep(w, s).log.jobs == w.log.jobs && w.log.analyses.Keys <= BrokerStep(w, s).log.analyses.Keys
  {}

  lemma JobsKeptByQueue(w: World, s: Step)
    requires QueueEnabled(w, s)
    ensures QueueStep(w, s).log.jobs == w.log.jobs && w.log.analyses.Keys <= QueueStep(w, s).log.analyses.Keys
  {}

  lemma JobsKeptByClaim(w: World, s: Step)
    requires ClaimEnabled(w, s)
    ensures ClaimStep(w, s).log.jobs == w.log.jobs && w.log.analyses.Keys <= ClaimStep(w, s).log.analyses.Keys
  {}

  lemma JobsKeptBySave(w: World, s: Step)
    requires SaveEnabled(w, s)
    ensures SaveStep(w, s).log.jobs == w.log.jobs && w.log.analyses.Keys <= SaveStep(w, s).log.analyses.Keys
  {}

  lemma JobsKeptByEnding(w: World, s: Step)
    requires EndingEnabled(w, s)
    ensures EndingStep(w, s).log.jobs == w.log.jobs && w.log.analyses.Keys <= EndingStep(w, s).log.analyses.Keys
  {}

  lemma JobsKeptByOperator(w: World, s: Step)
    requires OperatorEnabled(w, s)
    ensures OperatorStep(w, s).log.jobs == w.log.jobs && w.log.analyses.Keys <= OperatorStep(w, s).log.analyses.Keys
  {}

  lemma JobsKeptByRemoval(w: World, s: Step)
    requires RemovalEnabled(w, s)
    ensures RemovalStep(w, s).log.jobs == w.log.jobs && w.log.analyses.Keys <= RemovalStep(w, s).log.analyses.Keys
  {}

  lemma JobsBesidesIntake(w: World, s: Step)
    requires Enabled(w, s) && !OfIntake(s)
    ensures Apply(w, s).log.jobs == w.log.jobs && w.log.analyses.Keys <= Apply(w, s).log.analyses.Keys
  {
    if OfBroker(s) {
      JobsKeptByBroker(w, s);
    } else if OfQueue(s) {
      JobsKeptByQueue(w, s);
    } else if OfClaim(s) {
      JobsKeptByClaim(w, s);
    } else if OfSave(s) {
      JobsKeptBySave(w, s);
    } else if OfEnding(s) {
      JobsKeptByEnding(w, s);
    } else if OfOperator(s) {
      JobsKeptByOperator(w, s);
    } else {
      JobsKeptByRemoval(w, s);
    }
  }

  lemma JobStays(w: World, s: Step, j: JobId)
    requires Enabled(w, s) && j in w.log.jobs
    ensures j in Apply(w, s).log.jobs && Apply(w, s).log.jobs[j] == w.log.jobs[j]
  {
    if OfIntake(s) { StaysByIntake(w, s, j); } else { JobsBesidesIntake(w, s); }
  }

  /* ---------- Who may still write ---------- */

  predicate Holder(worker: Worker, j: JobId) { Holding(worker) && worker.job == j }

  predicate Unheld(workers: map<WorkerId, Worker>, j: JobId) {
    forall k | k in workers :: !Holder(workers[k], j)
  }

  /** At most one worker holds the job, and while one does the job is running. */
  ghost predicate Exclusive(workers: map<WorkerId, Worker>, rows: Rows, j: JobId) {
    && (forall k, l | k in workers && l in workers && Holder(workers[k], j) && Holder(workers[l], j) :: k == l)
    && (forall k | k in workers && Holder(workers[k], j) && j in rows :: Is(rows, j, Running))
  }

  /**
   * What recovery would have to make sure of before it fails a job it found stale: the job has not ended in another
   * way meanwhile, and no worker holds it.
   */
  predicate Recoverable(w: World, j: JobId) {
    j in w.rows ==> !Is(w.rows, j, Done) && !Is(w.rows, j, Cancelled) && Unheld(w.workers, j)
  }

  predicate Guarded(w: World, s: Step, j: JobId) { s == FailStale(j) ==> Recoverable(w, j) }

  ghost predicate GuardedRun(w: World, run: seq<Step>, j: JobId)
    requires Legal(w, run)
    decreases |run|
  {
    run != [] ==> Guarded(w, run[0], j) && GuardedRun(Apply(w, run[0]), run[1..], j)
  }

  lemma ExclusiveByBroker(w: World, s: Step, j: JobId)
    requires Identified(w) && Exclusive(w.workers, w.rows, j) && BrokerEnabled(w, s)
    ensures var v := BrokerStep(w, s); Exclusive(v.workers, v.rows, j)
  {}

  lemma ExclusiveByQueue(w: World, s: Step, j: JobId)
    requires Exclusive(w.workers, w.rows, j) && QueueEnabled(w, s)
    ensures var v := QueueStep(w, s); Exclusive(v.workers, v.rows, j)
  {}

  lemma ExclusiveByClaim(w: World, s: Step, j: JobId)
    requires Exclusive(w.workers, w.rows, j) && ClaimEnabled(w, s)
    ensures var v := ClaimStep(w, s); Exclusive(v.workers, v.rows, j)
  {}

  lemma ExclusiveBySave(w: World, s: Step, j: JobId)
    requires Exclusive(w.workers, w.rows, j) && SaveEnabled(w, s)
    ensures var v := SaveStep(w, s); Exclusive(v.workers, v.rows, j)
  {}

  lemma ExclusiveByEnding(w: World, s: Step, j: JobId)
    requires Exclusive(w.workers, w.rows, j) && EndingEnabled(w, s)
    ensures var v := EndingStep(w, s); Exclusive(v.workers, v.rows, j)
  {}

  lemma ExclusiveByIntake(w: World, s: Step, j: JobId)
    requires Identified(w) && Exclusive(w.workers, w.rows, j) && IntakeEnabled(w, s)
    ensures var v := IntakeStep(w, s); Exclusive(v.workers, v.rows, j)
  {}

  lemma ExclusiveByOperator(w: World, s: Step, j: JobId)
    requires Identified(w) && Exclusive(w.workers, w.rows, j) && OperatorEnabled(w, s) && Guarded(w, s, j)
    ensures var v := OperatorStep(w, s); Exclusive(v.workers, v.rows, j)
  {}

  lemma ExclusiveByRemoval(w: World, s: Step, j: JobId)
    requires Exclusive(w.workers, w.rows, j) && RemovalEnabled(w, s)
    ensures var v := RemovalStep(w, s); Exclusive(v.workers, v.rows, j)
  {}

  lemma ExclusiveKept(w: World, s: Step, j: JobId)
    requires Identified(w) && Exclusive(w.workers, w.rows, j) && Enabled(w, s) && Guarded(w, s, j)
    ensures var v := Apply(w, s); Exclusive(v.workers, v.rows, j)
  {
    if OfBroker(s) {
      ExclusiveByBroker(w, s, j);
    } else if OfQueue(s) {
      ExclusiveByQueue(w, s, j);
    } else if OfClaim(s) {
      ExclusiveByClaim(w, s, j);
    } else if OfSave(s) {
      ExclusiveBySave(w, s, j);
    } else if OfEnding(s) {
      ExclusiveByEnding(w, s, j);
    } else if OfIntake(s) {
      ExclusiveByIntake(w, s, j);
    } else if OfOperator(s) {
      ExclusiveByOperator(w, s, j);
    } else {
      ExclusiveByRemoval(w, s, j);
    }
  }

  /* ---------- Final verdicts ---------- */

  /** A verdict that had been reached still stands, and so does the result of a job that is done. */
  predicate Stands(before: Rows, after: Rows, j: JobId) {
    j in after && !IsActive(before, j) ==>
      j in before && after[j].status == before[j].status && (before[j].status.Done? ==> after[j] == before[j])
  }

  lemma HoldersOfEnded(w: World, j: JobId)
    requires Exclusive(w.workers, w.rows, j) && j in w.rows && !Active(w.rows[j].status)
    ensures Unheld(w.workers, j)
  {}

  lemma FailedAgain(w: World, j: JobId)
    requires Enabled(w, FailStale(j)) && Recoverable(w, j) && j in w.rows && !Active(w.rows[j].status)
    ensures Stands(w.rows, Apply(w, FailStale(j)).rows, j)
  {}

  lemma StandsInStep(w: World, s: Step, j: JobId)
    requires Identified(w) && Exclusive(w.workers, w.rows, j) && Enabled(w, s) && Guarded(w, s, j) && j in w.log.jobs
    ensures Stands(w.rows, Apply(w, s).rows, j)
  {
    if j !in w.rows {
      NotReissued(w, s, j);
    } else if !Active(w.rows[j].status) {
      if s.Finish? || s.Fault? { HoldersOfEnded(w, j); }
      if s == FailStale(j) { FailedAgain(w, j); } else { Spared(w, s, j); }
    }
  }

  /** All that a guarded step keeps. */
  lemma GuardedStep(w: World, s: Step, j: JobId)
    requires Inv(w) && Exclusive(w.workers, w.rows, j) && Enabled(w, s) && Guarded(w, s, j) && j in w.log.jobs
    ensures var v := Apply(w, s);
      && Inv(v) && Exclusive(v.workers, v.rows, j) && Stands(w.rows, v.rows, j)
      && j in v.log.jobs && v.log.jobs[j] == w.log.jobs[j]
  {
    StepKeeps(w, s);
    ExclusiveKept(w, s, j);
    StandsInStep(w, s, j);
    JobStays(w, s, j);
  }

  lemma {:induction false} StandsInRun(w: World, run: seq<Step>, j: JobId)
    requires Inv(w) && Exclusive(w.workers, w.rows, j) && Legal(w, run) && GuardedRun(w, run, j)
    requires j in w.log.jobs
    ensures Stands(w.rows, Run(w, run).rows, j)
    ensures Inv(Run(w, run)) && Exclusive(Run(w, run).workers, Run(w, run).rows, j)
    decreases |run|
  {
    if run != [] {
      GuardedStep(w, run[0], j);
      StandsInRun(Apply(w, run[0]), run[1..], j);
    }
  }

  /**
   * No terminal status ever changes again, over every run in which recovery fails the job only while it has not ended
   * otherwise and no worker holds it.
   */
  lemma VerdictIsFinal(before: seq<Step>, after: seq<Step>, j: JobId)
    requires Legal(EMPTY, before) && Legal(Run(EMPTY, before), after)
    requires GuardedRun(EMPTY, before, j) && GuardedRun(Run(EMPTY, before), after, j)
    requires j in Run(EMPTY, before).log.jobs
    ensures Stands(Run(EMPTY, before).rows, Run(Run(EMPTY, before), after).rows, j)
  {
    ExclusiveRun(EMPTY, before, j);
    StandsInRun(Run(EMPTY, before), after, j);
  }

  lemma {:induction false} ExclusiveRun(w: World, run: seq<Step>, j: JobId)
    requires Inv(w) && Exclusive(w.workers, w.rows, j) && Legal(w, run) && GuardedRun(w, run, j)
    ensures Inv(Run(w, run)) && Exclusive(Run(w, run).workers, Run(w, run).rows, j)
    decreases |run|
  {
    if run != [] {
      StepKeeps(w, run[0]);
      ExclusiveKept(w, run[0], j);
      ExclusiveRun(Apply(w, run[0]), run[1..], j);
    }
  }

  /** Recovery never speaks of an agent job and no queue worker holds one, so nothing has to be guarded. */
  lemma {:induction false} AgentRunsAreGuarded(w: World, run: seq<Step>, j: JobId)
    requires Inv(w) && Legal(w, run) && j in w.log.jobs && w.log.jobs[j].agent
    ensures GuardedRun(w, run, j) && Exclusive(w.workers, w.rows, j)
    decreases |run|
  {
    if run != [] {
      StepKeeps(w, run[0]);
      JobStays(w, run[0], j);
      AgentRunsAreGuarded(Apply(w, run[0]), run[1..], j);
    }
  }

  /** The terminal status of an agent job never changes again, whatever the other actors do. */
  lemma AgentVerdictIsFinal(w: World, run: seq<Step>, j: JobId)
    requires Inv(w) && Legal(w, run)
    requires j in w.log.jobs && w.log.jobs[j].agent
    ensures Stands(w.rows, Run(w, run).rows, j)
  {
    AgentRunsAreGuarded(w, run, j);
    StandsInRun(w, run, j);
  }

  /* ---------- What happens when recovery does not make sure ---------- */

  /** A holder that has only just claimed a report job still needs the analysis it is to report on. */
  predicate CanFinish(w: World, k: WorkerId)
    requires k in w.workers
  {
    w.workers[k].Claimed? ==>
      && w.workers[k].job in w.log.jobs
      && (w.log.jobs[w.workers[k].job].target.Some? ==> w.log.jobs[w.workers[k].job].target.value in w.analyses)
  }

  lemma {:induction false} FreshNumber(used: set<nat>) returns (n: nat)
    ensures forall u | u in used :: u < n
  {
    if used == {} { return 0; }
    var u :| u in used;
    n := FreshNumber(used - {u});
    assert forall v | v in used :: v == u || v in used - {u};
    if n <= u { n := u + 1; }
  }

  lemma FinishLate(w: World, k: WorkerId, j: JobId)
    requires k in w.workers && w.workers[k].Persisted? && w.workers[k].job == j && j in w.rows
    ensures Enabled(w, Finish(k)) && Is(Apply(w, Finish(k)).rows, j, Done)
  {}

  lemma FinishNow(w: World, k: WorkerId, j: JobId) returns (rest: seq<Step>)
    requires k in w.workers && w.workers[k].Persisted? && w.workers[k].job == j && j in w.rows
    ensures rest != [] && FailStale(j) !in rest && Legal(w, rest) && Is(Run(w, rest).rows, j, Done)
  {
    FinishLate(w, k, j);
    LegalStep(w, Finish(k), []);
    rest := [Finish(k)] + [];
  }

  /** What a holder that has not saved yet does next. */
  lemma NextSave(w: World, k: WorkerId, j: JobId) returns (s: Step)
    requires Inv(w) && k in w.workers && CanFinish(w, k) && Holder(w.workers[k], j) && !w.workers[k].Persisted?
    ensures SaveEnabled(w, s) && s.k == k
  {
    if w.workers[k].Reporting? { return Resave(k, w.workers[k].content); }
    if w.log.jobs[j].target.None? {
      var n := FreshNumber(w.log.analyses.Keys);
      return Persist(k, n, 0);
    }
    var a := w.log.jobs[j].target.value;
    assert Captured(w.analyses, w.snapshots, a, w.analyses[a]);
    var d :| (a, d) in w.snapshots;
    return Reread(k, d);
  }

  /** Whatever the holder has done so far, a few more of its own steps end in done. */
  lemma HolderFinishes(w: World, k: WorkerId, j: JobId) returns (rest: seq<Step>)
    requires Inv(w) && j in w.rows && k in w.workers && CanFinish(w, k) && Holder(w.workers[k], j)
    ensures rest != [] && FailStale(j) !in rest && Legal(w, rest) && Is(Run(w, rest).rows, j, Done)
    decreases if w.workers[k].Claimed? then 2 else if w.workers[k].Reporting? then 1 else 0
  {
    if w.workers[k].Persisted? {
      rest := FinishNow(w, k, j);
      return;
    }
    var s := NextSave(w, k, j);
    HolderMoves(w, s, k, j);
    StepKeeps(w, s);
    rest := HolderFinishes(Apply(w, s), k, j);
    LegalStep(w, s, rest);
    return [s] + rest;
  }

  lemma HolderMoves(w: World, s: Step, k: WorkerId, j: JobId)
    requires SaveEnabled(w, s) && s.k == k && j in w.rows && Holder(w.workers[k], j)
    ensures Enabled(w, s)
    ensures var v := Apply(w, s);
      && j in v.rows && k in v.workers && CanFinish(v, k) && Holder(v.workers[k], j)
      && (w.workers[k].Claimed? ==> !v.workers[k].Claimed?) && (w.workers[k].Reporting? ==> v.workers[k].Persisted?)
  {}

  lemma FailedByRecovery(w: World, j: JobId)
    requires Enabled(w, FailStale(j)) && j in w.rows
    ensures var v := Apply(w, FailStale(j));
      && Is(v.rows, j, Failed) && v.rows[j].result == None
      && v.workers == w.workers && v.log == w.log && v.analyses == w.analyses
      && v.broker == w.broker && v.outputs == w.outputs && v.rows == w.rows[j := v.rows[j]]
  {}

  /* ---------- Analyses that are gone and may come back ---------- */

  /** The agent job is still active, and what is published for it, if anything yet, is valid. */
  predicate Collectible(w: World, i: JobId) { AgentActive(w, i) && (i in w.outputs ==> w.outputs[i].valid) }

  /**
   * The analysis is there, or a step is left that writes it: a report job that has read it saves it, or the broker
   * saves the agent job's output, which it has read or can still read.
   */
  predicate Restorable(w: World, a: AnalysisId) {
    || a in w.analyses
    || (exists l | l in w.workers :: w.workers[l].Reporting? && w.workers[l].analysis == a)
    || (a.OfJob? && w.broker.Reading? && w.broker.job == a.job && w.broker.payload.valid)
    || (a.OfJob? && Collectible(w, a.job))
  }

  /** The analysis is back, and nothing happened to the holder and its row. */
  predicate Ready(w: World, v: World, a: AnalysisId, k: WorkerId, j: JobId) {
    && a in v.analyses && k in v.workers && k in w.workers && v.workers[k] == w.workers[k] && j in v.rows
    && j in w.log.jobs && j in v.log.jobs && v.log.jobs[j] == w.log.jobs[j]
  }

  lemma SavedByWorker(w: World, l: WorkerId, a: AnalysisId, k: WorkerId, j: JobId) returns (rest: seq<Step>)
    requires l in w.workers && w.workers[l].Reporting? && w.workers[l].analysis == a
    requires k in w.workers && w.workers[k].Claimed? && j in w.rows && j in w.log.jobs
    ensures FailStale(j) !in rest && Legal(w, rest) && Ready(w, Run(w, rest), a, k, j)
  {
    LegalStep(w, Resave(l, w.workers[l].content), []);
    rest := [Resave(l, w.workers[l].content)] + [];
  }

  lemma SavedByBroker(w: World, a: AnalysisId, k: WorkerId, j: JobId)
    requires a.OfJob? && w.broker.Reading? && w.broker.job == a.job && w.broker.payload.valid
    requires k in w.workers && j in w.rows && j in w.log.jobs
    ensures Enabled(w, Save) && Ready(w, Apply(w, Save), a, k, j)
  {}

  lemma BrokerSaves(w: World, a: AnalysisId, k: WorkerId, j: JobId) returns (rest: seq<Step>)
    requires a.OfJob? && w.broker.Reading? && w.broker.job == a.job && w.broker.payload.valid
    requires k in w.workers && j in w.rows && j in w.log.jobs
    ensures FailStale(j) !in rest && Legal(w, rest) && Ready(w, Run(w, rest), a, k, j)
  {
    SavedByBroker(w, a, k, j);
    LegalStep(w, Save, []);
    rest := [Save] + [];
  }

  lemma ReadByBroker(w: World, i: JobId)
    requires w.broker.Idle? && AgentActive(w, i) && i in w.outputs && w.outputs[i].valid
    ensures Enabled(w, Read(i))
    ensures var v := Apply(w, Read(i));
      && v.broker.Reading? && v.broker.job == i && v.broker.payload.valid
      && v.workers == w.workers && v.rows == w.rows && v.log == w.log
  {}

  lemma BrokerReads(w: World, a: AnalysisId, k: WorkerId, j: JobId) returns (rest: seq<Step>)
    requires a.OfJob? && w.broker.Idle? && AgentActive(w, a.job) && a.job in w.outputs && w.outputs[a.job].valid
    requires k in w.workers && j in w.rows && j in w.log.jobs
    ensures FailStale(j) !in rest && Legal(w, rest) && Ready(w, Run(w, rest), a, k, j)
  {
    ReadByBroker(w, a.job);
    rest := BrokerSaves(Apply(w, Read(a.job)), a, k, j);
    LegalStep(w, Read(a.job), rest);
    rest := [Read(a.job)] + rest;
  }

  lemma Published(w: World, i: JobId)
    requires w.broker.Idle? && AgentActive(w, i) && i in w.log.jobs && w.log.jobs[i].agent && i !in w.outputs
    ensures var p := Payload(true, 0); var u := Apply(w, DropInput(i));
      && Enabled(w, DropInput(i)) && Enabled(u, Publish(i, p))
      && var v := Apply(u, Publish(i, p));
         && v.broker.Idle? && v.rows == w.rows && i in v.outputs && v.outputs[i] == p
         && v.workers == w.workers && v.log.jobs == w.log.jobs
  {}

  lemma BrokerCollects(w: World, a: AnalysisId, k: WorkerId, j: JobId) returns (rest: seq<Step>)
    requires a.OfJob? && w.broker.Idle? && Collectible(w, a.job) && a.job in w.log.jobs && w.log.jobs[a.job].agent
    requires k in w.workers && j in w.rows && j in w.log.jobs
    ensures FailStale(j) !in rest && Legal(w, rest) && Ready(w, Run(w, rest), a, k, j)
  {
    if a.job in w.outputs {
      rest := BrokerReads(w, a, k, j);
    } else {
      Published(w, a.job);
      var p, u := Payload(true, 0), Apply(w, DropInput(a.job));
      rest := BrokerReads(Apply(u, Publish(a.job, p)), a, k, j);
      LegalStep(u, Publish(a.job, p), rest);
      rest := [Publish(a.job, p)] + rest;
      LegalStep(w, DropInput(a.job), rest);
      rest := [DropInput(a.job)] + rest;
    }
  }

  /** A gone analysis that can come back does, by steps that leave the worker waiting for it alone. */
  lemma Restored(w: World, a: AnalysisId, k: WorkerId, j: JobId) returns (rest: seq<Step>)
    requires Inv(w) && Restorable(w, a) && (a.OfJob? ==> a.job in w.log.jobs && w.log.jobs[a.job].agent)
    requires k in w.workers && w.workers[k].Claimed? && w.workers[k].job == j && j in w.rows
    ensures FailStale(j) !in rest && Legal(w, rest) && Ready(w, Run(w, rest), a, k, j)
  {
    assert Born(w.log, j, w.rows[j].caseId, w.rows[j].agent);
    if a in w.analyses { return []; }
    if l :| l in w.workers && w.workers[l].Reporting? && w.workers[l].analysis == a {
      rest := SavedByWorker(w, l, a, k, j);
    } else if w.broker.Reading? && w.broker.job == a.job && w.broker.payload.valid {
      rest := BrokerSaves(w, a, k, j);
    } else {
      rest := CollectedAnew(w, a, k, j);
    }
  }

  /** A broker that is busy with something else can stop. */
  lemma CollectedAnew(w: World, a: AnalysisId, k: WorkerId, j: JobId) returns (rest: seq<Step>)
    requires a.OfJob? && Collectible(w, a.job) && a.job in w.log.jobs && w.log.jobs[a.job].agent
    requires k in w.workers && j in w.rows && j in w.log.jobs
    ensures FailStale(j) !in rest && Legal(w, rest) && Ready(w, Run(w, rest), a, k, j)
  {
    rest := BrokerCollects(Apply(w, Crash), a, k, j);
    LegalStep(w, Crash, rest);
    rest := [Crash] + rest;
  }

  /* ---------- When failing a job is safe, exactly ---------- */

  /** The worker has only just claimed a report job, and the analysis to report on is gone for good. */
  predicate Stuck(w: World, k: WorkerId)
    requires k in w.workers
  {
    && w.workers[k].Claimed? && w.workers[k].job in w.log.jobs
    && var target := w.log.jobs[w.workers[k].job].target;
       target.Some? && !Restorable(w, target.value)
  }

  /** Every worker that holds the job is stuck; in particular when none does. */
  predicate NoneFinishes(w: World, j: JobId) {
    forall k | k in w.workers && Holder(w.workers[k], j) :: Stuck(w, k)
  }

  /** The job has not ended in another way, and whoever holds it can only fail. */
  predicate Failable(w: World, j: JobId) {
    j in w.rows ==> !Is(w.rows, j, Done) && !Is(w.rows, j, Cancelled) && NoneFinishes(w, j)
  }

  lemma RecoverableIsFailable(w: World, j: JobId)
    requires Recoverable(w, j)
    ensures Failable(w, j)
  {}

  lemma RestorableAfterFailure(w: World, j: JobId, a: AnalysisId)
    requires Inv(w) && Enabled(w, FailStale(j)) && j in w.rows && j in w.log.jobs && !w.log.jobs[j].agent
    ensures Restorable(Apply(w, FailStale(j)), a) <==> Restorable(w, a)
  {
    FailedByRecovery(w, j);
    assert Born(w.log, j, w.rows[j].caseId, w.rows[j].agent);
  }

  /** Otherwise the verdict changes: at once, done or cancelled to failed, or when the holder finishes. */
  lemma UnguardedChanges(w: World, j: JobId) returns (rest: seq<Step>)
    requires Inv(w) && Enabled(w, FailStale(j)) && !Failable(w, j)
    ensures var v := Apply(w, FailStale(j));
      && Is(v.rows, j, Failed) && v.rows[j].result == None
      && Legal(v, rest) && FailStale(j) !in rest
      && if rest == [] then Is(w.rows, j, Done) || Is(w.rows, j, Cancelled) else Is(Run(v, rest).rows, j, Done)
  {
    FailedByRecovery(w, j);
    if Is(w.rows, j, Done) || Is(w.rows, j, Cancelled) { return []; }
    var k :| k in w.workers && Holder(w.workers[k], j) && !Stuck(w, k);
    StepKeeps(w, FailStale(j));
    assert WorkerBorn(w.workers[k], w.log);
    if w.workers[k].Claimed? && w.log.jobs[j].target.Some? {
      RestorableAfterFailure(w, j, w.log.jobs[j].target.value);
      rest := RestoredThenFinished(Apply(w, FailStale(j)), w.log.jobs[j].target.value, k, j);
    } else {
      rest := HolderFinishes(Apply(w, FailStale(j)), k, j);
    }
  }

  lemma RestoredThenFinished(w: World, a: AnalysisId, k: WorkerId, j: JobId) returns (rest: seq<Step>)
    requires Inv(w) && Restorable(w, a) && j in w.rows && j in w.log.jobs && w.log.jobs[j].target == Some(a)
    requires k in w.workers && w.workers[k].Claimed? && w.workers[k].job == j
    ensures rest != [] && FailStale(j) !in rest && Legal(w, rest) && Is(Run(w, rest).rows, j, Done)
  {
    assert Owned(w.log, a, w.log.jobs[j].caseId);
    var first := Restored(w, a, k, j);
    RunKeeps(w, first);
    rest := HolderFinishes(Run(w, first), k, j);
    LegalConcat(w, first, rest);
    rest := first + rest;
  }

  lemma {:induction false} UnnamedIsGuarded(w: World, run: seq<Step>, j: JobId)
    requires Legal(w, run) && FailStale(j) !in run
    ensures GuardedRun(w, run, j)
    decreases |run|
  {
    if run != [] { UnnamedIsGuarded(Apply(w, run[0]), run[1..], j); }
  }

  /** Nothing that was decided before this failure, or by it, is decided otherwise later. */
  ghost predicate Safe(w: World, j: JobId)
    requires Enabled(w, FailStale(j))
  {
    var v := Apply(w, FailStale(j));
    && Stands(w.rows, v.rows, j)
    && forall rest: seq<Step> | Legal(v, rest) && GuardedRun(v, rest, j) :: Stands(v.rows, Run(v, rest).rows, j)
  }

  /** Failing a stale job is safe exactly when it has not ended otherwise and whoever holds it can only fail. */
  lemma RecoveryIsSafeExactly(w: World, j: JobId)
    requires Inv(w) && Exclusive(w.workers, w.rows, j) && Enabled(w, FailStale(j))
    ensures Safe(w, j) <==> Failable(w, j)
  {
    if Recoverable(w, j) {
      RecoverableIsFailable(w, j);
      GuardedIsSafe(w, j);
    } else if Failable(w, j) {
      StuckIsSafe(w, j);
    } else {
      ChangeIsUnsafe(w, j);
    }
  }

  lemma ChangeIsUnsafe(w: World, j: JobId)
    requires Inv(w) && Enabled(w, FailStale(j)) && !Failable(w, j)
    ensures !Safe(w, j)
  {
    var rest := UnguardedChanges(w, j);
    var v := Apply(w, FailStale(j));
    UnnamedIsGuarded(v, rest, j);
    if rest != [] { assert !Stands(v.rows, Run(v, rest).rows, j); }
  }

  lemma LostByReading(w: World, i: JobId, a: AnalysisId)
    requires !Restorable(w, a) && BrokerEnabled(w, Read(i))
    ensures !Restorable(BrokerStep(w, Read(i)), a)
  {}

  lemma LostBySaving(w: World, a: AnalysisId)
    requires !Restorable(w, a) && BrokerEnabled(w, Save)
    ensures !Restorable(BrokerStep(w, Save), a)
  {}

  lemma LostByBroker(w: World, s: Step, a: AnalysisId)
    requires Inv(w) && !Restorable(w, a) && BrokerEnabled(w, s)
    ensures !Restorable(BrokerStep(w, s), a)
  {
    match s
    case Read(i) => LostByReading(w, i, a);
    case Save => LostBySaving(w, a);
    case _ => OthersRead(w, s, a);
  }

  lemma OthersRead(w: World, s: Step, a: AnalysisId)
    requires !Restorable(w, a) && BrokerEnabled(w, s) && !s.Read? && !s.Save?
    ensures !Restorable(BrokerStep(w, s), a)
  {}

  lemma LostByQueue(w: World, s: Step, a: AnalysisId)
    requires !Restorable(w, a) && QueueEnabled(w, s)
    ensures !Restorable(QueueStep(w, s), a)
  {}

  lemma LostByClaim(w: World, s: Step, a: AnalysisId)
    requires !Restorable(w, a) && ClaimEnabled(w, s)
    ensures !Restorable(ClaimStep(w, s), a)
  {
    var v := ClaimStep(w, s);
    assert v.analyses == w.analyses && v.broker == w.broker && v.outputs == w.outputs;
    assert forall i :: AgentActive(v, i) ==> AgentActive(w, i);
    assert forall l | l in v.workers && v.workers[l].Reporting? :: l in w.workers && w.workers[l] == v.workers[l];
  }

  lemma LostBySave(w: World, s: Step, a: AnalysisId)
    requires !Restorable(w, a) && Known(w.log, a) && SaveEnabled(w, s)
    ensures !Restorable(SaveStep(w, s), a)
  {}

  lemma LostByEnding(w: World, s: Step, a: AnalysisId)
    requires Inv(w) && !Restorable(w, a) && EndingEnabled(w, s)
    ensures !Restorable(EndingStep(w, s), a)
  {}

  lemma LostByIntake(w: World, s: Step, a: AnalysisId)
    requires Inv(w) && !Restorable(w, a) && Known(w.log, a) && IntakeEnabled(w, s)
    ensures !Restorable(IntakeStep(w, s), a)
  {}

  lemma LostByOperator(w: World, s: Step, a: AnalysisId)
    requires Inv(w) && !Restorable(w, a) && OperatorEnabled(w, s)
    ensures !Restorable(OperatorStep(w, s), a)
  {}

  lemma LostByRemoval(w: World, s: Step, a: AnalysisId)
    requires !Restorable(w, a) && RemovalEnabled(w, s)
    ensures !Restorable(RemovalStep(w, s), a)
  {}

  /** Some job or packet analysis was given this name. */
  predicate Known(log: Log, a: AnalysisId) {
    if a.OfJob? then a.job in log.jobs else a.n in log.analyses
  }

  /** What is gone for good stays gone. */
  lemma LostForGood(w: World, s: Step, a: AnalysisId)
    requires Inv(w) && !Restorable(w, a) && Known(w.log, a) && Enabled(w, s)
    ensures !Restorable(Apply(w, s), a)
  {
    if OfBroker(s) {
      LostByBroker(w, s, a);
    } else if OfQueue(s) {
      LostByQueue(w, s, a);
    } else if OfClaim(s) {
      LostByClaim(w, s, a);
    } else if OfSave(s) {
      LostBySave(w, s, a);
    } else if OfEnding(s) {
      LostByEnding(w, s, a);
    } else if OfIntake(s) {
      LostByIntake(w, s, a);
    } else if OfOperator(s) {
      LostByOperator(w, s, a);
    } else {
      LostByRemoval(w, s, a);
    }
  }

  /** Holders of the job have claimed it and got no further. */
  ghost predicate OnlyClaimed(workers: map<WorkerId, Worker>, j: JobId) {
    forall k | k in workers && Holder(workers[k], j) :: workers[k].Claimed?
  }

  lemma ClaimedByQueue(w: World, s: Step, j: JobId)
    requires OnlyClaimed(w.workers, j) && QueueEnabled(w, s)
    ensures OnlyClaimed(QueueStep(w, s).workers, j)
  {}

  lemma ClaimedByClaim(w: World, s: Step, j: JobId)
    requires OnlyClaimed(w.workers, j) && ClaimEnabled(w, s)
    ensures OnlyClaimed(ClaimStep(w, s).workers, j)
  {}

  lemma ClaimedBySave(w: World, s: Step, j: JobId, a: AnalysisId)
    requires OnlyClaimed(w.workers, j) && Targets(w.log, j, Some(a)) && a !in w.analyses && SaveEnabled(w, s)
    ensures OnlyClaimed(SaveStep(w, s).workers, j)
  {}

  lemma ClaimedByEnding(w: World, s: Step, j: JobId)
    requires OnlyClaimed(w.workers, j) && EndingEnabled(w, s)
    ensures OnlyClaimed(EndingStep(w, s).workers, j)
  {}

  lemma WorkersByBroker(w: World, s: Step)
    requires BrokerEnabled(w, s)
    ensures BrokerStep(w, s).workers == w.workers
  {}

  lemma WorkersByIntake(w: World, s: Step)
    requires IntakeEnabled(w, s)
    ensures IntakeStep(w, s).workers == w.workers
  {}

  lemma WorkersByOperator(w: World, s: Step)
    requires OperatorEnabled(w, s)
    ensures OperatorStep(w, s).workers == w.workers
  {}

  lemma WorkersByRemoval(w: World, s: Step)
    requires RemovalEnabled(w, s)
    ensures RemovalStep(w, s).workers == w.workers
  {}

  lemma WorkersBesides(w: World, s: Step)
    requires Enabled(w, s) && !OfQueue(s) && !OfClaim(s) && !OfSave(s) && !OfEnding(s)
    ensures Apply(w, s).workers == w.workers
  {
    if OfBroker(s) {
      WorkersByBroker(w, s);
    } else if OfIntake(s) {
      WorkersByIntake(w, s);
    } else if OfOperator(s) {
      WorkersByOperator(w, s);
    } else {
      WorkersByRemoval(w, s);
    }
  }

  lemma StaysClaimed(w: World, s: Step, j: JobId, a: AnalysisId)
    requires OnlyClaimed(w.workers, j) && Targets(w.log, j, Some(a)) && a !in w.analyses && Enabled(w, s)
    ensures OnlyClaimed(Apply(w, s).workers, j)
  {
    if OfQueue(s) {
      ClaimedByQueue(w, s, j);
    } else if OfClaim(s) {
      ClaimedByClaim(w, s, j);
    } else if OfSave(s) {
      ClaimedBySave(w, s, j, a);
    } else if OfEnding(s) {
      ClaimedByEnding(w, s, j);
    } else {
      WorkersBesides(w, s);
    }
  }

  /** The report job has failed or is deleted, and nobody can change that. */
  ghost predicate Hopeless(w: World, j: JobId, a: AnalysisId) {
    && Targets(w.log, j, Some(a)) && Known(w.log, a) && !Restorable(w, a)
    && OnlyClaimed(w.workers, j) && (j in w.rows ==> Is(w.rows, j, Failed))
  }

  lemma FailedStays(w: World, s: Step, j: JobId)
    requires RowsBorn(w.rows, w.log) && Enabled(w, s) && OnlyClaimed(w.workers, j)
    requires j in w.log.jobs && (j in w.rows ==> Is(w.rows, j, Failed)) && j in Apply(w, s).rows
    ensures j in w.rows && Is(Apply(w, s).rows, j, Failed)
  {
    if j !in w.rows {
      NotReissued(w, s, j);
    } else if Unconditional(w, s, j) {
      FailedAnew(w, s, j);
    } else {
      Spared(w, s, j);
    }
  }

  lemma FailedByHolder(w: World, s: Step, j: JobId)
    requires EndingEnabled(w, s) && OnlyClaimed(w.workers, j) && j in w.rows && w.workers[s.k].job == j
    ensures Is(EndingStep(w, s).rows, j, Failed)
  {}

  /** Those who may still write can only write that the job failed. */
  lemma FailedAnew(w: World, s: Step, j: JobId)
    requires Enabled(w, s) && OnlyClaimed(w.workers, j) && j in w.rows && Unconditional(w, s, j)
    ensures Is(Apply(w, s).rows, j, Failed)
  {
    if OfEnding(s) { FailedByHolder(w, s, j); } else { FailedByRecovery(w, j); }
  }

  lemma LoggedByIntake(w: World, s: Step)
    requires IntakeEnabled(w, s)
    ensures IntakeStep(w, s).log.analyses == w.log.analyses
  {}

  lemma LoggedStays(w: World, s: Step)
    requires Enabled(w, s)
    ensures w.log.analyses.Keys <= Apply(w, s).log.analyses.Keys
  {
    if OfIntake(s) { LoggedAtIntake(w, s); } else { JobsBesidesIntake(w, s); }
  }

  lemma LoggedAtIntake(w: World, s: Step)
    requires Enabled(w, s) && OfIntake(s)
    ensures Apply(w, s).log.analyses == w.log.analyses
  {
    LoggedByIntake(w, s);
  }

  lemma KnownStays(w: World, s: Step, a: AnalysisId)
    requires Enabled(w, s) && Known(w.log, a)
    ensures Known(Apply(w, s).log, a)
  {
    if a.OfJob? { JobStays(w, s, a.job); } else { LoggedStays(w, s); }
  }

  lemma HopelessStays(w: World, s: Step, j: JobId, a: AnalysisId)
    requires Inv(w) && Enabled(w, s) && Hopeless(w, j, a)
    ensures Hopeless(Apply(w, s), j, a) && (j in Apply(w, s).rows ==> j in w.rows)
  {
    JobStays(w, s, j);
    KnownStays(w, s, a);
    LostForGood(w, s, a);
    StaysClaimed(w, s, j, a);
    if j in Apply(w, s).rows { FailedStays(w, s, j); }
  }

  lemma {:induction false} HopelessRun(w: World, run: seq<Step>, j: JobId, a: AnalysisId)
    requires Inv(w) && Legal(w, run) && Hopeless(w, j, a)
    ensures Stands(w.rows, Run(w, run).rows, j)
    decreases |run|
  {
    if run != [] {
      HopelessStays(w, run[0], j, a);
      StepKeeps(w, run[0]);
      HopelessRun(Apply(w, run[0]), run[1..], j, a);
    }
  }

  /** A failure over a stuck worker is safe whatever recovery does later. */
  lemma StuckIsSafe(w: World, j: JobId)
    requires Inv(w) && Enabled(w, FailStale(j)) && Failable(w, j) && !Recoverable(w, j)
    ensures Safe(w, j)
  {
    var k :| k in w.workers && Holder(w.workers[k], j);
    assert Stuck(w, k) && WorkerBorn(w.workers[k], w.log);
    var a, v := w.log.jobs[j].target.value, Apply(w, FailStale(j));
    FailedByRecovery(w, j);
    RestorableAfterFailure(w, j, a);
    StepKeeps(w, FailStale(j));
    assert Owned(w.log, a, w.log.jobs[j].caseId);
    assert Hopeless(v, j, a);
    forall rest: seq<Step> | Legal(v, rest) && GuardedRun(v, rest, j) ensures Stands(v.rows, Run(v, rest).rows, j) {
      HopelessRun(v, rest, j, a);
    }
  }

  lemma GuardedIsSafe(w: World, j: JobId)
    requires Inv(w) && Exclusive(w.workers, w.rows, j) && Enabled(w, FailStale(j)) && j in w.log.jobs
    requires Recoverable(w, j)
    ensures Safe(w, j)
  {
    var v := Apply(w, FailStale(j));
    StepKeeps(w, FailStale(j));
    StandsInStep(w, FailStale(j), j);
    ExclusiveKept(w, FailStale(j), j);
    JobStays(w, FailStale(j), j);
    forall rest: seq<Step> | Legal(v, rest) && GuardedRun(v, rest, j) ensures Stands(v.rows, Run(v, rest).rows, j) {
      StandsInRun(v, rest, j);
    }
  }

  /* ---------- Both ways it happens ---------- */

  ghost predicate Leads(w: World, s: Step, v: World) { Enabled(w, s) && Apply(w, s) == v }

  /** A run through given worlds, from the last step back to the first. */
  lemma Before(w: World, s: Step, v: World, rest: seq<Step>, end: World)
    requires Leads(w, s, v) && Legal(v, rest) && Run(v, rest) == end
    ensures Legal(w, [s] + rest) && Run(w, [s] + rest) == end
  {
    LegalStep(w, s, rest);
  }

  /** One case with one packet job, its queue worker, and whatever that worker has stored. */
  function Scene(status: Status, workers: map<WorkerId, Worker>, stale: set<JobId>, stored: bool): World {
    World({0}, map[0 := Job(0, false, status, if status.Done? then Some(Fresh(0)) else None)],
          if stored then map[Fresh(0) := 0] else map[], if stored then map[(Fresh(0), OfPackets(0)) := 0] else map[],
          {}, map[], Idle, workers, stale,
          Log(map[0 := Birth(0, false, None)], {0}, if stored then map[0 := 0] else map[], {},
              if stored then {(Fresh(0), OfPackets(0))} else {}))
  }

  const OPENED := EMPTY.(cases := {0}, log := EMPTY.log.(cases := {0}))
  const QUEUED := Scene(Queued, map[], {}, false)
  const WAITING := Scene(Queued, map[0 := Waiting(0)], {}, false)
  const ADMITTED := Scene(Queued, map[0 := Admitted(0, 0)], {}, false)
  const CLAIMED := Scene(Running, map[0 := Claimed(0, 0)], {}, false)
  const PERSISTED := Scene(Running, map[0 := Persisted(0, 0, Fresh(0))], {}, true)
  const SCANNED := Scene(Running, map[0 := Persisted(0, 0, Fresh(0))], {0}, true)
  const FAILED := Scene(Failed, map[0 := Persisted(0, 0, Fresh(0))], {}, true)
  const DONE := Scene(Done, map[], {0}, true)

  lemma Opens() ensures Leads(EMPTY, OpenCase(0), OPENED) && Leads(OPENED, Enqueue(0, 0), QUEUED) {}

  lemma Dispatches() ensures Leads(QUEUED, Dispatch(0, 0), WAITING) {}

  lemma Admits() ensures Leads(WAITING, Admit(0), ADMITTED) {}

  lemma Claiming() ensures Leads(ADMITTED, Claim(0), CLAIMED) {}

  lemma Persists() ensures Leads(CLAIMED, Persist(0, 0, 0), PERSISTED) {}

  lemma Scans() ensures Leads(PERSISTED, ScanStale({0}), SCANNED) {}

  lemma Fails() ensures Leads(SCANNED, FailStale(0), FAILED) {}

  lemma Finishes() ensures Leads(SCANNED, Finish(0), DONE) {}

  const TO_SCAN := [Persist(0, 0, 0), ScanStale({0})]
  const TO_CLAIM := [OpenCase(0), Enqueue(0, 0), Dispatch(0, 0), Admit(0), Claim(0)]

  lemma ClaimedInTheEnd()
    ensures Legal(EMPTY, TO_CLAIM) && Run(EMPTY, TO_CLAIM) == CLAIMED
  {
    ClaimedFromQueue();
    Opens();
    var rest := [Dispatch(0, 0), Admit(0), Claim(0)];
    Before(OPENED, Enqueue(0, 0), QUEUED, rest, CLAIMED);
    Before(EMPTY, OpenCase(0), OPENED, [Enqueue(0, 0)] + rest, CLAIMED);
    assert TO_CLAIM == [OpenCase(0)] + ([Enqueue(0, 0)] + rest);
  }

  lemma ClaimedFromQueue()
    ensures var run := [Dispatch(0, 0), Admit(0), Claim(0)]; Legal(QUEUED, run) && Run(QUEUED, run) == CLAIMED
  {
    Dispatches();
    Admits();
    Claiming();
    Before(ADMITTED, Claim(0), CLAIMED, [], CLAIMED);
    Before(WAITING, Admit(0), ADMITTED, [Claim(0)], CLAIMED);
    Before(QUEUED, Dispatch(0, 0), WAITING, [Admit(0)] + [Claim(0)], CLAIMED);
    assert [Dispatch(0, 0), Admit(0), Claim(0)] == [Dispatch(0, 0)] + ([Admit(0)] + [Claim(0)]);
  }

  lemma ScannedFromSave(s: Step, end: World)
    requires Leads(SCANNED, s, end)
    ensures var run := [ScanStale({0})] + [s]; Legal(PERSISTED, run) && Run(PERSISTED, run) == end
  {
    Scans();
    Before(SCANNED, s, end, [], end);
    Before(PERSISTED, ScanStale({0}), SCANNED, [s], end);
  }

  lemma ScannedFromClaim(s: Step, end: World)
    requires Leads(SCANNED, s, end)
    ensures Legal(CLAIMED, TO_SCAN + [s]) && Run(CLAIMED, TO_SCAN + [s]) == end
  {
    Persists();
    ScannedFromSave(s, end);
    var rest := [ScanStale({0})] + [s];
    Before(CLAIMED, Persist(0, 0, 0), PERSISTED, rest, end);
    assert TO_SCAN + [s] == [Persist(0, 0, 0)] + rest;
  }

  /** The job is running, its worker has stored the evidence, and recovery has found it stale. */
  lemma ScannedInTheEnd(s: Step, end: World)
    requires Leads(SCANNED, s, end)
    ensures var run := TO_CLAIM + (TO_SCAN + [s]); Legal(EMPTY, run) && Run(EMPTY, run) == end
  {
    ClaimedInTheEnd();
    ScannedFromClaim(s, end);
    LegalConcat(EMPTY, TO_CLAIM, TO_SCAN + [s]);
  }

  /** Recovery fails a job whose worker is alive, and the worker then marks it done. */
  lemma PacketVerdictChanges() returns (run: seq<Step>, s: Step, j: JobId)
    ensures Legal(EMPTY, run) && Enabled(Run(EMPTY, run), s)
    ensures Is(Run(EMPTY, run).rows, j, Failed) && Is(Apply(Run(EMPTY, run), s).rows, j, Done)
  {
    Fails();
    ScannedInTheEnd(FailStale(0), FAILED);
    FinishLate(FAILED, 0, 0);
    return TO_CLAIM + (TO_SCAN + [FailStale(0)]), Finish(0), 0;
  }

  /** Recovery finds a job stale, the worker finishes it, and recovery then erases what was done. */
  lemma DoneVerdictErased() returns (run: seq<Step>, s: Step, j: JobId)
    ensures Legal(EMPTY, run) && Enabled(Run(EMPTY, run), s)
    ensures Is(Run(EMPTY, run).rows, j, Done) && Run(EMPTY, run).rows[j].result.Some?
    ensures Is(Apply(Run(EMPTY, run), s).rows, j, Failed) && Apply(Run(EMPTY, run), s).rows[j].result.None?
  {
    Finishes();
    ScannedInTheEnd(Finish(0), DONE);
    Erases();
    return TO_CLAIM + (TO_SCAN + [Finish(0)]), FailStale(0), 0;
  }

  lemma Erases()
    ensures Enabled(DONE, FailStale(0)) && Is(DONE.rows, 0, Done) && DONE.rows[0].result.Some?
    ensures var v := Apply(DONE, FailStale(0)); Is(v.rows, 0, Failed) && v.rows[0].result.None?
  {
    FailedByRecovery(DONE, 0);
  }

  /* ---------- Claimed once, done once ---------- */

  /** How often a run moves the job from queued to running, and how often to done. */
  function Claims(w: World, run: seq<Step>, j: JobId): nat
    requires Legal(w, run)
    decreases |run|
  {
    if run == [] then 0
    else
      var v := Apply(w, run[0]);
      (if Is(w.rows, j, Queued) && Is(v.rows, j, Running) then 1 else 0) + Claims(v, run[1..], j)
  }

  function Dones(w: World, run: seq<Step>, j: JobId): nat
    requires Legal(w, run)
    decreases |run|
  {
    if run == [] then 0
    else
      var v := Apply(w, run[0]);
      (if !Is(w.rows, j, Done) && Is(v.rows, j, Done) then 1 else 0) + Dones(v, run[1..], j)
  }

  lemma QueuedByBroker(w: World, s: Step, j: JobId)
    requires BrokerEnabled(w, s) && Is(BrokerStep(w, s).rows, j, Queued)
    ensures Is(w.rows, j, Queued)
  {}

  lemma QueuedByClaim(w: World, s: Step, j: JobId)
    requires ClaimEnabled(w, s) && Is(ClaimStep(w, s).rows, j, Queued)
    ensures Is(w.rows, j, Queued)
  {}

  lemma QueuedByEnding(w: World, s: Step, j: JobId)
    requires EndingEnabled(w, s) && Is(EndingStep(w, s).rows, j, Queued)
    ensures Is(w.rows, j, Queued)
  {}

  lemma QueuedByIntake(w: World, s: Step, j: JobId)
    requires IntakeEnabled(w, s) && Is(IntakeStep(w, s).rows, j, Queued) && j in w.log.jobs
    ensures Is(w.rows, j, Queued)
  {}

  lemma QueuedByOperator(w: World, s: Step, j: JobId)
    requires OperatorEnabled(w, s) && Is(OperatorStep(w, s).rows, j, Queued)
    ensures Is(w.rows, j, Queued)
  {}

  lemma QueuedByRemoval(w: World, s: Step, j: JobId)
    requires RemovalEnabled(w, s) && Is(RemovalStep(w, s).rows, j, Queued)
    ensures Is(w.rows, j, Queued)
  {}

  lemma QueuedBefore(w: World, s: Step, j: JobId)
    requires Enabled(w, s) && j in w.log.jobs && Is(Apply(w, s).rows, j, Queued)
    ensures Is(w.rows, j, Queued)
  {
    if OfBroker(s) {
      QueuedByBroker(w, s, j);
    } else if OfQueue(s) || OfSave(s) {
      RowsBesides(w, s);
    } else if OfClaim(s) {
      QueuedByClaim(w, s, j);
    } else if OfEnding(s) {
      QueuedByEnding(w, s, j);
    } else if OfIntake(s) {
      QueuedByIntake(w, s, j);
    } else if OfOperator(s) {
      QueuedByOperator(w, s, j);
    } else {
      QueuedByRemoval(w, s, j);
    }
  }

  /** No step makes an issued job queued again. */
  lemma NeverRequeued(w: World, s: Step, j: JobId)
    requires Enabled(w, s) && j in w.log.jobs && !Is(w.rows, j, Queued)
    ensures j in Apply(w, s).log.jobs && !Is(Apply(w, s).rows, j, Queued)
  {
    JobStays(w, s, j);
    if Is(Apply(w, s).rows, j, Queued) { QueuedBefore(w, s, j); }
  }

  /** A job, however often dispatched and by whomever, is claimed at most once. */
  lemma {:induction false} ClaimedAtMostOnce(w: World, run: seq<Step>, j: JobId)
    requires Inv(w) && Legal(w, run)
    ensures Claims(w, run, j) <= if j in w.log.jobs && !Is(w.rows, j, Queued) then 0 else 1
    decreases |run|
  {
    if run != [] {
      StepKeeps(w, run[0]);
      ClaimedAtMostOnce(Apply(w, run[0]), run[1..], j);
      if j in w.log.jobs && !Is(w.rows, j, Queued) { NeverRequeued(w, run[0], j); }
    }
  }

  /** A job whose recoveries are guarded moves to done at most once. */
  lemma {:induction false} GuardedDoneAtMostOnce(w: World, run: seq<Step>, j: JobId)
    requires Inv(w) && Exclusive(w.workers, w.rows, j) && Legal(w, run) && GuardedRun(w, run, j) && j in w.log.jobs
    ensures Dones(w, run, j) <= if IsActive(w.rows, j) then 1 else 0
    decreases |run|
  {
    if run != [] {
      GuardedStep(w, run[0], j);
      GuardedDoneAtMostOnce(Apply(w, run[0]), run[1..], j);
    }
  }

  /** So does any agent job. */
  lemma DoneAtMostOnce(w: World, run: seq<Step>, j: JobId)
    requires Inv(w) && Legal(w, run) && j in w.log.jobs && w.log.jobs[j].agent
    ensures Dones(w, run, j) <= if IsActive(w.rows, j) then 1 else 0
  {
    AgentRunsAreGuarded(w, run, j);
    GuardedDoneAtMostOnce(w, run, j);
  }
}
