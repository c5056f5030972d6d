/** What an accepted cancellation does to every later run (app/agents/routes.py, app/database/repository.py). */
module JobCancellation {
  import opened Options
  import opened JobTable
  import opened JobProtocol
  import opened JobVerdicts

  /* ---------- A job that is still queued was never found stale, and no worker holds it ---------- */

  ghost predicate NotBegun(w: World, j: JobId) { j !in w.stale && Unheld(w.workers, j) }

  ghost predicate QueuedNotBegun(w: World) { forall j | Is(w.rows, j, Queued) :: NotBegun(w, j) }

  lemma UnheldByQueue(w: World, s: Step, j: JobId)
    requires QueueEnabled(w, s) && Unheld(w.workers, j)
    ensures Unheld(QueueStep(w, s).workers, j)
  {}

  lemma UnheldByClaim(w: World, s: Step, j: JobId)
    requires ClaimEnabled(w, s) && Unheld(w.workers, j) && !Is(ClaimStep(w, s).rows, j, Running)
    ensures Unheld(ClaimStep(w, s).workers, j)
  {}

  lemma UnheldBySave(w: World, s: Step, j: JobId)
    requires SaveEnabled(w, s) && Unheld(w.workers, j)
    ensures Unheld(SaveStep(w, s).workers, j)
  {}

  lemma UnheldByEnding(w: World, s: Step, j: JobId)
    requires EndingEnabled(w, s) && Unheld(w.workers, j)
    ensures Unheld(EndingStep(w, s).workers, j)
  {}

  lemma StaysUnheld(w: World, s: Step, j: JobId)
    requires Enabled(w, s) && Unheld(w.workers, j) && !Is(Apply(w, s).rows, j, Running)
    ensures Unheld(Apply(w, s).workers, j)
  {
    if OfQueue(s) {
      UnheldByQueue(w, s, j);
    } else if OfClaim(s) {
      UnheldByClaim(w, s, j);
    } else if OfSave(s) {
      UnheldBySave(w, s, j);
    } else if OfEnding(s) {
      UnheldByEnding(w, s, j);
    } else {
      WorkersBesides(w, s);
    }
  }

  lemma FreshByOperator(w: World, s: Step, j: JobId)
    requires OperatorEnabled(w, s) && j !in w.stale && !Is(w.rows, j, Running)
    ensures j !in OperatorStep(w, s).stale
  {}

  lemma StaleByBroker(w: World, s: Step)
    requires BrokerEnabled(w, s)
    ensures BrokerStep(w, s).stale == w.stale
  {}

  lemma StaleByQueue(w: World, s: Step)
    requires QueueEnabled(w, s)
    ensures QueueStep(w, s).stale == w.stale
  {}

  lemma StaleByClaim(w: World, s: Step)
    requires ClaimEnabled(w, s)
    ensures ClaimStep(w, s).stale == w.stale
  {}

  lemma StaleBySave(w: World, s: Step)
    requires SaveEnabled(w, s)
    ensures SaveStep(w, s).stale == w.stale
  {}

  lemma StaleByEnding(w: World, s: Step)
    requires EndingEnabled(w, s)
    ensures EndingStep(w, s).stale == w.stale
  {}

  lemma StaleByIntake(w: World, s: Step)
    requires IntakeEnabled(w, s)
    ensures IntakeStep(w, s).stale == w.stale
  {}

  lemma StaleByRemoval(w: World, s: Step)
    requires RemovalEnabled(w, s)
    ensures RemovalStep(w, s).stale == w.stale
  {}

  lemma StaleBesides(w: World, s: Step)
    requires Enabled(w, s) && !OfOperator(s)
    ensures Apply(w, s).stale == w.stale
  {
    if OfBroker(s) {
      StaleByBroker(w, s);
    } else if OfQueue(s) {
      StaleByQueue(w, s);
    } else if OfClaim(s) {
      StaleByClaim(w, s);
    } else if OfSave(s) {
      StaleBySave(w, s);
    } else if OfEnding(s) {
      StaleByEnding(w, s);
    } else if OfIntake(s) {
      StaleByIntake(w, s);
    } else {
      StaleByRemoval(w, s);
    }
  }

  lemma FreshAtOperator(w: World, s: Step, j: JobId)
    requires Enabled(w, s) && OfOperator(s) && j !in w.stale && !Is(w.rows, j, Running)
    ensures j !in Apply(w, s).stale
  {
    FreshByOperator(w, s, j);
  }

  lemma StaysFresh(w: World, s: Step, j: JobId)
    requires Enabled(w, s) && j !in w.stale && !Is(w.rows, j, Running)
    ensures j !in Apply(w, s).stale
  {
    if OfOperator(s) { FreshAtOperator(w, s, j); } else { StaleBesides(w, s); }
  }

  /** Only a job that is running before or after a step can have begun in it. */
  lemma NotBegunStays(w: World, s: Step, j: JobId)
    requires Enabled(w, s) && NotBegun(w, j) && !Is(w.rows, j, Running) && !Is(Apply(w, s).rows, j, Running)
    ensures NotBegun(Apply(w, s), j)
  {
    StaysUnheld(w, s, j);
    StaysFresh(w, s, j);
  }

  lemma UnissuedNotBegun(w: World, j: JobId)
    requires Identified(w) && j !in w.log.jobs
    ensures NotBegun(w, j) && j !in w.rows
  {
    forall k | k in w.workers ensures !Holder(w.workers[k], j) { assert WorkerBorn(w.workers[k], w.log); }
    assert RowsBorn(w.rows, w.log);
  }

  lemma QueuedNotBegunKept(w: World, s: Step)
    requires Inv(w) && Enabled(w, s) && QueuedNotBegun(w)
    ensures QueuedNotBegun(Apply(w, s))
  {
    forall j | Is(Apply(w, s).rows, j, Queued) ensures NotBegun(Apply(w, s), j) {
      if j in w.log.jobs { QueuedBefore(w, s, j); } else { UnissuedNotBegun(w, j); }
      NotBegunStays(w, s, j);
    }
  }

  lemma {:induction false} QueuedNotBegunInRun(w: World, run: seq<Step>)
    requires Inv(w) && Legal(w, run) && QueuedNotBegun(w)
    ensures QueuedNotBegun(Run(w, run)) && Inv(Run(w, run))
    decreases |run|
  {
    if run != [] {
      StepKeeps(w, run[0]);
      QueuedNotBegunKept(w, run[0]);
      QueuedNotBegunInRun(Apply(w, run[0]), run[1..]);
    }
  }

  /* ---------- A job cancelled before it began ---------- */

  /** Cancelled, or deleted since, with nobody left who could write its row. */
  ghost predicate CalledOff(w: World, j: JobId) {
    j in w.log.jobs && NotBegun(w, j) && (j in w.rows ==> w.rows[j].status.Cancelled?)
  }

  lemma CancelledStays(w: World, s: Step, j: JobId)
    requires RowsBorn(w.rows, w.log) && Enabled(w, s) && NotBegun(w, j) && j in w.log.jobs
    requires j in w.rows ==> w.rows[j].status.Cancelled?
    ensures j in Apply(w, s).rows ==> Apply(w, s).rows[j].status.Cancelled?
  {
    if j !in w.rows {
      NotReissued(w, s, j);
    } else {
      NobodyWrites(w, s, j);
      Spared(w, s, j);
    }
  }

  lemma NobodyWrites(w: World, s: Step, j: JobId)
    requires Enabled(w, s) && NotBegun(w, j)
    ensures !Unconditional(w, s, j)
  {}

  lemma CalledOffStays(w: World, s: Step, j: JobId)
    requires Inv(w) && Enabled(w, s) && CalledOff(w, j)
    ensures CalledOff(Apply(w, s), j)
  {
    JobStays(w, s, j);
    CancelledStays(w, s, j);
    NotBegunStays(w, s, j);
  }

  lemma {:induction false} CalledOffInRun(w: World, run: seq<Step>, j: JobId)
    requires Inv(w) && Legal(w, run) && CalledOff(w, j)
    ensures CalledOff(Run(w, run), j) && Dones(w, run, j) == 0
    decreases |run|
  {
    if run != [] {
      StepKeeps(w, run[0]);
      CalledOffStays(w, run[0], j);
      CalledOffInRun(Apply(w, run[0]), run[1..], j);
    }
  }

  lemma UserCancels(w: World, j: JobId)
    requires Is(w.rows, j, Queued) && NotBegun(w, j) && j in w.log.jobs
    ensures Enabled(w, UserCancel(j)) && CalledOff(Apply(w, UserCancel(j)), j) && j in Apply(w, UserCancel(j)).rows
  {}

  /** A queued job that is cancelled, by whomever it was submitted, stays cancelled and is never done. */
  lemma UserCancelIsFinal(before: seq<Step>, after: seq<Step>, j: JobId)
    requires Legal(EMPTY, before) && Is(Run(EMPTY, before).rows, j, Queued)
    requires Legal(Apply(Run(EMPTY, before), UserCancel(j)), after)
    ensures var w := Apply(Run(EMPTY, before), UserCancel(j)); var v := Run(w, after);
      && Is(w.rows, j, Cancelled) && (j in v.rows ==> v.rows[j].status.Cancelled?) && Dones(w, after, j) == 0
  {
    QueuedNotBegunInRun(EMPTY, before);
    var w := Run(EMPTY, before);
    assert Born(w.log, j, w.rows[j].caseId, w.rows[j].agent);
    UserCancels(w, j);
    StepKeeps(w, UserCancel(j));
    CalledOffInRun(Apply(w, UserCancel(j)), after, j);
  }

  /* ---------- A job cancelled by its agent, also while it runs ---------- */

  lemma AgentCancels(w: World, j: JobId)
    requires AgentActive(w, j)
    ensures Enabled(w, AgentCancel(j))
    ensures var v := Apply(w, AgentCancel(j));
      Is(v.rows, j, Cancelled) && v.log == w.log && v.rows[j].caseId == w.rows[j].caseId && v.rows.Keys == w.rows.Keys
  {}

  /** An agent's active job that is cancelled stays cancelled and is never done, whatever is collected meanwhile. */
  lemma AgentCancelIsFinal(w: World, after: seq<Step>, j: JobId)
    requires Inv(w) && AgentActive(w, j) && Legal(Apply(w, AgentCancel(j)), after)
    ensures var v := Apply(w, AgentCancel(j));
      && Is(v.rows, j, Cancelled)
      && (j in Run(v, after).rows ==> Run(v, after).rows[j].status.Cancelled?) && Dones(v, after, j) == 0
  {
    var v := Apply(w, AgentCancel(j));
    assert Born(w.log, j, w.rows[j].caseId, w.rows[j].agent);
    AgentCancels(w, j);
    StepKeeps(w, AgentCancel(j));
    AgentVerdictIsFinal(v, after, j);
    DoneAtMostOnce(v, after, j);
  }

  /** A job cancelled before a worker looks at it is let go of unclaimed. */
  lemma CancelledIsSkipped(w: World, k: WorkerId)
    requires k in w.workers && w.workers[k].Waiting? && Is(w.rows, w.workers[k].job, Cancelled)
    ensures Enabled(w, Admit(k)) && var v := Apply(w, Admit(k));
      && k !in v.workers && v == w.(workers := v.workers)
      && forall i | i in w.workers && i != k :: i in v.workers && v.workers[i] == w.workers[i]
  {}
}
