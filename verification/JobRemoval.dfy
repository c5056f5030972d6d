/** What deletion, garbage collection and the sweep of orphans take (app/database/repository.py, app/api/gc.py). */
module JobRemoval {
  import opened JobTable
  import opened JobProtocol
  import Tables

  /** Nothing but these tables has changed: no input copy, output, worker, broker or history. */
  ghost predicate OnlyTables(w: World, v: World) {
    v == w.(cases := v.cases, rows := v.rows, analyses := v.analyses, snapshots := v.snapshots)
  }

  /** A deleted case takes its jobs, its analyses and their snapshots, and nothing of another case. */
  lemma CaseDeletionIsExact(w: World, c: CaseId)
    ensures Enabled(w, DeleteCase(c)) && var v := Apply(w, DeleteCase(c));
      && OnlyTables(w, v) && (forall d :: d in v.cases <==> d in w.cases && d != c)
      && Tables.Without(w.rows, v.rows, iset j | j in w.rows && w.rows[j].caseId == c)
      && Tables.Without(w.analyses, v.analyses, iset a | a in w.analyses && w.analyses[a] == c)
      && Tables.Without(w.snapshots, v.snapshots, iset k | k in w.snapshots && w.snapshots[k] == c)
  {}

  /** Old jobs go only once they have ended, and what they produced stays. */
  lemma GarbageIsEnded(w: World, js: set<JobId>)
    requires Enabled(w, CollectGarbage(js))
    ensures var v := Apply(w, CollectGarbage(js));
      && v == w.(rows := v.rows) && Tables.Without(w.rows, v.rows, iset j | j in js)
      && forall j | j in w.rows && j !in v.rows :: w.rows[j].status in {Done, Failed, Cancelled}
  {}

  /** Fresh analyses are only ever named for cases that were opened. */
  ghost predicate AnalysesIssued(log: Log) { forall n | n in log.analyses :: log.analyses[n] in log.cases }

  lemma IssuedByBroker(w: World, s: Step)
    requires BrokerEnabled(w, s) && AnalysesIssued(w.log)
    ensures AnalysesIssued(BrokerStep(w, s).log)
  {}

  lemma IssuedByQueue(w: World, s: Step)
    requires QueueEnabled(w, s) && AnalysesIssued(w.log)
    ensures AnalysesIssued(QueueStep(w, s).log)
  {}

  lemma IssuedByClaim(w: World, s: Step)
    requires ClaimEnabled(w, s) && AnalysesIssued(w.log)
    ensures AnalysesIssued(ClaimStep(w, s).log)
  {}

  lemma IssuedBySave(w: World, s: Step)
    requires SaveEnabled(w, s) && AnalysesIssued(w.log) && CasesIssued(w.log) && WorkersBorn(w.workers, w.log)
    ensures AnalysesIssued(SaveStep(w, s).log)
  {
    if s.Persist? {
      var worker := w.workers[s.k];
      assert WorkerBorn(worker, w.log);
      assert w.log.jobs[worker.job].caseId in w.log.cases;
    }
  }

  lemma IssuedByEnding(w: World, s: Step)
    requires EndingEnabled(w, s) && AnalysesIssued(w.log)
    ensures AnalysesIssued(EndingStep(w, s).log)
  {}

  lemma IssuedByIntake(w: World, s: Step)
    requires IntakeEnabled(w, s) && AnalysesIssued(w.log)
    ensures AnalysesIssued(IntakeStep(w, s).log)
  {}

  lemma IssuedByOthers(w: World, s: Step)
    requires AnalysesIssued(w.log)
    ensures OperatorEnabled(w, s) ==> AnalysesIssued(OperatorStep(w, s).log)
    ensures RemovalEnabled(w, s) ==> AnalysesIssued(RemovalStep(w, s).log)
  {}

  lemma IssuedStep(w: World, s: Step)
    requires Enabled(w, s) && AnalysesIssued(w.log) && CasesIssued(w.log) && WorkersBorn(w.workers, w.log)
    ensures AnalysesIssued(Apply(w, s).log)
  {
    if OfBroker(s) {
      IssuedByBroker(w, s);
    } else if OfQueue(s) {
      IssuedByQueue(w, s);
    } else if OfClaim(s) {
      IssuedByClaim(w, s);
    } else if OfSave(s) {
      IssuedBySave(w, s);
    } else if OfEnding(s) {
      IssuedByEnding(w, s);
    } else if OfIntake(s) {
      IssuedByIntake(w, s);
    } else {
      IssuedByOthers(w, s);
    }
  }

  lemma {:induction false} IssuedInRun(w: World, run: seq<Step>)
    requires Legal(w, run) && Inv(w) && AnalysesIssued(w.log)
    ensures AnalysesIssued(Run(w, run).log)
    decreases |run|
  {
    if run != [] {
      StepKeeps(w, run[0]);
      IssuedStep(w, run[0]);
      IssuedInRun(Apply(w, run[0]), run[1..]);
    }
  }

  /** In every reachable state the sweep drops the jobs and analyses of missing cases, and no others. */
  lemma OrphansAreExact(run: seq<Step>)
    requires Legal(EMPTY, run)
    ensures var w := Run(EMPTY, run); Enabled(w, DropOrphans) && OrphansGone(w, Apply(w, DropOrphans))
  {
    RunKeeps(EMPTY, run);
    IssuedInRun(EMPTY, run);
    OrphansGo(Run(EMPTY, run));
  }

  ghost predicate OrphansGone(w: World, v: World) {
    && v == w.(rows := v.rows, analyses := v.analyses)
    && Tables.Without(w.rows, v.rows, iset j | j in w.rows && w.rows[j].caseId !in w.cases)
    && Tables.Without(w.analyses, v.analyses, iset a | a in w.analyses && w.analyses[a] !in w.cases)
  }

  lemma OrphansGo(w: World)
    requires Identified(w) && AnalysesIssued(w.log)
    ensures Enabled(w, DropOrphans) && OrphansGone(w, Apply(w, DropOrphans))
  {
    forall j | j in w.rows ensures w.rows[j].caseId in w.log.cases {
      assert Born(w.log, j, w.rows[j].caseId, w.rows[j].agent);
    }
    forall a | a in w.analyses ensures w.analyses[a] in w.log.cases {
      assert Owned(w.log, a, w.analyses[a]);
    }
  }

  /** Clearing leaves no row in any table, and the identifiers stay issued. */
  lemma ClearedIsEmpty(w: World)
    ensures Enabled(w, Step.ClearAll) && var v := Apply(w, Step.ClearAll);
      OnlyTables(w, v) && v.cases == {} && v.rows == map[] && v.analyses == map[] && v.snapshots == map[]
  {}
}
