/** Collecting an agent job's output may stop after any step and be run again (app/agents/spool.py). */
module JobCollection {
  import opened Options
  import opened JobTable
  import opened JobProtocol

  function Collection(j: JobId): seq<Step> { [Read(j), Save, Conclude, Remove] }

  predicate Collectable(w: World, j: JobId) {
    w.broker.Idle? && AgentActive(w, j) && j in w.outputs && w.outputs[j].valid
  }

  datatype Database = Database(rows: Rows, analyses: Analyses, snapshots: Snapshots)

  function Stored(w: World): Database { Database(w.rows, w.analyses, w.snapshots) }

  /** From a state where an agent job's output can be collected, what the four steps leave in the database. */
  function Outcome(w: World, j: JobId): Database
    requires Collectable(w, j)
  {
    Database(
      w.rows[j := w.rows[j].(status := Done, result := Some(OfJob(j)))],
      w.analyses[OfJob(j) := w.rows[j].caseId],
      w.snapshots[(OfJob(j), OfOutput(j, w.outputs[j])) := w.rows[j].caseId])
  }

  /** Besides what report jobs captured, the job's analysis has exactly the snapshot of that output. */
  ghost predicate NamesOutput(snapshots: Snapshots, j: JobId, p: Payload) {
    forall d: Digest | !d.OfReport? :: (OfJob(j), d) in snapshots <==> d == OfOutput(j, p)
  }

  /** Stopped anywhere before the job row is written, only the evidence may be there already. */
  ghost predicate Between(w: World, start: World, j: JobId)
    requires Collectable(start, j)
  {
    && Collectable(w, j) && w.outputs == start.outputs && w.rows == start.rows
    && (Stored(w) == Stored(start)
        || Stored(w) == Outcome(start, j).(rows := start.rows))
  }

  lemma CollectOnce(w: World, j: JobId)
    requires Inv(w) && Collectable(w, j)
    ensures Legal(w, Collection(j)) && Stored(Run(w, Collection(j))) == Outcome(w, j)
    ensures NamesOutput(Outcome(w, j).snapshots, j, w.outputs[j])
  {
    CollectPrefix(w, j, 4);
    assert Collection(j)[..4] == Collection(j);
    SavedTwice(w, j);
    AfterStored(w, j, 4);
    OutcomeSnapshot(w, j);
  }

  lemma OutcomeSnapshot(w: World, j: JobId)
    requires Inv(w) && Collectable(w, j)
    ensures NamesOutput(Outcome(w, j).snapshots, j, w.outputs[j])
  {
    forall d | (OfJob(j), d) in w.snapshots && !d.OfReport? ensures d == OfOutput(j, w.outputs[j]) {
      var k := (OfJob(j), d);
      assert k in w.log.captured && k.0.OfJob?;
    }
  }

  type Stop = k: nat | k <= 4

  /** One attempt, stopped after `k` of its steps; k = 4 is an attempt that is not stopped. */
  function Attempt(j: JobId, k: Stop): seq<Step> {
    Collection(j)[..k] + [Crash]
  }

  /** Where the first `k` steps lead. */
  function After(w: World, j: JobId, k: Stop): World
    requires Collectable(w, j)
  {
    var c, p := w.rows[j].caseId, w.outputs[j];
    var saved := Saving(w, OfJob(j), OfOutput(j, p), c);
    var rows := Complete(w.rows, j, OfJob(j), true);
    match k
    case 0 => w
    case 1 => w.(broker := Reading(j, c, p))
    case 2 => saved.(broker := Saved(j, c, p))
    case 3 => saved.(rows := rows, broker := Removing(j))
    case _ => saved.(rows := rows, inbox := saved.inbox - {j}, broker := Idle)
  }

  lemma EarlyStep(w: World, j: JobId, k: Stop)
    requires Collectable(w, j) && k < 2
    ensures var s := if k == 0 then Read(j) else Save;
      BrokerEnabled(After(w, j, k), s) && BrokerStep(After(w, j, k), s) == After(w, j, k + 1)
  {}

  lemma LateStep(w: World, j: JobId, k: Stop)
    requires Collectable(w, j) && 2 <= k < 4
    ensures var s := if k == 2 then Conclude else Remove;
      BrokerEnabled(After(w, j, k), s) && BrokerStep(After(w, j, k), s) == After(w, j, k + 1)
  {}

  lemma CollectStep(w: World, j: JobId, k: Stop)
    requires Collectable(w, j) && k < 4
    ensures var s := Collection(j)[k]; Enabled(After(w, j, k), s) && Apply(After(w, j, k), s) == After(w, j, k + 1)
  {
    if k < 2 { EarlyStep(w, j, k); } else { LateStep(w, j, k); }
  }

  lemma {:induction false} CollectPrefix(w: World, j: JobId, k: Stop)
    requires Collectable(w, j)
    ensures Legal(w, Collection(j)[..k]) && Run(w, Collection(j)[..k]) == After(w, j, k)
  {
    if k > 0 {
      CollectPrefix(w, j, k - 1);
      CollectStep(w, j, k - 1);
      var last := Collection(j)[k - 1];
      LegalStep(After(w, j, k - 1), last, []);
      LegalConcat(w, Collection(j)[..k - 1], [last]);
      assert Collection(j)[..k] == Collection(j)[..k - 1] + [last];
    }
  }

  lemma CollectStopped(w: World, j: JobId, k: Stop)
    requires Inv(w) && Collectable(w, j)
    ensures Legal(w, Attempt(j, k))
    ensures var v := Run(w, Attempt(j, k));
      && v == After(w, j, k).(broker := Idle)
      && (k <= 2 ==> Between(v, w, j))
      && (k >= 3 ==> Stored(v) == Outcome(w, j))
  {
    StoppedThere(w, j, k);
    SavedTwice(w, j);
    AfterStored(w, j, k);
    if k <= 2 { AfterBetween(w, j, k); }
  }

  lemma StoppedThere(w: World, j: JobId, k: Stop)
    requires Collectable(w, j)
    ensures Legal(w, Attempt(j, k)) && Run(w, Attempt(j, k)) == After(w, j, k).(broker := Idle)
  {
    CollectPrefix(w, j, k);
    AfterCrash(w, j, k);
    LegalStep(After(w, j, k), Crash, []);
    LegalConcat(w, Collection(j)[..k], [Crash]);
  }

  lemma AfterCrash(w: World, j: JobId, k: Stop)
    requires Collectable(w, j)
    ensures Apply(After(w, j, k), Crash) == After(w, j, k).(broker := Idle)
  {
  }

  /** The two writes: the evidence with the second step, the job row with the third. */
  lemma AfterStored(w: World, j: JobId, k: Stop)
    requires Collectable(w, j)
    requires var x := (OfJob(j), OfOutput(j, w.outputs[j])); x in w.snapshots ==> w.snapshots[x] == w.rows[j].caseId
    ensures Stored(After(w, j, k)) ==
      if k < 2 then Stored(w) else if k == 2 then Outcome(w, j).(rows := w.rows) else Outcome(w, j)
  {
  }

  lemma AfterBetween(w: World, j: JobId, k: Stop)
    requires Collectable(w, j) && k <= 2
    requires Stored(After(w, j, k)) == Stored(w) || Stored(After(w, j, k)) == Outcome(w, j).(rows := w.rows)
    ensures Between(After(w, j, k).(broker := Idle), w, j)
  {
  }

  /** The snapshot may be there already, under the same case. */
  lemma SavedTwice(w: World, j: JobId)
    requires Inv(w) && Collectable(w, j)
    ensures var k := (OfJob(j), OfOutput(j, w.outputs[j])); k in w.snapshots ==> w.snapshots[k] == w.rows[j].caseId
  {
    var k := (OfJob(j), OfOutput(j, w.outputs[j]));
    if k in w.snapshots { assert Owned(w.log, k.0, w.snapshots[k]); }
  }

  /** A broker that keeps trying, each time stopped after some number of steps. */
  function Attempts(w: World, j: JobId, ks: seq<Stop>): World
    decreases |ks|
  {
    if ks == [] then w
    else if Collectable(w, j) && Legal(w, Attempt(j, ks[0]))
    then Attempts(Run(w, Attempt(j, ks[0])), j, ks[1..])
    else Attempts(w, j, ks[1..])
  }

  /**
   * However the attempts were interrupted, once one of them wrote the job row the database is that of one
   * uninterrupted collection: one analysis row, one snapshot, the job done.
   */
  lemma CollectionIsRestartable(w: World, j: JobId, ks: seq<Stop>)
    requires Inv(w) && Collectable(w, j) && exists k | k in ks :: k >= 3
    ensures Legal(w, Collection(j))
    ensures Stored(Attempts(w, j, ks)) == Stored(Run(w, Collection(j))) == Outcome(w, j)
    ensures NamesOutput(Outcome(w, j).snapshots, j, w.outputs[j])
  {
    CollectOnce(w, j);
    AttemptsReach(w, w, j, ks);
  }

  lemma {:induction false} AttemptsReach(w: World, start: World, j: JobId, ks: seq<Stop>)
    requires Inv(w) && Collectable(start, j) && Between(w, start, j)
    requires exists k | k in ks :: k >= 3
    ensures Stored(Attempts(w, j, ks)) == Outcome(start, j)
    decreases |ks|
  {
    CollectStopped(w, j, ks[0]);
    SameOutcome(w, start, j);
    if ks[0] >= 3 {
      AttemptsEnd(Run(w, Attempt(j, ks[0])), j, ks[1..]);
    } else {
      AttemptBetween(w, start, j, ks[0]);
      LaterStop(ks);
      AttemptsReach(Run(w, Attempt(j, ks[0])), start, j, ks[1..]);
    }
  }

  lemma LaterStop(ks: seq<Stop>)
    requires ks != [] && ks[0] < 3 && exists k | k in ks :: k >= 3
    ensures exists k | k in ks[1..] :: k >= 3
  {
    var k :| k in ks && k >= 3;
    assert ks == [ks[0]] + ks[1..];
  }

  lemma AttemptBetween(w: World, start: World, j: JobId, k: Stop)
    requires Inv(w) && Collectable(start, j) && Between(w, start, j) && k < 3
    ensures Legal(w, Attempt(j, k))
    ensures var v := Run(w, Attempt(j, k)); Inv(v) && Between(v, start, j)
  {
    CollectStopped(w, j, k);
    RunKeeps(w, Attempt(j, k));
    BetweenTwice(Run(w, Attempt(j, k)), w, start, j);
  }

  lemma SameOutcome(w: World, start: World, j: JobId)
    requires Collectable(start, j) && Between(w, start, j)
    ensures Outcome(w, j) == Outcome(start, j)
  {
  }

  lemma BetweenTwice(v: World, w: World, start: World, j: JobId)
    requires Collectable(start, j) && Between(w, start, j) && Between(v, w, j)
    ensures Between(v, start, j)
  {
    SameOutcome(w, start, j);
  }

  lemma {:induction false} AttemptsEnd(w: World, j: JobId, ks: seq<Stop>)
    requires Is(w.rows, j, Done)
    ensures Attempts(w, j, ks) == w
    decreases |ks|
  {
    if ks != [] { AttemptsEnd(w, j, ks[1..]); }
  }

  /* ---------- The other ends of a collecting loop ---------- */

  /** Only rows have changed, only this one, and the broker is free again. */
  ghost predicate Settled(w: World, v: World, j: JobId, status: Status) {
    v == w.(rows := v.rows) && j in w.rows && Becomes(w.rows, v.rows, j, status, w.rows[j].result)
  }

  /** A beating worker marks its job running, be it queued or running before; one whose input cannot be written fails it. */
  lemma HeartbeatStarts(w: World, j: JobId)
    requires w.broker.Idle? && AgentActive(w, j)
    ensures Enabled(w, Beat(j)) && var beating := Apply(w, Beat(j));
      && Enabled(beating, Begin) && Settled(w, Apply(beating, Begin), j, Running)
      && Enabled(beating, InputLost) && Settled(w, Apply(beating, InputLost), j, Failed)
  {}

  /** What the broker read is what was published, of the job's own case. */
  lemma ReadIsPublished(w: World, j: JobId)
    requires w.broker.Idle? && AgentActive(w, j) && j in w.outputs
    ensures Enabled(w, Read(j)) && Apply(w, Read(j)) == w.(broker := Reading(j, w.rows[j].caseId, w.outputs[j]))
  {}

  /** A refused output fails its job without evidence, and the input copy goes. */
  lemma RejectFails(w: World, j: JobId)
    requires w.broker.Idle? && AgentActive(w, j) && j in w.outputs
    ensures Enabled(w, Read(j)) && var reading := Apply(w, Read(j));
      && Enabled(reading, Reject) && var failed := Apply(reading, Reject);
      && Enabled(failed, Remove) && var v := Apply(failed, Remove);
      Settled(w.(inbox := v.inbox), v, j, Failed) && InputGone(w, v, j)
  {
    ReadIsPublished(w, j);
  }

  ghost predicate InputGone(w: World, v: World, j: JobId) { forall i :: i in v.inbox <==> i in w.inbox && i != j }

  /** The input copy of a job that was collected or refused goes last, and the broker turns to the next. */
  lemma RemoveClears(w: World)
    requires w.broker.Removing?
    ensures Enabled(w, Remove) && var v := Apply(w, Remove);
      InputGone(w, v, w.broker.job) && v == w.(inbox := v.inbox, broker := Idle)
  {}

  /** An output that is withdrawn can neither be collected nor acknowledged any more. */
  lemma UnpublishedIsNotRead(w: World, j: JobId)
    requires Enabled(w, Unpublish(j))
    ensures var v := Apply(w, Unpublish(j));
      && !Enabled(v, Read(j)) && !Enabled(v, Acknowledge(j)) && v == w.(outputs := v.outputs)
      && forall i :: i in v.outputs <==> i in w.outputs && i != j
  {}

  /** The output of a cancelled job is an acknowledgement: its input copy goes, and nothing else. */
  lemma AcknowledgeClears(w: World, j: JobId)
    requires w.broker.Idle? && j in w.outputs && Is(w.rows, j, Cancelled)
    ensures Enabled(w, Acknowledge(j)) && var v := Apply(w, Acknowledge(j));
      InputGone(w, v, j) && v == w.(inbox := v.inbox)
  {}
}
