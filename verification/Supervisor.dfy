/** Container lifecycle of the job launcher, through crashes, lost replies and restarts (app/agents/supervisor.py). */
module Supervisor {
  type Id = nat

  /** What the engine lists about a container, and whether it was ever started. */
  datatype Container = Container(owner: string, managed: string, job: string, names: set<string>, started: bool, running: bool)

  predicate HexDigit(c: char) { '0' <= c <= '9' || 'a' <= c <= 'f' }

  /** j_[a-f0-9]{16} */
  predicate JobName(job: string) {
    |job| == 18 && job[..2] == "j_" && forall i | 2 <= i < 18 :: HexDigit(job[i])
  }

  function ContainerName(self: string, job: string): string { "/ph-" + self + "-" + job }

  /** A job's name is the prefix and sixteen lower-case hexadecimal digits, and nothing else. */
  lemma NamesExactly(job: string)
    ensures JobName(job) <==>
            exists digits :: |digits| == 16 && (forall c | c in digits :: c in "0123456789abcdef") && job == "j_" + digits
  {
    if JobName(job) {
      var digits := job[2..];
      forall c | c in digits ensures c in "0123456789abcdef" {
        var i :| 0 <= i < 16 && digits[i] == c;
        assert digits[i] == job[i + 2];
        HexDigits(c);
      }
      assert job == job[..2] + digits;
    }
    if digits :| |digits| == 16 && (forall c | c in digits :: c in "0123456789abcdef") && job == "j_" + digits {
      assert job[..2] == "j_";
      forall i | 2 <= i < 18 ensures HexDigit(job[i]) {
        assert job[i] == digits[i - 2] && digits[i - 2] in digits;
        HexDigits(job[i]);
      }
    }
  }

  lemma HexDigits(c: char)
    ensures HexDigit(c) <==> c in "0123456789abcdef"
  {
    var s := "0123456789abcdef";
    assert forall i | 0 <= i < 10 :: s[i] == '0' + i as char;
    assert forall i | 10 <= i < 16 :: s[i] == 'a' + (i - 10) as char;
    if HexDigit(c) {
      var i := if c <= '9' then c as int - '0' as int else c as int - 'a' as int + 10;
      assert s[i] == c;
    }
  }

  /** No two jobs of a service share a container name. */
  lemma NamesAreOwn(self: string, job: string, other: string)
    ensures ContainerName(self, job) == ContainerName(self, other) ==> job == other
    ensures ContainerName("a", "b") == "/ph-a-b"
  {
    var front := "/ph-" + self + "-";
    assert ContainerName(self, job)[|front|..] == job && ContainerName(self, other)[|front|..] == other;
  }

  /** The container that `run_job` asks for. */
  function Requested(self: string, job: string): Container {
    Container(self, "1", job, {ContainerName(self, job)}, false, false)
  }

  predicate Owned(self: string, c: Container) {
    c.owner == self && c.managed == "1" && JobName(c.job) && ContainerName(self, c.job) in c.names
  }

  datatype Ending =
    | Result          // result bytes and an isolation receipt
    | Failure         // cancelled, out of time, or an exception the service loop turns into a failure
    | Replay          // stopping: nothing is published
    | Fatal           // an exception that ends the process

  datatype Phase =
    | Down
    | Recovering(todo: set<Id>)
    | Serving
    | Requesting(job: string, request: Id)
    | Holding(job: string, container: Id)
    | Starting(job: string, container: Id)
    | Watching(job: string, container: Id)
    | Removing(job: string, container: Id, ending: Ending)
    | Receipting(job: string, container: Id)
    | Publishing(job: string)

  datatype World = World(
    self: string,
    containers: map<Id, Container>,
    creating: map<Id, string>,
    made: map<Id, Id>,
    starting: set<Id>,
    results: set<string>,
    receipts: map<string, Id>,
    phase: Phase,
    ids: set<Id>,
    requests: set<Id>,
    born: map<Id, string>
  )

  datatype Step =
    | Boot
    | RecoverOne(c: Id)
    | RecoverBroken(c: Id, effective: bool)
    | Recovered
    | Pick(job: string, request: Id)
    | Refuse(job: string)
    | CreateReply
    | CreateBroken(survives: bool)
    | SendStart
    | StartReply
    | EndRun(ending: Ending)
    | DeleteReply
    | DeleteBroken(effective: bool)
    | WriteReceipt
    | WriteResult
    | Unlink(job: string)
    | Kill
    | EngineCreate(request: Id, c: Id)
    | EngineStart(c: Id)
    | EngineExit(c: Id)
    | Foreign(c: Id, other: Container)

  function Listed(w: World): set<Id> { set c | c in w.containers && Owned(w.self, w.containers[c]) }

  predicate Enabled(w: World, s: Step) {
    match s
    case Boot => w.phase.Down?
    case RecoverOne(c) => w.phase.Recovering? && c in w.phase.todo
    case RecoverBroken(c, effective) => w.phase.Recovering? && c in w.phase.todo
    case Recovered => w.phase.Recovering? && w.phase.todo == {}
    case Pick(job, request) => w.phase.Serving? && JobName(job) && job !in w.results && request !in w.requests
    case Refuse(job) => w.phase.Serving? && JobName(job) && job !in w.results
    case CreateReply => w.phase.Requesting? && w.phase.request in w.made
    case CreateBroken(survives) => w.phase.Requesting?
    case SendStart => w.phase.Holding?
    case StartReply => w.phase.Starting? && w.phase.container !in w.starting
    case EndRun(ending) => w.phase.Starting? || w.phase.Watching?
    case DeleteReply => w.phase.Removing?
    case DeleteBroken(effective) => w.phase.Removing?
    case WriteReceipt => w.phase.Receipting?
    case WriteResult => w.phase.Publishing?
    case Unlink(job) => w.phase.Serving?
    case Kill => true
    case EngineCreate(request, c) =>
      && request in w.creating && c !in w.ids
      && forall d | d in w.containers :: ContainerName(w.self, w.creating[request]) !in w.containers[d].names
    case EngineStart(c) => c in w.starting
    case EngineExit(c) => c in w.containers
    case Foreign(c, other) => c !in w.ids
  }

  function Deleted(w: World, c: Id): World { w.(containers := w.containers - {c}) }

  function Apply(w: World, s: Step): World
    requires Enabled(w, s)
  {
    match s
    case Boot => w.(phase := Recovering(Listed(w)))
    case RecoverOne(c) => Deleted(w, c).(phase := Recovering(w.phase.todo - {c}))
    case RecoverBroken(c, effective) => (if effective then Deleted(w, c) else w).(phase := Down)
    case Recovered => w.(phase := Serving)
    case Pick(job, request) =>
      w.(phase := Requesting(job, request), creating := w.creating[request := job], requests := w.requests + {request})
    case Refuse(job) => w.(phase := Publishing(job))
    case CreateReply => w.(phase := Holding(w.phase.job, w.made[w.phase.request]))
    // The request may still reach the engine later.
    case CreateBroken(survives) => w.(phase := if survives then Publishing(w.phase.job) else Down)
    case SendStart => w.(phase := Starting(w.phase.job, w.phase.container), starting := w.starting + {w.phase.container})
    case StartReply => w.(phase := Watching(w.phase.job, w.phase.container))
    case EndRun(ending) => w.(phase := Removing(w.phase.job, w.phase.container, ending))
    case DeleteReply =>
      Deleted(w, w.phase.container).(phase :=
        match w.phase.ending
        case Result => Receipting(w.phase.job, w.phase.container)
        case Failure => Publishing(w.phase.job)
        case Replay => Serving
        case Fatal => Down)
    case DeleteBroken(effective) => (if effective then Deleted(w, w.phase.container) else w).(phase := Down)
    case WriteReceipt =>
      w.(phase := Publishing(w.phase.job), receipts := w.receipts[w.phase.job := w.phase.container])
    case WriteResult => w.(phase := Serving, results := w.results + {w.phase.job})
    case Unlink(job) => w.(results := w.results - {job}, receipts := w.receipts - {job})
    case Kill => w.(phase := Down)
    case EngineCreate(request, c) =>
      var job := w.creating[request];
      w.(containers := w.containers[c := Requested(w.self, job)],
         creating := w.creating - {request},
         made := w.made[request := c],
         ids := w.ids + {c},
         born := w.born[c := job])
    case EngineStart(c) =>
      w.(starting := w.starting - {c},
         containers := if c in w.containers
                       then w.containers[c := w.containers[c].(started := true, running := true)]
                       else w.containers)
    case EngineExit(c) => w.(containers := w.containers[c := w.containers[c].(running := false)])
    case Foreign(c, other) => w.(containers := w.containers[c := other], ids := w.ids + {c})
  }

  predicate Legal(w: World, run: seq<Step>)
    decreases |run|
  {
    run != [] ==> Enabled(w, run[0]) && Legal(Apply(w, run[0]), run[1..])
  }

  function Run(w: World, run: seq<Step>): World
    requires Legal(w, run)
    decreases |run|
  {
    if run == [] then w else Run(Apply(w, run[0]), run[1..])
  }

  function Initial(self: string): World {
    World(self, map[], map[], map[], {}, {}, map[], Down, {}, {}, map[])
  }

  /* ---------- Invariants ---------- */

  /** A job container that runs, did run, or may yet be started by a request already sent. */
  predicate Live(containers: map<Id, Container>, starting: set<Id>, born: map<Id, string>, c: Id) {
    c in born && c in containers && (containers[c].started || c in starting)
  }

  ghost predicate Registered(w: World) {
    && w.containers.Keys <= w.ids && w.born.Keys <= w.ids && w.starting <= w.born.Keys
    && w.made.Values <= w.born.Keys
    && w.creating.Keys <= w.requests && w.made.Keys <= w.requests && w.creating.Keys !! w.made.Keys
  }

  /** Containers of this service keep the identity they were requested with. */
  ghost predicate Recognisable(w: World) { Named(w) && AsRequested(w) }

  ghost predicate Named(w: World) {
    (forall r | r in w.creating :: JobName(w.creating[r])) && (forall c | c in w.born :: JobName(w.born[c]))
  }

  ghost predicate AsRequested(w: World) {
    forall c | c in w.born && c in w.containers ::
      var k := w.containers[c];
      k == Requested(w.self, w.born[c]).(started := k.started, running := k.running) && (k.running ==> k.started)
  }

  /** The request a launch waits for is its own, and so is the container it goes on to hold. */
  ghost predicate Attributed(w: World) {
    && (w.phase.Requesting? ==>
          && w.phase.request in w.requests
          && (w.phase.request in w.creating ==> w.creating[w.phase.request] == w.phase.job)
          && (w.phase.request in w.made ==> w.made[w.phase.request] in w.born && w.born[w.made[w.phase.request]] == w.phase.job))
    && (w.phase.Holding? || w.phase.Starting? || w.phase.Watching? || w.phase.Removing? || w.phase.Receipting? ==>
          w.phase.container in w.born && w.born[w.phase.container] == w.phase.job)
  }

  /** Where live job containers can be in each phase. */
  predicate Allowed(phase: Phase, c: Id) {
    match phase
    case Down => true
    case Recovering(todo) => c in todo
    case Starting(_, container) => c == container
    case Watching(_, container) => c == container
    case Removing(_, container, _) => c == container
    case _ => false
  }

  ghost predicate Confined(w: World) {
    && (forall c | Live(w.containers, w.starting, w.born, c) :: Allowed(w.phase, c) && w.born[c] !in w.results)
    && (forall c, d | Live(w.containers, w.starting, w.born, c) && Live(w.containers, w.starting, w.born, d) :: c == d)
  }

  ghost predicate Unpublished(w: World) {
    match w.phase
    case Requesting(job, _) => job !in w.results
    case Holding(job, _) => job !in w.results
    case Starting(job, _) => job !in w.results
    case Watching(job, _) => job !in w.results
    case Removing(job, _, _) => job !in w.results
    case Receipting(job, _) => job !in w.results
    case Publishing(job) => job !in w.results
    case _ => true
  }

  ghost predicate Receipted(w: World) {
    && (forall job | job in w.receipts ::
          var c := w.receipts[job]; c in w.ids && c !in w.containers && c in w.born && w.born[c] == job)
    && (w.phase.Receipting? ==> w.phase.container in w.ids && w.phase.container !in w.containers)
  }

  /** Recovery works on a listing of this service's own containers. */
  ghost predicate ListedOwn(w: World) {
    w.phase.Recovering? ==>
      w.phase.todo <= w.ids && forall c | c in w.phase.todo && c in w.containers :: Owned(w.self, w.containers[c])
  }

  ghost predicate Inv(w: World) {
    Registered(w) && Recognisable(w) && Attributed(w) && Confined(w) && Unpublished(w) && Receipted(w) && ListedOwn(w)
  }

  lemma RegisteredKept(w: World, s: Step)
    requires Registered(w) && Attributed(w) && Enabled(w, s)
    ensures Registered(Apply(w, s))
  {}

  lemma NamedKept(w: World, s: Step)
    requires Registered(w) && Named(w) && Enabled(w, s)
    ensures Named(Apply(w, s))
  {}

  lemma AsRequestedKept(w: World, s: Step)
    requires Registered(w) && AsRequested(w) && Enabled(w, s)
    ensures AsRequested(Apply(w, s))
  {}

  lemma AttributedKept(w: World, s: Step)
    requires Registered(w) && Attributed(w) && Enabled(w, s)
    ensures Attributed(Apply(w, s))
  {}

  lemma ConfinedKept(w: World, s: Step)
    requires Inv(w) && Enabled(w, s)
    ensures Confined(Apply(w, s))
  {
    var v := Apply(w, s);
    forall c | Live(v.containers, v.starting, v.born, c)
      ensures Allowed(v.phase, c) && v.born[c] !in v.results
      ensures Live(w.containers, w.starting, w.born, c) || (s.SendStart? && c == w.phase.container)
    {
      if s.Boot? { assert Owned(w.self, w.containers[c]); }
    }
  }

  lemma UnpublishedKept(w: World, s: Step)
    requires Unpublished(w) && Enabled(w, s)
    ensures Unpublished(Apply(w, s))
  {}

  lemma ReceiptedKept(w: World, s: Step)
    requires Registered(w) && Attributed(w) && Receipted(w) && Enabled(w, s)
    ensures Receipted(Apply(w, s))
  {}

  lemma ListedOwnKept(w: World, s: Step)
    requires Registered(w) && ListedOwn(w) && Enabled(w, s)
    ensures ListedOwn(Apply(w, s))
  {}

  lemma StepKeeps(w: World, s: Step)
    requires Inv(w) && Enabled(w, s)
    ensures Inv(Apply(w, s))
  {
    RegisteredKept(w, s);
    NamedKept(w, s);
    AsRequestedKept(w, s);
    AttributedKept(w, s);
    ConfinedKept(w, s);
    UnpublishedKept(w, s);
    ReceiptedKept(w, s);
    ListedOwnKept(w, s);
  }

  lemma {:induction false} RunKeeps(w: World, run: seq<Step>)
    requires Inv(w) && Legal(w, run)
    ensures Inv(Run(w, run))
    decreases |run|
  {
    if run != [] {
      StepKeeps(w, run[0]);
      RunKeeps(Apply(w, run[0]), run[1..]);
    }
  }

  /* ---------- Main results: over every run, through crashes, lost replies and restarts ---------- */

  /** While a job's result is published, none of its containers was started, nor can a sent request still start one. */
  lemma ResultMeansStopped(self: string, run: seq<Step>, c: Id)
    requires Legal(Initial(self), run)
    ensures var w := Run(Initial(self), run);
            c in w.born && w.born[c] in w.results && c in w.containers ==>
              !w.containers[c].started && !w.containers[c].running && c !in w.starting
  {
    RunKeeps(Initial(self), run);
    var w := Run(Initial(self), run);
    if c in w.born && w.born[c] in w.results && c in w.containers {
      assert !Live(w.containers, w.starting, w.born, c);
    }
  }

  /** A job container that exists and was started, whether or not its process has ended. */
  predicate Alive(w: World, c: Id) { c in w.born && c in w.containers && w.containers[c].started }

  /** At most one job container is ever started at a time. */
  lemma OneContainerAtATime(self: string, run: seq<Step>, c: Id, d: Id)
    requires Legal(Initial(self), run)
    ensures Alive(Run(Initial(self), run), c) && Alive(Run(Initial(self), run), d) ==> c == d
  {
    RunKeeps(Initial(self), run);
    var w := Run(Initial(self), run);
    if Alive(w, c) && Alive(w, d) {
      assert Live(w.containers, w.starting, w.born, c) && Live(w.containers, w.starting, w.born, d);
    }
  }

  /** An isolation receipt names a container that was made for its job and no longer exists. */
  lemma ReceiptMeansRemoved(self: string, run: seq<Step>, job: string)
    requires Legal(Initial(self), run) && job in Run(Initial(self), run).receipts
    ensures var w := Run(Initial(self), run); var c := w.receipts[job];
            c !in w.containers && c in w.born && w.born[c] == job
  {
    RunKeeps(Initial(self), run);
  }

  /* ---------- Receipts of published results ---------- */

  /** The jobs whose last launch ended with result bytes, as far as that result was not unlinked. */
  ghost function Parsed(w: World, run: seq<Step>, before: set<string>): set<string>
    requires Legal(w, run)
    decreases |run|
  {
    if run == [] then before else Parsed(Apply(w, run[0]), run[1..], ParsedAfter(w, run[0], before))
  }

  ghost function ParsedAfter(w: World, s: Step, before: set<string>): set<string>
    requires Enabled(w, s)
  {
    match s
    case EndRun(ending) => if ending.Result? then before + {w.phase.job} else before - {w.phase.job}
    case Pick(job, _) => before - {job}
    case Refuse(job) => before - {job}
    case Unlink(job) => before - {job}
    case _ => before
  }

  /** Between the end of a parse and its result, the receipt comes first. */
  ghost predicate Evidenced(w: World, parsed: set<string>) {
    && (forall job | job in parsed && job !in w.receipts :: job !in w.results && w.phase != Publishing(job))
    && (w.phase.Requesting? || w.phase.Holding? || w.phase.Starting? || w.phase.Watching? ==> w.phase.job !in parsed)
    && (w.phase.Removing? ==> (w.phase.job in parsed <==> w.phase.ending.Result?))
  }

  lemma EvidencedKept(w: World, s: Step, parsed: set<string>)
    requires Evidenced(w, parsed) && Unpublished(w) && Enabled(w, s)
    ensures Evidenced(Apply(w, s), ParsedAfter(w, s, parsed))
  {}

  lemma {:induction false} EvidencedInRun(w: World, run: seq<Step>, parsed: set<string>)
    requires Inv(w) && Legal(w, run) && Evidenced(w, parsed)
    ensures Evidenced(Run(w, run), Parsed(w, run, parsed))
    decreases |run|
  {
    if run != [] {
      StepKeeps(w, run[0]);
      EvidencedKept(w, run[0], parsed);
      EvidencedInRun(Apply(w, run[0]), run[1..], ParsedAfter(w, run[0], parsed));
    }
  }

  /** Over every run, a published result whose launch ended with result bytes has its receipt until it is unlinked. */
  lemma ParsedHasReceipt(self: string, run: seq<Step>, job: string)
    requires Legal(Initial(self), run) && job in Run(Initial(self), run).results
    requires job in Parsed(Initial(self), run, {})
    ensures job in Run(Initial(self), run).receipts
  {
    EvidencedInRun(Initial(self), run, {});
  }

  /** Nothing but its unlinking touches a published result, nor the receipt beside it. */
  lemma {:induction false} PublishedStays(w: World, run: seq<Step>, job: string)
    requires Inv(w) && Legal(w, run) && job in w.results && Unlink(job) !in run
    ensures var v := Run(w, run); job in v.results
    ensures job in Run(w, run).receipts <==> job in w.receipts
    ensures job in w.receipts ==> Run(w, run).receipts[job] == w.receipts[job]
    decreases |run|
  {
    if run != [] {
      StepKeeps(w, run[0]);
      PublishedStep(w, run[0], job);
      PublishedStays(Apply(w, run[0]), run[1..], job);
    }
  }

  lemma PublishedStep(w: World, s: Step, job: string)
    requires Unpublished(w) && Enabled(w, s) && job in w.results && s != Unlink(job)
    ensures var v := Apply(w, s);
      job in v.results && (job in v.receipts <==> job in w.receipts)
      && (job in w.receipts ==> v.receipts[job] == w.receipts[job])
  {}

  /* ---------- What an undisturbed service gets done ---------- */

  lemma Then(w: World, s: Step, rest: seq<Step>)
    requires Enabled(w, s) && Legal(Apply(w, s), rest)
    ensures Legal(w, [s] + rest) && Run(w, [s] + rest) == Run(Apply(w, s), rest)
  {
    assert ([s] + rest)[1..] == rest;
  }

  /** The job's result is there with a receipt for this container, which is gone, and the service goes on. */
  predicate Delivered(w: World, job: string, c: Id) {
    w.phase.Serving? && job in w.results && job in w.receipts && w.receipts[job] == c && c !in w.containers
  }

  /** Once a parse has ended well, the acknowledged removal and the two writes deliver it. */
  lemma ResultIsDelivered(w: World, job: string, c: Id)
    requires Inv(w) && w.phase == Removing(job, c, Result)
    ensures var run := [DeleteReply] + ([WriteReceipt] + ([WriteResult] + []));
      Legal(w, run) && Delivered(Run(w, run), job, c)
  {
    var removed := Apply(w, DeleteReply);
    var receipted := Apply(removed, WriteReceipt);
    Then(receipted, WriteResult, []);
    Then(removed, WriteReceipt, [WriteResult] + []);
    Then(w, DeleteReply, [WriteReceipt] + ([WriteResult] + []));
  }

  /** A launch on its way: the container it holds is its own, and still there. */
  lemma StartedIsDelivered(w: World, job: string, c: Id) returns (rest: seq<Step>)
    requires Inv(w) && w.phase == Holding(job, c)
    ensures Legal(w, rest) && Delivered(Run(w, rest), job, c)
  {
    var sent := Apply(w, SendStart);
    var begun := Apply(sent, EngineStart(c));
    var watched := Apply(begun, StartReply);
    var ended := Apply(watched, EndRun(Result));
    RunFour(w, SendStart, EngineStart(c), StartReply, EndRun(Result));
    ResultIsDelivered(ended, job, c);
    rest := [DeleteReply] + ([WriteReceipt] + ([WriteResult] + []));
    Then(watched, EndRun(Result), rest);
    rest := [EndRun(Result)] + rest;
    Then(begun, StartReply, rest);
    rest := [StartReply] + rest;
    Then(sent, EngineStart(c), rest);
    rest := [EngineStart(c)] + rest;
    Then(w, SendStart, rest);
    rest := [SendStart] + rest;
  }

  lemma RunFour(w: World, a: Step, b: Step, c: Step, d: Step)
    requires Inv(w) && Enabled(w, a) && Enabled(Apply(w, a), b) && Enabled(Apply(Apply(w, a), b), c)
    requires Enabled(Apply(Apply(Apply(w, a), b), c), d)
    ensures Inv(Apply(Apply(Apply(Apply(w, a), b), c), d))
  {
    StepKeeps(w, a);
    StepKeeps(Apply(w, a), b);
    StepKeeps(Apply(Apply(w, a), b), c);
    StepKeeps(Apply(Apply(Apply(w, a), b), c), d);
  }

  /** No container of the engine has the name of the job's, so that the engine can make it. */
  predicate NameFree(w: World, job: string) {
    forall d | d in w.containers :: ContainerName(w.self, job) !in w.containers[d].names
  }

  /** A waiting job can be picked, run in a container of its own, and delivered. */
  lemma JobIsDelivered(w: World, job: string, request: Id, c: Id) returns (rest: seq<Step>)
    requires Inv(w) && w.phase.Serving? && JobName(job) && job !in w.results && NameFree(w, job)
    requires request !in w.requests && c !in w.ids
    ensures Legal(w, rest) && Delivered(Run(w, rest), job, c)
  {
    var picked := Apply(w, Pick(job, request));
    var made := Apply(picked, EngineCreate(request, c));
    var held := Apply(made, CreateReply);
    StepKeeps(w, Pick(job, request));
    StepKeeps(picked, EngineCreate(request, c));
    StepKeeps(made, CreateReply);
    rest := StartedIsDelivered(held, job, c);
    Then(made, CreateReply, rest);
    rest := [CreateReply] + rest;
    Then(picked, EngineCreate(request, c), rest);
    rest := [EngineCreate(request, c)] + rest;
    Then(w, Pick(job, request), rest);
    rest := [Pick(job, request)] + rest;
  }

  /** While a launch is watched its container runs, under the name and labels of its job. */
  lemma StartedRuns(w: World, job: string, c: Id)
    requires Inv(w) && w.phase == Holding(job, c) && c in w.containers
    ensures Legal(w, [SendStart] + ([EngineStart(c)] + ([StartReply] + [])))
    ensures var v := Run(w, [SendStart] + ([EngineStart(c)] + ([StartReply] + [])));
      && v.phase == Watching(job, c) && c in v.containers && c !in v.starting
      && v.containers[c] == Requested(w.self, job).(started := true, running := true)
  {
    var sent := Apply(w, SendStart);
    var begun := Apply(sent, EngineStart(c));
    Then(begun, StartReply, []);
    Then(sent, EngineStart(c), [StartReply] + []);
    Then(w, SendStart, [EngineStart(c)] + ([StartReply] + []));
  }

  /** The container a launch goes on to hold is the one the engine made for its own request. */
  lemma CreatedIsHeld(w: World, job: string, request: Id, c: Id)
    requires Inv(w) && w.phase.Serving? && JobName(job) && job !in w.results && NameFree(w, job)
    requires request !in w.requests && c !in w.ids
    ensures Legal(w, [Pick(job, request)] + ([EngineCreate(request, c)] + ([CreateReply] + [])))
    ensures var v := Run(w, [Pick(job, request)] + ([EngineCreate(request, c)] + ([CreateReply] + [])));
      v.phase == Holding(job, c) && v.containers == w.containers[c := Requested(w.self, job)]
  {
    var picked := Apply(w, Pick(job, request));
    var made := Apply(picked, EngineCreate(request, c));
    Then(made, CreateReply, []);
    Then(picked, EngineCreate(request, c), [CreateReply] + []);
    Then(w, Pick(job, request), [EngineCreate(request, c)] + ([CreateReply] + []));
  }

  /** A container whose process ends stays, started but not running; one that was asked to start too late does not come back. */
  lemma EngineActs(w: World, c: Id)
    requires Inv(w)
    ensures c in w.containers ==>
      var v := Apply(w, EngineExit(c));
      v.containers.Keys == w.containers.Keys && v.containers[c] == w.containers[c].(running := false)
    ensures c in w.starting && c !in w.containers ==> Apply(w, EngineStart(c)).containers == w.containers
  {}

  /** A job that is refused before a launch gets a result without a receipt. */
  lemma RefusedIsPublished(w: World, job: string)
    requires w.phase.Serving? && JobName(job) && job !in w.results
    ensures Legal(w, [Refuse(job)] + ([WriteResult] + []))
    ensures var v := Run(w, [Refuse(job)] + ([WriteResult] + []));
      v.phase.Serving? && v.results == w.results + {job} && v.receipts == w.receipts && v.containers == w.containers
  {
    var refused := Apply(w, Refuse(job));
    Then(refused, WriteResult, []);
    Then(w, Refuse(job), [WriteResult] + []);
  }

  /** Unlinking takes the result and its receipt, and leaves the others. */
  lemma UnlinkedIsGone(w: World, job: string, other: string)
    requires w.phase.Serving?
    ensures var v := Apply(w, Unlink(job));
      && job !in v.results && job !in v.receipts && v.phase.Serving?
      && (other != job ==> (other in v.results <==> other in w.results) && (other in v.receipts <==> other in w.receipts))
  {}

  predicate Stopping(s: Step) {
    s.Kill? || s.DeleteBroken? || s.RecoverBroken? || (s.CreateBroken? && !s.survives)
  }

  /** A crash, or a removal that is not acknowledged, ends the process and publishes nothing; a refused request is a failure. */
  lemma FaultsStop(w: World, s: Step)
    requires Inv(w) && Enabled(w, s)
    ensures Stopping(s) ==>
      && Apply(w, s).phase.Down? && Apply(w, s).results == w.results && Apply(w, s).receipts == w.receipts
      && Apply(w, s).containers.Keys <= w.containers.Keys
    ensures s.DeleteBroken? ==> (w.phase.container in Apply(w, s).containers <==>
                                 w.phase.container in w.containers && !s.effective)
    ensures s.RecoverBroken? ==> (s.c in Apply(w, s).containers <==> s.c in w.containers && !s.effective)
    ensures s == CreateBroken(true) ==> Apply(w, s).phase == Publishing(w.phase.job)
  {}

  /** Whatever happened before, a boot that is not disturbed removes every container of the service and serves. */
  lemma BootRecovers(w: World) returns (rest: seq<Step>)
    requires w.phase.Down?
    ensures Legal(w, rest)
    ensures var v := Run(w, rest);
      && v.phase.Serving? && v.containers == w.containers - Listed(w)
      && v.results == w.results && v.receipts == w.receipts
  {
    var booted := Apply(w, Boot);
    rest := ClearsList(booted);
    Then(w, Boot, rest);
    rest := [Boot] + rest;
  }

  lemma {:induction false} ClearsList(w: World) returns (rest: seq<Step>)
    requires w.phase.Recovering?
    ensures Legal(w, rest)
    ensures var v := Run(w, rest);
      && v.phase.Serving? && v.containers == w.containers - w.phase.todo
      && v.results == w.results && v.receipts == w.receipts
    decreases w.phase.todo
  {
    if w.phase.todo == {} {
      Then(w, Recovered, []);
      return [Recovered] + [];
    }
    var c :| c in w.phase.todo;
    rest := ClearsList(Apply(w, RecoverOne(c)));
    Then(w, RecoverOne(c), rest);
    rest := [RecoverOne(c)] + rest;
  }

  /** A launch that failed publishes a result and no receipt; one that is to be replayed publishes nothing. */
  lemma OtherEndings(w: World, job: string, c: Id, ending: Ending)
    requires Inv(w) && w.phase == Removing(job, c, ending) && !ending.Result?
    ensures var v := Apply(w, DeleteReply);
      && v.results == w.results && v.receipts == w.receipts && c !in v.containers
      && (ending.Failure? ==> v.phase.Publishing? && Apply(v, WriteResult).results == w.results + {job}
                              && Apply(v, WriteResult).receipts == w.receipts)
      && (ending.Replay? ==> v.phase.Serving?) && (ending.Fatal? ==> v.phase.Down?)
  {}

  /** Every container the service requests is recognised as its own. */
  lemma RequestedIsOwned(self: string, job: string)
    ensures Owned(self, Requested(self, job)) <==> JobName(job)
  {}

  /** The service never removes a container that does not carry its own labels and name. */
  lemma RemovesOnlyOwned(self: string, run: seq<Step>, s: Step, c: Id)
    requires Legal(Initial(self), run) && Enabled(Run(Initial(self), run), s)
    ensures var w := Run(Initial(self), run);
            c in w.containers && c !in Apply(w, s).containers ==>
              var k := w.containers[c];
              && k.owner == self && k.managed == "1" && JobName(k.job) && ("/ph-" + self + "-" + k.job) in k.names
  {
    RunKeeps(Initial(self), run);
    SelfKept(Initial(self), run);
  }

  lemma {:induction false} SelfKept(w: World, run: seq<Step>)
    requires Legal(w, run)
    ensures Run(w, run).self == w.self
    decreases |run|
  {
    if run != [] { SelfKept(Apply(w, run[0]), run[1..]); }
  }
}
