# Verified model of PCAP Hunter's offline agent-job path, evidence store and bounded algorithms

PCAP Hunter turns packet captures into cases, analyses and evidence. Agents submit captures through an API;
a broker hands each capture to a supervisor that parses it in a private container; the result is collected,
saved as an analysis and frozen as a content-addressed evidence snapshot. This project models that path, the
tables behind it, and the self-contained algorithms whose bounds the rest of the program relies on.

| module | what it models |
|---|---|
| `Options` | values that may be absent |
| `Tables` | what is left of a table after rows went |
| `JsonText` | JSON documents as concrete syntax (RFC 8259), and the canonical printer as a layout of JSON values |
| `JsonGrammar` | how far the bytes of a document determine it |
| `JsonReading` | reading canonical text back |
| `BoundedJson` | the one-pass byte scanner that bounds worker output before it is decoded |
| `JsonEncodings` | the encodings a JSON decoder detects, and for which of them that scan bounds what is decoded |
| `StdoutFrames` | the container-stdout frame decoder, against an encoder |
| `Utf8` | the UTF-8 length of text (RFC 3629) |
| `DetectorParts` | splitting large detector values into parts with JSON Pointer locators (RFC 6901) |
| `DetectorRecovery` | how much of a value its parts determine, as they are stored |
| `JobTable` | the conditional and unconditional writes to the jobs table, as methods on a repository object |
| `JobProtocol` | queue workers, report jobs, broker, canceller, recovery, garbage collection and deletion as interleaved steps, and what every run keeps |
| `JobVerdicts` | which verdicts are final, what recovery would have to make sure of, and the runs in which it does not |
| `JobReports` | when a report job gives an agent job's analysis another content |
| `JobCollection` | collecting an agent job's output, stopped anywhere and repeated |
| `JobCancellation` | what an accepted cancellation does to every later run |
| `JobRemoval` | what deletion, garbage collection and the sweep of orphans take |
| `Supervisor` | the container lifecycle, with crashes, lost replies and requests still in flight |
| `EvidenceStore` | snapshots, records, the triggers that guard them, what other clients' statements can do to them, saving, capturing and deleting |
| `EvidencePaging` | bounded queries and cursors over a snapshot |
| `Submission` | idempotent capture submission, daily quotas, retained uploads |
| `RateLimiter` | the sliding one-minute window |
| `UsageTracker` | in-memory counting, concurrent flushes, and the daily and running totals |
| `ContextWindow` | prompt budgets and the binary search that cuts the middle of a text |
| `FlowTable` | the packet-to-flow aggregation loop with its index, and the metrics read off it |
| `DnsIndex` | the base-domain index against a full scan, for fast flux and tunneling |
| `Correlation` | the composite score with floors and cap, and its verdict |

How the pieces are modelled:

- SQL tables are maps and sets; a transaction is one step, or one method that leaves the tables alone when it aborts.
  Triggers are guards on delete and update. Objects the program updates in place are classes whose methods are
  proved against functions of the old state; the theorems are about those functions.
- Concurrency is interleaving: every actor's step is enabled or not in one shared state, and the main results hold
  in the state after every legal run. Invariants are kept by each step (`RunKeeps`) and hold where the runs start: the
  theorems that begin at an empty database or at `Initial` are proved through them, so a lemma that requires `Inv` or
  `Consistent` speaks about every reachable state.
- SHA-256 digests are injective names of what they cover. A signed cursor either decodes to what was encoded or does
  not verify. Random identifiers do not repeat. Clocks do not run backwards. One supervisor process runs at a time,
  and an acknowledged removal has removed the container.
- Case folding (`lower`, `upper`) and number parsing in `DnsIndex` and `FlowTable` are parameters about which nothing is assumed.

Where the code does not do what its surroundings suggest, the exact condition is proved:

- The scan before decoding reads bytes, but the decoder detects UTF-16 and UTF-32 as well. It bounds what is decoded
  from an encoding exactly when that is UTF-8 (`BoundsExactly`). In any other, a byte of the letter U+2200 is a
  quote to the scan, which takes what follows for a string; so there is accepted text of any depth (`WideIsDeep`) and of
  any number of values (`WideIsBroad`), also within the size of an output file (`WideFitsTheFile`).
- Verdicts of jobs that the queue runs are not final, because recovery fails what it once found stale without looking
  again. They are final over every run in which recovery fails a job only while it has not ended otherwise and no
  worker holds it (`VerdictIsFinal`). Failing it is safe exactly when it has not ended otherwise and whoever holds it can
  only fail, because it has just claimed a report job whose analysis is gone for good (`RecoveryIsSafeExactly`):
  otherwise the verdict changes at once, with its result erased, or when the worker finishes (`UnguardedChanges`). Both
  happen, in `PacketVerdictChanges` (the worker is alive and finishes after the failure) and in `DoneVerdictErased` (it
  finishes between the scan and the failure). For agent jobs nothing has to be made sure of (`AgentVerdictIsFinal`).
- An agent job's analysis can have several snapshots: one names its collected output, every other a report
  (`OneOutputEver`, `TwoSnapshots`). It was captured with one content only exactly when no report job saved another
  content than it had read (`OneContentExactly`), and that can happen to every such analysis (`ReportAddsSnapshot`).
- The triggers do not stop another client's REPLACE, for which SQLite fires delete triggers only with the
  `recursive_triggers` pragma: it overwrites any record of a live case (`ReplaceOverwrites`). A snapshot keeps what it
  has over a run exactly when no REPLACE without the pragma meets other content under its keys
  (`SnapshotsAreImmutable`, `RecursiveTriggersSuffice`). Nothing stops an insert at a free place of a snapshot
  (`StatementSpares`).
- The parts of a large array and of the object keyed by its positions are the same (`ArrayLooksLikeObject`). A value is
  determined by its parts exactly when the splitter meets no such array or object (`DeterminedExactly`).
- A failed commit leaves the uploaded file without a job, because it is marked as retained before the commit; over any
  run those are all the files without one (`OrphansAreFailedCommits`).
- Deleting a case deletes its retry row, so the daily quota reopens (`DeletionReopensTheQuota`): a new key is refused
  exactly when the day's captures that are still there fill the quota (`RefusedExactlyWhenFull`), and what was created
  on a day is bounded by the quota and what was deleted of it (`CreatedWithinQuotaAndDeleted`).
- `flush` counts a batch twice when the last-used write fails after the increment was committed (`CountsAreKept`).
- `_truncate_middle` compares the budget with its marker before it looks at the text, so a prompt that fits can still
  lose its user part (`UnchangedExactly`, `FittingPromptIsCut`).
- Bases built from a two-part suffix, such as name.co.uk, are looked up in an index that only has two-label keys, so
  the tunneling detector sees none of their subdomains (`TunnelingIsExact`, `GroupedBaseIsIndexed`; the inputs are in
  `TwoPartSuffixIsMissed` and `NameCoUkIsMissed`). A single-label name that resolves is not judged for fast flux
  (`FastFluxIsExact`, `SingleLabelIsMissed`).
- A single signal reaches 0.55 at most (`AloneAtFullStrength`), where the comment at app/analysis/correlation.py:220
  expects about 0.95.
- With calls at most d seconds out of order the limiter's window bounds the grants of an interval exactly when that is at
  most 60 - d seconds wide, or, under a limit of one, at most 60 (`HoldsExactly`, `DisorderBreaks`).

## Model

| member | source | states |
|---|---|---|
| JsonText.LayoutValid | app/agents/registry.py:16-17 | The canonical printer's output is a well-formed JSON document for every printable value |
| JsonText.LayoutMeasures | app/agents/registry.py:16-17 | Printing keeps nesting and complexity: the document's height and its containers plus commas are those of the value |
| JsonGrammar.TextIsUnique | app/agents/spool.py:57-60 | A byte string is the text of at most one JSON document, with blanks after an opening bracket counted to the first member |
| JsonGrammar.SameTextExactly | app/agents/spool.py:57-60 | Two documents have the same bytes exactly when they are the same up to where such blanks are counted |
| JsonGrammar.ValuesAdd | app/agents/spool.py:32-55 | Each member of a group adds the values it holds to those a decoder builds |
| JsonGrammar.Signs | app/agents/spool.py:32-55 | The structural bytes are the signs of RFC 8259 (section 2) |
| JsonReading.LayoutReads | app/agents/registry.py:16-17 | A value is read back from its canonical text, integers, escapes, arrays and objects alike, with the fields of its objects in the order of their keys |
| JsonReading.TextReads | app/agents/registry.py:16-17 | Every string is read back from its escaped text, surrogate pairs included |
| JsonReading.ShortForms | app/agents/registry.py:16-17 | Printable ASCII stands for itself, quote, backslash and five control characters have one-letter escapes, and all others are written in hexadecimal |
| JsonReading.CanonicalIsInjective | app/agents/registry.py:16-17 | Values with the same canonical bytes are the same up to the order of fields, so the digest of those bytes tells them apart |
| JsonReading.BeforeExactly | app/agents/registry.py:16-17 | Keys are ordered by their first difference in code points, a prefix before what it begins |
| JsonReading.FieldsAscend | app/agents/registry.py:16-17 | The printed fields of an object stand in ascending order of their keys |
| JsonReading.FieldsKept | app/agents/registry.py:16-17 | And they are its fields, each as often as before |
| BoundedJson.ScanOfDocument | app/agents/spool.py:32-55 | On the UTF-8 text of any JSON document the scan ends unquoted at depth 0, and accepts exactly when nesting is at most 64 and containers plus commas are at most 1,000,000 |
| JsonEncodings.ScanOfUtf8 | app/agents/spool.py:32-60 | The same for whatever the decoder reads from bytes it detects as UTF-8, with or without a mark |
| JsonEncodings.AcceptedIsSmall | app/agents/spool.py:32-60 | Accepted bytes detected as UTF-8 decode to at most 1,000,001 values nested at most 64 deep |
| JsonEncodings.BoundsExactly | app/agents/spool.py:32-60 | The scan bounds everything that is decoded from an encoding exactly when that encoding is UTF-8 |
| JsonEncodings.HiddenIsAccepted | app/agents/spool.py:35-43 | In every other encoding, an array of the string U+2200 and of any values written with brackets and commas only is accepted |
| JsonEncodings.WideIsDeep | app/agents/spool.py:32-60 | In every other encoding there is accepted text nested deeper than any number |
| JsonEncodings.WideIsBroad | app/agents/spool.py:32-60 | And accepted text of any number of values, of three characters each |
| JsonEncodings.WideFitsTheFile | app/agents/spool.py:155-159 | Also within the 32 MiB an output file may have, with more than twice the values the scan is to allow |
| BoundedJson.ScanOfCanonical | app/agents/spool.py:32-55 | What the canonical printer prints is accepted exactly when the printed value keeps both limits |
| BoundedJson.Scanned | app/agents/spool.py:32-55 | The scanning loop computes exactly the state machine the theorems are about, on any bytes |
| StdoutFrames.StreamInjective | app/agents/supervisor.py:116-127 | A byte string is the framing of at most one list of chunks |
| StdoutFrames.DecodeStdout | app/agents/supervisor.py:116-127 | Decoding succeeds exactly on framings of at most `maximum` payload bytes, and then returns their concatenation; the offset strictly grows |
| StdoutFrames.NextFrame | app/agents/supervisor.py:120-126 | A longer stream has a whole frame at the next offset, so every refusal is justified |
| DetectorParts.EscapeRoundTrip | app/agents/evidence.py:37 | An escaped key has no slash and unescapes to the key |
| DetectorParts.UnescapeRoundTrip | app/agents/evidence.py:37 | Every valid reference token without a slash is the escape of what it stands for |
| DetectorParts.PartsFaithful | app/agents/evidence.py:27-52 | Resolving a part's locator gives the part itself, within 128 KiB, or the string it is a numbered fragment of |
| DetectorParts.LocatorComplete | app/agents/evidence.py:42-50 | A locator carries one whole part, or all fragments of its string in order, which concatenate to it |
| DetectorParts.FragmentBytes | app/agents/evidence.py:43-45 | No fragment is empty or exceeds 64 KiB of UTF-8 |
| DetectorParts.LeafCovered | app/agents/evidence.py:27-52 | Every leaf lies under the locator of some part |
| DetectorParts.CoverUnique | app/agents/evidence.py:27-52 | No leaf lies under two different locators |
| DetectorParts.RefusedExactly | app/agents/evidence.py:51-52 | Splitting fails exactly when the value contains an oversized scalar that is not a string |
| DetectorParts.FaithfulAndCovering | app/agents/evidence.py:27-52 | Of one split value: every part is what stands at its locator, every locator is complete, every leaf lies under exactly one locator |
| DetectorRecovery.RecoverableExactly | app/agents/evidence.py:27-52 | Two values leave the same stored parts exactly when they are equal up to large arrays standing for large objects keyed by the same positions |
| DetectorRecovery.DeterminedExactly | app/agents/evidence.py:27-52 | No other value leaves the stored parts of a value exactly when splitting it meets no large array and no object keyed "0" to "n-1" in order whose array is large too |
| DetectorRecovery.StoredDetermines | app/agents/evidence.py:42-50 | Fragments need no tag: a plain object stored for one is never the whole part of another value at the same locators |
| DetectorRecovery.KindsRecoverTheRest | app/agents/evidence.py:27-52 | Such values are equal once it is known which containers are arrays, so a client that knows gets the value back |
| DetectorRecovery.ArrayLooksLikeObject | app/agents/evidence.py:34-41 | Every large array and the object keyed by its positions leave the same records, though they are different values |
| DetectorRecovery.LongArrayIsLarge | app/agents/evidence.py:33 | Every array of at least 131,072 values is large |
| JobTable.Repository.CreateJob | app/database/repository.py:909-940 | A job row is inserted, or nothing changes when the identifier exists |
| JobTable.Repository.StartJobIfQueued | app/database/repository.py:1010-1022 | The claim succeeds exactly on a queued row, which is then running with everything else kept; every other row stays |
| JobTable.Repository.CancelJobIfQueued | app/database/repository.py:1024-1036 | The cancel succeeds exactly on a queued row, which is then cancelled without a result; every other row stays, and nothing changes otherwise |
| JobTable.Repository.CompleteJob | app/database/repository.py:1038-1057 | The row is done with its result, unconditionally or only if it was active; every other row stays |
| JobTable.Repository.UpdateJobStatus | app/database/repository.py:982-1008 | The status is overwritten whatever it was, and a terminal one replaces the result |
| JobTable.Repository.FailIfActive | app/agents/spool.py:104-111 | An active job is failed with its result kept; a concurrent cancellation stays |
| JobTable.Repository.CancelByAgent | app/agents/routes.py:353-372 | Accepted exactly for queued, running and already cancelled jobs; the job is then cancelled with its result, case and kind kept, and every other row stays; a refused call changes nothing |
| JobProtocol.StepKeeps | app/api/queue.py:526-653 | Every step of every actor keeps the invariant on identities, evidence and collection |
| JobProtocol.RunKeeps | app/agents/spool.py:114-225 | So does every run |
| JobProtocol.DoneHasEvidence | app/api/queue.py:486-589 | In every reachable state a job marked done, be it a packet, report or agent job, has a committed analysis of its case with a captured snapshot, also after deletions and garbage collection; an agent job's is its own, with its collected output among the snapshots |
| JobProtocol.OneOutputEver | app/agents/spool.py:188-213 | However often collection was interrupted and repeated and reports regenerated, at most one snapshot of an agent job's analysis names an output, its own; every other one is a report's |
| JobReports.OneContentExactly | app/api/queue.py:486-523 | Over every run, all contents ever captured of an agent job's analysis are equal exactly when no report job saved another content than it had read |
| JobReports.ReportAddsSnapshot | app/api/queue.py:486-523 | From every reachable state with the analysis there, steps of one report job end with two of its snapshots |
| JobReports.TwoSnapshots | app/api/queue.py:486-523 | A run from nothing that ends with two snapshots of one agent job's analysis |
| JobVerdicts.VerdictIsFinal | app/api/queue.py:640-653 | Over every run in which recovery fails a job only while it has not ended otherwise and no worker holds it, a terminal status, and a result that is done, never changes again |
| JobVerdicts.RecoveryIsSafeExactly | app/api/queue.py:640-653 | Failing a stale job leaves every decision before and after it standing exactly when the job has not ended otherwise and every worker that holds it has only claimed a report job whose analysis is gone for good |
| JobVerdicts.LostForGood | app/api/queue.py:490-493 | An analysis that is gone, that no report job has read, and whose agent job neither is being collected nor can be, never comes back |
| JobVerdicts.UnguardedChanges | app/database/repository.py:982-1008 | Otherwise the verdict changes: at once from done or cancelled to failed, or to done by steps that end with the worker that holds the job |
| JobVerdicts.HolderFinishes | app/api/queue.py:555-589 | A worker that holds a job, with the analysis it needs there, can mark it done by its own steps alone, whatever status the row has been given meanwhile |
| JobVerdicts.PacketVerdictChanges | app/api/queue.py:640-653 | A run in which recovery fails a job whose worker is alive and then marks it done |
| JobVerdicts.DoneVerdictErased | app/api/queue.py:642-651 | A run in which a job is found stale, finishes, and is then failed with its result erased |
| JobVerdicts.AgentVerdictIsFinal | app/agents/spool.py:104-111 | Under every interleaving the terminal status of an agent job never changes again |
| JobVerdicts.NeverRequeued | app/database/repository.py:1010-1022 | No step makes an issued job queued again |
| JobVerdicts.ClaimedAtMostOnce | app/api/queue.py:551-553 | However often it is dispatched, a job is claimed from queued at most once |
| JobVerdicts.GuardedDoneAtMostOnce | app/api/queue.py:584-589 | A job whose recoveries meet the condition moves to done at most once |
| JobVerdicts.DoneAtMostOnce | app/agents/spool.py:214-220 | So does every agent job, unconditionally |
| JobCancellation.AgentCancelIsFinal | app/agents/routes.py:353-372 | Once an active agent job was cancelled from any reachable state, it is cancelled whenever its row exists and never done, whatever is collected meanwhile |
| JobCancellation.UserCancelIsFinal | app/database/repository.py:1024-1036 | The same of any queued job over every run from nothing, because no worker holds it and no recovery found it stale |
| JobCancellation.CancelledIsSkipped | app/api/queue.py:544-547 | A job cancelled before its worker looks at it is let go of unclaimed |
| JobCollection.CollectOnce | app/agents/spool.py:144-222 | One uninterrupted collection leaves one analysis row, the snapshot of that output as the only one besides reports, and the job done |
| JobCollection.CollectStopped | app/agents/spool.py:144-222 | Stopped after any step, either the final database is there already or collecting again is possible from the same rows |
| JobCollection.CollectionIsRestartable | app/agents/spool.py:144-222 | Any sequence of interrupted attempts, once one has written the job row, ends in the database of one uninterrupted collection |
| JobCollection.HeartbeatStarts | app/agents/spool.py:127-143 | A heartbeat marks an active agent job running and a lost input marks it failed; its result, case and kind and every other row stay |
| JobCollection.RejectFails | app/agents/spool.py:163-225 | A refused output fails its job without evidence, takes its input copy and changes nothing else |
| JobCollection.RemoveClears | app/agents/spool.py:221-222 | The input copy goes last, with that job's alone |
| JobCollection.AcknowledgeClears | app/agents/spool.py:147-152 | The output of a cancelled job takes that job's input copy and changes nothing else |
| JobCollection.UnpublishedIsNotRead | app/agents/supervisor.py:328-332 | A withdrawn output can neither be collected nor acknowledged |
| JobRemoval.CaseDeletionIsExact | app/database/repository.py:361-409 | A deleted case takes its jobs, analyses and snapshots, nothing of another case, and no input copy, output or worker |
| JobRemoval.GarbageIsEnded | app/api/gc.py:74-86 | Only jobs that have ended are collected, and what they produced stays |
| JobRemoval.OrphansAreExact | app/api/gc.py:88-122 | In every reachable state the sweep drops exactly the jobs and analyses of missing cases |
| JobRemoval.ClearedIsEmpty | app/database/repository.py:411-434 | Clearing leaves no row in any table, and identifiers stay issued |
| Supervisor.ResultMeansStopped | app/agents/supervisor.py:290-327 | Through crashes, lost replies and restarts: while a job's result is published none of its containers is started, nor can a request still on its way start one |
| Supervisor.OneContainerAtATime | app/agents/supervisor.py:225-333 | At most one started job container exists at any time |
| Supervisor.ReceiptMeansRemoved | app/agents/supervisor.py:278-295 | Over every run, an isolation receipt names a container that was made for its own job and is gone |
| Supervisor.ResultIsDelivered | app/agents/supervisor.py:278-323 | From every reachable state in which a parse has ended well, the acknowledged removal and the two writes end with the job's result published and its receipt naming this container, which is gone |
| Supervisor.ParsedHasReceipt | app/agents/supervisor.py:278-323 | Over every run, a published result whose launch ended with result bytes has its receipt until it is unlinked |
| Supervisor.PublishedStays | app/agents/supervisor.py:308-333 | Nothing but its unlinking touches a published result or the receipt beside it, through any crashes and restarts |
| Supervisor.JobIsDelivered | app/agents/supervisor.py:298-323 | From every reachable serving state a well-named waiting job, whose container name is free, can be run in a container of its own and delivered |
| Supervisor.OtherEndings | app/agents/supervisor.py:258-295 | A failed launch publishes a result and no receipt, an interrupted one publishes nothing, a removal in doubt ends the process |
| Supervisor.RefusedIsPublished | app/agents/supervisor.py:310-325 | A job that cannot be launched gets a result without a receipt, and no container |
| Supervisor.FaultsStop | app/agents/supervisor.py:290-295 | A crash or an unacknowledged removal ends the process and publishes nothing |
| Supervisor.BootRecovers | app/agents/supervisor.py:225-229 | Whatever happened before, an undisturbed boot removes every owned container, leaves results and receipts alone, and serves |
| Supervisor.StartedRuns | app/agents/supervisor.py:256-257 | While a launch is watched its container runs, with the name and labels of its job |
| Supervisor.CreatedIsHeld | app/agents/supervisor.py:248-254 | The container a launch goes on to hold is the one the engine made for its own request |
| Supervisor.UnlinkedIsGone | app/agents/supervisor.py:328-332 | Unlinking takes a result and its receipt and leaves those of other jobs |
| Supervisor.EngineActs | app/agents/supervisor.py:264-268 | A container whose process ends stays, not running any more; a start that comes after the removal has no effect |
| Supervisor.NamesExactly | app/agents/supervisor.py:214-223 | A job name is the prefix j_ and sixteen lower-case hexadecimal digits, and nothing else |
| Supervisor.NamesAreOwn | app/agents/supervisor.py:217 | No two jobs of a service share a container name |
| Supervisor.RequestedIsOwned | app/agents/supervisor.py:214-223 | Containers created for well-formed job names, and only those, are recognised as owned |
| Supervisor.RemovesOnlyOwned | app/agents/supervisor.py:225-229 | The service only ever removes containers that carry its owner label, the managed label, a well-formed job name and the container name built from both |
| EvidenceStore.Repository.SaveAnalysis | app/database/repository.py:445-538 | After one transaction the indicators of the analysis are exactly those given and all others as before, its row says its case, the snapshot of this content is there with all rows of both kinds, new or as before, and every other table is unchanged |
| EvidenceStore.SaveReplaces | app/database/repository.py:492-534 | The same of the saving step of every run |
| EvidenceStore.CaptureSnaps | app/agents/evidence.py:206-246 | A capture adds the snapshot of its content, last in order, with the rows of both kinds at their positions, and nothing when it is there already |
| EvidenceStore.Repository.InsertRows | app/agents/evidence.py:218-245 | The rows of one kind are inserted at consecutive positions |
| EvidenceStore.Repository.DeleteCase | app/database/repository.py:361-409 | The statement order passes every trigger, and the result is the database without the case |
| EvidenceStore.ReachableIsConsistent | app/agents/evidence.py:209-246 | In every database the program can produce a snapshot's rows are exactly the content its digest names, and no row is without its snapshot |
| EvidenceStore.RunGoesOn | app/database/repository.py:361-538 | A run takes its transactions one after the other |
| EvidenceStore.ActsGoOn | app/agents/evidence.py:105-126 | So does one of transactions and foreign statements together |
| EvidenceStore.SnapshotsAreImmutable | app/agents/evidence.py:105-126 | While its case row exists, a snapshot keeps its manifest and every record at every step of a run exactly when no REPLACE rewrites it, over the program's transactions and any other client's deletes, updates, inserts and REPLACEs on the two evidence tables |
| EvidenceStore.RecursiveTriggersSuffice | app/agents/evidence.py:105-126 | With `recursive_triggers` on every connection that replaces, no statement of a run rewrites a snapshot |
| EvidenceStore.ReplaceOverwrites | app/agents/evidence.py:118-124 | Without it a REPLACE at its place overwrites any record of a live case; with it the statement aborts |
| EvidenceStore.SnapshotStays | app/agents/evidence.py:105-126 | A snapshot that no statement rewrites or adds to is the same after the run, no more and no less |
| EvidenceStore.StatementSpares | app/agents/evidence.py:105-126 | What one foreign statement does to a live snapshot: it keeps its rows exactly unless it is a REPLACE without the pragma on other content under its keys, and is the same exactly if no row is inserted at a free place either |
| EvidenceStore.DeletesExactly | app/agents/evidence.py:105-126 | Deletes on the evidence tables are stopped exactly when they meet a row of a case that is there; otherwise exactly the rows they name go |
| EvidenceStore.UpdatesExactly | app/agents/evidence.py:105-126 | An update of evidence meets no row or is stopped, so none ever changes one |
| EvidenceStore.SnapshotInserts | app/agents/evidence.py:84-104 | A snapshot is inserted exactly where there is none of its key, last in order |
| EvidenceStore.RecordInserts | app/agents/evidence.py:84-104 | A record is inserted exactly where its place and that of its identifier are free |
| EvidenceStore.SnapshotReplaces | app/agents/evidence.py:105-126 | A REPLACE of a snapshot is stopped exactly where the pragma makes it delete a live one; otherwise its row stands, as the last |
| EvidenceStore.RecordReplaces | app/agents/evidence.py:105-126 | A REPLACE of a record is stopped exactly where the pragma makes it delete a live one; otherwise its row stands and those it met are gone |
| EvidenceStore.CaseRowMustGoFirst | app/database/repository.py:394-400 | Purging evidence before the case row would abort exactly when there is evidence |
| EvidenceStore.DeletionIsExact | app/database/repository.py:383-402 | Nothing of the case is left in the nine tables `delete_case` touches, and every other row of them stays as it was |
| EvidenceStore.KeptInOrder | app/database/repository.py:396-400 | The snapshots a deletion leaves keep their order |
| EvidenceStore.AddedStays | app/database/repository.py:361-409 | Tags, jobs and notes put on a case stay on it until that case is deleted, whatever else is saved, deleted or dropped |
| EvidenceStore.OrphansAreExact | app/api/gc.py:88-122 | Dropping orphans takes exactly the analyses, indicators, notes, tags and jobs that hang on a missing case |
| EvidencePaging.Query | app/agents/evidence.py:266-368 | Filters that are too long, times that cannot be read or do not apply, bad ranges and cursors are refused without effect; otherwise the reply is that of the pinned snapshot, or busy when it was found but the time ran out |
| EvidencePaging.ReadFilters | app/agents/evidence.py:280-293 | The loops over the filters read exactly the filters that bind a cursor: empty ones dropped, each at most 512 characters, the protocol in upper case, times only for flows |
| EvidencePaging.ParsedExactly | app/agents/evidence.py:280-293 | Filters are refused exactly for a value over 512 characters or a time that cannot be read or is asked of rows without one; empty ones are none, and only the protocol and the times are changed |
| EvidencePaging.AnswersExactly | app/agents/evidence.py:266-313 | A request is unprocessable exactly for its limit, its times, a cursor not given out for it or a snapshot that contradicts the cursor, and not found exactly when the snapshot it names or pins is not stored; refusals leave the database alone |
| EvidencePaging.FindManifest | app/agents/evidence.py:248-260 | The named snapshot, the latest one, or one captured on demand |
| EvidencePaging.LatestExactly | app/agents/evidence.py:255 | The snapshot read by default is the one captured last of the analysis: no later one is of it; there is none exactly when the analysis has none |
| EvidencePaging.CapturedIsRead | app/agents/evidence.py:248-260 | After a save or capture of content that was not stored yet, a request that names no snapshot reads that new one; after a capture of known content it reads what it read before |
| EvidencePaging.FiltersNarrow | app/agents/evidence.py:269-277 | Each filter tests its own column and narrows what the others leave; without any, every row matches |
| EvidencePaging.TakeFitting | app/agents/evidence.py:323-330 | The loop takes the longest prefix within 1 MiB and refuses exactly an oversized first row |
| EvidencePaging.MatchingIsContent | app/agents/evidence.py:315-322 | A query selects the named rows that match, in position order, each once |
| EvidencePaging.FilteredInOrder | app/agents/evidence.py:315-322 | The matching rows are each row's own answer, in the order of the rows |
| EvidencePaging.PageIsBounded | app/agents/evidence.py:323-340 | Each page has at most `limit` rows and 1 MiB, is as full as these bounds allow, moves strictly forward, and its cursor names the next offset |
| EvidencePaging.VisitsAgree | app/agents/evidence.py:307-316 | Every page of one traversal sees the same matching rows, whatever is saved, captured, deleted or attempted in between while the case stays and no foreign statement rewrites or adds to the snapshot |
| EvidencePaging.CursorIsAccepted | app/agents/evidence.py:296-313 | A cursor that was given out is accepted for the same request, and reads on in its snapshot at its offset |
| EvidencePaging.FollowIsPages | app/agents/evidence.py:296-341 | Following the cursors through whole requests reads the pages of one snapshot from the first cursor's offset on |
| EvidencePaging.PagingIsComplete | app/agents/evidence.py:266-363 | Starting without a cursor and following those handed out, with any limits and any such transactions in between, returns exactly the matching rows of the named, latest or newly captured snapshot in order, each once; it is refused instead exactly when one row alone exceeds 1 MiB |
| Submission.Registry.Submit | app/agents/submission.py:20-111 | A refused or replayed call leaves database and files alone; a committed one leaves the case, its queued job with its uploaded file, and the grant, and dispatches the job; a replay dispatches its job exactly while that still waits |
| Submission.AnswersExactly | app/agents/submission.py:20-89 | Each refusal, the replay and the commit, each exactly under its own condition: a call commits exactly with the permission, one clean capture and a well-formed key that is new, within budget and queue, and with an agent neither revoked nor expired when it is looked at |
| Submission.KeysAreWords | app/agents/routes.py:321-325 | Keys are the words of 8 to 128 characters over letters, digits and _ . : - |
| Submission.Registry.Transact | app/agents/submission.py:62-100 | The inserts are rolled back together on a refusal or a failed commit |
| Submission.ReadCapture | app/agents/submission.py:43-53 | The reading loop accepts exactly content within the maximum whose first chunk has a capture's magic, and keeps it whole |
| Submission.ConcatIsFlat | app/agents/submission.py:43-53 | The content kept is the chunks end to end |
| Submission.RunKeeps | app/agents/submission.py:64-97 | Every run of submissions, drafts, deletions, revocations and sweeps keeps rows, cases, jobs, grants, quotas and uploads in step |
| Submission.OneCasePerKey | app/agents/registry.py:173-185 | Per agent and idempotency key at most one live case, with its one job and upload, granted to the agent |
| Submission.ReplayForever | app/agents/submission.py:64-65 | While the case is kept, the same digest gets the stored response and creates nothing; another digest or operation is refused |
| Submission.LiveWithinQuota | app/agents/submission.py:66-72 | At every moment an agent's live captures of one day are within its quota, also when a call straddles midnight |
| Submission.RefusedExactlyWhenFull | app/agents/submission.py:66-70 | In every reachable state a new key is refused for its budget exactly when the agent's live captures of that day reach the quota |
| Submission.CreatedWithinQuotaAndDeleted | app/agents/submission.py:66-72 | Over any run, the captures ever created on a day are at most the quota plus those of them whose case was deleted |
| Submission.CreatedWithinQuota | app/agents/submission.py:66-72 | In particular at most the quota when nothing is deleted |
| Submission.QueueWithinDepth | app/agents/submission.py:71-73 | Over any run of submissions and whatever else, active jobs stay within the depth the submissions are given |
| Submission.RevokedCreatesNothing | app/agents/submission.py:84-88 | From the moment it is revoked, an agent creates nothing more in any run |
| Submission.ExpiredCreatesNothing | app/agents/submission.py:84-88 | Nor does one whose key has expired |
| Submission.PowerlessCreatesNothing | app/agents/submission.py:23 | Nor one that was never given the submit permission |
| Submission.CreatedKeyCounts | app/agents/submission.py:20-89 | A new agent's first call with room in the queue commits exactly when its key may submit, is not revoked, has not expired and has a quota |
| Submission.DraftIsRemembered | app/agents/routes.py:337-350 | A draft is stored once: the same call is answered with it, and every other call under its key, draft or capture, is refused |
| Submission.MoveMakesRoom | app/agents/submission.py:71-73 | A job that ends takes one from the queue's count, one that starts does not, and it stays the job it was |
| Submission.DeletionIsExact | app/database/repository.py:383-402 | A deletion takes the case, its jobs, notes and retry rows, and no others |
| Submission.SweepTakesOnly | app/api/gc.py:48-86 | A sweep takes the ended jobs and the files it names and nothing else |
| Submission.ClearedIsEmpty | app/database/repository.py:411-434 | Nothing of a cleared registry is left but the keys, and they reach no case any more |
| Submission.DeletionReopensTheQuota | app/database/repository.py:401 | Submit, delete, submit makes two captures on one day under a quota of one |
| Submission.DeletionFreesItsRow | app/database/repository.py:401 | Deleting a case takes exactly its row out of the day's count |
| Submission.UploadsAccounted | app/agents/submission.py:106-110 | Every file there is belongs to one created job or one failed commit |
| Submission.OrphansAreFailedCommits | app/agents/submission.py:97-110 | Over any run the files without a created job are exactly those of the failed commits that were not swept |
| RateLimiter.Limiter.Check | app/api/rate_limiter.py:22-48 | The decision and the new window are those of the sliding-window function, and other keys are untouched |
| RateLimiter.Limiter.Reset | app/api/rate_limiter.py:50-53 | Forgets one key only |
| RateLimiter.HoldsExactly | app/api/rate_limiter.py:33-48 | Every history at most d seconds out of order keeps every closed interval of a width within the limit exactly when the width is at most 60 - d, or at most 60 under a limit of one (or negative) |
| RateLimiter.LimitHoldsUnderSkew | app/api/rate_limiter.py:33-48 | Calls at most d seconds out of order leave no closed interval of 60 - d seconds with more grants than the limit |
| RateLimiter.LimitHolds | app/api/rate_limiter.py:33-48 | So with calls in order no closed interval of 60 seconds holds more |
| RateLimiter.DisorderBreaks | app/api/rate_limiter.py:36-47 | For any limit of two or more and any wider interval there is such a history with more grants: the limit's calls, one that empties the window, and one that comes late |
| RateLimiter.SinglesSpaced | app/api/rate_limiter.py:36-47 | Under a limit of one grants are more than a minute apart in any order |
| RateLimiter.RetryAdvice | app/api/rate_limiter.py:43-45 | After a refusal, with no grant in between, a call after the advised wait is granted and one more than a second earlier is not |
| RateLimiter.KeysAreIndependent | app/api/rate_limiter.py:37-48 | The windows of one key after any interleaving are those of its own calls |
| UsageTracker.SumUpdate | app/api/key_repository.py:270-284 | Writing one daily row changes the sum of the rows by the difference |
| UsageTracker.StepConserves | app/api/usage_tracker.py:36-78 | Each step of recording, taking, writing, failing and restoring keeps the count accounted for |
| UsageTracker.CountsAreKept | app/api/usage_tracker.py:26-78 | Stored, pending and in-flight counts never fall below the recorded ones; equality exactly when no last-used write failed after a committed increment; running totals equal the daily sums |
| UsageTracker.RowsAreOfTakenDays | app/api/usage_tracker.py:36-68 | Whatever fails and is tried again, requests are only counted on days for which a batch was taken |
| UsageTracker.AddedKeysHaveTotals | app/api/key_repository.py:276-284 | Over any run the keys with a running total are exactly those added |
| UsageTracker.AttemptSettles | app/api/usage_tracker.py:51-68 | Every attempt takes its key off the batch, and a count that was not written whole waits to be put back |
| UsageTracker.LaterIsLatest | app/api/usage_tracker.py:70-78 | Of two uses of a key the later one is kept, and no key is lost |
| UsageTracker.KeyRepository.IncrementUsage | app/api/key_repository.py:259-284 | The count of that key and day and the key's total grow by the amount, if it has one; no other day, key or total changes |
| UsageTracker.KeyRepository.TouchKeyLastUsed | app/api/key_repository.py:288-308 | The use time of an existing key is replaced, and nothing else changes |
| UsageTracker.Tracker.Record | app/api/usage_tracker.py:26-34 | One more request, last used now |
| UsageTracker.Tracker.Take | app/api/usage_tracker.py:45-49 | The whole of both maps leaves memory at once |
| UsageTracker.Tracker.Restore | app/api/usage_tracker.py:70-78 | Failed counts are added back and the later use time is kept |
| UsageTracker.Tracker.Flush | app/api/usage_tracker.py:36-78 | After one flush, per key and fault: exactly the failed counts and use times are in memory again, only the given day's rows and the totals have grown, by what was delivered, and exactly the delivered keys have their use times stored |
| UsageTracker.Tracker.WriteAll | app/api/usage_tracker.py:51-68 | The loop writes each key once and gives back exactly the counts and times of those that failed |
| ContextWindow.Normalized | app/llm/context_window.py:47-53 | A value within the supported range is kept, one outside becomes the nearer end, and one that is not a number the default |
| ContextWindow.OutputBudget | app/llm/context_window.py:62-69 | The request is granted whole when it fits beside the input budget, else exactly the rest of the window; at least one token is granted |
| ContextWindow.Estimate | app/llm/context_window.py:72-81 | The estimate is the least number of three-byte tokens that covers the text |
| ContextWindow.Head | app/llm/context_window.py:138-142 | Seven tenths of what is kept, rounded up, stand at the head |
| ContextWindow.CandidateMonotone | app/llm/context_window.py:138-142 | Keeping more of a text never makes a smaller candidate, so the binary search is sound |
| ContextWindow.Search | app/llm/context_window.py:135-148 | The search keeps the largest head-and-tail split that fits |
| ContextWindow.TruncateMiddle | app/llm/context_window.py:129-148 | The text itself, the largest split that fits, or the placeholder |
| ContextWindow.TruncationKeepsMost | app/llm/context_window.py:135-148 | A cut text fits its budget, and with one more character kept it would not |
| ContextWindow.FittedIsSmall | app/llm/context_window.py:164-177 | The fitted prompt's estimate is at most half the window, whatever the two texts are |
| ContextWindow.UnchangedExactly | app/llm/context_window.py:164-185 | A prompt is left alone exactly when it fits and leaves room for the marker, or its user part is the placeholder already |
| ContextWindow.FittingPromptIsCut | app/llm/context_window.py:131-134 | A prompt that fits and still loses its user part |
| ContextWindow.FitPrompt | app/llm/context_window.py:151-185 | In unlimited mode the prompt unchanged; otherwise cut within half the window, with the flag telling exactly whether it was cut |
| FlowTable.StepKeeps | app/pipeline/pyshark_pass.py:125-158 | One packet keeps index, order, completeness and every flow's summary |
| FlowTable.AfterIsAggregated | app/pipeline/pyshark_pass.py:59-158 | After any packets, keys and positions are in bijection, flows stand in order of arrival, counts and bytes are true and samples are the first 5000 in order |
| FlowTable.Aggregate | app/pipeline/pyshark_pass.py:66-158 | The loop builds that table from the accepted packets before the packet limit and the first malformed number |
| FlowTable.Pass | app/pipeline/pyshark_pass.py:66-158 | The same with the reading of one line of fields |
| FlowTable.ReadBack | app/pipeline/pyshark_pass.py:86-129 | A packet is read back from its line of fields, over either address family and transport, with the outermost of several addresses and the innermost protocol |
| FlowTable.ReadExactly | app/pipeline/pyshark_pass.py:85-133 | Short lines and lines without an address are skipped, an unreadable number ends the pass, every other line is counted with what is missing as zero or empty |
| FlowTable.FlowsPartition | app/pipeline/pyshark_pass.py:125-156 | Any measure summed over the flows is that measure summed over the packets |
| FlowTable.MetricsAreTrue | app/analysis/visibility.py:55-67 | Parsed packets, total bytes and the number of sampled flows are the true ones, however many samples were dropped |
| DnsIndex.InBucketExactly | app/pipeline/dns_analysis.py:771-777 | A record stands in a bucket exactly when the key has two labels and the name is that domain or lies below it |
| DnsIndex.BuildIndex | app/pipeline/dns_analysis.py:771-777 | One pass builds every bucket, in record order |
| DnsIndex.FastFluxIsExact | app/pipeline/dns_analysis.py:443-447 | Judging from the bucket is judging from all records, exactly except for a single label that resolves |
| DnsIndex.SubdomainsAreExact | app/pipeline/dns_analysis.py:327-354 | The subdomain list from the bucket is that of the full scan exactly when the base has two labels or there are none |
| DnsIndex.TunnelingIsExact | app/pipeline/dns_analysis.py:327-366 | Count, distinct count, longest and total length agree for such bases, and are all zero against a positive count for any other |
| DnsIndex.TwoPartSuffixIsMissed | app/pipeline/dns_analysis.py:187-206 | Any subdomain of a name under a short two-part suffix is grouped with that name, counted in the full scan and not through the index |
| DnsIndex.NameCoUkIsMissed | app/pipeline/dns_analysis.py:187-206 | As for a.name.co.uk |
| DnsIndex.SingleLabelIsMissed | app/pipeline/dns_analysis.py:443-447 | A single label that resolves has its answers in all records and none in its bucket |
| DnsIndex.VolumeIsExact | app/pipeline/dns_analysis.py:329-334 | The query volume agrees exactly when every record ending with the base is of it or below it, and it has two labels |
| DnsIndex.CollectSubdomains | app/pipeline/dns_analysis.py:350-355 | The loop collects the part before the base, in record order |
| DnsIndex.SubdomainsAreParts | app/pipeline/dns_analysis.py:350-355 | A part is listed exactly when it, a dot and the base make a query, one for each such record |
| DnsIndex.GroupedBaseIsIndexed | app/pipeline/dns_analysis.py:187-206 | A grouped base has a bucket key exactly when it was not built from a two-part suffix |
| DnsIndex.GroupedUnderBase | app/pipeline/dns_analysis.py:744-750 | A domain is grouped under itself or a name it lies below |
| Correlation.ComputeComposite | app/analysis/correlation.py:201-235 | The loops compute product, floors and cap of the composite |
| Correlation.CompositeBounds | app/analysis/correlation.py:201-235 | The composite lies in [0,1] |
| Correlation.OrderDoesNotMatter | app/analysis/correlation.py:215-235 | Reports with the same signals in any order score the same |
| Correlation.MoreNeverLowers | app/analysis/correlation.py:215-235 | One more signal anywhere never lowers the composite |
| Correlation.StrongerNeverLowers | app/analysis/correlation.py:215-235 | Nor does a higher score for one signal |
| Correlation.ContextIsNeverHigh | app/analysis/correlation.py:229-233 | Contextual signals alone never reach "high" |
| Correlation.FloorHolds | app/analysis/correlation.py:195-198 | A VirusTotal signal of one half is at least "high" in any company, and a GreyNoise one at least "medium" |
| Correlation.AloneIsHighExactly | app/analysis/correlation.py:187-189 | A single signal reaches "high" exactly when it is a VirusTotal one of at least one half |
| Correlation.AloneAtFullStrength | app/analysis/correlation.py:18-32 | What each single signal reaches at full strength: VirusTotal 0.55, every other less, by the table of weights, floors and the cap |
| Correlation.Corroboration | app/analysis/correlation.py:215-222 | Two sets of findings with a behavioural signal each and no floor among them combine as independent evidence: the complement of the joint score is the product of the complements |
| Correlation.VerdictOf | app/analysis/correlation.py:74-78 | "High" or above exactly from 0.55, "low" exactly below 0.35 |

## Left out

- BoundedJson.ScanOfDocument: is about UTF-8 text, the only encoding RFC 8259 (section 8.1) allows between systems; `JsonEncodings` covers the others.
- JsonEncodings.WideIsDeep: the decoder has a recursion limit of its own, which is not modelled; `WideIsBroad` stays at depth two.
- JSON decoding itself, the refusal of non-finite numbers, and symbolic-link and file checks of the spool (app/agents/spool.py:57-90).
- JsonReading.LayoutReads: the digits of floating-point numbers are carried as given, so it is about values whose fractional numbers are written with a fraction or an exponent, as Python writes them; integers have their digits.
- DetectorRecovery.RecoverableExactly: is about values with their fields in a fixed order, as canonical text sorts them; the order fields had before is not kept.
- EvidenceStore.SnapshotsAreImmutable: a record's identifier is a function of its place and content and has no field of its own; a foreign row that takes another row's identifier names that row's place (`twin`). The collision of a later insert of the program with rows that a foreign statement left behind is not modelled, nor are foreign statements on other tables.
- EvidenceStore.DeletionIsExact: the grants in `agent_keys.cases` and the audit rows keep the identifier of a deleted case; grants are in `Submission`.
- The assembly of evidence rows and manifests in `capture`, and `safe_data`: the rows captured are parameters.
- EvidencePaging.Query: that the three-second budget ran out is a parameter, and so are the reading of times and upper-casing; an unknown filter name cannot be expressed. Snapshots are ordered by capture, as their timestamps are when the clock does not run backwards.
- JobProtocol.DoneHasEvidence: does not cover job rows without a case; no caller creates them, and their evidence would be refused, because a snapshot's case may not be null (app/agents/evidence.py:91).
- JobReports.ReportAddsSnapshot: a report job may be queued for any analysis whose name was issued, also one that was never saved.
- Heartbeats and staleness: which running jobs a recovery finds stale is arbitrary, and so is when input folders and outputs appear.
- The contents of job specifications, container limits, timeouts and the Docker transport: starting, inspecting, reading and removing are steps that may fail, be lost or arrive late.
- Submission.Registry.Submit: the upload slot and the HTTP details of the form are left out (the request's field `clean` says the call carries the capture and nothing else); the principal's quota is read from its key row, which nothing updates. Reading the capture is `ReadCapture`.
- Submission.QueueWithinDepth: the queue is also filled by the browser's own submissions, whose depth check is not part of it.
- The minute and day request counters of `authenticate`, the audit table and token hashing: they would add only easy members.
- Drafts are modelled as far as they share the retry table with submissions; note text is not.
- UsageTracker.CountsAreKept: counts held in memory when the process exits are lost and not part of the model.
- RateLimiter.LimitHolds: for one limit per key; administrators changing a key's limit between calls is not part of it. Seconds are reals.
- ContextWindow.FitPrompt: a window that `int` refuses is one value; the head's share 0.7 is the fraction 7/10. Evidence row limits (app/llm/context_window.py:89-126) are not modelled.
- FlowTable.Pass: starts at lines split into fields and models a user's skip as the end of the lines; address and MAC sets, progress and the tshark process are not modelled. Times are reals.
- DnsIndex.TunnelingIsExact: the measures behind the scores are compared, not the scores; thresholds, beaconing and DGA statistics are floating-point heuristics.
- Correlation.CompositeBounds: scores and weights are reals; collecting the signals from the modules is not modelled.
- OSINT, language-model clients, report rendering, the user interface, Zeek, YARA and TLS extraction.
