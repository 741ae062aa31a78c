# Verification of the judging worker

A worker takes jobs from a queue, has the `cxxprobe` engine judge them, and reports
each verdict to a control plane. Queue, artifact store and control plane may all fail,
workers may be killed at any moment, and a submission's verdict must still arrive
exactly as it was first reached. This project models the parts of the worker that
carry that promise, and proves it of the model for every input and every run.

**The lease queue.** `FileNames` is the file-name codec (receive count and due time in a
name). `LeaseQueue` and `LeaseRuns` are the queue one message at a time and over runs.
`LocalQueue` is the spool of files as a class whose methods move files between
directories; `SpoolRefinement` shows a whole `claim` over the files to be a run of the
queue.

**Durable delivery.** `Delivery` has the envelope, the marker, the budgets and the backoff, and
`DeliveryLaws` and `Windows` what they amount to, field by field;
`Storage` the write-once artifact store. `Protocol` puts any number of workers, a queue,
a store, a clock and a control plane together as a transition system: a pass is cut at
every outside call, each call may fail or take effect and still report failure, and a
pass may vanish between any two. An action that does not apply changes nothing, so every
sequence of actions is a run. `Invariants` traces everything in a reachable state to what
it came from; `NothingLost`, `NoRejudging`, `Chains`, `SuccessorTiming`, `BoundedDelivery`,
`PathLength`, `ExecutionBudget`, `RetryBudget` and `FaultsEndToEnd` are the results over runs, and
`SystemQueue` carries the lease queue's laws over to the whole system. `LateSuccessor` and
`DuplicateSource` are two runs that show where a bound ends. `ClaimSteps` and `Worker` bring the code's own
order back: one worker's poll, claim, pass, delivery and report on the file queue and the
artifact store, each shown to be the protocol's steps, so that what holds of every run
holds of this code.

**Verdicts.** `Reports`, `Executor` and `Summary` read a report, classify a run and reduce it
to a verdict; `SummaryLoops` does the same with the loops the code has; `RunEnds` says which
runs are over, `SummaryLaws` what each word of a summary stands for, and `VerdictLaws` what
a verdict means.

**Supporting machines.** `Fleet` and `FleetControl` (placement and size of the fleet),
`PackageCache`, `Supersession` and `Calibration` (benchmarks), `SqsQueue` (tiers).

Some promises in the source hold only under a condition, which is proved with them:

* A successor that is not dead-lettered was decided on in time, but the clock is read
  before the upload. If no delivery takes longer than a limit T (the code has only the
  HTTP client's timeout for one), it falls due less than T after its deadline, and a turn
  being sent is sure to leave it in time exactly when decision, T and backoff together, in
  whole milliseconds, lie before the deadline (`SuccessorTiming.SuccessorsAreInTime`,
  `SuccessorTiming.InTimeExactlyWhen`; one late run from the start is
  `LateSuccessor.ASuccessorCanFallDueLate`).
* A marker reads back as it was written exactly while its round is at most 1000; a
  dead-lettered one may pass that (`Delivery.MarkerRoundTrip`,
  `Delivery.ExhaustedMarkerCanBeUnreadable`).
* The attempt number grows between two receives of a source exactly when the later one
  comes after the receive that saved the callback (`BoundedDelivery.SourceNumberGrows`).
  So a path of receives and successors makes at most the allowed number of uploads, not
  counting those on source receives before that one, which all go out as number 1
  (`BoundedDelivery.PathUploadsAreBounded`); a job published twice makes such a path
  (`DuplicateSource.APathCanExceedItsRounds`).
* `claim` takes the least name. Of two due times the one first in decimal writing comes
  first, which is the earlier one when they have equally many digits
  (`FileNames.DueOrderIsNameOrder`, `FileNames.DueOrderNeedsEqualDigits`).
* A file that does not parse leaves the queue for the dead letters, unless it is not even
  text: that error escapes from `claim`, uncounted, every time its name comes up
  (`LocalQueue.UndecodableIsNeverParked`).
* A callback goes back to the tier its lease names exactly when that name, as it was
  normalised, does not end in a space (or is the main queue's and normalises to nothing);
  otherwise it can reach another tier (`SqsQueue.SqsJobQueue.OwnTierIsTarget`,
  `SqsQueue.ACallbackCanGoAstray`).
* A project run blamed on the submitters is recorded as less than RE exactly when no part
  is as bad, the integration check passed, failed or stayed away, and something was
  judged; then the link was rejected, or a part was blamed on a report that has a
  project's or a benchmark's sections, which its verdict is read from instead
  (`VerdictLaws.BlamedAndRecordedAsLess`, `VerdictLaws.ARejectedLinkCanBeWA`,
  `VerdictLaws.ABlamedPartCanBeAC`).
* A benchmark of an older revision is scored after a newer one only when the newer one was
  recorded between its check and its record, which happens
  (`Supersession.OnlyARaceRecordsLate`, `Supersession.AnOlderResultCanFollow`); and a team's
  starts are spaced on one bencher, not between two (`Supersession.StartsAreSpaced`,
  `Supersession.TwoBenchersCanStartTogether`).

## Model

| member | source | states |
|---|---|---|
| FileNames.ValueOfDecimal | src/cxxprobe_worker/queue.py:230-246 | a count written in decimal reads back as that count |
| FileNames.CodecLaws | src/cxxprobe_worker/queue.py:233-246 | for every name and count: the count written is the count read, the stem is kept, a second count replaces the first |
| FileNames.DueSurvivesCounting | src/cxxprobe_worker/queue.py:131-133 | counting a receive never changes the due time a name carries |
| FileNames.NameOfLaws | src/cxxprobe_worker/queue.py:155-167 | a published stem and its count determine the name and are determined by it |
| FileNames.PublishedOriginLaws | src/cxxprobe_worker/queue.py:111-122 | the name `publish` makes carries exactly the due millisecond and no count |
| FileNames.DueOrderIsNameOrder | src/cxxprobe_worker/queue.py:128-133 | for two due times, name order is the order of their decimal writing whatever the stems and receive counts, and with equally many digits that is due order |
| FileNames.DueOrderNeedsEqualDigits | src/cxxprobe_worker/queue.py:128-133 | without that, a later due time can sort first |
| FileNames.LeastExists | src/cxxprobe_worker/queue.py:128 | every nonempty set of names has a first one in sorted order |
| LeaseRuns.RunKeeps | src/cxxprobe_worker/queue.py:111-224 | conservation: a run adds one message per publication and loses, merges or rewrites none; dead and done messages never move again |
| LeaseRuns.OnlyCompleteRemoves | src/cxxprobe_worker/queue.py:169-174 | a message is removed only by a completion holding its current lease |
| LeaseRuns.DeliveryBudget | src/cxxprobe_worker/queue.py:148-167 | the leases of one publication carry strictly growing counts within the cap, and 1, 2, 3, ... unless a claim was cut off after counting |
| LeaseRuns.LeaseIsExclusive | src/cxxprobe_worker/queue.py:124-210 | until completed, released or expired, a leased message is handed to nobody else |
| LeaseRuns.StaleLeaseIsHarmless | src/cxxprobe_worker/queue.py:169-183 | after a message is received again, its old receipts change nothing for ever |
| LeaseRuns.NeverEarly | src/cxxprobe_worker/queue.py:131-133 | no message is handed out before the millisecond it falls due |
| LocalQueue.LocalJobQueue.Publish | src/cxxprobe_worker/queue.py:111-122 | a file in the right directory is one fresh message; bad tiers and delays are refused |
| LocalQueue.LocalJobQueue.Claim | src/cxxprobe_worker/queue.py:124-167 | lapsed leases come back; candidates are met in name order, passed over, quarantined or stopped at exactly as the code does; where nothing goes wrong the lease is for the first name that waits, parses, has receives left and is due, and there is none exactly when no message is like that |
| LocalQueue.ClaimTakesTheFirst | src/cxxprobe_worker/queue.py:128-167 | and whatever goes wrong, such a message is only gone past if another worker took it or it could not be read |
| LocalQueue.UndecodableIsNeverParked | src/cxxprobe_worker/queue.py:141-146 | a file that is not text is neither parked nor counted: the claim that reaches it ends in an error there and leases nothing after it |
| LocalQueue.LocalJobQueue.NextAttempt | src/cxxprobe_worker/queue.py:148-160 | the receipt of a delivery is a name no other message has, one count above the last |
| LocalQueue.LocalJobQueue.Complete | src/cxxprobe_worker/queue.py:169-174 | unlinking by receipt completes exactly the message the receipt still holds |
| LocalQueue.LocalJobQueue.Release | src/cxxprobe_worker/queue.py:176-183 | renaming back releases exactly the message the receipt still holds |
| LocalQueue.LocalJobQueue.ReclaimExpired | src/cxxprobe_worker/queue.py:195-210 | exactly the expired in-flight messages come back, in whatever order they are met |
| SpoolRefinement.ClaimIsARun | src/cxxprobe_worker/queue.py:124-224 | a claim over the files, with any mixture of faults, is a run of the lease queue handing out at most the lease it answers with |
| Storage.ArtifactStore.DurableWrite | src/cxxprobe_worker/storage.py:70-100 | however the call ends, a file appears whole or not at all, and an exclusive one never replaces another |
| Storage.ArtifactStore.PutImmutable | src/cxxprobe_worker/storage.py:132-138 | nothing stored changes, however the write ends; success means these bytes are there |
| Storage.ArtifactStore.ListPrefix | src/cxxprobe_worker/storage.py:140-155 | the names of one attempt, each once and in order, or an error exactly when there are too many or the directory is unreadable |
| Storage.ListedFirst | src/cxxprobe_worker/delivery.py:92-100 | the first name listed is the one with the least name among all that are stored |
| Delivery.BackoffIsExponential | src/cxxprobe_worker/delivery.py:165 | the delay is min(300, 2^attempt) and always one `publish` accepts |
| DeliveryLaws.BackoffDoublesUpTo | src/cxxprobe_worker/delivery.py:165 | the delay is 1 second for number 0, and doubles until it is 300 |
| DeliveryLaws.SentExactlyWhen | src/cxxprobe_worker/delivery.py:124-154 | in every reachable state a delivery is uploaded exactly when its marker is not exhausted, the deadline lies ahead and its number is within both its rounds and the worker's; the number is the round plus the receives, or counts from the saving receive; only a state out of bounds ends the pass |
| DeliveryLaws.ReplacedBy | src/cxxprobe_worker/delivery.py:164-176 | what replaces a delivery keeps its window and takes its number as round, and is dead for good exactly when it was exhausted, out of time, out of rounds, or would fall due at the deadline or later |
| DeliveryLaws.LoadedExactlyWhen | src/cxxprobe_worker/delivery.py:69-90 | a callback loads exactly when an envelope within its field bounds is stored under this job, in the directory of its attempt, of this very attempt in job, result and payload, and final |
| DeliveryLaws.FoundExactlyWhen | src/cxxprobe_worker/delivery.py:92-100 | a source finds nothing exactly when it has no token or nothing is saved for its attempt, and else the callback of the least name, if at most 32 are saved and that one loads |
| DeliveryLaws.DueAtTheMillisecond | src/cxxprobe_worker/queue.py:118 | what is published is due in the millisecond its delay ends in |
| Windows.WindowsOpenAtTheSave | src/cxxprobe_worker/delivery.py:102-122 | every stored envelope was saved by some step, with the deadline, rounds and tier of that step's clock, worker and message |
| Windows.RecoveryOpensANewWindow | src/cxxprobe_worker/delivery.py:189-226 | recovery publishes one marker of round 0, not exhausted and due at once, for a whole new window from now, exactly when the callback is stored, loads under its own job and the worker may publish; otherwise nothing changes |
| Delivery.PersistedIsLoadable | src/cxxprobe_worker/delivery.py:69-122 | what `persist` writes for a final result of its own job, `load` returns, for the source job and for every marker built from it |
| Delivery.MarkerRoundTrip | src/cxxprobe_worker/delivery.py:124-174 | a successor reads back from its message exactly while its round is within the field's bound |
| Delivery.ExhaustedMarkerCanBeUnreadable | src/cxxprobe_worker/delivery.py:29-37 | a dead-lettered marker can pass the bound |
| Invariants.Reachable | src/cxxprobe_worker/daemon.py:94-219 | in every reachable state every pass, message, upload, artifact and execution rests on a stored envelope, a logged execution or the publication it came from |
| Invariants.RunGrows | src/cxxprobe_worker/storage.py:70-100 | no run forgets a message, an artifact, an accepted callback or a log entry |
| NothingLost.NoVerdictIsLost | src/cxxprobe_worker/daemon.py:129-219 | with the control plane enabled, in every state of every run each publication is in the queue, or a callback of one of its own deliveries arrived, or one of them published a successor of which the same holds in turn; so a removed job's verdict was accepted, or a message in the queue refers to its stored envelope |
| NothingLost.SafeUnderCompletion | src/cxxprobe_worker/delivery.py:178-187 | removing a message whose callback arrived or whose successor is published loses no publication, itself included |
| NoRejudging.NoRejudging | src/cxxprobe_worker/daemon.py:159-198 | once a callback of an attempt is stored, only a pass already under way may still execute it, under any failures and whether saving is on or off |
| NoRejudging.MarkersNeverExecute | src/cxxprobe_worker/daemon.py:170-184 | a marker is never executed, in any configuration |
| NoRejudging.OneEnvelopePerAttempt | src/cxxprobe_worker/delivery.py:92-122 | a single sequential worker stores at most one envelope per attempt token |
| Chains.ReplaysSendWhatIsStored | src/cxxprobe_worker/delivery.py:147-163 | every replay sends the stored payload of its own job attempt, with a number between 1 and the maximum, before the deadline, and never from an exhausted marker |
| Chains.ReplaysAgree | src/cxxprobe_worker/delivery.py:147-163 | two replays of one artifact send the same payload |
| Chains.StoredForGood | src/cxxprobe_worker/storage.py:132-138 | a stored artifact is the same after every further run |
| Chains.SuccessorsContinue | src/cxxprobe_worker/delivery.py:165-187 | a successor keeps identity, artifact, deadline, maximum and tier, its round is its parent's attempt number; marked exhausted it is dead for good, and otherwise its round is below both its maximum and the sending worker's configured one and it reads back as it was written |
| Chains.SuccessorsFallDue | src/cxxprobe_worker/delivery.py:152-186 | a live successor falls due one backoff after it was sent, and sent at once it would have fallen due before the deadline |
| SuccessorTiming.SuccessorsAreInTime | src/cxxprobe_worker/delivery.py:152-186 | over every run whose deliveries take at most T, a live successor is due no later than decision + T + backoff and less than T after its deadline, and before it if that time is, as with more slack than T |
| SuccessorTiming.SomeRunIsLate | src/cxxprobe_worker/delivery.py:152-186 | from every reachable upload some run that keeps to T makes the live successor due at exactly that latest time |
| SuccessorTiming.InTimeExactlyWhen | src/cxxprobe_worker/delivery.py:152-186 | all live successors of a turn being sent, in all runs that keep to T, are due before their deadline if and only if the latest due time is |
| LateSuccessor.ASuccessorCanFallDueLate | src/cxxprobe_worker/delivery.py:152-186 | one run, from submission to publication, whose live successor falls due a second after its deadline |
| Chains.ChainKeepsItsWindow | src/cxxprobe_worker/delivery.py:124-187 | along a whole chain identity, artifact, deadline, maximum and tier stay the same until an explicit recovery |
| BoundedDelivery.EachLeaseSendsOnce | src/cxxprobe_worker/delivery.py:147-187 | in every run a lease sends at most one callback |
| BoundedDelivery.RanksGrow | src/cxxprobe_worker/delivery.py:147-176 | along every path of receives and successors the rank strictly grows |
| BoundedDelivery.SourceNumberGrows | src/cxxprobe_worker/delivery.py:124-150 | between receives of a source the attempt number grows exactly when the later one follows the saving receive |
| BoundedDelivery.PathUploadsAreBounded | src/cxxprobe_worker/delivery.py:147-187 | forks included, a path's uploads are at most min(marker's rounds, workers' configured rounds), plus those on source receives before the saving one, which are all number 1 and fewer than the receives it took to save |
| BoundedDelivery.CeilingOfTheFleet | src/cxxprobe_worker/delivery.py:150 | where every worker is configured for at most so many rounds, that is the bound of every path |
| PathLength.PathsAreFinite | src/cxxprobe_worker/delivery.py:147-187 | a path of counted receives is no longer than the delivery cap plus the rounds allowed plus the receives it took to save, less two: every chain of deliveries ends |
| PathLength.ClaimsAreReceived | src/cxxprobe_worker/queue.py:157-167 | the receive of every pass ever started has been counted |
| DuplicateSource.APathCanExceedItsRounds | src/cxxprobe_worker/delivery.py:124-150 | one run, from the first of two submissions, with two uploads on a path that is allowed one |
| Executor.CheckParts | src/cxxprobe_worker/executor.py:422-450 | a project job is accepted exactly when its parts and fallbacks together are the declared parts, and each of the four refusals is given exactly when it applies first |
| VerdictLaws.SummaryIsWellCounted | src/cxxprobe_worker/control_plane.py:454-567 | cases are numbered 1..n and the passed count is the number that passed |
| SummaryLaws.VerdictsAreOrdered | src/cxxprobe_worker/control_plane.py:23-34 | AC, WA, RE, OLE, MLE, TLE, CE, SE in this order, an unknown word counting as AC |
| SummaryLaws.WorstIsTheFirst | src/cxxprobe_worker/control_plane.py:78-81 | the worst of some verdicts is the first of greatest rank |
| SummaryLaws.CasesSayWhatHappened | src/cxxprobe_worker/control_plane.py:143-237 | each manual case carries its own word or SE, each behaviour case is AC unless it failed and WA if it did, each rule AC if satisfied and WA if not, in this order; `passed` is how many say AC and `total` how many there are |
| SummaryLaws.VerdictIsTheWorst | src/cxxprobe_worker/control_plane.py:505-567 | a report's verdict is RE if a check broke down, else the worst word a case was judged by, else the engine's own |
| SummaryLaws.AcceptedExactlyWhen | src/cxxprobe_worker/control_plane.py:505-567 | a submission is accepted exactly when nothing broke down and every judged case passed, or none was judged and the engine says PASS |
| SummaryLaws.CustomRunsCountTheJudged | src/cxxprobe_worker/control_plane.py:84-140 | a custom run's verdict is the worst of the cases that have one, AC when none has, and only those count |
| SummaryLaws.ThePlainOnes | src/cxxprobe_worker/control_plane.py:422-512 | a signal is RE, no report SE, a refused build CE, and a benchmark AC, SE or WA for OK, NOISY or anything else |
| SummaryLaws.IntegrationIs | src/cxxprobe_worker/control_plane.py:256-278 | the integration check's verdict: none if it did not run, AC, WA, CE if parts would not build or link, RE if what was linked died, else SE |
| SummaryLaws.PartsAre | src/cxxprobe_worker/control_plane.py:281-419 | a project records each well-formed label exactly as its last entry says, and no other |
| SummaryLaws.PartCasesAre | src/cxxprobe_worker/control_plane.py:281-419 | the cases of a judged part stand behind those of earlier ones, under its label, numbered on, otherwise as in its own report |
| SummaryLaws.AllCasesAreOfParts | src/cxxprobe_worker/control_plane.py:281-419 | a project has as many cases as its judged parts together, so no others |
| SummaryLaws.BlameIs | src/cxxprobe_worker/control_plane.py:281-419 | a declared part is blamed exactly for the failing integration cases that name it and for a source that would not build; it fails if blamed or not AC; the project fails as a whole exactly when the check went wrong and no part fails |
| VerdictLaws.ProjectVerdictIsJoin | src/cxxprobe_worker/control_plane.py:281-419 | the project verdict is contributed by a judged part or the integration and has the greatest rank of all that are, SE when there is none |
| VerdictLaws.ProjectPassedIsSum | src/cxxprobe_worker/control_plane.py:281-419 | the passed count is the sum over judged entries |
| VerdictLaws.AttributionIsExact | src/cxxprobe_worker/control_plane.py:354-372 | a case is pinned on a part exactly when it failed and names that declared part, and left unattributed exactly when it names none |
| VerdictLaws.ProjectBlameIsComplete | src/cxxprobe_worker/control_plane.py:354-372 | every failing case is unattributed or pinned on a declared part |
| VerdictLaws.ProjectFailureBlamesNobody | src/cxxprobe_worker/control_plane.py:398-419 | a project failure holds only when no part is blamed by a verdict, a case or a build |
| VerdictLaws.FaultsAreNotConfused | src/cxxprobe_worker/executor.py:994-1161 | whatever the report holds, a machine fault is retried or recorded as SE, a submission fault ends at once, as exactly CE or RE when its report is an ordinary one or a signal says so, and only machine faults with a delivery left are retried |
| VerdictLaws.SignalsAreRuntimeErrors | src/cxxprobe_worker/executor.py:994-1161 | a problem or project run killed by a submission's signal is recorded as RE at once, whatever its report holds |
| VerdictLaws.RetryableIsNeverCharged | src/cxxprobe_worker/daemon.py:94-127 | a retryable outcome of any kind of job is passed on as it is while a delivery is left, and then recorded as SE without a report |
| RunEnds.EndsExactlyWhen | src/cxxprobe_worker/executor.py:994-1161 | for problems and projects, from exit code and report: succeeded, failed or to be retried, with the compile steps, broken checks, last part reports, link and suite that end a run written out |
| RunEnds.BlamedExactly | src/cxxprobe_worker/executor.py:183-206 | a project run is the submitters' doing exactly when a part's last report was refused by the compiler or broke down, the linker refused the parts, or the linked suite died |
| RunEnds.LabelsAre | src/cxxprobe_worker/jobs.py:24 | a label is 1 to 64 letters, digits, dashes and underscores, and starts with a letter or a digit |
| VerdictLaws.ProjectFaultIsRecorded | src/cxxprobe_worker/control_plane.py:281-419 | for every project, the recorded verdict is RE or worse exactly when a part is, the integration went wrong, or nothing was judged; a part blamed on an ordinary report and a crashed suite each see to it |
| VerdictLaws.BlamedAndRecordedAsLess | src/cxxprobe_worker/executor.py:183-206 | a run blamed on the submitters is recorded as less than RE exactly when no part is as bad, the integration did not go wrong and something was judged, and only for a rejected link or a part blamed on a report of another shape |
| VerdictLaws.ABlamedPartCanBeAC | src/cxxprobe_worker/executor.py:183-206 | such a part exists: it does not compile, its report also has a benchmark's section that says OK, and the summary says AC |
| VerdictLaws.ARejectedLinkCanBeWA | src/cxxprobe_worker/executor.py:183-206 | a rejected link is a failure for the executor and can be WA in the summary |
| SummaryLoops.SummariseReport | src/cxxprobe_worker/control_plane.py:454-567 | the code's loops, in mutual recursion with the project's, compute the summary the laws are about |
| SummaryLoops.SummariseProject | src/cxxprobe_worker/control_plane.py:281-419 | the growing lists and dictionaries end as the project summary |
| SummaryLoops.AttributeCases | src/cxxprobe_worker/control_plane.py:354-369 | the attribution loop computes the attribution the laws are about |
| Reports.CollectCompileFailures | src/cxxprobe_worker/project_report.py:74-84 | the loop collects exactly the well-formed labels whose source did not build |
| FaultsEndToEnd.CallbacksBlameTheRightSide | src/cxxprobe_worker/daemon.py:94-157 | every callback ever sent, direct or replayed, reports a logged execution; for every kind of job a retryable one says SE, failed and without a report; for problems and projects a run that is over says what its report does, any other SE, and a submission's signal RE; for problem jobs a machine fault says SE whatever the report, and a submission fault CE or RE as it was |
| SystemQueue.SystemRunsTheQueue | src/cxxprobe_worker/queue.py:111-224 | every run of the whole system is, for its queue, a run of the lease queue, with the same messages and with the leases of the passes started as the leases handed out |
| SystemQueue.ClaimedExactlyWhen | src/cxxprobe_worker/queue.py:124-167 | a claim takes effect exactly when the message waits, parses, has receives left and its due millisecond has come; it counts the receive, stamps it and starts a pass on it, and otherwise nothing changes |
| SystemQueue.HolderIsAlone | src/cxxprobe_worker/queue.py:124-210 | in the whole system a leased message stays as it is exactly as long as its holder does not complete or release it and no lapsed lease is reclaimed, and meanwhile no claim of it takes effect |
| SystemQueue.ReceivesAreNumbered | src/cxxprobe_worker/queue.py:148-167 | the passes over one message carry strictly growing counts within the cap, whichever workers they go to |
| SystemQueue.LeasesWithinTheCap | src/cxxprobe_worker/queue.py:148-156 | no lease in the system carries a count below one or above the cap |
| ExecutionBudget.ExecutionsAreBounded | src/cxxprobe_worker/daemon.py:159-219 | over any run with any failures one published message is executed at most as often as the cap |
| ExecutionBudget.OnlyOwnRole | src/cxxprobe_worker/daemon.py:221-241 | over any run a benchmark is only executed by a bencher, and nothing else is |
| RetryBudget.EveryRunKeepsTheBudget | src/cxxprobe_worker/daemon.py:94-157 | a tokenless job that every attempt would retry, while its own passes run to their end and their calls get through, and whatever else goes on: never dead, at most one report and none before the last delivery; gone, it was released cap - 1 times and reported once by a failed execution without a report, as SE |
| FaultsEndToEnd.AttemptsFinish | src/cxxprobe_worker/daemon.py:94-157 | and it can be gone: attempt after attempt, its deliveries are used up and it is removed |
| ClaimSteps.RunMapped | src/cxxprobe_worker/queue.py:124-167 | a claim's run of the lease queue is a run of the protocol, and its lease a new pass |
| Worker.Worker.Submit | src/cxxprobe_worker/queue.py:111-122 | a job published on the worker's queue is one fresh message and one step of the protocol |
| Worker.Worker.LookUp | src/cxxprobe_worker/daemon.py:159-187 | exactly the step the protocol takes: a marker is loaded and never judged, a saved callback is found before judging, and an error ends the pass |
| Worker.Worker.Find | src/cxxprobe_worker/delivery.py:92-100 | the listing and load find the first saved callback of the attempt, nothing, or an error |
| Worker.Worker.GiveUpIfLastDelivery | src/cxxprobe_worker/daemon.py:94-127 | a result changes exactly when it is retryable on the last delivery, into a failure without a report whose callback says SE; it stays retryable exactly before that |
| Worker.Worker.Save | src/cxxprobe_worker/delivery.py:102-122 | persisting is one step of the protocol, and the envelope is in the store exactly when the write took effect |
| Worker.Worker.Deliver | src/cxxprobe_worker/delivery.py:147-187 | the whole trace of a delivery: upload exactly if there is a turn left to send, publish the successor exactly unless that was acknowledged, complete exactly unless that publication failed, in that order |
| Worker.Worker.HandleResult | src/cxxprobe_worker/daemon.py:129-157 | the verdict goes out before the message is removed; it is put back exactly when it is to be retried or could not be sent |
| Worker.Worker.Recover | src/cxxprobe_worker/delivery.py:189-226 | recovering one exact artifact is one step of the protocol, and answers with a round-0 window exactly when the artifact loads and, but for a dry run, its publication is acknowledged; a dry run changes nothing |
| Worker.Worker.ProcessLease | src/cxxprobe_worker/daemon.py:159-219 | the whole trace of a pass over files and store, by how its lookup and its judging end: delivered, judged and saved, judged and reported, put back, or cut off by an error, each a run of the protocol by this worker |
| Worker.Worker.RunOne | src/cxxprobe_worker/daemon.py:221-271 | the same whatever the role: a lease for the wrong one goes straight back untouched, and that is its whole trace |
| Worker.Worker.Poll | src/cxxprobe_worker/daemon.py:295-349 | a turn of the poll loop is a clock tick, a claim answered as the queue answers it, and the whole pass for what it gives; nothing happens exactly when the worker has its fill or is unhealthy |
| Worker.AloneSavesOnce | src/cxxprobe_worker/daemon.py:159-198 | the files of a worker that served alone hold at most one envelope per attempt |
| Worker.AloneLosesNothing | src/cxxprobe_worker/daemon.py:129-219 | and each publication it was given is in its queue, delivered, or lives on in a successor |
| Fleet.Spread | deploy/judge_fleet.py:207-227 | the loops end within every cap, with the sum asked for or all there is, at one level, the last partial round going to the largest caps first, and never by running out of progress |
| Fleet.PlacementIsUnique | deploy/judge_fleet.py:207-227 | there is only one such placement |
| FleetControl.Controller.Step | deploy/judge_fleet.py:464-503 | unless the step makes the fleet wait, the target is the least number of instances that covers the jobs waiting and those in flight, or the ceiling if less; if it does, the present size; a plan applied places exactly that many, and dry runs count but apply nothing |
| FleetControl.TargetIsLeastCover | deploy/judge_fleet.py:464-492 | so the sizes reaching the target are those that cover both loads or are no less than the ceiling |
| FleetControl.ShrinksExactlyWhen | deploy/judge_fleet.py:469-485 | a step wants to shrink exactly when there is no room for the present size or one instance fewer would cover its jobs |
| FleetControl.GrowsAtOnce | deploy/judge_fleet.py:464-492 | growing is immediate, and what is in flight fits the target unless there is no room |
| FleetControl.ShrinksOnTheThird | deploy/judge_fleet.py:479-492 | the size goes down exactly at every third step in a row that wants it down |
| FleetControl.CeilDivIsLeast | deploy/judge_fleet.py:469-473 | the rounded-up quotient is the least number of instances that covers the load |
| PackageCache.Cache.Fresh | src/cxxprobe_worker/packages.py:101-110 | an entry is served exactly when it is there and not expired |
| PackageCache.Cache.Prune | src/cxxprobe_worker/packages.py:175-190 | exactly the expired entries that can be deleted go, and are counted |
| PackageCache.Cache.Evict | src/cxxprobe_worker/packages.py:132-173 | after expiry, the entry just stored goes exactly if it could not fit alone, the others are the shortest sufficient run of the oldest, and the count is exact |
| PackageCache.Cache.Store | src/cxxprobe_worker/packages.py:112-130 | with deletions working, the stored entry survives exactly when it is unexpired and fits alone |
| PackageCache.OversizedPushesNobody | src/cxxprobe_worker/packages.py:152-155 | an oversized entry pushes out nobody who would otherwise have stayed |
| PackageCache.VictimsAreUnique | src/cxxprobe_worker/packages.py:132-165 | the bound, the order and keeping what fits decide who leaves |
| PackageCache.OldestLeaveFirst | src/cxxprobe_worker/packages.py:152-165 | who is pushed out is no younger than who stays; of the same age the smaller goes first, and of the same size the first by name |
| PackageCache.NobodyLeavesInVain | src/cxxprobe_worker/packages.py:152-165 | with the last of those pushed out still there, the bound would be exceeded |
| Supersession.ClearedExactlyWhen | src/cxxprobe_worker/bench.py:70-99 | over every run, a job may start exactly when it was never cancelled, no newer revision of its team has been recorded and every start of its team lies the interval back; otherwise the first reason that applies is given, with the largest revision or the time since the last start |
| Supersession.CheckDecides | src/cxxprobe_worker/bench.py:101-105 | after its run a job is let through exactly when no newer revision of its team has been recorded |
| Supersession.NothingOutdatedIsScored | src/cxxprobe_worker/executor.py:902-909 | over every run, each job scored or recorded was checked after it ran, when no newer revision of its team was recorded |
| Supersession.OnlyARaceRecordsLate | src/cxxprobe_worker/bench.py:14-24 | an older revision is recorded after a newer one only when the newer one was recorded after the older one's check |
| Supersession.AnOlderResultCanFollow | src/cxxprobe_worker/bench.py:22-24 | one run in which that happens |
| Supersession.LatestNeverDecreases | src/cxxprobe_worker/bench.py:107-117 | a team's marker never goes down and is the largest revision recorded |
| Supersession.StartsAreSpaced | src/cxxprobe_worker/bench.py:70-99 | on one bencher two starts of a team are at least the interval apart, whatever others do |
| Supersession.TwoBenchersCanStartTogether | src/cxxprobe_worker/bench.py:20-22 | between two benchers the interval is not kept |
| Calibration.Calibrator.HealthyToClaim | src/cxxprobe_worker/daemon.py:242-255 | under a calibration that passed, is young enough, has carried few enough timed jobs and saw no drift since, a claim is made and nothing is run; otherwise one calibration is run and decides; the baseline once set stays |
| Calibration.Interpret | src/cxxprobe_worker/executor.py:864-926 | status, recorded revision and calibrator events of a benchmark; a superseded one fails, records nothing and only counts as a timed job, its drift ignored |
| Calibration.DriftBlocksUntilCalibrated | src/cxxprobe_worker/executor.py:915-926 | after a drift the machine is covered exactly when the events since cover it on their own, whatever came before, so only after a calibration that passed since |
| SqsQueue.SqsJobQueue.Open | src/cxxprobe_worker/aws/queue.py:40-67 | a queue opens exactly when its dead letters are none of the polled tiers |
| SqsQueue.NormalIs | src/cxxprobe_worker/aws/queue.py:50-57 | a queue name is kept without the spaces at its ends, and then without the slashes at its right end |
| SqsQueue.SqsJobQueue.Claim | src/cxxprobe_worker/aws/queue.py:104-175 | the fast lane before the main queue before the backlog: the first that is not quiet gives the lease or, if unreachable, ends the claim; poison is deleted and skipped |
| SqsQueue.SqsJobQueue.PollsByName | src/cxxprobe_worker/aws/queue.py:104-140 | the requests of a whole round, with the long poll for the first tier unless there is a fast lane |
| SqsQueue.SqsJobQueue.Publish | src/cxxprobe_worker/aws/queue.py:83-102 | at most one message is sent, with an accepted delay, to a polled tier or, dead-lettered, to the dead letters and never to both; nothing is sent exactly when it is refused, for one reason each |
| SqsQueue.SqsJobQueue.DeadLettersAreNeverPolled | src/cxxprobe_worker/aws/queue.py:62-67 | whatever the service answers, no request of a claim touches the dead letters |
| SqsQueue.SqsJobQueue.OwnTierIsTarget | src/cxxprobe_worker/aws/queue.py:86-102 | what is published for the tier a lease names is meant for that same queue exactly when the name does not end in a space, or is the main queue's and normalises to nothing |
| SqsQueue.ACallbackCanGoAstray | src/cxxprobe_worker/aws/queue.py:83-102 | otherwise it can be accepted and sent to another tier |
| SqsQueue.ASpaceBeforeTheSlash | src/cxxprobe_worker/aws/queue.py:52-60 | such a name exists: normalising a space before a slash twice is not normalising it once |
| SqsQueue.BackoffDoubles | src/cxxprobe_worker/aws/queue.py:207-214 | the release delay doubles from 2 to 300 seconds and is the callback delay of the same attempt |

## Left out

- Worker.Worker.Poll: one pass at a time; other workers' steps between its calls are covered by the runs of `Protocol`, not by these methods, and the thread pool, signals and sleeping are left out; a claim that meets a file that is not text ends the code's loop, here only the turn.
- Storage.ArtifactStore.DurableWrite: a process killed inside a write is no outcome of the method; in the protocol it is a write that took effect or did not, in a pass that then vanishes, and the temporary file it may leave is not modelled.
- LocalQueue.LocalJobQueue.Claim: a claim is one atomic step with one clock reading; a reclaim by another worker between the counting rename and the touch (queue.py:160-163) is not modelled, and conservation does not extend to it.
- NothingLost.NoVerdictIsLost: a worker whose control plane is disabled completes messages without reporting, as the code means it to; nothing is promised of its jobs.
- PackageCache.Cache.Evict: an entry the system refuses to delete is still counted as gone from the total, as in the code, so the bound on what is left assumes deletions work; `.part` files left by a crash are ordinary entries.
- FleetControl.Controller.Step: quotients are exact, where the code divides floats; a step whose reads fail changes nothing and is not a step here.
- Calibration.Calibrator.Calibrate: a passing report is assumed to carry its median.
- SqsQueue.SqsJobQueue.Claim: the service's answers are given by a function of the tier; visibility, redrive and duplicate delivery belong to the service.
- Assumptions: the clock does not go backwards; uuid and time-of-day names are fresh; encoding to JSON and decoding are inverse; SHA-256 is injective, so a digest stands for what it digests; the daemon's delivery cap is the queue's.
- `str.isdigit` and `strip` are modelled on ASCII text.
- The protocol's queue has one receive count per message; a dead-letter redrive by hand, which may reset it, is not modelled.
- HTTP, boto3, subprocesses and the AWS command line: each call is a step that succeeds or fails.
- Registration, heartbeat, health file, metrics and logging: visibility only.
- Configuration loading, workspace staging, zip and YAML reading: file handling with little state.
- Text fields (diagnostics, messages, truncation to fixed lengths), runtimes and memory figures: carried as given or not at all.
- `run_once`, which does not catch unexpected errors, is `Poll` without that branch.
- The S3 store: the file store stands for both.
