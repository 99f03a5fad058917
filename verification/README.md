# Verified model of the release test library

The repository is an end-to-end test library for OpenShift Pipelines. Most of it drives clusters, but a
few parts carry logic that every test relies on: undoing what a test changed on shared clusters, deciding
from polls that a run executed on exactly one spoke, patching a shared configuration without losing
anything, and caches and counters that have to agree with what they stand for. This project models those
parts in Dafny and proves what they promise, for all inputs and all runs.

API servers, GitHub and OLM are modelled as state that other actors keep changing between any two calls.
Every call may fail, and a call that changes something may take effect and still report an error (deletions that
a rollback or the hooks only log, and the making of an empty group, either work or do nothing). What a poll sees, how
often it is repeated and when it gives up are arbitrary.

| file | what it models |
|---|---|
| `Clusters.dfy`, `CleanupLog.dfy`, `Records.dfy`, `Environment.dfy`, `Workload.dfy`, `Lifecycle.dfy` | the multi-cluster environment: `Setup`, `Execute` and `Cleanup` over one hub and any number of spokes, with a stack of compensations, and the laws of its history |
| `Scheduler.dfy` | the field-by-field three-way merge that restores a shared scheduler section |
| `Frameworks.dfy` | the PipelineRun entry in the framework lists of a shared Kueue object |
| `Hooks.dfy`, `GitHubProject.dfy`, `Bootstrap.dfy` | the namespace-per-container manager, the GitHub project with deferred rollback, the operator bootstrap |
| `Json.dfy`, `JsonText.dfy`, `Strings.dfy` | JSON documents, merge patches (section 2 of RFC 7396), patch operations (sections 4.1 and 4.2 of RFC 6902), JSON text with its parser (RFC 8259), and Go's string functions |
| `NetworkPolicy.dfy`, `Retention.dfy`, `PrunerPatch.dfy` | the functions that print patches, from the text to its effect on any document |
| `LoginCache.dfy`, `ApprovalGate.dfy`, `Command.dfy` | the login cache with its marks, approval counting, connection flags |
| `Wrappers.dfy` | result types |

How the main results fit together:

- `KueueEnvironment.Environment.InvFor` holds between any two calls: every object the run made and that still
  exists has a pending cleanup of its own or of its namespace; the history tells of exactly what the run did to
  existing objects (deletions, bindings stripped, updates of Kueue objects and scheduler sections, each kind in order
  and with the values they replaced) as the clusters recorded it (`FleetRecords.ChangesIn`), and has the id of every confirmed
  create; and every event of the history obeyed its law at the point where it happened (`CleanupLog.Law`).
  A cleanup begins, acts and ends in the history, so the ordering results speak of the deletion, the write or the
  removal itself (`ActsInOrder`, `SchedulersRestoredAfterLooks`, `KueueRemovedLast`). What the run has seen is written
  down by the modelled clusters when they answer; an absence, a section read and a Kueue object without the entry
  point to such an answer (`FleetRecords.AnswersGiven`). `TestRun` concludes what holds of whole runs, including the
  restoration of shared configuration (`NothingPendingAllUndone`, `NothingPendingSectionsRestored`).
- The clusters count the calls that reported an error and the waits that ran out, so `Setup`, `Execute` and `Cleanup`
  also say what they may fail for: one of these, or an answer that shows why (`Environment.Excused`, `Stuck`,
  `Foreign`, `KueueWorkload.Lost`). What the operations call the same, owned, enabled, integrated, succeeded or given
  is stated by values (`OwnsIffLabelled`, `InstalledValues`, `EntryIff`, `CheckState`, `GivenIff`).
- `Execute` speaks about the clusters' answers: `Executed` is stated over them alone, and
  `Polled` in it says that each answer by which a wait goes on or ends came after a look at every spoke, with nothing
  but logs and the run on a spoke read in between. It speaks about names, because the polling loops only remember
  names. `Setup` shows that the spokes have distinct names (two spokes of one name
  would share one Secret on the hub, and validation compares only hosts), and `SetupAndExecute` puts both together:
  one spoke, by number.
- Each printed patch goes from the text (`GlobalConfigPatch`, `BuildPrunerPatch`, `DataFields`) through the parser
  (`RoundTrip`, `NestTextMeans`) to the document (`GlobalConfigEffect`, `PrunerEffect`, `ConfigureReplaces`).

Where the code does not do what its comments or names suggest, the exact condition is proved:

- `RemoveCustomPolicyAndRestore` is documented to restore the configuration exactly. It does so if and only if
  `spec` is an object without `networkPolicy` (`RoundTripIff`); any non-empty snapshot leaves the custom policy in the
  document (`CustomPolicyStays`), because merging a snapshot cannot delete what it does not mention (`RestoreExactIff`).
- The login cache promises that a user who was added to or removed from a group logs in again. A returned
  kubeconfig is stale exactly when, before the user logged in again after a change, a login that failed consumed the
  mark or none was set, and neither a mark nor a cleanup followed (`StaleIff`). No mark is set when the call aborts after its patch,
  when a comma in a name hides the change, or when the user is not among the names read, because the group could not
  be read or the name has white space in it (`UnmarkedChangeIff`, `UnseenIff`, `SpacedNameAborts`); apart from
  these nothing is ever stale (`SmoothNeverStale`).
- `Command` is idempotent on all command lines if and only if no configured value is the separator `--` while
  another flag is configured (`IdempotentIff`).
- `sanitizeGitHubK8sName` gives a DNS label, and is idempotent, exactly when the cut at 63 characters does not
  fall behind a dash (`SanitizeTwiceIff`, `CutEndsInDash`).
- The escaping of retention policies is exact if and only if newline is the only control character
  (`PoliciesRoundTripIff`). A pruner value is exact if and only if it has no backslash or control character, or,
  when `Atoi` accepts it, JSON would write the number the same way, unlike `+5` or `007` (`ValueParsesIff`).
- Once the repository's creation is confirmed and its owner known, and if its own calls work, the GitHub rollback
  restores everything if and only if neither the Secret call nor the CR call took effect and reported an error
  (`RestoredIff`): both only become undoable once they are confirmed. A creation of the repository that takes effect
  and reports an error leaks it (`LostAnswerLeavesRepo`).
- A cleanup takes the first matching framework entry, whoever added it. It is the run's own exactly when the run's
  update took effect, the entry is still there and nobody put another in front (`RemovalTakesOwnIff`,
  `OnlyEntryIsOwn`): if the update lost a conflict to somebody who added the same entry, the already registered
  cleanup takes theirs (`LostUpdateTakesTheirs`).
- A container's namespace goes by its texts joined with ` > ` and a mark for retries. Different containers never share
  one if no text has a `>` or `[` in it (`SameKeyIff`, `RunSuite`); others can (`AmbiguousTexts`).
- Roles go by cluster name, so a spoke that shares the hub's name passes validation and is enabled as a hub
  (`SpokesEnabledAsSpokes`, `HubNameIsAdmitted`).

## Model

| member | source | states |
|---|---|---|
| KueueEnvironment.Environment.Setup | pkg/tektonkueue/environment.go:64-118 | wherever it stops, all it made is covered by a pending cleanup, nothing was deleted or stripped, nothing of an execution was looked at, registrations follow the stages; on success every object of the environment was created, the clusters had every scheduler section written in its role, and, undisturbed, spoke names are distinct; it fails only if the configuration is not acceptable, a call reported an error, a wait ran out, or the clusters answered that a name is taken or that the Kueue object cannot be edited |
| KueueEnvironment.Environment.Cleanup | pkg/tektonkueue/environment.go:121-132 | the pending list stays a prefix of what it was, success exactly when it becomes empty; a failure is that of the last pending cleanup, which ran in this call and ended it; the invariant kept throughout; that cleanup failed only because a call reported an error, a wait ran out, or an answer of this call showed somebody else's object, an uneditable Kueue object, or a section another actor changed |
| KueueEnvironment.Environment.AddCleanup | pkg/tektonkueue/environment.go:134-136 | pushes onto the stack, registers in the history, keeps the invariant |
| KueueEnvironment.Environment.Validate | pkg/tektonkueue/environment.go:142-162 | accepts exactly a DNS label prefix, at least one spoke, complete clusters and pairwise distinct hosts |
| KueueEnvironment.Environment.EnsureKueue | pkg/tektonkueue/environment.go:164-235 | success leaves both lists of the object on the cluster with an entry of group tekton.dev, resource pipelineruns and version v1; the cleanup is registered before the create or the update is sent; it fails only for an error or an object that cannot be edited |
| KueueEnvironment.Environment.IntegrateKueue | pkg/tektonkueue/environment.go:199-209 | a cleanup for exactly the lists found lacking is registered before the update; nothing is sent where nothing lacks |
| KueueEnvironment.Environment.SendIntegration | pkg/tektonkueue/environment.go:233-235 | an update that takes effect, confirmed or not, is in the history with the document it replaced and the one it wrote |
| KueueEnvironment.Environment.WriteKueue | pkg/tektonkueue/environment.go:230-235 | an update that takes effect, confirmed or not, replaced the very document it was computed from and is in the history; a lost race changed nothing |
| KueueEnvironment.Environment.ConfigureKueue | pkg/tektonkueue/environment.go:69-78 | all Kueue cleanups are registered in the first stage |
| KueueEnvironment.Environment.EnableScheduler | pkg/tektonkueue/environment.go:319-361 | the section the cluster answered is what the registered cleanup restores; success means the cluster had the scheduler and multi-cluster mode switched on, the role, the queue named after the prefix and the override exactly for the hub, everything else as found; it fails only for an error or a wait that ran out |
| KueueEnvironment.Environment.SaveScheduler | pkg/tektonkueue/environment.go:319-342 | the restoration is registered right after the cluster's answer and with its value, once per cluster |
| KueueEnvironment.Environment.InstallOnce | pkg/tektonkueue/environment.go:344-357 | whatever is written is the section found with the five fields of the role; the history and the clusters' record grow by this write or not at all |
| KueueEnvironment.Environment.SendSection | pkg/tektonkueue/environment.go:334-356 | an update of a section that takes effect, confirmed or not, replaced the value it was computed from and is in the history; without effect there is neither write nor event |
| KueueEnvironment.SpokesEnabledAsSpokes | pkg/tektonkueue/environment.go:107-115 | every spoke is enabled as a spoke exactly when none shares the hub's name |
| KueueEnvironment.HubNameIsAdmitted | pkg/tektonkueue/environment.go:142-162 | a configuration with a spoke of the hub's name that validation accepts, for any names, servers and prefix |
| KueueEnvironment.EnabledByName | pkg/tektonkueue/environment.go:107-115 | the hub has the hub's section, every spoke a spoke's unless it shares the hub's name |
| KueueEnvironment.SameServerIff | pkg/tektonkueue/environment.go:150-160 | two hosts are the same server exactly when they differ in at most one slash at the end |
| KueueEnvironment.Places | pkg/tektonkueue/workload.go:54-64 | the places of the run, its workload, namespace, Secret and worker, written out |
| Clusters.OwnsIffLabelled | pkg/tektonkueue/resources.go:588-590 | owned means the managed-by label of the library and the instance label of the run, written out |
| Clusters.LabelsTellRunsApart | pkg/tektonkueue/resources.go:581-590 | what one run labels is another one's exactly if they have the same prefix |
| KueueEnvironment.Environment.EnableSchedulers | pkg/tektonkueue/environment.go:107-115 | the clusters had every section written so, in the role of the hub where the cluster has the hub's name and of a spoke elsewhere |
| KueueEnvironment.Environment.RunRestoreScheduler | pkg/tektonkueue/environment.go:326-342 | success means exactly one section write more on the clusters: the three-way merge of the section found, whose five fields are the original ones; it fails only for an error, a wait that ran out, or a section read with a field neither as saved nor as set |
| KueueEnvironment.Environment.RestoreOnce | pkg/tektonkueue/environment.go:328-336 | whatever is written back, confirmed or not, is the three-way merge of the section found, with exactly its conflicts; history and clusters' record grow by it together |
| KueueEnvironment.Environment.UnlinkOnce | pkg/tektonkueue/environment.go:207-231 | done means an update that replaced the object's content by the removal along the registered lists, or an answer of the clusters with nothing to remove; a lost race writes nothing; a failure is an error, or an answer that the object is gone or has something in the way of a list |
| KueueEnvironment.Environment.UnlinkFrom | pkg/tektonkueue/environment.go:212-230 | what is done with the object once it was read: the removal is sent, or nothing if no list holds the entry |
| KueueEnvironment.Environment.RunRemoveFrameworks | pkg/tektonkueue/environment.go:206-232 | success means exactly one such update more on the clusters, or an answer with the entry in none of the lists |
| KueueEnvironment.Environment.CreateCovered | pkg/tektonkueue/resources.go:143-169 | a create under a pending cleanup keeps everything covered, also when it takes effect and reports an error |
| KueueEnvironment.Environment.RegisterThenCreate | pkg/tektonkueue/resources.go:461-486 | the cleanup is pending before the create; afterwards it holds the id exactly if the create was confirmed, and a confirmed create found the place free |
| KueueEnvironment.Environment.CreateCaptured | pkg/tektonkueue/resources.go:481-486 | the cleanup registered just before holds the id exactly if the create was confirmed |
| KueueEnvironment.Environment.CaptureUid | pkg/tektonkueue/resources.go:481-486 | only the top cleanup learns the id, right after its registration; targets stay |
| KueueEnvironment.Environment.CreateOwned | pkg/tektonkueue/resources.go:452-487 | refuses a name that is taken; success means created and targeted |
| KueueEnvironment.Environment.CreateClusterRBAC | pkg/tektonkueue/resources.go:501-565 | role and binding created and covered |
| KueueEnvironment.Environment.CreateNamespacedRBAC | pkg/tektonkueue/resources.go:567-579 | role and binding created, covered by their namespace's cleanup |
| KueueEnvironment.Environment.CreateNamespace | pkg/tektonkueue/resources.go:44-100 | namespace and controller RBAC created, the namespace targeted |
| KueueEnvironment.Environment.CreateNamespaces | pkg/tektonkueue/environment.go:80-88 | the namespaces of all clusters are created and targeted |
| KueueEnvironment.Environment.CreateQueues | pkg/tektonkueue/resources.go:102-139 | flavor, cluster queue and local queue created and covered |
| KueueEnvironment.Environment.CreateWorkerCredential | pkg/tektonkueue/resources.go:141-222 | identity on the spoke and Secret on the hub; undisturbed, the Secret's place held nothing of the run before |
| KueueEnvironment.Environment.CreateWorkerIdentity | pkg/tektonkueue/resources.go:141-169 | the identity's objects are created and covered |
| KueueEnvironment.Environment.ConfigureSpokes | pkg/tektonkueue/environment.go:89-96 | every spoke's objects are created; undisturbed, no two spokes have one name |
| KueueEnvironment.Environment.CreateHubMultiKueueResources | pkg/tektonkueue/resources.go:300-328 | one worker per spoke, the configuration and the admission check are created and covered |
| KueueEnvironment.Environment.CreateKueueEgressPolicy | pkg/tektonkueue/resources.go:330-364 | the policy in the operator's namespace is created with a pending cleanup of its own |
| KueueEnvironment.Environment.ConfigureHub | pkg/tektonkueue/environment.go:97-105 | all hub objects are created and covered |
| KueueEnvironment.Environment.DeleteOwned | pkg/tektonkueue/resources.go:540-558 | deletes only under the run's labels and the captured id, and a binding only right after its subjects were taken off; done means an answer that the object is absent or an accepted deletion; anything else means that a call reported an error or that the answer showed other labels or another id; the history tells of exactly the deletions and strippings made |
| KueueEnvironment.Environment.StripSubjects | pkg/tektonkueue/resources.go:550-555 | an update that takes effect, confirmed or not, took only the subjects off the very object that was checked, and is in the history |
| KueueEnvironment.Environment.WaitForNotFound | pkg/tektonkueue/resources.go:592-600 | success means the clusters answered that the object is absent, and none of the run's objects is left there |
| KueueEnvironment.Environment.RunRemove | pkg/tektonkueue/resources.go:461-481 | success leaves nothing of the run at or inside the place, by an answer that it is absent or, for kinds that are not polled, an accepted deletion; it fails only for an error, a wait that ran out, or a foreign object that was answered |
| KueueEnvironment.Environment.RunRemoveRun | pkg/tektonkueue/workload.go:81-95 | success comes only after a complete sweep that started after the run was seen absent or its deletion accepted; it fails only for the same reasons |
| KueueEnvironment.Environment.WaitForExecutionObjectsGone | pkg/tektonkueue/workload.go:302-330 | for the hub and every spoke the clusters answered, within one sweep, that the run and its recorded workload are absent |
| KueueEnvironment.Environment.RunCleanup | pkg/tektonkueue/environment.go:125-128 | the cleanup that has begun and no other acts; success has its evidence as the last event, which is a change the clusters made or an answer they gave, and an empty place; it fails only for a reason that lies with the clusters |
| KueueEnvironment.Environment.RunTopmost | pkg/tektonkueue/environment.go:125-129 | the top cleanup begins when nothing is running; success pops it, failure keeps it, the invariant holds either way |
| KueueEnvironment.PopKeeps | pkg/tektonkueue/environment.go:125-129 | dropping a cleanup whose place is vacated leaves every remaining object covered |
| KueueEnvironment.NextSpoke | pkg/tektonkueue/resources.go:197-220 | a spoke whose Secret could be created has another name than all spokes before it |
| CleanupLog.Register | pkg/tektonkueue/environment.go:134-136 | the laws of the history survive a registration that comes when nothing is running |
| CleanupLog.Capture | pkg/tektonkueue/resources.go:481-486 | the pending cleanup of a confirmed create holds its id |
| CleanupLog.TopBegins | pkg/tektonkueue/environment.go:125-126 | when nothing is running, exactly the last registered pending cleanup may begin |
| CleanupLog.TopFails | pkg/tektonkueue/environment.go:126-129 | running the top cleanup is allowed, and a failed one stays pending |
| CleanupLog.TopSucceeds | pkg/tektonkueue/environment.go:125-130 | a succeeded one leaves the pending list, which stays what was registered and has not succeeded |
| CleanupLog.SucceededNeverRunsAgain | pkg/tektonkueue/environment.go:121-132 | a cleanup that succeeded never begins again, over any sequence of calls |
| CleanupLog.ActsInOrder | pkg/tektonkueue/environment.go:121-132 | no cleanup strips, deletes, restores or removes anything before every cleanup registered after it has succeeded |
| CleanupLog.DeletionsAreOwn | pkg/tektonkueue/resources.go:462-486 | every deletion and stripping is of the cleanup registered for that object, under the run's labels and with the id of the create that followed; labels alone decide only where that create was never confirmed; a binding is stripped right before its deletion |
| CleanupLog.ExecutionGoneBeforeSchedulers | pkg/tektonkueue/workload.go:302-330 | nothing is written to restore a scheduler before a sweep of the run and its workload over all clusters, made of absences noted after the run's registration and before the writing cleanup began |
| CleanupLog.KueueRemovedLast | pkg/tektonkueue/environment.go:69-117 | no Kueue CR is deleted and no framework entry removed before every queue, admission check, MultiKueue, scheduler and run cleanup succeeded |
| CleanupLog.NothingPendingNoEntryLeft | pkg/tektonkueue/environment.go:199-235 | with nothing pending, what an update added was removed from the object as it was by then, along exactly the lists that had lacked it, or the object was found with it in none of them |
| CleanupLog.NothingPendingSchedulersRestored | pkg/tektonkueue/environment.go:319-361 | with nothing pending, each scheduler the run wrote, to enable or to restore, was read before its first write and last written with the five fields read |
| FleetRecords.RecordsCapture | pkg/tektonkueue/resources.go:481-486 | a confirmed create is accounted for by capturing its id |
| FleetRecords.RecordsNext | pkg/tektonkueue/environment.go:121-136 | an event that tells of a change enters the history only together with that change, and one that reports an answer only if the clusters gave it |
| FleetRecords.DeletedOwn | pkg/tektonkueue/resources.go:581-590 | every deletion and stripping the clusters saw was of the run's own: labels, registration, captured id and creation agree |
| FleetRecords.SchedulersRestoredAfterLooks | pkg/tektonkueue/workload.go:302-330 | nothing is written to restore a scheduler before the clusters answered, for the hub and every spoke, that the run and its recorded workload are absent: after a cleanup began behind the run's registration, and among the answers given before the writing cleanup began |
| FleetRecords.RestoredOnClusters | pkg/tektonkueue/environment.go:319-361 | a restoration in the history is one on the clusters: the last section write there put the fields back that the cluster had answered |
| KueueWorkload.Execute | pkg/tektonkueue/workload.go:34-52 | success means, of the clusters' answers: every poll of every wait began by looking at every spoke and none of another name ever held the run, TaskRuns ran on the reported spoke and at both looks not on the hub, the worker had succeeded at some check and the hub at the last, no check showed a failure, then the workload was finished and the worker's objects gone, and the logs are the worker's and hold the marker; it fails only for an error, a wait that ran out, two names seen, a run seen failed or gone from the hub, or TaskRuns there |
| KueueWorkload.WaitForHubWorkload | pkg/tektonkueue/workload.go:103-126 | the recorded workload is one on the hub with an owner reference to the run; a timeout records nothing |
| KueueWorkload.FindOwned | pkg/tektonkueue/workload.go:111-119 | finds a workload exactly when one of those listed is owned by the run |
| KueueWorkload.SubmitRun | pkg/tektonkueue/workload.go:34-43 | the run was created and confirmed, and owns the recorded workload |
| KueueWorkload.ExecutedSince | pkg/tektonkueue/workload.go:34-52 | looks at other objects before the execution take nothing away from what it shows |
| KueueWorkload.RecordSpokes | pkg/tektonkueue/workload.go:251-263 | every sighting is in the set, which only grows; success means the answers are one look at every spoke, in order, and the set names at most one; every name in it was sighted, and a failure is an error or a second name |
| KueueWorkload.PollExecution | pkg/tektonkueue/workload.go:131-151 | every spoke is looked at before TaskRuns are listed; done means TaskRuns were found on the spoke seen last, with one name seen over all polls |
| KueueWorkload.WaitForSpokeExecution | pkg/tektonkueue/workload.go:128-164 | one set over all polls: on success every listing of TaskRuns on a spoke belongs to a poll that had first looked at every spoke, all sightings were of the selected name, and the hub has no TaskRuns; it fails only for an error, a wait that ran out, two names seen or TaskRuns on the hub |
| KueueWorkload.CheckState | pkg/tektonkueue/workload.go:187-207 | succeeded exactly if the object returned has the condition True; an error means a call that failed, a condition False, or a required run that is absent; an unknown or missing condition is neither |
| KueueWorkload.PollCompletion | pkg/tektonkueue/workload.go:170-209 | restarting from the singleton misses no other spoke: every spoke is looked at before the worker and the hub; the hub is checked right after the worker, neither failed; completion needs both latches and the hub's success in this poll |
| KueueWorkload.CaptureLogs | pkg/tektonkueue/workload.go:174-185 | logs are kept only if the worker returned them with the marker, and then stay |
| KueueWorkload.WaitForRunSuccess | pkg/tektonkueue/workload.go:166-212 | every poll looked at every spoke first; the latches mean what they say over all polls, the hub succeeded at the last one |
| KueueWorkload.WaitForWorkloadFinished | pkg/tektonkueue/workload.go:281-300 | every look at the workload belongs to a poll that had first looked at every spoke and saw no other, and at the last the hub's workload was returned as finished |
| KueueWorkload.WaitForWorkerCleanup | pkg/tektonkueue/workload.go:332-346 | every poll looked at every spoke first and saw no other, and at the last the worker's run and workload were gone |
| KueueWorkload.WaitForCompletion | pkg/tektonkueue/workload.go:166-229 | the completion facts survive the later waits, every poll of all three looked at every spoke first, and the last look at the hub finds no TaskRuns; it fails only for an error, a wait that ran out, another spoke seen, a failed or vanished run or TaskRuns on the hub |
| KueueLifecycle.OneSpoke | pkg/tektonkueue/workload.go:251-263 | with distinct names, one name seen means one spoke seen |
| KueueLifecycle.SetupAndExecute | pkg/tektonkueue/workload.go:34-52 | Setup then Execute without error: the execution's results, the look at every spoke in every poll among them, hold of all answers since the beginning, and, undisturbed, exactly one spoke, by number, was ever seen holding the run |
| KueueLifecycle.NothingPendingNothingLeft | pkg/tektonkueue/environment.go:121-132 | an empty pending list means nothing the run made exists |
| KueueLifecycle.TestRun | pkg/tektonkueue/environment.go:64-132 | any run of Setup, Execute and Cleanup with arbitrary failures: the history tells of exactly the deletions, strippings, updates and section writes the clusters saw, each kind in order, and reports their answers as given; only own objects deleted or stripped, every confirmed id captured, laws and stages kept; whenever nothing is pending, nothing is left and the shared configuration is restored, the scheduler sections by the clusters' own record |
| KueueLifecycle.NothingPendingAllUndone | pkg/tektonkueue/environment.go:121-132 | with nothing pending, every scheduler written was restored and every entry added was taken out or found gone, in the history |
| KueueLifecycle.NothingPendingSectionsRestored | pkg/tektonkueue/environment.go:319-361 | what the history says of the schedulers holds of every section the clusters had written for the run |
| Scheduler.RestoreSchedulerFields | pkg/tektonkueue/environment.go:363-411 | in place, the result and the conflicts in order, each once; the result never shares the saved pointer, the original is not written |
| Scheduler.RestoreIsThreeWay | pkg/tektonkueue/environment.go:363-407 | per field: original or installed value ends as the original and unreported, any other survives and is reported; the rest untouched |
| Scheduler.InstalledValues | pkg/tektonkueue/environment.go:349-354 | the section written, value by value |
| Scheduler.EachConflict | pkg/tektonkueue/environment.go:363-407 | for each of the five fields, with the values the test sets: when it is reported |
| Scheduler.EachField | pkg/tektonkueue/environment.go:363-407 | a reported field keeps its value, any other ends as saved |
| Scheduler.RestoreTwice | pkg/tektonkueue/environment.go:363-407 | a second application changes nothing and reports the same conflicts |
| Scheduler.NoConflictIffRestored | pkg/tektonkueue/environment.go:335-342 | no conflict exactly when all five fields end as before the test |
| Scheduler.InstallThenRestore | pkg/tektonkueue/environment.go:344-357 | installing then restoring is the identity whatever happened to other members |
| KueueFrameworks.EnsurePipelineRunIntegration | pkg/tektonkueue/environment.go:268-284 | succeeds exactly where both lists can be read and written; afterwards each of the two holds an entry with the three members, and exactly those of them that had none are reported |
| KueueFrameworks.EntryIff | pkg/tektonkueue/environment.go:295-298 | an item matches exactly when it is an object with these three members, written out |
| KueueFrameworks.LackingMeans | pkg/tektonkueue/environment.go:268-284 | a path is reported exactly when it is one of the two and no item of its list has the three members |
| KueueFrameworks.RemovePipelineRunFramework | pkg/tektonkueue/environment.go:286-293 | drops exactly the first matching entry, reports whether there was one |
| KueueFrameworks.RemoveFrameworks | pkg/tektonkueue/environment.go:213-228 | fails exactly when a list cannot be read, reports exactly whether some list held the entry |
| KueueFrameworks.AddedLists | pkg/tektonkueue/environment.go:268-284 | a list lacking the entry gets it appended, one holding it stays as it is |
| KueueFrameworks.AddedFrame | pkg/tektonkueue/environment.go:268-284 | every path apart from the reported ones keeps its value |
| KueueFrameworks.LackingIff | pkg/tektonkueue/environment.go:275-280 | a path is reported exactly when its list lacks the entry |
| KueueFrameworks.AddTwice | pkg/tektonkueue/environment.go:268-284 | adding again reports and changes nothing |
| KueueFrameworks.AddThenRemove | pkg/tektonkueue/environment.go:199-235 | removal along the reported paths gives the whole document back, with empty lists where there were none |
| KueueFrameworks.AddThenRemoveExactIff | pkg/tektonkueue/environment.go:199-235 | exactly the original if and only if every reported list had been there |
| KueueFrameworks.RemovedLists | pkg/tektonkueue/environment.go:213-228 | on any later document, removal changes the reported lists that hold the entry and no other path |
| KueueFrameworks.EditsSurvive | pkg/tektonkueue/environment.go:286-293 | what others put before and after the entry stays, in order |
| KueueFrameworks.RequiredIsComplete | pkg/tektonkueue/environment.go:237-262 | a created Kueue object lacks nothing that would be added to an existing one |
| KueueFrameworks.OnlyEntryIsOwn | pkg/tektonkueue/environment.go:268-284 | where the update took effect, the only matching entry of each reported list is the one it appended |
| KueueFrameworks.TakesOwnIff | pkg/tektonkueue/environment.go:286-293 | the first matching entry of a list is the run's own exactly when that is there with no matching one before it |
| KueueFrameworks.TakenIsRemoved | pkg/tektonkueue/environment.go:286-293 | that entry is the one the removal drops, all others staying in order |
| KueueFrameworks.RemovalTakesOwnIff | pkg/tektonkueue/environment.go:286-293 | whatever others did, the removal takes the run's own entry exactly under that condition, otherwise somebody else's |
| KueueFrameworks.LostUpdateTakesTheirs | pkg/tektonkueue/environment.go:206-235 | a document on which the update lost to another actor and the registered cleanup takes that actor's entries |
| KueueFrameworks.WalkableWorks | pkg/tektonkueue/environment.go:271-278 | on a readable path, read and write succeed and the write sets just that path |
| KueueFrameworks.UnwalkableFails | pkg/tektonkueue/environment.go:271-278 | on any other path the read or the write fails |
| Hooks.FindOptOut | pkg/hooks/hooks.go:114-125 | finds the label exactly when some container carries it |
| Hooks.NamespaceManager.LeaveContainer | pkg/hooks/hooks.go:96-110 | the left container's namespace is deleted or preserved according to its failures, the others untouched |
| Hooks.NamespaceManager.BeforeEach | pkg/hooks/hooks.go:79-175 | a spec that does not opt out finds a live namespace in both places; only the current container keeps an entry |
| Hooks.NamespaceManager.AfterEach | pkg/hooks/hooks.go:178-193 | a failure counts against the namespace in use and no other |
| Hooks.NamespaceManager.CleanupNamespaces | pkg/hooks/hooks.go:41-54 | settles every remaining namespace |
| Hooks.RunSuite | pkg/hooks/hooks.go:41-193 | every ready spec uses a namespace made for its container; specs of different container texts or attempts never use the same, adjacent ones of one container do; failures are reported exactly of specs that failed or had no clients; each namespace is deleted exactly once or preserved, preserved exactly if a failure was reported while it was in use |
| Hooks.SameKeyIff | pkg/hooks/hooks.go:84-92 | for texts without brackets or angles, two specs have one key exactly when container texts and attempt are the same |
| Hooks.AmbiguousTexts | pkg/hooks/hooks.go:84-92 | containers that share a key although they differ: a text that looks like two, or like a retry |
| GitHubProject.SetupGitHubProject | pkg/pac/pac-github.go:311-414 | succeeds exactly when every call it needs does; a failure with known owner and working rollback leaves only what an errored call changed; a create that errors leaks exactly what it made; foreign CRs are never touched; success rolls nothing back |
| GitHubProject.CompletedMeans | pkg/pac/pac-github.go:311-414 | what a completed setup leaves, written out: the repository of the organization or else the user, the two keys and the CR |
| GitHubProject.RestoredIff | pkg/pac/pac-github.go:350-369 | everything is as before exactly when neither the Secret call nor the CR call changed something and reported an error |
| GitHubProject.LostAnswerLeavesSecret | pkg/pac/pac-github.go:65-124 | a run with repository, owner and working rollback that leaves the Secret behind |
| GitHubProject.LostAnswerLeavesRepo | pkg/pac/pac-github.go:337-340 | a run that leaves the repository behind, because its create errored before there was a rollback |
| GitHubProject.Service.EnsureWebhookSecret | pkg/pac/pac-github.go:65-124 | merges the two keys and returns how to get the exact previous Secret back; where it changes the Secret, that holds the token and the webhook secret under their keys and everything else as before |
| GitHubProject.Service.Rollback | pkg/pac/pac-github.go:350-369 | undoes exactly what is known to have been done |
| GitHubProject.Service.CreateRepositoryCR | pkg/pac/pac-github.go:126-155 | a taken name is an error that leaves the other CR alone |
| GitHubProject.Service.DeleteRepositoryCR | pkg/pac/pac-github.go:157-167 | deletes at most the CR of the sanitized name |
| GitHubProject.CleanupProject | pkg/pac/pac-github.go:548-565 | deletes the project's CR, Secret, repository and deployment, and reports exactly whether all of it worked |
| GitHubProject.SetupThenCleanup | pkg/pac/pac-github.go:311-414 | the CR created is the one deleted: repositories and CRs end as before |
| GitHubProject.SanitizeName | pkg/pac/pac-github.go:224-243 | the loop computes the character-wise cleaned, trimmed and cut name, one dash for every other character |
| GitHubProject.EachCharacter | pkg/pac/pac-github.go:224-236 | each character: letters small, digits and dashes kept, anything else a dash but for two letters |
| GitHubProject.NameIsKept | pkg/pac/pac-github.go:224-243 | a word of letters, digits and inner dashes keeps all of them, in small letters |
| GitHubProject.SanitizedIsValid | pkg/pac/pac-github.go:224-243 | one to 63 legal characters, no leading dash, for every input |
| GitHubProject.SanitizeTwiceIff | pkg/pac/pac-github.go:224-243 | a DNS label, and idempotent, exactly when the cleaned text has at most 63 characters or no dash as its 63rd |
| GitHubProject.CutEndsInDash | pkg/pac/pac-github.go:239-241 | a name for which the cut leaves a trailing dash |
| Bootstrap.Cluster.EnsurePrerequisites | pkg/olm/cluster_bootstrap.go:75-90 | only adds, only what the prerequisites call for, at most one Subscription per package and one OperatorGroup per namespace that had none; success means that in this call each Subscription was read with an installed CSV whose phase, read next, was Succeeded; nothing is added where all are subscribed; it fails only for an error, a wait that ran out, a CSV read as failed, two groups or Subscriptions, or a Subscription of the name for something else |
| Bootstrap.Cluster.EnsureOperator | pkg/olm/cluster_bootstrap.go:120-181 | a package with a Subscription anywhere gets nothing; success means its one Subscription was read with a CSV that was then read as Succeeded, in this call |
| Bootstrap.Cluster.Subscribe | pkg/olm/cluster_bootstrap.go:147-174 | creates the package's only Subscription, in a namespace with one OperatorGroup |
| Bootstrap.Cluster.PollOperator | pkg/olm/cluster_bootstrap.go:183-213 | done only when the cluster returned the Subscription with an installed CSV and then that CSV as Succeeded; it goes on only on a Subscription without a CSV or a CSV neither succeeded nor failed |
| Bootstrap.Cluster.EnsureOperatorGroup | pkg/olm/cluster_bootstrap.go:215-236 | success means exactly one group; none is added where there is one; it fails only for an error or two groups |
| Bootstrap.Cluster.EnsureNamespace | pkg/olm/cluster_bootstrap.go:239-252 | success means the namespace exists; nothing else is added |
| Bootstrap.RerunAddsNothing | pkg/olm/cluster_bootstrap.go:75-90 | in the state a success leaves, another run adds nothing |
| Bootstrap.RerunUntilDone | pkg/olm/cluster_bootstrap.go:75-90 | any number of interrupted runs together add only what the prerequisites call for and was missing |
| Bootstrap.GrewTrans | pkg/olm/cluster_bootstrap.go:75-90 | interrupted runs compose: the whole only adds what was missing at first |
| Bootstrap.FirstSubscription | pkg/olm/cluster_bootstrap.go:147-161 | the first Subscription of a package changes no other package's |
| Json.MergeRestoresIff | pkg/multicluster/multicluster.go:322-337 | merging a saved value over a live one gives the saved value exactly when it is null-free and the live one has no member, at any depth, that it lacks |
| Json.MergeAgreesOnLeaves | pkg/multicluster/multicluster.go:322-337 | every saved leaf is back whatever was live |
| Json.MergeNest | pkg/oc/oc.go:291-306 | merging one nested value merges it at exactly that path and deletes it when null |
| Json.MergeNestFrame | pkg/oc/oc.go:291-306 | every path that parts ways keeps its value, on any document |
| Json.PatchRemoveIff | pkg/multicluster/multicluster.go:323-329 | a removal succeeds exactly when its target exists, which is then gone |
| Json.AddAfterMerge | pkg/operator/tektonresults.go:229-246 | the merge makes room, so the add cannot fail for a missing parent |
| NetworkPolicy.TektonConfig.EnsureCustomPolicy | pkg/multicluster/multicluster.go:210-256 | only a free name is added, the value returned is the state before, an error leaves the document as it was or with the policy; the policy is then in the document, member by member; it fails only for an error, a field that is no object, or a name that is taken |
| NetworkPolicy.TektonConfig.RemoveCustomPolicyAndRestore | pkg/multicluster/multicluster.go:262-276 | disables first; success ends in the restoration of the snapshot; it fails only for an error or a wait that ran out |
| NetworkPolicy.AlwaysRestores | pkg/multicluster/multicluster.go:262-276 | after the disabling patch no restoration is rejected |
| NetworkPolicy.RestoreExactIff | pkg/multicluster/multicluster.go:322-337 | exact condition for the field to equal its snapshot |
| NetworkPolicy.RestoreAgrees | pkg/multicluster/multicluster.go:322-337 | all saved leaves are back and nothing outside the field changes |
| NetworkPolicy.RestoreEmpty | pkg/multicluster/multicluster.go:323-329 | an empty snapshot ends in an absent field and needs it present |
| NetworkPolicy.CustomPolicyStays | pkg/multicluster/multicluster.go:210-276 | with a non-empty snapshot the custom policy survives its removal |
| NetworkPolicy.EmptySnapshotRoundTrip | pkg/multicluster/multicluster.go:210-276 | with an empty snapshot only the field is dropped |
| NetworkPolicy.RoundTripIff | pkg/multicluster/multicluster.go:210-276 | the document comes back exactly when spec is an object without the field |
| JsonText.EscapeRoundTripIff | pkg/operator/tektonresults.go:218-224 | escaping backslash, quote and newline is exact if and only if there is no other control character |
| JsonText.RawLiteralIff | pkg/operator/tektonresults.go:207-216 | a value printed without escaping means itself exactly when it is plain |
| JsonText.RoundTrip | pkg/operator/tektonresults.go:242-246 | parsing a printed document gives the document |
| JsonText.Spelling | pkg/operator/tektonresults.go:242-246 | how scalars, strings and arrays are spelled |
| JsonText.MemberSpelling | pkg/operator/tektonresults.go:242-246 | how members are spelled |
| Retention.ThreePassesAreOne | pkg/operator/tektonresults.go:218-224 | the three replacements equal the one-pass escaper |
| Retention.PoliciesRoundTripIff | pkg/operator/tektonresults.go:218-224 | the policies survive escaping and parsing exactly when newline is their only control character |
| Retention.DataFields | pkg/operator/tektonresults.go:207-224 | the fields with a value, in order, and no others |
| Retention.FieldsAreData | pkg/operator/tektonresults.go:207-224 | the printed fields are the text of the members meant |
| Retention.PatchTextIsSyntax | pkg/operator/tektonresults.go:242-246 | the patch text is the text of one add operation |
| Retention.ConfigureReplaces | pkg/operator/tektonresults.go:205-249 | for every document the patches are accepted and replace configMaps by exactly the new entry |
| Retention.EntryMembers | pkg/operator/tektonresults.go:205-224 | the entry member by member: always runAt, and each other field exactly when it has a value |
| Retention.ConfigureFrameAndLastWins | pkg/operator/tektonresults.go:205-249 | nothing else changes, and two calls equal the last one |
| Retention.TektonConfig.ConfigureRetentionPolicy | pkg/operator/tektonresults.go:205-249 | for values that are plain and policies without other control characters, succeeds exactly when both commands are confirmed; what is left behind when one is lost before or after taking effect |
| PrunerPatch.GlobalConfigPatch | pkg/oc/oc.go:280-310 | the inside-out loop prints the text of one path |
| PrunerPatch.NestTextMeans | pkg/oc/oc.go:291-302 | with plain segments that text prints, parses and denotes exactly that path |
| PrunerPatch.QuotesOnlyIff | pkg/oc/oc.go:281-289 | escaping quotes alone is exact if and only if there is no backslash or control character |
| PrunerPatch.NumberParsesIff | pkg/oc/oc.go:281-289 | a number Atoi accepts parses to itself exactly when JSON writes it so |
| PrunerPatch.ValueParsesIff | pkg/oc/oc.go:281-289 | the printed value parses to the value meant exactly under those conditions |
| PrunerPatch.NullWordIff | pkg/oc/oc.go:281-289 | the word null in large or small letters |
| PrunerPatch.AcceptedIff | pkg/oc/oc.go:281-289 | of the decimal numbers those of 64 bits are accepted, with or without a sign |
| PrunerPatch.AcceptedForm | pkg/oc/oc.go:281-289 | whatever is accepted as a number is an optional sign and digits |
| PrunerPatch.GlobalConfigEffect | pkg/oc/oc.go:280-310 | for every document exactly that leaf is set, or deleted for null |
| PrunerPatch.ResourceTexts | pkg/oc/oc.go:237-242 | the trimmed, quoted resource names in order |
| PrunerPatch.BuildPrunerPatch | pkg/oc/oc.go:235-254 | the text holds schedule, resources and both strategies, the unselected as null |
| PrunerPatch.PrunerParses | pkg/oc/oc.go:235-254 | the text parses to spec.pruner with those members and nothing else |
| PrunerPatch.PrunerEffect | pkg/oc/oc.go:235-254 | on every document each strategy is held exactly when selected, other members and paths stay |
| PrunerPatch.NamesAsValues | pkg/oc/oc.go:237-242 | the resources are strings, one for each name, in order |
| LoginCache.Cache.MarkUsersAuthDirty | pkg/manualapprovalgate/manualapprovalgate.go:175-185 | marks exactly the trimmed names given |
| LoginCache.Cache.EnsureGroupMembers | pkg/manualapprovalgate/manualapprovalgate.go:280-323 | completes exactly when its commands are confirmed and the members, as split from the printed list, look right; a patch that took effect before an abort has changed the group |
| LoginCache.Cache.EnsureUserKubeconfig | pkg/manualapprovalgate/manualapprovalgate.go:675-703 | pops the mark before the login it calls for; what is returned and cached |
| LoginCache.Cache.CleanupUserKubeconfigs | pkg/manualapprovalgate/manualapprovalgate.go:706-718 | empties both maps |
| LoginCache.LooksSameIsSame | pkg/manualapprovalgate/manualapprovalgate.go:310-322 | comma-free memberships that look the same have the same members |
| LoginCache.LooksSameIff | pkg/manualapprovalgate/manualapprovalgate.go:310-318 | the same members in any order look the same; among comma-free tokens only they do |
| LoginCache.CommaHidesChange | pkg/manualapprovalgate/manualapprovalgate.go:316-322 | two memberships that look the same as text because of a comma |
| LoginCache.FailedLoginLosesMark | pkg/manualapprovalgate/manualapprovalgate.go:675-694 | a history after which a stale kubeconfig is returned, because a failed login consumed the mark |
| LoginCache.AbortedCallMarksNobody | pkg/manualapprovalgate/manualapprovalgate.go:304-314 | another one, because the call aborted after its patch took effect |
| LoginCache.HiddenChangeMarksNobody | pkg/manualapprovalgate/manualapprovalgate.go:310-322 | a history with a stale result for any two memberships that look the same as text |
| LoginCache.CommaMarksNobody | pkg/manualapprovalgate/manualapprovalgate.go:310-322 | such a history with a comma in a name |
| LoginCache.StaleIff | pkg/manualapprovalgate/manualapprovalgate.go:175-195 | over any history, a returned kubeconfig is stale exactly when, before the user logged in again after a change, the mark of the cached kubeconfig was lost or never set, and since then no mark was set and no cleanup done |
| LoginCache.LostStays | pkg/manualapprovalgate/manualapprovalgate.go:675-703 | from where a mark was lost, the kubeconfig stays cached and unmarked and nobody logs in, until a mark or a cleanup |
| LoginCache.MarkedOrLost | pkg/manualapprovalgate/manualapprovalgate.go:675-703 | as long as nobody logged in or cleaned up since a change, the user is marked or the mark was lost at a known point |
| LoginCache.StepOf | pkg/manualapprovalgate/manualapprovalgate.go:175-195 | how each operation moves one user's mark and cache entry |
| LoginCache.UnmarkedChangeIff | pkg/manualapprovalgate/manualapprovalgate.go:280-323 | for all names: a changed user ends unmarked exactly when unmarked before and the call aborted, saw no difference as text, or did not see the user among the names it split |
| LoginCache.UnseenIff | pkg/manualapprovalgate/manualapprovalgate.go:285-308 | a name with white space is never seen; among other names only a user removed from an unreadable group is not |
| LoginCache.SpacedNameAborts | pkg/manualapprovalgate/manualapprovalgate.go:304-314 | a call that gives a group a member with white space in its name aborts |
| LoginCache.MembersSetCompletes | pkg/manualapprovalgate/manualapprovalgate.go:304-314 | a confirmed call completes once the members are those asked for, in any order, if they are tokens |
| Strings.FieldsOfJoined | pkg/manualapprovalgate/manualapprovalgate.go:285-308 | splitting the printed members gives them back exactly when each is non-empty and free of white space |
| Strings.TrimSpaceParts | pkg/manualapprovalgate/manualapprovalgate.go:175-185 | trimming takes all white space off both ends and nothing else |
| LoginCache.DifferenceIsSeen | pkg/manualapprovalgate/manualapprovalgate.go:316-322 | without commas a difference in members is a difference as text |
| LoginCache.SmoothNeverStale | pkg/manualapprovalgate/manualapprovalgate.go:675-703 | without failed logins, aborted calls, unreadable groups and commas, no use ever returns a stale kubeconfig |
| LoginCache.RunHistory | pkg/manualapprovalgate/manualapprovalgate.go:675-718 | the code run on any history returns what the history says |
| LoginCache.Cache.PopUserAuthDirty | pkg/manualapprovalgate/manualapprovalgate.go:187-195 | returns and clears the mark |
| ApprovalGate.PendingApprovals | pkg/manualapprovalgate/manualapprovalgate.go:502-517 | required minus the number of distinct users who responded |
| ApprovalGate.RespondedIff | pkg/manualapprovalgate/manualapprovalgate.go:502-517 | who has responded: an own entry, or approval or rejection as a member of a group |
| ApprovalGate.RejectedCount | pkg/manualapprovalgate/manualapprovalgate.go:520-541 | the number of distinct users who rejected, directly or through any group |
| ApprovalGate.RejectedIff | pkg/manualapprovalgate/manualapprovalgate.go:520-541 | who has rejected: in an own entry or in a group's |
| ApprovalGate.PendingPlusRejected | pkg/manualapprovalgate/manualapprovalgate.go:502-541 | together never more than the required number |
| ApprovalGate.OrderAndRepetitionIrrelevant | pkg/manualapprovalgate/manualapprovalgate.go:502-541 | reordering or duplicating responses changes neither |
| Command.HasFlag | pkg/cmd/cmd.go:45-55 | true exactly when the flag occurs before any separator |
| Command.GivenIff | pkg/cmd/cmd.go:45-55 | given means the name, or the name and an equals sign, with no separator up to there |
| Command.Command | pkg/cmd/cmd.go:24-43 | the completed line, flag by flag with its own value, and the caller's arguments as its unchanged suffix |
| Command.ThreeFlags | pkg/cmd/cmd.go:24-43 | what is put in: kubeconfig, context and cluster, each under its name, where it is configured and not given |
| Command.InsertedIff | pkg/cmd/cmd.go:24-43 | what is added are exactly the configured flags the caller did not give |
| Command.CompleteTwice | pkg/cmd/cmd.go:24-55 | completing twice is completing once if no value hides a flag |
| Command.HiddenBreaks | pkg/cmd/cmd.go:45-55 | a command line on which a hidden flag is added again |
| Command.IdempotentIff | pkg/cmd/cmd.go:24-55 | idempotent on all command lines exactly when no configured separator hides another flag |
| Command.OverrideSuppresses | pkg/oc/oc.go:522-529 | a per-command context always suppresses the configured one |

## Left out

- The moment between reading an object, or stripping a binding, and deleting it: each get-then-delete in a cleanup is one step.
- Deletions of kinds whose cleanup does not poll (RBAC, Secrets, NetworkPolicies) take effect at once when confirmed; kinds with a polling cleanup may linger.
- The field `runName` is a function of the prefix and is not stored; waiting for readiness of Kueue, TektonConfig and queues is an arbitrary outcome, as are DNS lookups and the credential scope check.
- KueueEnvironment.Environment.SendIntegration: the server stores what it is sent; admission webhooks that rewrite the object are not modelled.
- KueueEnvironment.Environment.InstallOnce: reading a scheduler section and writing it back is one step that a lost race turns into a retry; the versions behind that are modelled for Kueue objects only.
- GitHubProject.SetupGitHubProject: branches, webhooks and readiness are arbitrary outcomes, and a deletion of the rollback either works or does nothing; generated files are not modelled.
- Hooks.NamespaceManager.BeforeEach: creating a project succeeds; waiting for its service account is not modelled.
- LoginCache.Cache.EnsureGroupMembers: calls are sequential and do not interleave with logins; `DeleteGroup` marks nobody and is not one of the tracked changes; a failure to make the group leaves it as it was.
- Bootstrap.Cluster.EnsurePrerequisites: whether an API group is served is an arbitrary outcome; nobody else adds or removes Subscriptions or OperatorGroups during a call; channel and catalog of a Subscription are not modelled.
- NetworkPolicy.TektonConfig.EnsureCustomPolicy: the policy name is taken as plain text, and nobody else writes TektonConfig during the call; whether the policy appears on the cluster is an arbitrary outcome.
- JsonText.RoundTrip: no insignificant whitespace, fractions, exponents or surrogate pairs, none of which the helpers print.
- The other resources of `pkg/multicluster` (their creation, ownership and deletion) and `restoreTektonConfig`'s plain overwrite of the scheduler: they would only repeat the register-then-create results in an easier form.
- Client construction, subprocesses, temporary files, HTTP and YAML, certificates, random names (taken as fresh) and message wording.
- `pkg/wait`, `pkg/monitoring`, `pkg/statefulset`, `pkg/k8s`, `pkg/tlsscanner`, `pkg/triggers`, `pkg/opc`, `pkg/diagnostics`, the GitLab half of `pkg/pac`, `pkg/oc/olm_skiprange.go`, `pkg/testcase` and everything under `tests`: single-branch checks, command wrappers and scenario scripts that would only add easy members.
