# RancherVM: a verified model of its controllers, parser and streams

RancherVM runs virtual machines as Kubernetes pods. Its controllers repeatedly compare what a record asks
for with what the cluster holds, and act through an API server that can refuse, lose or outdate their
calls. This project models that logic in Dafny and proves what it keeps over whole runs.

There are four parts.

**Machines and live migration.** `Cluster` holds the part of the cluster that concerns one machine (its
record, pods, migration job, console, Longhorn storage) and the API calls. Each call of a reconcile is
accepted, rejected, or lost (it took effect but the controller is told it failed), independently of the
others. `Reconcile` gives the effect of `process` and everything below it as functions of the cluster, the
controller's copy of the record, and those outcomes. `Controller` is the same code in imperative form, each
method proved to have exactly that effect and to keep what the lemmas say about it. The results are in two
tiers.

- With any outcomes, any user edits and pod deaths, pods listed in any order and a copy of the record of
  any age: `Safety` (one reconcile commits at most one write and never undoes an edit), `Pods` and `Runs`
  (never more than two alive pods, and the only three reasons for which a pod is taken away), `Stopping`
  (what Stopped means). With copies of any age from a cache that never goes back: `Ownership` (nothing
  outlives the machine, storage is created once).
- When calls are answered and the only refusals are conflicts of a reconcile with its own earlier write:
  `Protocol` (Migrating exactly when two pods are alive, and the job fits the pair), `StaleJob` and
  `Lingering` (which job a migration ends with), `Convergence`, `Stopping` and `Deletion` (moves, stops and
  deletions finish), `HalfStart` (a migration that was only half started).

`Errors` says what a reconcile reports: which failed calls put a machine back in the queue, with any other
failures beside them, and what is reported when no call fails.

Progress is stated over free interleavings of reconciles and environment steps, most of which may only wait.
A variant falls with every reconcile that finds something to do and with every awaited event, it is zero at
the goal, and nothing else raises it (for images, setbacks of a node raise it by a bounded amount); so idle
steps cost nothing. From every state some run reaches the goal.

**Machine images.** `Images` is the pipeline of snapshot, backup, publish and provisioning; `ImageRuns`
proves the order of the stages, what the ready list holds, that Ready is stable, and that provisioning
finishes; `ImageStages` what the earlier stages record and that an image gets through them; `ImageErrors`
what is reported. `ImageController` is the imperative form. `Sorting` holds the byte order of names.

**Port mappings.** `PortText` has the token patterns with the order in which a regular expression tries its
alternatives; `PortMapping` the parser's functions, the grammar, the proof that they agree, and the printer;
`PortParser` the parser as it is written, advancing a position.

**The server.** `Watchers` is the watcher list with its lossy channels, `Streams` the clients that list
again after an event, `Names` the recovery of owners from pod and job names, `Batch` the creation of several
machines.

## Findings

Four properties the code would be expected to have fail in some runs; for each there is such a run and the
condition under which it holds.

- A migration can end on the word of another migration's job. The job is deleted in the foreground
  (pkg/controller/vm/migrate.go:74-82), so it stays listed until its pod is gone, and `runMigrationJob`
  looks only at its name and success count. `Lingering.CancelledJobEndsTheNext` gives the run: from every
  cancelled migration whose job was already made, the user asks for a third node, and the source pod is
  taken away on the word of the cancelled migration's job. `StaleJob.LingeringJobEndsMigration` shows the
  same of every migration that starts while a job is listed, and `StaleJob.MigrationEndsWithItsOwnJob` that
  without a listed job at the start this never happens.
- A machine's pods can outlive its record when the controller's copy of the record goes back in time
  (`Ownership.OldCopyLeavesAPod`). They cannot when copies never go back, however old they are
  (`Ownership.NothingOutlivesTheMachine`); and once the record is gone, a reconcile leaves nothing behind
  exactly when its copy is one of a deleted, unprepared or not started machine
  (`Ownership.HarmlessExactlyWhen`).
- Deleting a machine does not always finish. The deletion never touches the migration job
  (pkg/controller/vm/machine.go:83-104) but waits for the job's pod, which carries the machine's name label.
  A job at work can replace its pod each time, so that any number of reconciles leave the record
  (`Deletion.JobKeepsTheRecord`); without a job at work every deletion finishes (`Deletion.DeletionConverges`).
- A watcher shared by two clients on an open channel leaves one of them with an old list
  (`Streams.SharedWatcherGoesStale`); with one client, or on a closed channel, that never happens
  (`Streams.NoStaleClient`). In the repository every watcher is closed when `newRouter` returns.

Further limits, each stated by a lemma: one refused call at the start of a migration leaves two pods and a
record that does not say Migrating, after one more start (`HalfStart.RefusedTargetGetsStuck`), and for as
long as both pods stay alive and the action stays start no reconcile changes that (`HalfStart.StuckForGood`);
a migration job that is left outlives its machine (`Ownership.JobOutlivesTheMachine`); the reconcile that
finishes a migration reports an error when the machine has no console, although nothing is left to do
(`Errors.AnsweredErrors`), and console failures go unreported when a migration follows them in the same
reconcile (`Errors.Heeded`); an unfortunate image
name makes a publish pod lead to the wrong image (`Names.OwnerOfPublishPod`), and two images can share a pull
pod (`Names.PullPodsOfTwoImages`).

## Assumptions

- Listings of pods, jobs, services and images return the current contents and do not fail; reads of the
  Longhorn API may fail.
- One reconcile of a machine at a time, as with the single worker per queue at
  pkg/controller/vm/controller.go:285-289.
- Image names differ from machine names, so that the `name` label selects a machine's pods, its console pod
  and its job's pod only.
- A ready pod has a node and addresses; a pod's node and addresses are set once.
- The environment does not delete a machine's storage or remove its finalizer, and user edits do not change
  the machine's volume, so a machine stays on Longhorn or stays off it.
- A migration job's pod appears only while the job is neither deleted nor done.
- Reconciles of an image work from its current record.

## Model

| member | source | states |
|---|---|---|
| `Safety.ReconcileWritesOnce` | pkg/controller/vm/machine.go:58-105 | for every outcome of every call and a record copy of any age, at most one write of the record commits; it is made from the current record, bumps the version by one and keeps the spec; a stale copy writes nothing |
| `Safety.SecondWriteRefused` | pkg/controller/vm/machine.go:268-275 | a second write from the same snapshot never commits and reports an error |
| `Safety.NovncWrites` | pkg/controller/vm/novnc.go:14-79 | the console update adds no second write, on any path |
| `Safety.MigrationWrites` | pkg/controller/vm/migrate.go:18-105 | nor does starting, continuing, rolling back or finishing a migration |
| `Pods.StartEffectHolds` | pkg/controller/vm/machine.go:121-168 | complete case list of what a start can do to the pods: nothing, boot one, add a target, or mark one for one of three reasons; new names are unique |
| `Pods.MigrationEffect` | pkg/controller/vm/migrate.go:18-58 | with one alive pod a target may be added; with two, the newer is marked only on cancel and the older only when both are ready and the job succeeded |
| `Pods.RollbackEffect` | pkg/controller/vm/migrate.go:60-72 | rollback marks nothing but the target |
| `Pods.CleanupEffect` | pkg/controller/vm/migrate.go:88-105 | the source pod is marked only after the target's status was committed, whatever fails |
| `Pods.PodUpdateEffect` | pkg/controller/vm/machine.go:199-248 | a boot pod is created only when no pod is alive, and two alive pods are left alone |
| `Runs.NeverThreePods` | pkg/controller/vm/machine.go:226-243 | in every run, under any failures, edits and deaths, at most two pods are alive |
| `Runs.ReconcileKeepsTwo` | pkg/controller/vm/machine.go:58-105 | every reconcile keeps that bound and the uniqueness of pod names |
| `Runs.WhyAPodGoes` | pkg/controller/vm/migrate.go:33-58 | a start takes a pod away only if it is the only one, the state is Pending, it is unschedulable and pinned to a node other than the requested one; or it is the target of a cancelled migration; or the source of a finished one whose new status is committed |
| `Runs.LastPodStays` | pkg/controller/vm/machine.go:134-158 | whatever fails, a start leaves no machine without an alive pod, except for that unschedulable pod pinned elsewhere |
| `Runs.TwoLeaveOne` | pkg/controller/vm/migrate.go:33-58 | of two alive pods a start leaves at least one, whatever fails |
| `Runs.StopEffect` | pkg/controller/vm/machine.go:277-288 | a stop marks all of the machine's pods or none |
| `Ownership.NothingOutlivesTheMachine` | pkg/controller/vm/machine.go:58-119 | in every run of a machine created through the server, with failing calls and a record cache that lags behind by any amount but never goes back: pods, console and service exist only under the finalizer; when the record is gone they are gone and storage is gone or going |
| `Ownership.CacheRunIsRun` | pkg/controller/vm/machine.go:268-275 | a copy from such a cache is outdated or the current record, so everything said of all runs holds of these |
| `Ownership.OldCopyLeavesAPod` | pkg/controller/vm/machine.go:199-238 | without the order of copies the property is false: a run that ends with a pod and no record |
| `Ownership.HarmlessExactlyWhen` | pkg/controller/vm/machine.go:58-105 | once the record is gone, reconciling from a copy leaves nothing behind if and only if the copy is of a deleted, unprepared or not started machine |
| `Ownership.TerminateOwned` | pkg/controller/vm/machine.go:83-104 | the finalizer goes only in a step that found no pod, console or service and had every storage deletion accepted |
| `Ownership.PartsCreatedOnce` | pkg/controller/vm/longhorn.go:46-82 | in every such run, whatever fails, volume, persistent volume and claim are each created by at most one step before the machine is told to go |
| `Ownership.PartStays` | pkg/controller/vm/longhorn.go:46-82 | a part that exists stays until then, through every failure and retry |
| `Ownership.LonghornRestartable` | pkg/controller/vm/longhorn.go:46-82 | one attempt creates only what is missing and in order; success means a ready image and all three parts |
| `Ownership.LonghornDeleted` | pkg/controller/vm/longhorn.go:84-106 | success means that no part is left that is not being deleted |
| `Ownership.PodsNeedImageAndStorage` | pkg/controller/vm/machine.go:199-238 | a boot or target pod appears only for a ready image, found credentials and, on Longhorn, complete storage |
| `Ownership.JobOutlivesTheMachine` | pkg/controller/vm/machine.go:83-104 | the step that removes the record leaves a migration job exactly when there was one |
| `Ownership.SomeJobOutlives` | pkg/controller/vm/machine.go:83-104 | and there are such steps |
| `Protocol.ProtocolHolds` | pkg/controller/vm/migrate.go:18-192 | in every state of every calm run: Migrating exactly when two pods are alive, the newer carries a migration port, and a job not told to go moves the machine from the older to the newer |
| `Protocol.ReconcileKeepsProtocol` | pkg/controller/vm/machine.go:121-275 | each reconcile keeps that invariant, through boot, move, cancel, finish and stop |
| `Protocol.EnvironmentKeepsProtocol` | pkg/controller/vm/migrate.go:127-171 | so does everything the environment does, pods listed in any order included |
| `Protocol.SingleStep` | pkg/controller/vm/machine.go:121-168 | with one alive pod a migration starts only in a step that wrote nothing before; then Migrating and the target pod come together |
| `Protocol.PairStep` | pkg/controller/vm/migrate.go:33-58 | the exact outcome with two alive pods: cancel before anything else, then wait, make the job, wait, finish |
| `Protocol.CalmStop` | pkg/controller/vm/machine.go:170-197 | everything is marked, and Stopped is recorded exactly when nothing was left |
| `Protocol.BootStep` | pkg/controller/vm/machine.go:199-248 | with no pod alive a start makes one pinned as the user asked, without a migration port, and the machine is Pending |
| `Protocol.PodsAreMadeAsAsked` | pkg/controller/vm/util.go:360-390 | whatever fails, every pod made is pinned as the user asked; a migration target, and only that, carries a port, drawn from the upper half of the ports |
| `Protocol.PreparedIdentity` | pkg/controller/vm/machine.go:107-119 | id and MAC hold the first eight characters of the uid behind their prefixes, so machines whose uids differ there differ in both |
| `Protocol.ConsoleUpdated` | pkg/controller/vm/novnc.go:14-79 | after an answered console update there are a console and a service if one is asked for, and otherwise no service and no console that was not told to go |
| `Protocol.StartSeesToConsole` | pkg/controller/vm/machine.go:121-132 | so after every answered start with one alive pod |
| `Protocol.EndpointRecorded` | pkg/controller/vm/novnc.go:54-79 | the endpoint recorded is the node's address with the service's port when both are known, and none without a console |
| `Errors.FailureIsReported` | pkg/controller/vm/machine.go:44-48 | whatever else fails, a failure of a heeded call changes nothing at all or makes the reconcile return an error, rejected or lost alike; heeded are all calls but the deletions of pods, console and service, the creation of the console pod, and console failures that something follows |
| `Errors.AnsweredErrors` | pkg/controller/vm/machine.go:58-81 | with answered calls a started machine reports only a missing or unready image, missing credentials, a conflict with a write of the same reconcile, or a missing console when a migration finishes; any other machine reports nothing |
| `Errors.DeletionAnswered` | pkg/controller/vm/machine.go:83-104 | nor does one that is being deleted |
| `Errors.OddMigrations` | pkg/controller/vm/migrate.go:18-31 | a state, a number of pods or a target it cannot go on with is reported and left alone |
| `Errors.UnreadStorage` | pkg/controller/vm/longhorn.go:46-106 | storage that cannot be looked at is left alone and reported |
| `StaleJob.MigrationEndsWithItsOwnJob` | pkg/controller/vm/migrate.go:173-192 | if migrations start with no job listed, the older pod only goes after a job for that very pair succeeded |
| `StaleJob.LingeringJobEndsMigration` | pkg/controller/vm/migrate.go:74-82 | if a job is still listed when a migration starts, some orderly continuation takes the source pod away on that job's word |
| `Lingering.CancelledJobEndsTheNext` | pkg/controller/vm/migrate.go:33-82 | from every cancelled migration with a job and for every other node, a calm run ends with the older pod taken away for a pod that did not exist at the cancellation, on the cancelled job's word |
| `Lingering.CancelKeepsTheJob` | pkg/controller/vm/migrate.go:60-82 | cancelling leaves the older pod alone and the job listed, told to go |
| `Lingering.StartComes` | pkg/controller/vm/machine.go:121-168 | reconciles alone bring a machine on the wrong node to the start of its migration, whatever job is listed |
| `Lingering.SomeCancelledPair` | pkg/controller/vm/migrate.go:33-58 | there is such a cancelled migration |
| `StaleJob.FinishMeansMigrated` | pkg/controller/vm/migrate.go:48-55 | a reconcile that replaces the older pod saw both ready and a succeeded job |
| `Convergence.MigrationConverges` | pkg/controller/vm/migrate.go:18-105 | in every interleaving of calm reconciles and environment steps, reconciles while the target is unscheduled or unready or the job runs included: after as many productive steps as the variant says, one ready pod on the requested node, matching status, no job, and console, service and endpoint there exactly if asked for; later reconciles change neither pods nor record |
| `Convergence.MoveCanFinish` | pkg/controller/vm/migrate.go:18-105 | from every state of a move, some run of productive steps finishes it |
| `Convergence.ReconcileMoves` | pkg/controller/vm/migrate.go:33-58 | a reconcile in the controller's turn strictly decreases the variant; any other leaves record, pods and job as they are |
| `Convergence.WaitMoves` | pkg/controller/vm/migrate.go:127-171 | no environment step increases the variant, and a target that is scheduled or ready, a job that succeeds or a deleted job that goes decreases it |
| `Convergence.DeliveryPossible` | pkg/controller/vm/migrate.go:44-51 | when it is not the controller's turn and the move is not done, the environment owes something and can give it |
| `Convergence.SingleMoves` | pkg/controller/vm/machine.go:121-168 | with one pod a reconcile makes one owed write, or starts the migration, or has nothing to do |
| `Stopping.StopConverges` | pkg/controller/vm/machine.go:170-197 | in every interleaving of stops and environment steps, idle ones included: after as many productive steps as the variant says, Stopped with an empty node name and nothing left; then a stop changes nothing |
| `Stopping.StopCanFinish` | pkg/controller/vm/machine.go:170-197 | from every state one stop, the disappearance of what it marked and another stop finish it |
| `Stopping.StoppedMeansGone` | pkg/controller/vm/machine.go:170-197 | whatever fails, Stopped is recorded only by a step that found no pod, job or console pod |
| `Stopping.StopRecords` | pkg/controller/vm/machine.go:170-197 | exact state and node name recorded for every combination of deletions that fail or find nothing |
| `Stopping.StopTriesAll` | pkg/controller/vm/machine.go:170-197 | one failed deletion does not keep a stop from trying the others |
| `Stopping.LastPodGoesExactlyWhen` | pkg/controller/vm/machine.go:137-158 | with answered calls the only pod goes if and only if the state is Pending and the pod is unschedulable and pinned to a node other than the requested one |
| `Deletion.DeletionConverges` | pkg/controller/vm/machine.go:83-119 | without a migration job at work, in every interleaving: after as many productive steps as the variant says, the record is gone and no pod, console or service is left |
| `Deletion.CalmTerminate` | pkg/controller/vm/machine.go:79-104 | exact outcome of one reconcile of a deleted machine: the record goes if and only if it says Terminating and nothing was left |
| `Deletion.TerminateTriesAll` | pkg/controller/vm/machine.go:83-97 | one failed deletion does not keep the others from being tried |
| `Deletion.DeletionCanFinish` | pkg/controller/vm/machine.go:83-104 | from every such state some run finishes the deletion |
| `Deletion.JobKeepsTheRecord` | pkg/controller/vm/machine.go:83-104 | with a job at work, for any number there is a run with that many answered reconciles in which the record never goes |
| `HalfStart.StuckForGood` | pkg/controller/vm/machine.go:226-243 | two alive pods and a state other than Migrating: in every run in which both stay alive and the action stays start, with any failures and edits, the status and the pods stay so and reconciles touch nothing but storage |
| `HalfStart.HalfStartedIsStuck` | pkg/controller/vm/machine.go:226-243 | in that state a start changes nothing, whatever its calls return |
| `HalfStart.RefusedTargetGetsStuck` | pkg/controller/vm/migrate.go:18-31 | one refused creation of the target and one ordinary start after it lead there |
| `HalfStart.TargetRefused` | pkg/controller/vm/migrate.go:18-31 | the refused creation leaves Migrating on record and the same pods |
| `HalfStart.TargetAfterAll` | pkg/controller/vm/machine.go:160-165 | a record that says Migrating with one ready pod: the next start writes Running over it and adds the target |
| `Controller.GetAlivePods` | pkg/controller/vm/util.go:18-26 | the loop returns the pods without a deletion mark, in order |
| `Controller.MachineController.ProcessMachine` | pkg/controller/vm/machine.go:58-105 | effect and error of one reconcile; at most one record write; at most two alive pods |
| `Controller.MachineController.StartMachine` | pkg/controller/vm/machine.go:121-168 | effect and error of a start, call by call; the pods change in one of the listed ways only |
| `Controller.MachineController.StopMachine` | pkg/controller/vm/machine.go:170-197 | the three overwritings of the state amount to the last deletion that found something; Stopped only if nothing was left; all pods are marked or none |
| `Controller.MachineController.TerminateMachine` | pkg/controller/vm/machine.go:83-104 | effect and error of deleting; the migration job is untouched and ownership is kept |
| `Controller.MachineController.UpdateMachinePodAndStatus` | pkg/controller/vm/machine.go:199-248 | effect, error and returned pod |
| `Controller.MachineController.UpdateMachineStatusWithPod` | pkg/controller/vm/machine.go:250-266 | node, address and state are taken over from the pod and written only when they differ |
| `Controller.MachineController.UpdateMachineStatus` | pkg/controller/vm/machine.go:268-275 | writes only when status, finalizers or spec differ |
| `Controller.MachineController.DeleteMachinePods` | pkg/controller/vm/machine.go:277-288 | not found exactly when no pod carries the machine's name label |
| `Controller.MachineController.MigrateMachine` | pkg/controller/vm/migrate.go:18-31 | records Migrating first, or refuses in other states |
| `Controller.MachineController.ContinueMigrating` | pkg/controller/vm/migrate.go:33-58 | effect and error of one migration step |
| `Controller.MachineController.StartMigrateTargetPod` | pkg/controller/vm/migrate.go:107-171 | adds the target with one alive pod; with two returns the older and the newer and whether both are ready |
| `Controller.MachineController.RunMigrationJob` | pkg/controller/vm/migrate.go:173-192 | reads an existing job's success or creates the job for the pair |
| `Controller.MachineController.MigrateRollback` | pkg/controller/vm/migrate.go:60-72 | job, then target pod, then state, stopping at the first real error; no pod but the target is marked |
| `Controller.MachineController.MigrationCleanup` | pkg/controller/vm/migrate.go:88-105 | status, then source pod, job and console, stopping at the first error; the source is marked only with the target's status committed |
| `Controller.MachineController.UpdateConsole` | pkg/controller/vm/novnc.go:14-36 | effect and error of the console update |
| `Controller.MachineController.UpdateConsoleService` | pkg/controller/vm/novnc.go:54-79 | service and endpoint |
| `Controller.MachineController.CreateLonghornVolume` | pkg/controller/vm/longhorn.go:46-82 | effect and error of storage creation |
| `Controller.MachineController.DeleteLonghornVolume` | pkg/controller/vm/longhorn.go:84-106 | effect and error of storage deletion |
| `ImageRuns.StagesStayInOrder` | pkg/controller/vm/machine_image.go:57-200 | in every run with any call failing: a backup rests on a snapshot, publishing on a backup and an earlier state in which the first terminated container named kaniko had exit code 0, provisioning on publishing, and no completed stage is undone |
| `ImageRuns.StepKeepsOrder` | pkg/controller/vm/machine_image.go:66-113 | the same for one step |
| `ImageRuns.KanikoFound` | pkg/controller/vm/machine_image.go:186-198 | the code found is that of the first container named kaniko that has terminated; none means there is none |
| `ImageRuns.PublishAnswered` | pkg/controller/vm/machine_image.go:169-200 | exact outcome of an answered publishing step: make the pod, wait, publish after code 0, report any other code and change nothing |
| `ImageStages.StagesRecord` | pkg/controller/vm/machine_image.go:66-167 | each stage before publishing records the reply of its own call: size, snapshot, backup URL and base image |
| `ImageStages.ImageGetsPublished` | pkg/controller/vm/machine_image.go:57-200 | in every run, with failing calls and publish pods that fail or vanish: once the advancing steps reach the variant plus a constant for each build lost, the image is published and has its size |
| `ImageStages.StepAdvances` | pkg/controller/vm/machine_image.go:66-113 | no step takes an image back, and an answered one in the controller's turn brings it on |
| `ImageStages.ImageCanBePublished` | pkg/controller/vm/machine_image.go:57-200 | from every state some run publishes the image |
| `ImageStages.PublishedIsProvisioning` | pkg/controller/vm/machine_image.go:106-113 | a published image whose stages are in order is one that provisioning takes over |
| `ImageErrors.FailureIsReported` | pkg/controller/vm/machine_image.go:57-114 | whatever else fails, a failed call of an image reconcile changes nothing at all or is reported |
| `ImageErrors.MissingIsReported` | pkg/controller/vm/machine_image.go:66-87 | a missing machine, parent image, volume, setting or minimum is reported and leaves the image alone |
| `ImageErrors.BackupNotFound` | pkg/controller/vm/machine_image.go:127-158 | a backup step without a usable backup leaves the image alone; it is an error unless the backup was made and is not listed yet |
| `Images.PassFinds` | pkg/controller/vm/machine_image.go:208-252 | an error-free pass over the nodes reports exactly those with the image and leaves each pull pod as it should be |
| `ImageRuns.RecordedNodes` | pkg/controller/vm/machine_image.go:253-268 | the recorded list is sorted, duplicate-free and holds exactly the listed nodes recorded before or pulled by now; Ready exactly if its length reaches the minimum or equals the number of nodes |
| `ImageRuns.ListStaysSorted` | pkg/controller/vm/machine_image.go:253-268 | in every run the recorded list is sorted and without duplicates |
| `ImageRuns.RecordedStay` | pkg/controller/vm/machine_image.go:208-231 | in every run a recorded node stays recorded for as long as it stays in the cluster |
| `ImageRuns.RecordedWerePulled` | pkg/controller/vm/machine_image.go:223-231 | in every run a node is recorded only if it was once listed with its pull pod seen to have succeeded |
| `ImageRuns.RecordedReady` | pkg/controller/vm/machine_image.go:264-268 | recording Ready leaves a list of listed nodes that reaches the minimum or covers all of them |
| `ImageRuns.ReadyIsStable` | pkg/controller/vm/machine_image.go:202-269 | Ready stays while nodes and minimum do not change |
| `ImageRuns.ProvisioningConverges` | pkg/controller/vm/machine_image.go:202-269 | for any finite set of nodes, in every interleaving, with pull pods that may fail or vanish: once the productive steps reach the variant plus a constant for each setback of a node, every node is recorded, no pull pod is left and the image is Ready |
| `ImageRuns.ProvisioningCanFinish` | pkg/controller/vm/machine_image.go:202-269 | from every provisioning state some run of four steps finishes it |
| `ImageRuns.NodeWork` | pkg/controller/vm/machine_image.go:208-252 | a reconcile with answered calls takes one stage off each node whose turn it is and leaves every other node's work as it was |
| `ImageRuns.ReconcileProvisions` | pkg/controller/vm/machine_image.go:202-269 | it never increases the variant and decreases it when some node or the final state is due |
| `Sorting.SortSorted` | pkg/controller/vm/machine_image.go:253 | the list is in byte order |
| `Sorting.SortMembers` | pkg/controller/vm/machine_image.go:253 | and a permutation |
| `ImageController.NodeContainsImage` | pkg/controller/vm/machine_image.go:301-308 | found exactly when the record lists the node |
| `ImageController.Controller.ProcessMachineImage` | pkg/controller/vm/machine_image.go:57-114 | effect and error of one reconcile; stages stay in order and none is undone |
| `ImageController.Controller.CreateImageBackup` | pkg/controller/vm/machine_image.go:127-167 | effect and error |
| `ImageController.Controller.Publish` | pkg/controller/vm/machine_image.go:169-200 | the first terminated kaniko container decides |
| `ImageController.Controller.Provision` | pkg/controller/vm/machine_image.go:202-269 | the loop over the nodes, stopping at the first error, then one write |
| `PortMapping.ElementGrammar` | mgmt/ranchervm:130-201 | an element is accepted with a mapping if and only if it is the text of that well-formed mapping |
| `PortMapping.LastEntryWins` | mgmt/ranchervm:235-236 | a list is accepted exactly when all elements are, and the last entry for a container port decides |
| `PortMapping.PrintedMappingsReadBack` | mgmt/ranchervm:413-425 | what is printed for a mapping reads back as it, exactly when no address or a dotted one is printed |
| `PortMapping.FormatIsText` | mgmt/ranchervm:413-425 | the printed text is the grammar's text of the mapping |
| `PortMapping.ElementComplete` | mgmt/ranchervm:130-201 | every well-formed mapping's text is accepted with that mapping |
| `PortMapping.PeekSound` | mgmt/ranchervm:203-217 | a token is a prefix of the text and has its kind's form |
| `PortMapping.PeekNumber` | mgmt/ranchervm:116-120 | a number not followed by a digit or dot is read whole and not as an address |
| `PortMapping.PeekAddress` | mgmt/ranchervm:116-120 | an address not followed by a digit is read whole |
| `PortMapping.SplitJoin` | mgmt/ranchervm:236 | splitting at commas loses nothing |
| `PortMapping.JoinSplit` | mgmt/ranchervm:236 | and is undone by joining |
| `PortText.MatchComplete` | mgmt/ranchervm:117-118 | the ordered choices of the address pattern consume exactly an address that no digit follows |
| `PortText.MatchSound` | mgmt/ranchervm:117-118 | whatever the pattern matches is an address |
| `PortText.OctetIsFirst` | mgmt/ranchervm:117-118 | a whole octet is the pattern's first choice |
| `PortParser.ReadPortMappings` | mgmt/ranchervm:123-236 | the loop over the elements computes the collected mappings or fails |
| `PortParser.Parser.PeekToken` | mgmt/ranchervm:203-217 | the next token of the text from the current position |
| `PortParser.Parser.GetToken` | mgmt/ranchervm:219-223 | returns it and moves past exactly its text |
| `PortParser.Parser.ExpectToken` | mgmt/ranchervm:225-229 | accepts exactly the expected kind |
| `PortParser.Parser.ReadElement` | mgmt/ranchervm:130-143 | the element's mapping, or failure if text is left or the parser fell through |
| `PortParser.Parser.ReadAddressMap` | mgmt/ranchervm:145-158 | value and new position after an address |
| `PortParser.Parser.ReadPortMap` | mgmt/ranchervm:160-172 | value and new position without an address |
| `PortParser.Parser.ReadContainerPort` | mgmt/ranchervm:183-189 | port with optional protocol |
| `PortParser.Parser.ReadPortNumber` | mgmt/ranchervm:197-201 | a number from 1 to 65535, kept as written |
| `Watchers.Server.NewWatcher` | pkg/server/server.go:132-143 | appends one fresh, open, empty watcher |
| `Watchers.Server.Close` | pkg/server/server.go:43-56 | closes the channel and removes exactly that watcher; the others stay distinct and open |
| `Watchers.Server.NotifyWatchers` | pkg/server/server.go:151-167 | each watcher of the resource gets one event if there is room, no other queue changes, and nothing is sent on a closed channel |
| `Watchers.WithoutMembers` | pkg/server/server.go:49-54 | removal from distinct watchers removes one and keeps the rest |
| `Streams.NoStaleClient` | pkg/server/stream.go:45-89 | in every interleaving the last list is current or an update is under way, for one client or a closed watcher |
| `Streams.SharedWatcherGoesStale` | pkg/server/server.go:169-175 | two or more clients of one open watcher can be left with an old list, from any quiet state |
| `Streams.QuietMeansCurrent` | pkg/server/stream.go:53-69 | when nothing is under way, the client has the current list |
| `Streams.Connection.WriteList` | pkg/server/stream.go:73-89 | sends exactly when the list differs; on failure the old response is kept |
| `Streams.Connection.Serve` | pkg/server/stream.go:45-69 | the loop handles events up to the first hang-up or failed listing, send or ping; the last message is the last list and no list is sent twice in a row |
| `Names.OwnerOfMachineNames` | pkg/controller/vm/pod.go:54-61 | machine pod, console pod and job names lead back to exactly their machine |
| `Names.MachineNamesDiffer` | pkg/controller/vm/util.go:393-398 | pod, console and job names of a machine differ, and so do pod names with different random numbers |
| `Names.OwnerOfPullPod` | pkg/controller/vm/machine_image.go:271-273 | a pull pod leads back to its image, for every image and node |
| `Names.OwnerOfPublishPod` | pkg/controller/vm/pod.go:63-72 | a publish pod leads back to its image exactly when the image name does not end in a dash and the pod's node name |
| `Names.PullPodsOfOneImage` | pkg/controller/vm/machine_image.go:271-273 | different nodes have different pull pods |
| `Names.PullPodsOfTwoImages` | pkg/controller/vm/machine_image.go:271-273 | exactly when two images share a pull pod name |
| `Batch.GeneratedNamesValid` | pkg/server/instance.go:193-200 | names generated from a valid base name are valid |
| `Batch.GeneratedNamesDistinct` | pkg/server/instance.go:194-198 | and pairwise distinct, for any count |
| `Batch.TwoDigits` | pkg/server/instance.go:194-198 | a number in at least two digits and no more leading zeros than that needs |
| `Batch.NameMatchesMeans` | pkg/server/validation.go:9-11 | the name pattern, tried character by character, matches exactly the label form |
| `Batch.IsValidName` | pkg/server/validation.go:23-29 | valid exactly when every name matches |
| `Batch.WithFirstMembers` | pkg/server/instance.go:193-216 | exactly the first k generated machines are added and all others are unchanged |
| `Batch.Server.InstanceCreateMany` | pkg/server/instance.go:193-216 | success adds exactly the batch; a conflict at the k-th leaves exactly the first k - 1 |

## Left out

- Work queues, leader election, tickers and the generated clients: only their effect, one reconcile at a
  time on a versioned store, is used.
- The contents of pod specifications beyond name, labels, node affinity and migration port.
- The HTTP handlers, request parsing and the user interface of pkg/server and mgmt/ranchervm.
- Settings, credentials and node lists, which are stored and returned unchanged; host networking
  (image/vm-tools, mgmt/gen_dnsmasq_conf), which runs shell commands; and the IP controller, which copies
  addresses from the ARP table into the records.
- Which backup is taken: the client returns the first one listed (pkg/controller/vm/longhorn_client.go:169).
- Pull pods of other images with the same pod name (`Names.PullPodsOfTwoImages`) do not interfere in `Images`.
- The record's IP field, which another controller writes.
- The rate limit of a stream, which only delays the next event.
- Convergence.MigrationConverges: assumes no user edits, that the scheduler obeys node affinity, that the
  alive pods stay alive and ready once they are, and that a running job is not removed from outside.
