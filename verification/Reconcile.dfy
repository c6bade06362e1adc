/**
  What one call of the machine controller does to the cluster, as functions of the cluster, the
  controller's copy of the machine record, and the outcomes of its calls. Class `Controller` carries
  the same behaviour in imperative form and is proved against these functions.
*/
module Reconcile {
  import opened Replies
  import opened Cluster

  const FINALIZER := "deletion.vm.rancher.io"
  const OUI := "06:fe"

  /** The record with instance id, MAC address and finalizer filled in. */
  function Prepared(vm: VM): VM {
    var u := vm.uid;
    vm.(status := vm.status.(
          id := "i-" + u[..8],
          mac := OUI + ":" + u[..2] + ":" + u[2..4] + ":" + u[4..6] + ":" + u[6..8]),
        finalizers := vm.finalizers + [FINALIZER])
  }

  predicate Unprepared(vm: VM) {
    vm.status.id == "" && vm.status.mac == "" && vm.finalizers == []
  }

  /** Writes only when something differs. */
  function UpdateStatus(w: World, current: VM, updated: VM, o: Outcome): Result {
    if current.status != updated.status || current.finalizers != updated.finalizers || current.spec != updated.spec
    then UpdateVM(w, updated, o)
    else Result(w, Nil)
  }

  function StatusWithPod(vm: VM, pod: Pod): VM {
    vm.(status := vm.status.(
          nodeName := if pod.node != "" then pod.node else vm.status.nodeName,
          nodeIP := if pod.hostIP != "" then pod.hostIP else vm.status.nodeIP,
          state := if pod.deleting then Stopping else if pod.ready then Running else Pending))
  }

  function WithState(vm: VM, state: State): VM {
    vm.(status := vm.status.(state := state))
  }

  function NewPod(vm: VM, name: string, created: nat, port: Option<nat>): Pod {
    Pod(name, created, if vm.spec.nodeName == "" then None else Some(vm.spec.nodeName), port,
        "", "", "", false, false, false)
  }

  function BootPod(vm: VM, input: Input): Pod {
    NewPod(vm, input.bootName, input.bootTime, None)
  }

  function TargetPod(vm: VM, input: Input): Pod {
    NewPod(vm, input.targetName, input.targetTime, Some(32768 + input.rand % 32768))
  }

  /** Image and credentials are looked up before any pod is made. */
  function Lookup(w: World): Error {
    if w.image.ImageMissing? then NotFound
    else if w.image.ImageNotReady? then Failed
    else if !w.keysFound then NotFound
    else Nil
  }

  datatype PodResult = PodResult(w: World, pod: Option<Pod>, err: Error)

  function UpdateMachinePod(w: World, vm: VM, input: Input): PodResult {
    if Lookup(w) != Nil then PodResult(w, None, Lookup(w))
    else
      var alive := Alive(w.pods);
      if |alive| == 0 then
        var boot := BootPod(vm, input);
        var Result(w1, e1) := CreatePod(w, boot, input.Fate(BootCreate));
        if e1 != Nil then PodResult(w1, None, e1)
        else
          var Result(w2, e2) := UpdateStatus(w1, vm, StatusWithPod(vm, boot), input.Fate(PodStatusUpdate));
          PodResult(w2, Some(boot), e2)
      else if |alive| == 1 then
        var Result(w1, e1) := UpdateStatus(w, vm, StatusWithPod(vm, alive[0]), input.Fate(PodStatusUpdate));
        PodResult(w1, Some(alive[0]), e1)
      else PodResult(w, None, Nil)
  }

  // ---- console

  function UpdateNovncPod(w: World, input: Input): Result {
    if !w.console.Absent? then Result(w, Nil)
    else Attempt(w, input.Fate(ConsoleCreate), w.(console := Present))
  }

  function WithEndpoint(vm: VM, e: Endpoint): VM {
    vm.(status := vm.status.(vncEndpoint := e))
  }

  function UpdateNovncService(w: World, vm: VM, input: Input): Result {
    var Result(w1, e1) :=
      if w.service.Some? then Result(w, Nil)
      else Attempt(w, input.Fate(ServiceCreate), w.(service := Some(input.nodePort)));
    if e1 != Nil || w1.service.None? then Result(w1, e1)
    else if vm.status.nodeIP == "" || w1.service.value <= 0 then Result(w1, Nil)
    else
      UpdateStatus(w1, vm, WithEndpoint(vm, Endpoint(vm.status.nodeIP, w1.service.value)), input.Fate(VncUpdate))
  }

  function UpdateNovnc(w: World, vm: VM, input: Input): Result {
    if vm.spec.hostedNovnc then
      UpdateNovncService(UpdateNovncPod(w, input).w, vm, input)
    else
      var w1 := DeleteConsole(w, input.Fate(ConsoleDelete)).w;
      var w2 := DeleteService(w1, input.Fate(ServiceDelete)).w;
      UpdateStatus(w2, vm, WithEndpoint(vm, NoEndpoint), input.Fate(VncUpdate))
  }

  // ---- live migration

  /** Of two alive pods the one created first; the second of the list when the times are equal. */
  function Older(alive: seq<Pod>): Pod
    requires |alive| == 2
  {
    if alive[0].created < alive[1].created then alive[0] else alive[1]
  }

  function Newer(alive: seq<Pod>): Pod
    requires |alive| == 2
  {
    if alive[0].created < alive[1].created then alive[1] else alive[0]
  }

  /** `pair` is true when an older and a newer pod were found. */
  datatype TargetResult = TargetResult(w: World, pair: bool, ready: bool, err: Error)

  function StartTarget(w: World, vm: VM, input: Input): TargetResult {
    if Lookup(w) != Nil then TargetResult(w, false, false, Lookup(w))
    else
      var alive := Alive(w.pods);
      if |alive| == 1 then
        var Result(w1, e1) := CreatePod(w, TargetPod(vm, input), input.Fate(TargetCreate));
        if e1 != Nil then TargetResult(w1, false, false, e1)
        else TargetResult(w1, false, false, if input.Fate(TargetGet).Accepted? then Nil else Failed)
      else if |alive| == 2 then TargetResult(w, true, alive[0].ready && alive[1].ready, Nil)
      else TargetResult(w, false, false, Failed)
  }

  function JobFor(source: Pod, target: Pod): Job
    requires target.migratePort.Some?
  {
    Job(source.name, target.podIP, target.migratePort.value, 0, false)
  }

  datatype JobResult = JobResult(w: World, succeeded: bool, err: Error)

  function RunJob(w: World, source: Pod, target: Pod, input: Input): JobResult {
    if w.job.Some? then JobResult(w, w.job.value.succeeded == 1, Nil)
    else if target.migratePort.None? then JobResult(w, false, Failed)
    else
      var Result(w1, e1) := Attempt(w, input.Fate(JobCreate), w.(job := Some(JobFor(source, target))));
      JobResult(w1, false, e1)
  }

  function Rollback(w: World, vm: VM, target: Pod, input: Input): Result {
    var Result(w1, e1) := DeleteJob(w, input.Fate(JobDelete));
    if e1 != Nil && e1 != NotFound then Result(w1, e1)
    else
      var Result(w2, e2) := DeletePod(w1, target.name, input.Fate(TargetDelete));
      if e2 != Nil && e2 != NotFound then Result(w2, e2)
      else UpdateStatus(w2, vm, WithState(vm, Running), input.Fate(RollbackUpdate))
  }

  function Moved(vm: VM, target: Pod): VM {
    StatusWithPod(vm.(spec := vm.spec.(action := Start)), target)
  }

  function Cleanup(w: World, vm: VM, source: Pod, target: Pod, input: Input): Result {
    var Result(w1, e1) := UpdateStatus(w, vm, Moved(vm, target), input.Fate(CleanupUpdate));
    if e1 != Nil then Result(w1, e1)
    else
      var Result(w2, e2) := DeletePod(w1, source.name, input.Fate(SourceDelete));
      if e2 != Nil then Result(w2, e2)
      else
        var Result(w3, e3) := DeleteJob(w2, input.Fate(JobDelete));
        if e3 != Nil then Result(w3, e3)
        else DeleteConsole(w3, input.Fate(ConsoleDelete))
  }

  /** Migration of a machine whose record, in the controller's hands, says Migrating. */
  function ContinueMigration(w: World, vm: VM, input: Input): Result {
    var TargetResult(w1, pair, ready, e1) := StartTarget(w, vm, input);
    if e1 != Nil then Result(w1, e1)
    else
      var alive := Alive(w1.pods);
      if pair && |alive| == 2 && vm.spec.nodeName == Older(alive).node then
        Rollback(w1, vm, Newer(alive), input)
      else if !ready || |alive| != 2 then Result(w1, Nil)
      else
        var JobResult(w2, succeeded, e2) := RunJob(w1, Older(alive), Newer(alive), input);
        if e2 != Nil || !succeeded then Result(w2, e2)
        else Cleanup(w2, vm, Older(alive), Newer(alive), input)
  }

  function Migrate(w: World, vm: VM, input: Input): Result {
    match vm.status.state
    case Running =>
      var Result(w1, e1) := UpdateStatus(w, vm, WithState(vm, Migrating), input.Fate(MigratingUpdate));
      if e1 != Nil then Result(w1, e1) else ContinueMigration(w1, WithState(vm, Migrating), input)
    case Migrating => ContinueMigration(w, vm, input)
    case _ => Result(w, Failed)
  }

  // ---- start, stop, delete

  /** The user moved a machine whose only pod cannot be scheduled. */
  predicate Misplaced(vm: VM, pod: Pod) {
    vm.status.state == Pending && pod.unschedulable && pod.affinity.Some? && vm.spec.nodeName != pod.affinity.value
  }

  predicate WantsMigration(vm: VM, pod: Option<Pod>) {
    || (pod.Some? && vm.spec.nodeName != "" && vm.spec.nodeName != pod.value.node && vm.status.state == Running)
    || vm.status.state == Migrating
  }

  function StartVM(w: World, vm: VM, input: Input): Result {
    var PodResult(w1, pod, e1) := UpdateMachinePod(w, vm, input);
    if e1 != Nil then Result(w1, e1)
    else
      var Result(w2, e2) :=
        if pod.Some? && pod.value.name != "" then UpdateNovnc(w1, vm, input) else Result(w1, Nil);
      if pod.Some? && Misplaced(vm, pod.value) then
        DeletePod(w2, pod.value.name, input.Fate(UnschedulableDelete))
      else if WantsMigration(vm, pod) then Migrate(w2, vm, input)
      else Result(w2, e2)
  }

  /** The state `stop` records: the last of the three deletions that was not "not found" decides. */
  function StopState(pods: Error, job: Error, console: Error): State {
    if console != NotFound then (if console == Nil then Stopping else Errored)
    else if job != NotFound then (if job == Nil then Stopping else Errored)
    else if pods == Nil then Stopping
    else if pods == NotFound then Stopped
    else Errored
  }

  function StopVM(w: World, vm: VM, input: Input): Result {
    var Result(w1, e1) := DeleteLabelledPods(w, input.Fate(PodsDelete));
    var Result(w2, e2) := DeleteJob(w1, input.Fate(JobDelete));
    var Result(w3, e3) := DeleteConsole(w2, input.Fate(ConsoleDelete));
    var stopped := vm.(status := vm.status.(
                         nodeName := if e1 == NotFound then "" else vm.status.nodeName,
                         state := StopState(e1, e2, e3)));
    UpdateStatus(w3, vm, stopped, input.Fate(StopUpdate))
  }

  function CreateLonghorn(w: World, input: Input): Result {
    if w.image.ImageMissing? then Result(w, NotFound)
    else if !w.image.ImageReady? then Result(w, Failed)
    else if !input.Fate(VolumeGet).Accepted? then Result(w, Failed)
    else
      var Result(w1, e1) :=
        if w.volume.Absent? then Attempt(w, input.Fate(VolumeCreate), w.(volume := Present)) else Result(w, Nil);
      if e1 != Nil then Result(w1, e1)
      else
        var Result(w2, e2) :=
          if w1.pv.Absent? then Attempt(w1, input.Fate(PVCreate), w1.(pv := Present)) else Result(w1, Nil);
        if e2 != Nil then Result(w2, e2)
        else if w2.pvc.Absent? then Attempt(w2, input.Fate(PVCCreate), w2.(pvc := Present))
        else Result(w2, Nil)
  }

  function DeleteLonghorn(w: World, input: Input): Result {
    if !input.Fate(VolumeGet).Accepted? then Result(w, Failed)
    else
      var Result(w1, e1) :=
        if w.volume.Absent? then Result(w, Nil) else Attempt(w, input.Fate(VolumeDelete), w.(volume := Going));
      if e1 != Nil then Result(w1, e1)
      else
        var Result(w2, e2) := Deleted(w1, w1.pv, input.Fate(PVDelete), w1.(pv := Going));
        if e2 != Nil && e2 != NotFound then Result(w2, e2)
        else
          var Result(w3, e3) := Deleted(w2, w2.pvc, input.Fate(PVCDelete), w2.(pvc := Going));
          if e3 == NotFound then Result(w3, Nil) else Result(w3, e3)
  }

  function Terminate(w: World, vm: VM, input: Input): Result {
    if vm.status.state != Terminating then
      UpdateStatus(w, vm, WithState(vm, Terminating), input.Fate(TerminatingUpdate))
    else
      var Result(w1, e1) := DeleteLabelledPods(w, input.Fate(PodsDelete));
      var Result(w2, e2) := DeleteConsole(w1, input.Fate(ConsoleDelete));
      var Result(w3, e3) := DeleteService(w2, input.Fate(ServiceDelete));
      var Result(w4, e4) := if vm.spec.longhorn then DeleteLonghorn(w3, input) else Result(w3, Nil);
      if e4 != Nil then Result(w4, e4)
      else if e1 == NotFound && e2 == NotFound && e3 == NotFound then
        UpdateStatus(w4, vm, vm.(finalizers := []), input.Fate(FinalizerUpdate))
      else Result(w4, Nil)
  }

  /** One reconcile of the machine from the controller's copy `vm` of its record. */
  function Process(w: World, vm: VM, input: Input): Result {
    if vm.deleting then Terminate(w, vm, input)
    else if Unprepared(vm) then UpdateVM(w, Prepared(vm), input.Fate(PrepareUpdate))
    else
      match vm.spec.action
      case Start =>
        var Result(w1, e1) := if vm.spec.longhorn then CreateLonghorn(w, input) else Result(w, Nil);
        if e1 != Nil then Result(w1, e1) else StartVM(w1, vm, input)
      case Stop => StopVM(w, vm, input)
      case Reboot => Result(w, Nil)
  }
}
