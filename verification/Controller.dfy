/**
  The machine controller in the source's own form: methods that act on the cluster call by call, with
  early returns and a record copy that is edited step by step. Each is proved to have exactly the effect
  of the function of the same name in `Reconcile`.
*/
module Controller {
  import opened Replies
  import opened Cluster
  import opened Reconcile
  import Safety
  import Pods
  import Runs
  import Ownership
  import Stopping

  /** The pods without a deletion mark. */
  method GetAlivePods(pods: seq<Pod>) returns (alivePods: seq<Pod>)
    ensures alivePods == Alive(pods)
  {
    alivePods := [];
    for i := 0 to |pods|
      invariant alivePods == Alive(pods[..i])
    {
      assert pods[..i + 1][..i] == pods[..i];
      if !pods[i].deleting {
        alivePods := alivePods + [pods[i]];
      }
    }
    assert pods[..|pods|] == pods;
  }

  class MachineController {
    var vm: Option<VM>
    var pods: seq<Pod>
    var job: Option<Job>
    var jobPod: Presence
    var console: Presence
    var service: Option<int>
    var volume: Presence
    var pv: Presence
    var pvc: Presence
    const image: Image
    const keysFound: bool

    function Now(): World
      reads this
    {
      World(vm, pods, job, jobPod, console, service, volume, pv, pvc, image, keysFound)
    }

    constructor (w: World)
      ensures Now() == w
    {
      vm, pods, job, jobPod, console := w.vm, w.pods, w.job, w.jobPod, w.console;
      service, volume, pv, pvc := w.service, w.volume, w.pv, w.pvc;
      image, keysFound := w.image, w.keysFound;
    }

    // ---- calls to the API server

    method Update(updated: VM, o: Outcome) returns (err: Error)
      modifies this`vm
      ensures Result(Now(), err) == UpdateVM(old(Now()), updated, o)
    {
      if o.Rejected? {
        return Failed;
      }
      if vm.None? {
        return NotFound;
      }
      if vm.value.version != updated.version {
        return Conflict;
      }
      if updated.deleting && updated.finalizers == [] {
        vm := None;
      } else if updated != vm.value {
        vm := Some(updated.(version := vm.value.version + 1));
      }
      err := if o.Lost? then Failed else Nil;
    }

    method Create(pod: Pod, o: Outcome) returns (err: Error)
      modifies this`pods
      ensures Result(Now(), err) == CreatePod(old(Now()), pod, o)
    {
      if o.Rejected? {
        return Failed;
      }
      if pod.name in Names(pods) {
        return AlreadyExists;
      }
      pods := pods + [pod];
      err := if o.Lost? then Failed else Nil;
    }

    method Delete(name: string, o: Outcome) returns (err: Error)
      modifies this`pods
      ensures Result(Now(), err) == DeletePod(old(Now()), name, o)
    {
      if o.Rejected? {
        return Failed;
      }
      if name !in Names(pods) {
        return NotFound;
      }
      pods := Mark(pods, name);
      err := if o.Lost? then Failed else Nil;
    }

    method DeleteConsolePod(o: Outcome) returns (err: Error)
      modifies this`console
      ensures Result(Now(), err) == DeleteConsole(old(Now()), o)
    {
      if o.Rejected? {
        return Failed;
      }
      if console.Absent? {
        return NotFound;
      }
      console := Going;
      err := if o.Lost? then Failed else Nil;
    }

    method DeleteConsoleService(o: Outcome) returns (err: Error)
      modifies this`service
      ensures Result(Now(), err) == DeleteService(old(Now()), o)
    {
      if o.Rejected? {
        return Failed;
      }
      if service.None? {
        return NotFound;
      }
      service := None;
      err := if o.Lost? then Failed else Nil;
    }

    method DeleteMigrationJob(o: Outcome) returns (err: Error)
      modifies this`job, this`jobPod
      ensures Result(Now(), err) == DeleteJob(old(Now()), o)
    {
      if o.Rejected? {
        return Failed;
      }
      if job.None? {
        return NotFound;
      }
      job := Some(job.value.(deleting := true));
      jobPod := Leaving(jobPod);
      err := if o.Lost? then Failed else Nil;
    }

    method DeleteMachinePods(o: Outcome) returns (err: Error)
      modifies this`pods, this`console, this`jobPod
      ensures Result(Now(), err) == DeleteLabelledPods(old(Now()), o)
    {
      if pods == [] && console.Absent? && jobPod.Absent? {
        return NotFound;
      }
      if o.Rejected? {
        return Failed;
      }
      pods := MarkAll(pods);
      console, jobPod := Leaving(console), Leaving(jobPod);
      err := if o.Lost? then Failed else Nil;
    }

    // ---- the machine's status

    method UpdateMachineStatus(current: VM, updated: VM, o: Outcome) returns (err: Error)
      modifies this`vm
      ensures Result(Now(), err) == UpdateStatus(old(Now()), current, updated, o)
    {
      err := Nil;
      if current.status != updated.status || current.finalizers != updated.finalizers || current.spec != updated.spec {
        err := Update(updated, o);
      }
    }

    method UpdateMachineStatusWithPod(machine: VM, machine2: VM, pod: Pod, o: Outcome) returns (err: Error)
      modifies this`vm
      ensures Result(Now(), err) == UpdateStatus(old(Now()), machine, StatusWithPod(machine2, pod), o)
    {
      var status := machine2.status;
      if pod.node != "" {
        status := status.(nodeName := pod.node);
      }
      if pod.hostIP != "" {
        status := status.(nodeIP := pod.hostIP);
      }
      if pod.deleting {
        status := status.(state := State.Stopping);
      } else if pod.ready {
        status := status.(state := Running);
      } else {
        status := status.(state := Pending);
      }
      assert machine2.(status := status) == StatusWithPod(machine2, pod);
      err := UpdateMachineStatus(machine, machine2.(status := status), o);
    }

    method UpdateMachinePodAndStatus(machine: VM, input: Input) returns (pod: Option<Pod>, err: Error)
      modifies this`vm, this`pods
      ensures var r := UpdateMachinePod(old(Now()), machine, input);
        Now() == r.w && err == r.err && (err == Nil ==> pod == r.pod)
    {
      hide UpdateStatus, StatusWithPod, CreatePod, Alive;
      pod := None;
      if image.ImageMissing? {
        return None, NotFound;
      }
      if !image.ImageReady? {
        return None, Failed;
      }
      if !keysFound {
        return None, NotFound;
      }
      var alivePods := GetAlivePods(pods);
      if |alivePods| == 0 {
        var boot := BootPod(machine, input);
        err := Create(boot, input.Fate(BootCreate));
        if err != Nil {
          return;
        }
        pod := Some(boot);
      } else if |alivePods| == 1 {
        pod := Some(alivePods[0]);
      } else {
        return None, Nil;
      }
      err := UpdateMachineStatusWithPod(machine, machine, pod.value, input.Fate(PodStatusUpdate));
    }

    // ---- console

    method UpdateConsolePod(input: Input) returns (err: Error)
      modifies this`console
      ensures Result(Now(), err) == UpdateNovncPod(old(Now()), input)
    {
      if !console.Absent? {
        return Nil;
      }
      if input.Fate(ConsoleCreate).Rejected? {
        return Failed;
      }
      console := Present;
      err := if input.Fate(ConsoleCreate).Lost? then Failed else Nil;
    }

    method UpdateConsoleService(machine: VM, input: Input) returns (err: Error)
      modifies this`service, this`vm
      ensures Result(Now(), err) == UpdateNovncService(old(Now()), machine, input)
    {
      hide UpdateStatus;
      if service.None? {
        if input.Fate(ServiceCreate).Rejected? {
          return Failed;
        }
        service := Some(input.nodePort);
        if input.Fate(ServiceCreate).Lost? {
          return Failed;
        }
      }
      if machine.status.nodeIP == "" || service.value <= 0 {
        return Nil;
      }
      var machine2 := WithEndpoint(machine, Endpoint(machine.status.nodeIP, service.value));
      err := UpdateMachineStatus(machine, machine2, input.Fate(VncUpdate));
    }

    method UpdateConsole(machine: VM, input: Input) returns (err: Error)
      modifies this`console, this`service, this`vm
      ensures Result(Now(), err) == UpdateNovnc(old(Now()), machine, input)
    {
      hide UpdateStatus, UpdateNovncService, UpdateNovncPod, DeleteConsole, DeleteService;
      if machine.spec.hostedNovnc {
        err := UpdateConsolePod(input);
        err := UpdateConsoleService(machine, input);
      } else {
        err := DeleteConsolePod(input.Fate(ConsoleDelete));
        err := DeleteConsoleService(input.Fate(ServiceDelete));
        err := UpdateMachineStatus(machine, WithEndpoint(machine, NoEndpoint), input.Fate(VncUpdate));
      }
    }

    // ---- live migration

    method StartMigrateTargetPod(machine: VM, input: Input)
      returns (ready: bool, pair: Option<(Pod, Pod)>, err: Error)
      modifies this`pods
      ensures var r := StartTarget(old(Now()), machine, input);
        && Now() == r.w && err == r.err && ready == r.ready && pair.Some? == r.pair
        && (pair.Some? ==> var alive := Alive(pods); |alive| == 2 && pair.value == (Older(alive), Newer(alive)))
    {
      hide CreatePod, Alive;
      ready, pair := false, None;
      if image.ImageMissing? {
        return false, None, NotFound;
      }
      if !image.ImageReady? {
        return false, None, Failed;
      }
      if !keysFound {
        return false, None, NotFound;
      }
      var alivePods := GetAlivePods(pods);
      if |alivePods| == 1 {
        err := Create(TargetPod(machine, input), input.Fate(TargetCreate));
        if err == Nil && !input.Fate(TargetGet).Accepted? {
          err := Failed;
        }
      } else if |alivePods| == 2 {
        var oldPod, newPod := alivePods[0], alivePods[1];
        if !(oldPod.created < newPod.created) {
          oldPod, newPod := alivePods[1], alivePods[0];
        }
        pair, err := Some((oldPod, newPod)), Nil;
        ready := true;
        for i := 0 to |alivePods|
          invariant ready <==> forall j :: 0 <= j < i ==> alivePods[j].ready
        {
          if !alivePods[i].ready {
            ready := false;
          }
        }
      } else {
        err := Failed;
      }
    }

    method RunMigrationJob(oldPod: Pod, newPod: Pod, input: Input) returns (succeeded: bool, err: Error)
      modifies this`job
      ensures JobResult(Now(), succeeded, err) == RunJob(old(Now()), oldPod, newPod, input)
    {
      if job.Some? {
        return job.value.succeeded == 1, Nil;
      }
      if newPod.migratePort.None? {
        return false, Failed;
      }
      if input.Fate(JobCreate).Rejected? {
        return false, Failed;
      }
      job := Some(JobFor(oldPod, newPod));
      succeeded := false;
      err := if input.Fate(JobCreate).Lost? then Failed else Nil;
    }

    method MigrateRollback(machine: VM, pod: Pod, input: Input) returns (err: Error)
      modifies this`vm, this`pods, this`job, this`jobPod
      ensures Result(Now(), err) == Rollback(old(Now()), machine, pod, input)
      ensures pods == old(pods) || pods == Mark(old(pods), pod.name)
    {
      hide UpdateStatus, DeleteJob, DeletePod, Mark;
      Pods.RollbackEffect(Now(), machine, pod, input);
      err := DeleteMigrationJob(input.Fate(JobDelete));
      if err != Nil && err != NotFound {
        return;
      }
      err := Delete(pod.name, input.Fate(TargetDelete));
      if err != Nil && err != NotFound {
        return;
      }
      err := UpdateMachineStatus(machine, WithState(machine, Running), input.Fate(RollbackUpdate));
    }

    method MigrationCleanup(machine: VM, oldPod: Pod, newPod: Pod, input: Input) returns (err: Error)
      modifies this`vm, this`pods, this`job, this`jobPod, this`console
      ensures Result(Now(), err) == Cleanup(old(Now()), machine, oldPod, newPod, input)
      ensures Safety.Snapshot(old(Now()), machine) && machine.status.state == Migrating && !machine.deleting && !newPod.deleting ==>
                || pods == old(pods)
                || (&& pods == Mark(old(pods), oldPod.name)
                    && old(vm) == Some(machine) && vm == Pods.Committed(Moved(machine, newPod)))
    {
      hide UpdateStatus, DeleteJob, DeletePod, DeleteConsole, StatusWithPod, Mark, Safety.Snapshot, Pods.Committed;
      if Safety.Snapshot(Now(), machine) && machine.status.state == Migrating && !machine.deleting && !newPod.deleting {
        Pods.CleanupEffect(Now(), machine, oldPod, newPod, input);
      }
      var machine2 := machine.(spec := machine.spec.(action := Start));
      err := UpdateMachineStatusWithPod(machine, machine2, newPod, input.Fate(CleanupUpdate));
      if err != Nil {
        return;
      }
      err := Delete(oldPod.name, input.Fate(SourceDelete));
      if err != Nil {
        return;
      }
      err := DeleteMigrationJob(input.Fate(JobDelete));
      if err != Nil {
        return;
      }
      err := DeleteConsolePod(input.Fate(ConsoleDelete));
    }

    method MigrateMachine(machine: VM, input: Input) returns (err: Error)
      modifies this
      ensures Result(Now(), err) == Migrate(old(Now()), machine, input)
    {
      hide UpdateStatus, StartTarget, RunJob, Rollback, Cleanup, Alive;
      var current := machine;
      if machine.status.state == Running {
        current := WithState(machine, Migrating);
        err := UpdateMachineStatus(machine, current, input.Fate(MigratingUpdate));
        if err != Nil {
          return;
        }
      } else if machine.status.state != Migrating {
        return Failed;
      }
      err := ContinueMigrating(current, input);
    }

    method ContinueMigrating(machine: VM, input: Input) returns (err: Error)
      modifies this
      ensures Result(Now(), err) == ContinueMigration(old(Now()), machine, input)
    {
      hide UpdateStatus, RunJob, Rollback, Cleanup, Alive, TargetPod, CreatePod;
      var ready, pair;
      ready, pair, err := StartMigrateTargetPod(machine, input);
      if err != Nil {
        return;
      }
      if pair.Some? && machine.spec.nodeName == pair.value.0.node {
        err := MigrateRollback(machine, pair.value.1, input);
        return;
      }
      if !ready {
        return Nil;
      }
      var succeeded;
      succeeded, err := RunMigrationJob(pair.value.0, pair.value.1, input);
      if err != Nil || !succeeded {
        return;
      }
      err := MigrationCleanup(machine, pair.value.0, pair.value.1, input);
    }

    // ---- start, stop, delete

    method StartMachine(machine: VM, input: Input) returns (err: Error)
      modifies this
      ensures Result(Now(), err) == StartVM(old(Now()), machine, input)
      ensures Safety.Snapshot(old(Now()), machine) && !machine.deleting ==> Pods.StartEffect(old(Now()), Now(), machine, input)
    {
      hide UpdateMachinePod, UpdateNovnc, Migrate, DeletePod, Safety.Snapshot, Pods.StartEffect;
      if Safety.Snapshot(Now(), machine) && !machine.deleting {
        Pods.StartEffectHolds(Now(), machine, input);
      }
      var pod;
      pod, err := UpdateMachinePodAndStatus(machine, input);
      if err != Nil {
        return;
      }
      if pod.Some? && pod.value.name != "" {
        err := UpdateConsole(machine, input);
      }
      if machine.status.state == Pending && pod.Some? && pod.value.unschedulable {
        if pod.value.affinity.Some? && machine.spec.nodeName != pod.value.affinity.value {
          err := Delete(pod.value.name, input.Fate(UnschedulableDelete));
          return;
        }
      }
      if (pod.Some? && machine.spec.nodeName != "" && machine.spec.nodeName != pod.value.node
          && machine.status.state == Running) || machine.status.state == Migrating {
        err := MigrateMachine(machine, input);
      }
    }

    method StopMachine(machine: VM, input: Input) returns (err: Error)
      modifies this
      ensures Result(Now(), err) == StopVM(old(Now()), machine, input)
      ensures pods == old(pods) || pods == MarkAll(old(pods))
      ensures Safety.Snapshot(old(Now()), machine) && !machine.deleting && old(vm).Some? && old(vm).value.status.state != Stopped ==>
                (vm.Some? && vm.value.status.state == Stopped ==> Stopping.NothingLeft(old(Now())))
    {
      hide UpdateStatus, DeleteLabelledPods, DeleteJob, DeleteConsole, MarkAll, Safety.Snapshot, Stopping.NothingLeft;
      Runs.StopEffect(Now(), machine, input);
      if Safety.Snapshot(Now(), machine) && !machine.deleting && vm.Some? && vm.value.status.state != Stopped {
        Stopping.StopRecordsStopped(Now(), machine, input);
      }
      var status := machine.status;
      err := DeleteMachinePods(input.Fate(PodsDelete));
      if err == Nil {
        status := status.(state := State.Stopping);
      } else if err == NotFound {
        status := status.(state := Stopped, nodeName := "");
      } else {
        status := status.(state := Errored);
      }
      err := DeleteMigrationJob(input.Fate(JobDelete));
      if err == Nil {
        status := status.(state := State.Stopping);
      } else if err != NotFound {
        status := status.(state := Errored);
      }
      err := DeleteConsolePod(input.Fate(ConsoleDelete));
      if err == Nil {
        status := status.(state := State.Stopping);
      } else if err != NotFound {
        status := status.(state := Errored);
      }
      err := UpdateMachineStatus(machine, machine.(status := status), input.Fate(StopUpdate));
    }

    method CreateLonghornVolume(input: Input) returns (err: Error)
      modifies this`volume, this`pv, this`pvc
      ensures Result(Now(), err) == CreateLonghorn(old(Now()), input)
    {
      if image.ImageMissing? {
        return NotFound;
      }
      if !image.ImageReady? || !input.Fate(VolumeGet).Accepted? {
        return Failed;
      }
      if volume.Absent? {
        volume := if input.Fate(VolumeCreate).Rejected? then Absent else Present;
        if !input.Fate(VolumeCreate).Accepted? {
          return Failed;
        }
      }
      if pv.Absent? {
        pv := if input.Fate(PVCreate).Rejected? then Absent else Present;
        if !input.Fate(PVCreate).Accepted? {
          return Failed;
        }
      }
      if pvc.Absent? {
        pvc := if input.Fate(PVCCreate).Rejected? then Absent else Present;
        if !input.Fate(PVCCreate).Accepted? {
          return Failed;
        }
      }
      err := Nil;
    }

    method DeleteLonghornVolume(input: Input) returns (err: Error)
      modifies this`volume, this`pv, this`pvc
      ensures Result(Now(), err) == DeleteLonghorn(old(Now()), input)
    {
      if !input.Fate(VolumeGet).Accepted? {
        return Failed;
      }
      if !volume.Absent? {
        volume := if input.Fate(VolumeDelete).Rejected? then volume else Going;
        if !input.Fate(VolumeDelete).Accepted? {
          return Failed;
        }
      }
      if input.Fate(PVDelete).Rejected? {
        return Failed;
      }
      if !pv.Absent? {
        pv := Going;
        if input.Fate(PVDelete).Lost? {
          return Failed;
        }
      }
      if input.Fate(PVCDelete).Rejected? {
        return Failed;
      }
      if !pvc.Absent? {
        pvc := Going;
        if input.Fate(PVCDelete).Lost? {
          return Failed;
        }
      }
      err := Nil;
    }

    method TerminateMachine(machine: VM, input: Input) returns (err: Error)
      modifies this
      ensures Result(Now(), err) == Terminate(old(Now()), machine, input)
      ensures job == old(job)
      ensures machine.deleting && Ownership.Cached(old(Now()), machine) && Ownership.Owned(old(Now())) ==> Ownership.Owned(Now())
    {
      hide UpdateStatus, DeleteLabelledPods, DeleteConsole, DeleteService, DeleteLonghorn, Ownership.Cached, Ownership.Owned;
      Ownership.TerminateKeepsJob(Now(), machine, input);
      if machine.deleting && Ownership.Cached(Now(), machine) && Ownership.Owned(Now()) {
        Ownership.TerminateOwned(Now(), machine, input);
      }
      if machine.status.state != Terminating {
        err := UpdateMachineStatus(machine, WithState(machine, Terminating), input.Fate(TerminatingUpdate));
        return;
      }
      var err1 := DeleteMachinePods(input.Fate(PodsDelete));
      var err2 := DeleteConsolePod(input.Fate(ConsoleDelete));
      var err3 := DeleteConsoleService(input.Fate(ServiceDelete));
      if machine.spec.longhorn {
        err := DeleteLonghornVolume(input);
        if err != Nil {
          return;
        }
      }
      err := Nil;
      if err1 == NotFound && err2 == NotFound && err3 == NotFound {
        err := UpdateMachineStatus(machine, machine.(finalizers := []), input.Fate(FinalizerUpdate));
      }
    }

    /** One reconcile, from a copy of the record of any age. */
    method ProcessMachine(machine: VM, input: Input) returns (err: Error)
      modifies this
      ensures Result(Now(), err) == Process(old(Now()), machine, input)
      ensures Safety.Snapshot(old(Now()), machine) ==> Safety.OneWrite(old(Now()), Now(), machine)
      ensures Safety.Snapshot(old(Now()), machine) && Runs.AtMostTwo(old(Now())) ==> Runs.AtMostTwo(Now())
    {
      hide StartVM, StopVM, Terminate, CreateLonghorn, UpdateVM, Prepared, Safety.OneWrite, Runs.AtMostTwo;
      if Safety.Snapshot(Now(), machine) {
        Safety.ReconcileWritesOnce(Now(), machine, input);
        if Runs.AtMostTwo(Now()) {
          Runs.ReconcileKeepsTwo(Now(), machine, input);
        }
      }
      if machine.deleting {
        err := TerminateMachine(machine, input);
        return;
      }
      if machine.status.id == "" && machine.status.mac == "" && |machine.finalizers| == 0 {
        err := Update(Prepared(machine), input.Fate(PrepareUpdate));
        return;
      }
      match machine.spec.action
      case Start =>
        if machine.spec.longhorn {
          err := CreateLonghornVolume(input);
          if err != Nil {
            return;
          }
        }
        err := StartMachine(machine, input);
      case Stop =>
        err := StopMachine(machine, input);
      case Reboot =>
        err := Nil;
    }
  }
}
