/**
  What a reconcile reports. An error puts the machine back in the queue, so a call that failed unreported
  is not tried again until something else happens.
*/
module Errors {
  import opened Replies
  import opened Cluster
  import opened Reconcile
  import opened Safety
  import opened Pods
  import opened Runs
  import opened Ownership
  import opened Protocol
  import opened StaleJob
  import opened Deletion

  // ---- failed calls

  /** The same reconcile with another fate for one call. */
  function With(input: Input, c: Call, o: Outcome): Input {
    input.(faults := input.faults[c := o])
  }

  /** Deletions that find nothing to delete are no errors here. */
  predicate Tolerant(c: Call) {
    c in {JobDelete, TargetDelete, PVDelete, PVCDelete}
  }

  /** From fate `x` of call `c` to the failure `y`; where nothing to delete is no error, from acceptance only. */
  predicate Worse(c: Call, x: Outcome, y: Outcome) {
    y != Accepted && x != y && (Tolerant(c) ==> x == Accepted)
  }

  /** A failure changed nothing at all, or it is reported. */
  predicate Told(p: Result, q: Result) {
    q == p || q.err != Nil
  }

  /** After the console update the start still deletes the pod or migrates, and reports only that. */
  predicate GoesOn(w: World, vm: VM) {
    var alive := Alive(w.pods);
    || vm.status.state == Migrating
    || (&& vm.status.state == Running && vm.spec.nodeName != ""
        && (|alive| == 0 || (|alive| == 1 && alive[0].node != vm.spec.nodeName)))
    || (&& |alive| == 1 && vm.status.state == Pending && alive[0].unschedulable
        && alive[0].affinity.Some? && alive[0].affinity.value != vm.spec.nodeName)
  }

  /** The calls whose failure a reconcile reports: all but the deletions of pods, console and service, the
      creation of the console pod, and console failures that something else follows. */
  predicate Heeded(w: World, vm: VM, c: Call) {
    match c
    case PodsDelete => false
    case ServiceDelete => false
    case ConsoleCreate => false
    case ConsoleDelete => !vm.deleting && vm.spec.action == Start && |Alive(w.pods)| == 2
    case JobDelete => !vm.deleting && vm.spec.action == Start
    case ServiceCreate => !GoesOn(w, vm)
    case VncUpdate => !GoesOn(w, vm)
    case _ => true
  }

  lemma WriteTold(w: World, current: VM, upd: VM, x: Outcome, y: Outcome)
    requires y != Accepted
    ensures Told(UpdateStatus(w, current, upd, x), UpdateStatus(w, current, upd, y))
  {
  }

  /** Storage creation and deletion as functions of the fates of their calls, part by part. */
  function MakeClaim(w: World, o: Outcome): Result {
    if w.pvc.Absent? then Attempt(w, o, w.(pvc := Present)) else Result(w, Nil)
  }

  function MakeRest(w: World, o2: Outcome, o3: Outcome): Result {
    var r := if w.pv.Absent? then Attempt(w, o2, w.(pv := Present)) else Result(w, Nil);
    if r.err != Nil then r else MakeClaim(r.w, o3)
  }

  function MakeAll(w: World, o1: Outcome, o2: Outcome, o3: Outcome): Result {
    var r := if w.volume.Absent? then Attempt(w, o1, w.(volume := Present)) else Result(w, Nil);
    if r.err != Nil then r else MakeRest(r.w, o2, o3)
  }

  lemma MakeTold(w: World, o1: Outcome, o2: Outcome, o3: Outcome, x: Outcome, y: Outcome)
    requires y != Accepted
    ensures Told(MakeAll(w, x, o2, o3), MakeAll(w, y, o2, o3))
    ensures Told(MakeAll(w, o1, x, o3), MakeAll(w, o1, y, o3))
    ensures Told(MakeAll(w, o1, o2, x), MakeAll(w, o1, o2, y))
  {
    hide MakeRest;
    var r := if w.volume.Absent? then Attempt(w, o1, w.(volume := Present)) else Result(w, Nil);
    MakeRestTold(r.w, o2, o3, x, y);
  }

  lemma MakeRestTold(w: World, o2: Outcome, o3: Outcome, x: Outcome, y: Outcome)
    requires y != Accepted
    ensures Told(MakeRest(w, x, o3), MakeRest(w, y, o3)) && Told(MakeRest(w, o2, x), MakeRest(w, o2, y))
  {
  }

  lemma CreateInParts(w: World, input: Input)
    ensures CreateLonghorn(w, input) ==
      if w.image.ImageMissing? then Result(w, NotFound)
      else if !w.image.ImageReady? || !input.Fate(VolumeGet).Accepted? then Result(w, Failed)
      else MakeAll(w, input.Fate(VolumeCreate), input.Fate(PVCreate), input.Fate(PVCCreate))
  {
    hide Attempt;
  }

  lemma CreateLonghornTold(w: World, input: Input, c: Call, x: Outcome, y: Outcome)
    requires Worse(c, x, y)
    ensures Told(CreateLonghorn(w, With(input, c, x)), CreateLonghorn(w, With(input, c, y)))
  {
    hide CreateLonghorn, MakeAll;
    CreateInParts(w, With(input, c, x));
    CreateInParts(w, With(input, c, y));
    MakeTold(w, input.Fate(VolumeCreate), input.Fate(PVCreate), input.Fate(PVCCreate), x, y);
  }

  function DropClaim(w: World, o: Outcome): Result {
    var r := Deleted(w, w.pvc, o, w.(pvc := Going));
    if r.err == NotFound then Result(r.w, Nil) else r
  }

  function DropRest(w: World, o2: Outcome, o3: Outcome): Result {
    var r := Deleted(w, w.pv, o2, w.(pv := Going));
    if r.err != Nil && r.err != NotFound then r else DropClaim(r.w, o3)
  }

  function DropAll(w: World, o1: Outcome, o2: Outcome, o3: Outcome): Result {
    var r := if w.volume.Absent? then Result(w, Nil) else Attempt(w, o1, w.(volume := Going));
    if r.err != Nil then r else DropRest(r.w, o2, o3)
  }

  lemma DropTold(w: World, o1: Outcome, o2: Outcome, o3: Outcome, x: Outcome, y: Outcome)
    requires y != Accepted
    ensures Told(DropAll(w, x, o2, o3), DropAll(w, y, o2, o3))
    ensures Told(DropAll(w, o1, Accepted, o3), DropAll(w, o1, y, o3))
    ensures Told(DropAll(w, o1, o2, Accepted), DropAll(w, o1, o2, y))
  {
    hide DropRest;
    var r := if w.volume.Absent? then Result(w, Nil) else Attempt(w, o1, w.(volume := Going));
    DropRestTold(r.w, o2, o3, y);
  }

  lemma DropRestTold(w: World, o2: Outcome, o3: Outcome, y: Outcome)
    requires y != Accepted
    ensures Told(DropRest(w, Accepted, o3), DropRest(w, y, o3)) && Told(DropRest(w, o2, Accepted), DropRest(w, o2, y))
  {
  }

  lemma DeleteInParts(w: World, input: Input)
    ensures DeleteLonghorn(w, input) ==
      if !input.Fate(VolumeGet).Accepted? then Result(w, Failed)
      else DropAll(w, input.Fate(VolumeDelete), input.Fate(PVDelete), input.Fate(PVCDelete))
  {
    hide Attempt, Deleted;
  }

  lemma DeleteLonghornTold(w: World, input: Input, c: Call, x: Outcome, y: Outcome)
    requires Worse(c, x, y)
    ensures Told(DeleteLonghorn(w, With(input, c, x)), DeleteLonghorn(w, With(input, c, y)))
  {
    hide DeleteLonghorn, DropAll;
    DeleteInParts(w, With(input, c, x));
    DeleteInParts(w, With(input, c, y));
    DropTold(w, input.Fate(VolumeDelete), input.Fate(PVDelete), input.Fate(PVCDelete), x, y);
  }

  /** Making the first pod, as a function of the fates of its two calls. */
  function MakePod(w: World, vm: VM, boot: Pod, o1: Outcome, o2: Outcome): PodResult {
    var Result(w1, e1) := CreatePod(w, boot, o1);
    if e1 != Nil then PodResult(w1, None, e1)
    else
      var Result(w2, e2) := UpdateStatus(w1, vm, StatusWithPod(vm, boot), o2);
      PodResult(w2, Some(boot), e2)
  }

  lemma MakePodTold(w: World, vm: VM, boot: Pod, o: Outcome, x: Outcome, y: Outcome)
    requires y != Accepted
    ensures MakePod(w, vm, boot, y, o) == MakePod(w, vm, boot, x, o) || MakePod(w, vm, boot, y, o).err != Nil
    ensures MakePod(w, vm, boot, o, y) == MakePod(w, vm, boot, o, x) || MakePod(w, vm, boot, o, y).err != Nil
  {
    hide UpdateStatus, StatusWithPod, Names;
    WriteTold(CreatePod(w, boot, o).w, vm, StatusWithPod(vm, boot), x, y);
  }

  lemma PodUpdateInParts(w: World, vm: VM, input: Input)
    ensures UpdateMachinePod(w, vm, input) ==
      if Lookup(w) != Nil then PodResult(w, None, Lookup(w))
      else
        var alive := Alive(w.pods);
        if |alive| == 0 then MakePod(w, vm, BootPod(vm, input), input.Fate(BootCreate), input.Fate(PodStatusUpdate))
        else if |alive| == 1 then
          var r := UpdateStatus(w, vm, StatusWithPod(vm, alive[0]), input.Fate(PodStatusUpdate));
          PodResult(r.w, Some(alive[0]), r.err)
        else PodResult(w, None, Nil)
  {
    hide UpdateStatus, StatusWithPod, Alive, CreatePod;
  }

  lemma PodUpdateTold(w: World, vm: VM, input: Input, c: Call, x: Outcome, y: Outcome)
    requires Worse(c, x, y)
    ensures var p, q := UpdateMachinePod(w, vm, With(input, c, x)), UpdateMachinePod(w, vm, With(input, c, y));
      q == p || q.err != Nil
  {
    hide UpdateMachinePod, MakePod, UpdateStatus, StatusWithPod, Alive, Tolerant;
    PodUpdateInParts(w, vm, With(input, c, x));
    PodUpdateInParts(w, vm, With(input, c, y));
    var boot := BootPod(vm, input);
    MakePodTold(w, vm, boot, input.Fate(BootCreate), x, y);
    MakePodTold(w, vm, boot, input.Fate(PodStatusUpdate), x, y);
    if |Alive(w.pods)| == 1 {
      WriteTold(w, vm, StatusWithPod(vm, Alive(w.pods)[0]), x, y);
    }
  }

  lemma SameNovnc(w: World, vm: VM, input: Input, c: Call, o: Outcome)
    requires c !in {ConsoleCreate, ServiceCreate, ConsoleDelete, ServiceDelete, VncUpdate}
    ensures UpdateNovnc(w, vm, With(input, c, o)) == UpdateNovnc(w, vm, input)
  {
    hide UpdateStatus;
  }

  lemma NovncTold(w: World, vm: VM, input: Input, c: Call, x: Outcome, y: Outcome)
    requires Worse(c, x, y) && c in {ServiceCreate, VncUpdate}
    ensures Told(UpdateNovnc(w, vm, With(input, c, x)), UpdateNovnc(w, vm, With(input, c, y)))
  {
    hide UpdateStatus, UpdateNovncPod, DeleteConsole, DeleteService;
    if vm.spec.hostedNovnc {
      SameConsolePod(w, input, c, x);
      SameConsolePod(w, input, c, y);
      ServiceTold(UpdateNovncPod(w, input).w, vm, input, c, x, y);
    } else {
      var w1 := DeleteConsole(w, input.Fate(ConsoleDelete)).w;
      var w2 := DeleteService(w1, input.Fate(ServiceDelete)).w;
      WriteTold(w2, vm, WithEndpoint(vm, NoEndpoint), x, y);
    }
  }

  lemma SameConsolePod(w: World, input: Input, c: Call, o: Outcome)
    requires c != ConsoleCreate
    ensures UpdateNovncPod(w, With(input, c, o)) == UpdateNovncPod(w, input)
  {
  }

  lemma ServiceTold(w: World, vm: VM, input: Input, c: Call, x: Outcome, y: Outcome)
    requires Worse(c, x, y) && c in {ServiceCreate, VncUpdate}
    ensures Told(UpdateNovncService(w, vm, With(input, c, x)), UpdateNovncService(w, vm, With(input, c, y)))
  {
    hide UpdateStatus;
    var w1 := if w.service.Some? then w else w.(service := Some(input.nodePort));
    WriteTold(w1, vm, WithEndpoint(vm, Endpoint(vm.status.nodeIP, w1.service.value)), x, y);
  }

  // ---- migration

  lemma RollbackTold(w: World, vm: VM, target: Pod, input: Input, c: Call, x: Outcome, y: Outcome)
    requires Worse(c, x, y)
    ensures Told(Rollback(w, vm, target, With(input, c, x)), Rollback(w, vm, target, With(input, c, y)))
  {
    hide UpdateStatus, Mark, Names;
    var w1 := DeleteJob(w, input.Fate(JobDelete)).w;
    var w2 := DeletePod(w1, target.name, input.Fate(TargetDelete)).w;
    WriteTold(w2, vm, WithState(vm, Running), x, y);
  }

  lemma CleanupTold(w: World, vm: VM, source: Pod, target: Pod, input: Input, c: Call, x: Outcome, y: Outcome)
    requires Worse(c, x, y)
    ensures Told(Cleanup(w, vm, source, target, With(input, c, x)), Cleanup(w, vm, source, target, With(input, c, y)))
  {
    hide UpdateStatus, Mark, Names, Moved;
    WriteTold(w, vm, Moved(vm, target), x, y);
  }

  lemma TargetTold(w: World, vm: VM, input: Input, c: Call, x: Outcome, y: Outcome)
    requires Worse(c, x, y)
    ensures var p, q := StartTarget(w, vm, With(input, c, x)), StartTarget(w, vm, With(input, c, y));
      q == p || q.err != Nil
    ensures |Alive(w.pods)| == 2 ==> StartTarget(w, vm, With(input, c, x)) == StartTarget(w, vm, With(input, c, y))
    ensures var p := StartTarget(w, vm, With(input, c, x));
      |Alive(w.pods)| != 2 && p.err == Nil ==> !p.pair && !p.ready
    ensures |Alive(w.pods)| == 2 ==> StartTarget(w, vm, With(input, c, x)).w == w
  {
    hide Alive, Names;
    assert TargetPod(vm, With(input, c, x)) == TargetPod(vm, With(input, c, y));
  }

  lemma ContinuationTold(w: World, vm: VM, input: Input, c: Call, x: Outcome, y: Outcome)
    requires Worse(c, x, y)
    ensures Told(ContinueMigration(w, vm, With(input, c, x)), ContinueMigration(w, vm, With(input, c, y)))
  {
    hide Rollback, Cleanup, Alive, StartTarget;
    TargetTold(w, vm, input, c, x, y);
    var alive := Alive(w.pods);
    if |alive| == 2 {
      RollbackTold(w, vm, Newer(alive), input, c, x, y);
      PairTold(w, vm, Older(alive), Newer(alive), input, c, x, y);
    }
  }

  /** What a migration does once both pods are ready. */
  function RunAndFinish(w: World, vm: VM, source: Pod, target: Pod, input: Input): Result {
    var JobResult(w2, succeeded, e2) := RunJob(w, source, target, input);
    if e2 != Nil || !succeeded then Result(w2, e2) else Cleanup(w2, vm, source, target, input)
  }

  lemma PairTold(w: World, vm: VM, source: Pod, target: Pod, input: Input, c: Call, x: Outcome, y: Outcome)
    requires Worse(c, x, y)
    ensures Told(RunAndFinish(w, vm, source, target, With(input, c, x)), RunAndFinish(w, vm, source, target, With(input, c, y)))
  {
    hide Cleanup;
    CleanupTold(w, vm, source, target, input, c, x, y);
  }

  lemma MigrateTold(w: World, vm: VM, input: Input, c: Call, x: Outcome, y: Outcome)
    requires Worse(c, x, y)
    ensures Told(Migrate(w, vm, With(input, c, x)), Migrate(w, vm, With(input, c, y)))
  {
    hide ContinueMigration, UpdateStatus;
    var m := WithState(vm, Migrating);
    WriteTold(w, vm, m, x, y);
    ContinuationTold(w, vm, input, c, x, y);
    ContinuationTold(UpdateStatus(w, vm, m, With(input, c, x).Fate(MigratingUpdate)).w, m, input, c, x, y);
  }

  // ---- start, stop, delete

  /** A start in three parts: the pod, the console, and the rest. */
  function ConsolePart(r1: PodResult, vm: VM, input: Input): Result {
    if r1.pod.Some? && r1.pod.value.name != "" then UpdateNovnc(r1.w, vm, input) else Result(r1.w, Nil)
  }

  function Rest(n: Result, vm: VM, pod: Option<Pod>, input: Input): Result {
    if pod.Some? && Misplaced(vm, pod.value) then DeletePod(n.w, pod.value.name, input.Fate(UnschedulableDelete))
    else if WantsMigration(vm, pod) then Migrate(n.w, vm, input)
    else n
  }

  lemma StartInParts(w: World, vm: VM, input: Input)
    ensures var r1 := UpdateMachinePod(w, vm, input);
      StartVM(w, vm, input) ==
        if r1.err != Nil then Result(r1.w, r1.err) else Rest(ConsolePart(r1, vm, input), vm, r1.pod, input)
  {
    hide UpdateMachinePod, UpdateNovnc, Migrate, DeletePod, Misplaced, WantsMigration;
  }

  lemma RestTold(n: Result, vm: VM, pod: Option<Pod>, input: Input, c: Call, x: Outcome, y: Outcome)
    requires Worse(c, x, y)
    ensures Told(Rest(n, vm, pod, With(input, c, x)), Rest(n, vm, pod, With(input, c, y)))
  {
    hide Migrate, Mark, Names, Misplaced, WantsMigration;
    MigrateTold(n.w, vm, input, c, x, y);
  }

  lemma ConsolePartSame(r1: PodResult, vm: VM, input: Input, c: Call, x: Outcome, y: Outcome)
    requires c !in {ConsoleCreate, ServiceCreate, ConsoleDelete, ServiceDelete, VncUpdate} || r1.pod.None?
    ensures ConsolePart(r1, vm, With(input, c, x)) == ConsolePart(r1, vm, With(input, c, y))
  {
    hide UpdateNovnc;
    if r1.pod.Some? {
      SameNovnc(r1.w, vm, input, c, x);
      SameNovnc(r1.w, vm, input, c, y);
    }
  }

  lemma StartTold(w: World, vm: VM, input: Input, c: Call, x: Outcome, y: Outcome)
    requires !vm.deleting && vm.spec.action == Start && Heeded(w, vm, c) && Worse(c, x, y)
    ensures Told(StartVM(w, vm, With(input, c, x)), StartVM(w, vm, With(input, c, y)))
  {
    hide UpdateMachinePod, ConsolePart, Rest, StartVM, Alive, GoesOn;
    var i, j := With(input, c, x), With(input, c, y);
    StartInParts(w, vm, i);
    StartInParts(w, vm, j);
    PodUpdateTold(w, vm, input, c, x, y);
    PodUpdateEffect(w, vm, i);
    var r1 := UpdateMachinePod(w, vm, i);
    if UpdateMachinePod(w, vm, j) == r1 && r1.err == Nil {
      if c in {ServiceCreate, VncUpdate} {
        ConsoleFailureTold(w, vm, input, c, x, y);
      } else {
        ConsolePartSame(r1, vm, input, c, x, y);
        RestTold(ConsolePart(r1, vm, i), vm, r1.pod, input, c, x, y);
      }
    }
  }

  /** When nothing follows the console update, its error is the start's. */
  lemma ConsoleFailureTold(w: World, vm: VM, input: Input, c: Call, x: Outcome, y: Outcome)
    requires c in {ServiceCreate, VncUpdate} && Worse(c, x, y) && !GoesOn(w, vm)
    requires UpdateMachinePod(w, vm, With(input, c, x)).err == Nil
    requires UpdateMachinePod(w, vm, With(input, c, x)) == UpdateMachinePod(w, vm, With(input, c, y))
    ensures var r1 := UpdateMachinePod(w, vm, With(input, c, x));
      Told(Rest(ConsolePart(r1, vm, With(input, c, x)), vm, r1.pod, With(input, c, x)),
           Rest(ConsolePart(r1, vm, With(input, c, y)), vm, r1.pod, With(input, c, y)))
  {
    hide UpdateMachinePod, UpdateNovnc, Migrate, DeletePod, Alive;
    var r1 := UpdateMachinePod(w, vm, With(input, c, x));
    PodUpdateEffect(w, vm, With(input, c, x));
    if r1.pod.Some? {
      NovncTold(r1.w, vm, input, c, x, y);
      assert !Misplaced(vm, r1.pod.value) && !WantsMigration(vm, r1.pod);
    }
  }

  lemma StopTold(w: World, vm: VM, input: Input, c: Call, x: Outcome, y: Outcome)
    requires c !in {PodsDelete, JobDelete, ConsoleDelete} && Worse(c, x, y)
    ensures Told(StopVM(w, vm, With(input, c, x)), StopVM(w, vm, With(input, c, y)))
  {
    hide UpdateStatus, DeleteLabelledPods, DeleteJob, DeleteConsole, StopState;
    var r1 := DeleteLabelledPods(w, input.Fate(PodsDelete));
    var r2 := DeleteJob(r1.w, input.Fate(JobDelete));
    var r3 := DeleteConsole(r2.w, input.Fate(ConsoleDelete));
    WriteTold(r3.w, vm, vm.(status := vm.status.(nodeName := if r1.err == NotFound then "" else vm.status.nodeName,
                                                 state := StopState(r1.err, r2.err, r3.err))), x, y);
  }

  lemma TerminateTold(w: World, vm: VM, input: Input, c: Call, x: Outcome, y: Outcome)
    requires c !in {PodsDelete, ConsoleDelete, ServiceDelete} && Worse(c, x, y)
    ensures Told(Terminate(w, vm, With(input, c, x)), Terminate(w, vm, With(input, c, y)))
  {
    hide UpdateStatus, DeleteLabelledPods, DeleteConsole, DeleteService, DeleteLonghorn;
    WriteTold(w, vm, WithState(vm, Terminating), x, y);
    var w1 := DeleteLabelledPods(w, input.Fate(PodsDelete)).w;
    var w2 := DeleteConsole(w1, input.Fate(ConsoleDelete)).w;
    var w3 := DeleteService(w2, input.Fate(ServiceDelete)).w;
    DeleteLonghornTold(w3, input, c, x, y);
    var w4 := if vm.spec.longhorn then DeleteLonghorn(w3, With(input, c, x)).w else w3;
    WriteTold(w4, vm, vm.(finalizers := []), x, y);
  }

  function StoragePart(w: World, vm: VM, input: Input): Result {
    if vm.spec.longhorn then CreateLonghorn(w, input) else Result(w, Nil)
  }

  lemma StartProcessTold(w: World, vm: VM, input: Input, c: Call, x: Outcome, y: Outcome)
    requires !vm.deleting && !Unprepared(vm) && vm.spec.action == Start && Heeded(w, vm, c) && Worse(c, x, y)
    ensures Told(Process(w, vm, With(input, c, x)), Process(w, vm, With(input, c, y)))
  {
    hide StartVM, CreateLonghorn, Heeded, Worse, With;
    var i, j := With(input, c, x), With(input, c, y);
    assert Told(StoragePart(w, vm, i), StoragePart(w, vm, j)) by { CreateLonghornTold(w, input, c, x, y); }
    CreateLonghornFrame(w, i);
    var w1 := StoragePart(w, vm, i).w;
    SameHeeded(w, w1, vm, c);
    StartTold(w1, vm, input, c, x, y);
  }

  lemma PrepareTold(w: World, vm: VM, input: Input, c: Call, x: Outcome, y: Outcome)
    requires Worse(c, x, y)
    ensures Told(UpdateVM(w, Prepared(vm), With(input, c, x).Fate(PrepareUpdate)),
                 UpdateVM(w, Prepared(vm), With(input, c, y).Fate(PrepareUpdate)))
  {
    hide Prepared;
  }

  /**
    Whatever else fails: when the fate of a heeded call turns into a failure, rejected or lost, either
    nothing at all is different, because the call is not made, or the reconcile reports an error.
  */
  lemma FailureIsReported(w: World, vm: VM, input: Input, c: Call, x: Outcome, y: Outcome)
    requires Heeded(w, vm, c) && Worse(c, x, y)
    ensures Told(Process(w, vm, With(input, c, x)), Process(w, vm, With(input, c, y)))
  {
    if !vm.deleting && !Unprepared(vm) && vm.spec.action == Start {
      hide *;
      StartProcessTold(w, vm, input, c, x, y);
    } else {
      hide StartVM, StopVM, Terminate, CreateLonghorn, UpdateVM, Prepared, Worse, With, Told, GoesOn;
      PrepareTold(w, vm, input, c, x, y);
      if vm.deleting {
        TerminateTold(w, vm, input, c, x, y);
      } else if vm.spec.action == Stop {
        StopTold(w, vm, input, c, x, y);
      } else {
        assert Told(Result(w, Nil), Result(w, Nil)) by { Unaffected(w); }
      }
    }
  }

  lemma Unaffected(w: World)
    ensures Told(Result(w, Nil), Result(w, Nil))
  {
  }

  lemma SameHeeded(w: World, w1: World, vm: VM, c: Call)
    requires w1.pods == w.pods
    ensures Heeded(w1, vm, c) <==> Heeded(w, vm, c)
  {
  }

  /**
    What a migration cannot go on with it reports, and leaves alone: a state it does not know, no pod or more
    than two, and a target without a migration port; also a target that was made but cannot be read back.
  */
  lemma OddMigrations(w: World, vm: VM, input: Input)
    requires Lookup(w) == Nil
    ensures vm.status.state !in {Running, Migrating} ==> Migrate(w, vm, input).err != Nil && Migrate(w, vm, input).w == w
    ensures |Alive(w.pods)| !in {1, 2} ==> ContinueMigration(w, vm, input).err != Nil && ContinueMigration(w, vm, input).w == w
    ensures |Alive(w.pods)| == 1 && input.Fate(TargetGet) != Accepted ==> ContinueMigration(w, vm, input).err != Nil
    ensures var alive := Alive(w.pods);
      (&& |alive| == 2 && alive[0].ready && alive[1].ready && vm.spec.nodeName != Older(alive).node
       && w.job.None? && Newer(alive).migratePort.None?) ==>
        ContinueMigration(w, vm, input).err != Nil && ContinueMigration(w, vm, input).w == w
  {
    hide Alive, Rollback, Cleanup, Names;
  }

  /** Storage that cannot be looked at is left alone, and that is reported. */
  lemma UnreadStorage(w: World, input: Input)
    requires input.Fate(VolumeGet) != Accepted
    ensures CreateLonghorn(w, input).err != Nil && CreateLonghorn(w, input).w == w
    ensures DeleteLonghorn(w, input).err != Nil && DeleteLonghorn(w, input).w == w
  {
  }

  // ---- answered calls

  lemma NovncAnswered(w0: World, w: World, vm: VM, input: Input)
    requires w0.vm == Some(vm) && OneWrite(w0, w, vm) && w.vm.Some? && !vm.deleting && input.faults == map[]
    ensures var e := UpdateNovnc(w, vm, input).err; e == Nil || (e == Conflict && w.vm != w0.vm)
  {
    hide UpdateStatus;
    if vm.spec.hostedNovnc {
      var w1 := UpdateNovncPod(w, input).w;
      assert w1.vm == w.vm;
      var w2 := if w1.service.Some? then w1 else w1.(service := Some(input.nodePort));
      AnsweredWrite(w0, w2, vm, WithEndpoint(vm, Endpoint(vm.status.nodeIP, w2.service.value)));
    } else {
      var w1 := DeleteConsole(w, Accepted).w;
      assert w1.vm == w.vm;
      var w2 := DeleteService(w1, Accepted).w;
      assert w2.vm == w.vm;
      AnsweredWrite(w0, w2, vm, WithEndpoint(vm, NoEndpoint));
    }
  }

  lemma AnsweredWrite(w0: World, w: World, vm: VM, upd: VM)
    requires w0.vm == Some(vm) && OneWrite(w0, w, vm) && w.vm.Some? && !vm.deleting && CopyOf(upd, vm)
    ensures var e := UpdateStatus(w, vm, upd, Accepted).err; e == Nil || (e == Conflict && w.vm != w0.vm)
  {
  }

  /** With at most one pod alive, the only error is the conflict of a start with its own earlier write. */
  lemma SingleAnswered(w: World, vm: VM, input: Input)
    requires InProtocol(w) && w.vm == Some(vm) && Calm(w, input) && vm.spec.action == Start
    requires |Alive(w.pods)| <= 1 && Lookup(w) == Nil
    ensures var r := StartVM(w, vm, input); r.err == Nil || (r.err == Conflict && r.w.vm != w.vm)
  {
    hide UpdateNovnc, Migrate, Alive, UniqueNames, Names, Mark;
    var alive := Alive(w.pods);
    var p := if |alive| == 1 then alive[0] else BootPod(vm, input);
    var w0 := if |alive| == 1 then w else w.(pods := w.pods + [p]);
    assert |alive| == 0 ==> CreatePod(w, p, Accepted) == Result(w0, Nil);
    CalmWrite(w0, vm, StatusWithPod(vm, p));
    var w1 := w0.(vm := After(vm, StatusWithPod(vm, p)));
    assert UpdateMachinePod(w, vm, input) == PodResult(w1, Some(p), Nil);
    NovncFrame(w1, vm, input);
    NovncKeepsState(w, w1, vm, input);
    NovncAnswered(w, w1, vm, input);
    var n := if p.name != "" then UpdateNovnc(w1, vm, input) else Result(w1, Nil);
    if |alive| == 1 {
      assert alive == [p];
      AliveMembers(w.pods, p);
    }
    AnsweredRest(w, n.w, vm, p, input);
  }

  lemma AnsweredRest(w: World, w2: World, vm: VM, p: Pod, input: Input)
    requires InProtocol(w) && w.vm == Some(vm) && Calm(w, input) && Lookup(w2) == Nil && OneWrite(w, w2, vm) && w2.vm.Some?
    requires (Alive(w.pods) == [p] && w2.pods == w.pods && p.name in Names(w.pods)) || (|Alive(w.pods)| == 0 && p == BootPod(vm, input))
    requires |Alive(w.pods)| == 0 ==> w2.vm != w.vm || vm.status.state == Pending
    ensures Misplaced(vm, p) ==> DeletePod(w2, p.name, Accepted).err == Nil
    ensures WantsMigration(vm, Some(p)) ==>
      var r := Migrate(w2, vm, input); r.err == Nil || (r.err == Conflict && r.w.vm != w.vm)
  {
    hide Migrate, Alive, UniqueNames, Names, Mark, OneWrite;
    if WantsMigration(vm, Some(p)) {
      if w2.vm != w.vm {
        OwnConflictMigrates(w, w2, vm, input);
      } else {
        CalmMigrationStart(w2, vm, input);
      }
    }
  }

  /**
    When every call is answered: a machine that is stopped, deleted or prepared reports nothing. A started one
    reports a missing or unready image and missing credentials; otherwise only a conflict with a write that
    the same reconcile made before, and, when it finishes a migration, that there was no console to delete.
  */
  lemma AnsweredErrors(w: World, vm: VM, input: Input)
    requires InProtocol(w) && w.vm == Some(vm) && Calm(w, input)
    ensures var r := Process(w, vm, input);
      if Unprepared(vm) || vm.spec.action != Start then r.err == Nil
      else if w.image.ImageMissing? then r.err == NotFound
      else if w.image.ImageNotReady? then r.err == Failed
      else if !w.keysFound then r.err == NotFound
      else if FinishesNow(w, vm) then r.err == if w.console.Absent? then NotFound else Nil
      else r.err == Nil || (r.err == Conflict && r.w.vm != w.vm)
  {
    hide StartVM, CreateLonghorn, Alive, UniqueNames, Names, Prepared, StopVM, FinishesNow;
    if Unprepared(vm) {
      PreparedKeeps(vm);
    } else if vm.spec.action == Stop {
      StopAnswered(w, vm, input);
    } else if vm.spec.action == Start {
      CreateLonghornFrame(w, input);
      CreateInParts(w, input);
      if w.image.ImageReady? {
        CalmLonghorn(w, input);
        StartAnswered(WithStorage(w, vm, input), vm, input);
        SameFinish(w, WithStorage(w, vm, input), vm);
      } else {
        StartNotReady(w, vm, input);
      }
    }
  }

  lemma SameFinish(w: World, w1: World, vm: VM)
    requires w1.pods == w.pods && w1.job == w.job
    ensures FinishesNow(w1, vm) <==> FinishesNow(w, vm)
  {
  }

  lemma StartNotReady(w: World, vm: VM, input: Input)
    ensures w.image.ImageMissing? ==> StartVM(w, vm, input).err == NotFound
    ensures w.image.ImageNotReady? ==> StartVM(w, vm, input).err == Failed
    ensures w.image.ImageReady? && !w.keysFound ==> StartVM(w, vm, input).err == NotFound
  {
    hide UpdateNovnc, Migrate;
  }

  lemma StartAnswered(w: World, vm: VM, input: Input)
    requires InProtocol(w) && w.vm == Some(vm) && Calm(w, input) && vm.spec.action == Start && w.image.ImageReady?
    ensures var r := StartVM(w, vm, input);
      if !w.keysFound then r.err == NotFound
      else if FinishesNow(w, vm) then r.err == if w.console.Absent? then NotFound else Nil
      else r.err == Nil || (r.err == Conflict && r.w.vm != w.vm)
  {
    hide StartVM, Alive, UniqueNames, Names;
    if !w.keysFound {
      StartNotReady(w, vm, input);
    } else if |Alive(w.pods)| == 2 {
      PairStep(w, vm, input);
    } else {
      SingleAnswered(w, vm, input);
    }
  }

  lemma StopAnswered(w: World, vm: VM, input: Input)
    requires w.vm == Some(vm) && !vm.deleting && input.faults == map[]
    ensures StopVM(w, vm, input).err == Nil
  {
    hide UpdateStatus, MarkAll, StopState;
    var r1 := DeleteLabelledPods(w, Accepted);
    assert r1.w.vm == w.vm;
    var r2 := DeleteJob(r1.w, Accepted);
    assert r2.w.vm == w.vm;
    var r3 := DeleteConsole(r2.w, Accepted);
    assert r3.w.vm == w.vm;
    CalmWrite(r3.w, vm, vm.(status := vm.status.(nodeName := if r1.err == NotFound then "" else vm.status.nodeName,
                                                 state := StopState(r1.err, r2.err, r3.err))));
  }

  /** The same for a machine that is being deleted. */
  lemma DeletionAnswered(w: World, vm: VM, input: Input)
    requires w.vm == Some(vm) && vm.deleting && vm.finalizers != [] && input.faults == map[]
    ensures Process(w, vm, input).err == Nil
  {
    hide UpdateStatus, MarkAll, DeleteLonghorn;
    var w1 := DeleteLabelledPods(w, Accepted).w;
    assert w1.vm == w.vm;
    var w2 := DeleteConsole(w1, Accepted).w;
    assert w2.vm == w.vm;
    var w3 := DeleteService(w2, Accepted).w;
    assert w3.vm == w.vm;
    DeleteLonghornFrame(w3, input);
    AnsweredDelete(w3, input);
    var w4 := if vm.spec.longhorn then DeleteLonghorn(w3, input).w else w3;
    AnsweredWrites(w, vm, WithState(vm, Terminating));
    AnsweredWrites(w4, vm, vm.(finalizers := []));
  }

  lemma AnsweredWrites(w: World, vm: VM, upd: VM)
    requires w.vm == Some(vm) && upd.version == vm.version
    ensures UpdateStatus(w, vm, upd, Accepted).err == Nil
  {
  }
}
