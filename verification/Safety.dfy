/** What every reconcile does to the machine's record, whatever its calls return: at most one write. */
module Safety {
  import opened Replies
  import opened Cluster
  import opened Reconcile

  /** The controller's copy may be any age; a copy with the current version is the current record. */
  predicate Snapshot(w: World, vm: VM) {
    w.vm.Some? && w.vm.value.version == vm.version ==> w.vm.value == vm
  }

  // ---- the machine record

  /** From `w` to `w'` the record is untouched, or it was `vm` and one write made from `vm` committed. */
  predicate OneWrite(w: World, w': World, vm: VM) {
    || w'.vm == w.vm
    || (&& w.vm == Some(vm)
        && (w'.vm.Some? ==>
              && w'.vm.value.version == vm.version + 1
              && w'.vm.value.spec == vm.spec
              && w'.vm.value.uid == vm.uid
              && w'.vm.value.deleting == vm.deleting
              && (w'.vm.value.finalizers == vm.finalizers
                  || (Unprepared(vm) && w'.vm.value.finalizers == [FINALIZER])))
        && (w'.vm.None? ==> vm.deleting))
  }

  predicate CopyOf(upd: VM, vm: VM) {
    && upd.version == vm.version && upd.spec == vm.spec && upd.uid == vm.uid && upd.deleting == vm.deleting
    && (upd.finalizers == vm.finalizers || (upd.finalizers == [] && vm.deleting))
  }

  /** A second write from the same snapshot is refused. */
  lemma SecondWriteRefused(w0: World, w: World, vm: VM, current: VM, upd: VM, o: Outcome)
    requires Snapshot(w0, vm) && OneWrite(w0, w, vm) && CopyOf(upd, vm)
    ensures OneWrite(w0, UpdateStatus(w, current, upd, o).w, vm)
    ensures w.vm != w0.vm ==> UpdateVM(w, upd, o).w == w && UpdateVM(w, upd, o).err != Nil
  {
  }

  lemma SameRecord(w0: World, w: World, w1: World, vm: VM)
    requires OneWrite(w0, w, vm) && w1.vm == w.vm
    ensures OneWrite(w0, w1, vm)
  {
  }

  lemma RollbackWrites(w0: World, w: World, vm: VM, target: Pod, input: Input)
    requires Snapshot(w0, vm) && OneWrite(w0, w, vm)
    ensures OneWrite(w0, Rollback(w, WithState(vm, Migrating), target, input).w, vm)
  {
    var m := WithState(vm, Migrating);
    var w1 := DeleteJob(w, input.Fate(JobDelete)).w;
    assert w1.vm == w.vm;
    var w2 := DeletePod(w1, target.name, input.Fate(TargetDelete)).w;
    assert w2.vm == w.vm;
    SecondWriteRefused(w0, w2, vm, m, WithState(m, Running), input.Fate(RollbackUpdate));
  }

  lemma CleanupWrites(w0: World, w: World, vm: VM, source: Pod, target: Pod, input: Input)
    requires Snapshot(w0, vm) && OneWrite(w0, w, vm) && vm.spec.action == Start
    ensures OneWrite(w0, Cleanup(w, WithState(vm, Migrating), source, target, input).w, vm)
  {
    var m := WithState(vm, Migrating);
    SecondWriteRefused(w0, w, vm, m, Moved(m, target), input.Fate(CleanupUpdate));
    var w1 := UpdateStatus(w, m, Moved(m, target), input.Fate(CleanupUpdate)).w;
    var w2 := DeletePod(w1, source.name, input.Fate(SourceDelete)).w;
    assert w2.vm == w1.vm;
    var w3 := DeleteJob(w2, input.Fate(JobDelete)).w;
    assert w3.vm == w1.vm;
  }

  lemma ContinuationWrites(w0: World, w: World, vm: VM, input: Input)
    requires Snapshot(w0, vm) && OneWrite(w0, w, vm) && vm.spec.action == Start
    ensures OneWrite(w0, ContinueMigration(w, WithState(vm, Migrating), input).w, vm)
  {
    hide Rollback, Cleanup, TargetPod, JobFor, Snapshot, OneWrite;
    var m := WithState(vm, Migrating);
    var w1 := StartTarget(w, m, input).w;
    SameRecord(w0, w, w1, vm);
    var alive := Alive(w1.pods);
    if |alive| == 2 {
      RollbackWrites(w0, w1, vm, Newer(alive), input);
      var w2 := RunJob(w1, Older(alive), Newer(alive), input).w;
      SameRecord(w0, w1, w2, vm);
      CleanupWrites(w0, w2, vm, Older(alive), Newer(alive), input);
    }
  }

  lemma MigrationWrites(w0: World, w: World, vm: VM, input: Input)
    requires Snapshot(w0, vm) && OneWrite(w0, w, vm) && vm.spec.action == Start
    ensures OneWrite(w0, Migrate(w, vm, input).w, vm)
  {
    var m := WithState(vm, Migrating);
    if vm.status.state == Running {
      SecondWriteRefused(w0, w, vm, vm, m, input.Fate(MigratingUpdate));
      ContinuationWrites(w0, UpdateStatus(w, vm, m, input.Fate(MigratingUpdate)).w, vm, input);
    } else if vm.status.state == Migrating {
      assert m == vm;
      ContinuationWrites(w0, w, vm, input);
    }
  }

  lemma NovncWrites(w0: World, w: World, vm: VM, input: Input)
    requires Snapshot(w0, vm) && OneWrite(w0, w, vm)
    ensures OneWrite(w0, UpdateNovnc(w, vm, input).w, vm)
  {
    if vm.spec.hostedNovnc {
      var w1 := UpdateNovncPod(w, input).w;
      assert w1.vm == w.vm;
      var w2 := if w1.service.Some? then w1
                else Attempt(w1, input.Fate(ServiceCreate), w1.(service := Some(input.nodePort))).w;
      assert w2.vm == w.vm;
      if w2.service.Some? {
        SecondWriteRefused(w0, w2, vm, vm, WithEndpoint(vm, Endpoint(vm.status.nodeIP, w2.service.value)),
                           input.Fate(VncUpdate));
      }
    } else {
      var w1 := DeleteConsole(w, input.Fate(ConsoleDelete)).w;
      assert w1.vm == w.vm;
      var w2 := DeleteService(w1, input.Fate(ServiceDelete)).w;
      assert w2.vm == w.vm;
      SecondWriteRefused(w0, w2, vm, vm, WithEndpoint(vm, NoEndpoint), input.Fate(VncUpdate));
    }
  }

  lemma PodUpdateWrites(w0: World, w: World, vm: VM, input: Input)
    requires Snapshot(w0, vm) && OneWrite(w0, w, vm)
    ensures OneWrite(w0, UpdateMachinePod(w, vm, input).w, vm)
  {
    var alive := Alive(w.pods);
    if |alive| == 0 {
      var boot := BootPod(vm, input);
      var w1 := CreatePod(w, boot, input.Fate(BootCreate)).w;
      assert w1.vm == w.vm;
      SecondWriteRefused(w0, w1, vm, vm, StatusWithPod(vm, boot), input.Fate(PodStatusUpdate));
    } else if |alive| == 1 {
      SecondWriteRefused(w0, w, vm, vm, StatusWithPod(vm, alive[0]), input.Fate(PodStatusUpdate));
    }
  }

  lemma StartWrites(w0: World, w: World, vm: VM, input: Input)
    requires Snapshot(w0, vm) && OneWrite(w0, w, vm) && vm.spec.action == Start
    ensures OneWrite(w0, StartVM(w, vm, input).w, vm)
  {
    var r1 := UpdateMachinePod(w, vm, input);
    PodUpdateWrites(w0, w, vm, input);
    if r1.err == Nil {
      var w2 := if r1.pod.Some? && r1.pod.value.name != "" then UpdateNovnc(r1.w, vm, input).w else r1.w;
      NovncWrites(w0, r1.w, vm, input);
      if r1.pod.Some? && Misplaced(vm, r1.pod.value) {
        assert DeletePod(w2, r1.pod.value.name, input.Fate(UnschedulableDelete)).w.vm == w2.vm;
      } else {
        MigrationWrites(w0, w2, vm, input);
      }
    }
  }

  lemma StopWrites(w: World, vm: VM, input: Input)
    requires Snapshot(w, vm)
    ensures OneWrite(w, StopVM(w, vm, input).w, vm)
  {
    var r1 := DeleteLabelledPods(w, input.Fate(PodsDelete));
    assert r1.w.vm == w.vm;
    var r2 := DeleteJob(r1.w, input.Fate(JobDelete));
    assert r2.w.vm == w.vm;
    var r3 := DeleteConsole(r2.w, input.Fate(ConsoleDelete));
    assert r3.w.vm == w.vm;
  }

  lemma CreateLonghornFrame(w: World, input: Input)
    ensures var r := CreateLonghorn(w, input).w; r == w.(volume := r.volume, pv := r.pv, pvc := r.pvc)
  {
  }

  lemma DeleteLonghornFrame(w: World, input: Input)
    ensures var r := DeleteLonghorn(w, input).w; r == w.(volume := r.volume, pv := r.pv, pvc := r.pvc)
  {
  }

  lemma TerminateWrites(w: World, vm: VM, input: Input)
    requires Snapshot(w, vm) && vm.deleting
    ensures OneWrite(w, Terminate(w, vm, input).w, vm)
  {
    hide DeleteLonghorn;
    if vm.status.state == Terminating {
      var w1 := DeleteLabelledPods(w, input.Fate(PodsDelete)).w;
      assert w1.vm == w.vm;
      var w2 := DeleteConsole(w1, input.Fate(ConsoleDelete)).w;
      assert w2.vm == w.vm;
      var w3 := DeleteService(w2, input.Fate(ServiceDelete)).w;
      assert w3.vm == w.vm;
      DeleteLonghornFrame(w3, input);
      var w4 := if vm.spec.longhorn then DeleteLonghorn(w3, input).w else w3;
      SecondWriteRefused(w, w4, vm, vm, vm.(finalizers := []), input.Fate(FinalizerUpdate));
    }
  }

  /**
    Whatever calls fail or get lost and however old the controller's copy is, one reconcile commits at
    most one write of the record. The write is made from the current record and keeps its spec, so no
    user edit is ever undone; a stale copy changes nothing.
  */
  lemma ReconcileWritesOnce(w: World, vm: VM, input: Input)
    requires Snapshot(w, vm)
    ensures OneWrite(w, Process(w, vm, input).w, vm)
  {
    if vm.deleting {
      TerminateWrites(w, vm, input);
    } else if Unprepared(vm) {
      assert OneWrite(w, UpdateVM(w, Prepared(vm), input.Fate(PrepareUpdate)).w, vm);
    } else if vm.spec.action == Start {
      CreateLonghornFrame(w, input);
      StartWrites(w, if vm.spec.longhorn then CreateLonghorn(w, input).w else w, vm, input);
    } else if vm.spec.action == Stop {
      StopWrites(w, vm, input);
    }
  }
}
