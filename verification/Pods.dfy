/** What one reconcile does to the machine's pods, under any failures. */
module Pods {
  import opened Replies
  import opened Cluster
  import opened Reconcile
  import opened Safety

  /** Two alive pods, and the user asked for the node the older one runs on. */
  predicate Cancelled(w: World, vm: VM) {
    var alive := Alive(w.pods);
    |alive| == 2 && vm.status.state == Migrating && vm.spec.nodeName == Older(alive).node
  }

  /** Two ready pods and a migration job that succeeded. */
  predicate Migrated(w: World, vm: VM) {
    var alive := Alive(w.pods);
    && |alive| == 2 && vm.status.state == Migrating
    && alive[0].ready && alive[1].ready
    && w.job.Some? && w.job.value.succeeded == 1
  }

  function Committed(vm: VM): Option<VM> {
    Some(vm.(version := vm.version + 1))
  }

  /** The pods after a start, case by case: untouched, created, or one marked for one of three reasons. */
  ghost predicate StartEffect(w: World, w': World, vm: VM, input: Input) {
    var alive := Alive(w.pods);
    var target := TargetPod(vm, input);
    || w'.pods == w.pods
    || (|alive| == 0 && w'.pods == w.pods + [BootPod(vm, input)])
    || (|alive| == 0 && w'.pods == w.pods + [BootPod(vm, input)] + [target])
    || (|alive| == 1 && w'.pods == w.pods + [target])
    || (&& |alive| == 1 && vm.status.state == Pending && alive[0].unschedulable
        && alive[0].affinity.Some? && alive[0].affinity.value != vm.spec.nodeName
        && w'.pods == Mark(w.pods, alive[0].name))
    || (Cancelled(w, vm) && w'.pods == Mark(w.pods, Newer(alive).name))
    || (&& Migrated(w, vm) && w'.pods == Mark(w.pods, Older(alive).name)
        && w.vm == Some(vm) && w'.vm == Committed(Moved(vm, Newer(alive))))
  }

  /** Created pods have names of their own. */
  predicate FreshlyNamed(w: World, w': World) {
    UniqueNames(w.pods) ==> UniqueNames(w'.pods)
  }

  lemma StatusFrame(w: World, current: VM, upd: VM, o: Outcome)
    ensures var r := UpdateStatus(w, current, upd, o).w; r == w.(vm := r.vm)
  {
  }

  lemma NovncFrame(w: World, vm: VM, input: Input)
    ensures var r := UpdateNovnc(w, vm, input).w; r == w.(vm := r.vm, console := r.console, service := r.service)
  {
    if vm.spec.hostedNovnc {
      var w1 := UpdateNovncPod(w, input).w;
      assert w1 == w.(console := w1.console);
      var w2 := if w1.service.Some? then w1
                else Attempt(w1, input.Fate(ServiceCreate), w1.(service := Some(input.nodePort))).w;
      assert w2 == w1.(service := w2.service);
      if w2.service.Some? {
        StatusFrame(w2, vm, WithEndpoint(vm, Endpoint(vm.status.nodeIP, w2.service.value)), input.Fate(VncUpdate));
      }
    } else {
      var w1 := DeleteConsole(w, input.Fate(ConsoleDelete)).w;
      assert w1 == w.(console := w1.console);
      var w2 := DeleteService(w1, input.Fate(ServiceDelete)).w;
      assert w2 == w1.(service := w2.service);
      StatusFrame(w2, vm, WithEndpoint(vm, NoEndpoint), input.Fate(VncUpdate));
    }
  }

  lemma RollbackEffect(w: World, vm: VM, target: Pod, input: Input)
    ensures var r := Rollback(w, vm, target, input).w;
      r.pods == w.pods || r.pods == Mark(w.pods, target.name)
  {
    hide UpdateStatus;
    var w1 := DeleteJob(w, input.Fate(JobDelete)).w;
    assert w1.pods == w.pods;
    var w2 := DeletePod(w1, target.name, input.Fate(TargetDelete)).w;
    StatusFrame(w2, vm, WithState(vm, Running), input.Fate(RollbackUpdate));
  }

  /** The source pod is only deleted after the target's status was committed. */
  lemma CleanupEffect(w: World, vm: VM, source: Pod, target: Pod, input: Input)
    requires Snapshot(w, vm) && vm.status.state == Migrating && !vm.deleting && !target.deleting
    ensures var r := Cleanup(w, vm, source, target, input).w;
      || r.pods == w.pods
      || (&& r.pods == Mark(w.pods, source.name)
          && w.vm == Some(vm) && r.vm == Committed(Moved(vm, target)))
  {
    var r1 := UpdateStatus(w, vm, Moved(vm, target), input.Fate(CleanupUpdate));
    StatusFrame(w, vm, Moved(vm, target), input.Fate(CleanupUpdate));
    if r1.err == Nil {
      assert w.vm == Some(vm) && r1.w.vm == Committed(Moved(vm, target));
      var r2 := DeletePod(r1.w, source.name, input.Fate(SourceDelete));
      assert r2.w.vm == r1.w.vm;
      var r3 := DeleteJob(r2.w, input.Fate(JobDelete));
      assert r3.w.vm == r1.w.vm && r3.w.pods == r2.w.pods;
      var r4 := DeleteConsole(r3.w, input.Fate(ConsoleDelete));
      assert r4.w.vm == r1.w.vm && r4.w.pods == r2.w.pods;
    }
  }

  lemma MigrationEffect(w: World, vm: VM, input: Input)
    requires Snapshot(w, vm) && vm.status.state == Migrating && !vm.deleting
    ensures var r := ContinueMigration(w, vm, input).w; var alive := Alive(w.pods);
      || r.pods == w.pods
      || (|alive| == 1 && r.pods == w.pods + [TargetPod(vm, input)] && r.vm == w.vm && TargetPod(vm, input).name !in Names(w.pods))
      || (Cancelled(w, vm) && r.pods == Mark(w.pods, Newer(alive).name))
      || (&& Migrated(w, vm) && r.pods == Mark(w.pods, Older(alive).name)
          && w.vm == Some(vm) && r.vm == Committed(Moved(vm, Newer(alive))))
  {
    hide Rollback, Cleanup, TargetPod, Mark, Moved;
    var alive := Alive(w.pods);
    if |alive| == 2 && Lookup(w) == Nil {
      var source, target := Older(alive), Newer(alive);
      AliveMembers(w.pods, target);
      if vm.spec.nodeName == source.node {
        RollbackEffect(w, vm, target, input);
      } else if alive[0].ready && alive[1].ready {
        var w2 := RunJob(w, source, target, input).w;
        assert w2 == w.(job := w2.job);
        CleanupEffect(w2, vm, source, target, input);
      }
    } else if |alive| == 1 && Lookup(w) == Nil {
      var w1 := StartTarget(w, vm, input).w;
      AliveAppend(w.pods, TargetPod(vm, input));
      assert w1 == w || w1 == w.(pods := w.pods + [TargetPod(vm, input)]);
    }
  }

  /** Migration started or resumed while a single pod is alive: at most a target is added. */
  lemma MigrateSingleEffect(w0: World, w: World, vm: VM, input: Input)
    requires Snapshot(w0, vm) && OneWrite(w0, w, vm) && !vm.deleting && |Alive(w.pods)| == 1
    ensures var r := Migrate(w, vm, input).w;
      r.pods == w.pods || (r.pods == w.pods + [TargetPod(vm, input)] && TargetPod(vm, input).name !in Names(w.pods))
  {
    hide ContinueMigration;
    if vm.status.state == Running {
      var m := WithState(vm, Migrating);
      var r := UpdateStatus(w, vm, m, input.Fate(MigratingUpdate));
      StatusFrame(w, vm, m, input.Fate(MigratingUpdate));
      if r.err == Nil {
        MigrationEffect(r.w, m, input);
      }
    } else if vm.status.state == Migrating {
      MigrationEffect(w, vm, input);
    }
  }

  lemma PodUpdateEffect(w: World, vm: VM, input: Input)
    ensures var r := UpdateMachinePod(w, vm, input); var alive := Alive(w.pods); var boot := BootPod(vm, input);
      && r.w == w.(vm := r.w.vm, pods := r.w.pods)
      && (|alive| == 0 ==>
            || (r.w.pods == w.pods && r.err != Nil)
            || (r.w.pods == w.pods + [boot] && boot.name !in Names(w.pods) && (r.err == Nil ==> r.pod == Some(boot))))
      && (|alive| == 1 ==> r.w.pods == w.pods && (r.err == Nil ==> r.pod == Some(alive[0])))
      && (|alive| >= 2 ==> r.w == w && r.pod == None)
  {
    hide UpdateStatus, StatusWithPod;
    var alive := Alive(w.pods);
    if |alive| == 0 {
      var boot := BootPod(vm, input);
      var w1 := CreatePod(w, boot, input.Fate(BootCreate)).w;
      assert w1 == w.(pods := w1.pods);
      StatusFrame(w1, vm, StatusWithPod(vm, boot), input.Fate(PodStatusUpdate));
    } else if |alive| == 1 {
      StatusFrame(w, vm, StatusWithPod(vm, alive[0]), input.Fate(PodStatusUpdate));
    }
  }

  lemma StartEffectHolds(w: World, vm: VM, input: Input)
    requires Snapshot(w, vm) && !vm.deleting
    ensures StartEffect(w, StartVM(w, vm, input).w, vm, input)
    ensures FreshlyNamed(w, StartVM(w, vm, input).w)
  {
    hide UpdateMachinePod, UpdateNovnc, Migrate, Mark;
    var r1 := UpdateMachinePod(w, vm, input);
    PodUpdateEffect(w, vm, input);
    PodUpdateWrites(w, w, vm, input);
    AliveAppend(w.pods, BootPod(vm, input));
    if r1.err == Nil {
      var w2 := if r1.pod.Some? && r1.pod.value.name != "" then UpdateNovnc(r1.w, vm, input).w else r1.w;
      NovncFrame(r1.w, vm, input);
      NovncWrites(w, r1.w, vm, input);
      assert w2.pods == r1.w.pods && OneWrite(w, w2, vm);
      StartTail(w, w2, r1.pod, vm, input);
    }
  }

  lemma StartTail(w: World, w2: World, pod: Option<Pod>, vm: VM, input: Input)
    requires Snapshot(w, vm) && !vm.deleting && OneWrite(w, w2, vm)
    requires |Alive(w.pods)| == 0 ==>
               w2.pods == w.pods + [BootPod(vm, input)] && pod == Some(BootPod(vm, input))
               && BootPod(vm, input).name !in Names(w.pods)
    requires |Alive(w.pods)| == 1 ==> w2.pods == w.pods && pod == Some(Alive(w.pods)[0])
    requires |Alive(w.pods)| >= 2 ==> w2 == w && pod == None
    ensures var r := (if pod.Some? && Misplaced(vm, pod.value) then
                        DeletePod(w2, pod.value.name, input.Fate(UnschedulableDelete)).w
                      else if WantsMigration(vm, pod) then Migrate(w2, vm, input).w else w2);
      StartEffect(w, r, vm, input) && FreshlyNamed(w, r)
  {
    hide Migrate, Mark, Moved;
    var boot := BootPod(vm, input);
    AliveAppend(w.pods, boot);
    AliveAppend(w2.pods, TargetPod(vm, input));
    if |Alive(w.pods)| <= 1 {
      MigrateSingleEffect(w, w2, vm, input);
      if |Alive(w.pods)| == 1 {
        AliveMark(w.pods, Alive(w.pods)[0].name);
      }
    } else if vm.status.state == Migrating {
      assert Migrate(w2, vm, input) == ContinueMigration(w2, vm, input) by { MigrateIsContinue(w2, vm, input); }
      MigrationEffect(w2, vm, input);
      if |Alive(w.pods)| == 2 {
        AliveMark(w.pods, Older(Alive(w.pods)).name);
        AliveMark(w.pods, Newer(Alive(w.pods)).name);
      }
    }
  }

  lemma MigrateIsContinue(w: World, vm: VM, input: Input)
    requires vm.status.state == Migrating
    ensures Migrate(w, vm, input) == ContinueMigration(w, vm, input)
  {
    hide ContinueMigration;
  }
}
