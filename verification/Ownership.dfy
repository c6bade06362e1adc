/**
  What a machine owns while its record exists and after it is gone: pods, console, service and the
  Longhorn volume with its persistent volume and claim.
*/
module Ownership {
  import opened Replies
  import opened Cluster
  import opened Reconcile
  import opened Safety
  import opened Pods
  import opened Runs

  predicate Bare(w: World) {
    w.pods == [] && w.console.Absent? && w.service.None?
  }

  predicate AllStorage(w: World, p: Presence) {
    w.volume == p && w.pv == p && w.pvc == p
  }

  predicate NoStorage(w: World, p: Presence) {
    w.volume != p && w.pv != p && w.pvc != p
  }

  predicate Owned(w: World) {
    match w.vm
    case None => Bare(w) && NoStorage(w, Present)
    case Some(vm) =>
      && (Unprepared(vm) || vm.finalizers == [FINALIZER])
      && (Unprepared(vm) ==> Bare(w) && AllStorage(w, Absent) && !vm.deleting)
      && (!vm.spec.longhorn ==> AllStorage(w, Absent))
      && (!vm.deleting ==> NoStorage(w, Going))
      && (!vm.deleting && vm.spec.longhorn && w.pods != [] ==> AllStorage(w, Present))
  }

  // ---- frames

  lemma RollbackFrame(w: World, vm: VM, target: Pod, input: Input)
    ensures var r := Rollback(w, vm, target, input).w;
      r == w.(vm := r.vm, pods := r.pods, job := r.job, jobPod := r.jobPod)
  {
    hide UpdateStatus, Mark;
    var w1 := DeleteJob(w, input.Fate(JobDelete)).w;
    assert w1 == w.(job := w1.job, jobPod := w1.jobPod);
    var w2 := DeletePod(w1, target.name, input.Fate(TargetDelete)).w;
    assert w2 == w1.(pods := w2.pods);
    StatusFrame(w2, vm, WithState(vm, Running), input.Fate(RollbackUpdate));
  }

  lemma CleanupFrame(w: World, vm: VM, source: Pod, target: Pod, input: Input)
    ensures var r := Cleanup(w, vm, source, target, input).w;
      r == w.(vm := r.vm, pods := r.pods, job := r.job, jobPod := r.jobPod, console := r.console)
  {
    hide UpdateStatus, Mark, Moved;
    StatusFrame(w, vm, Moved(vm, target), input.Fate(CleanupUpdate));
    var w1 := UpdateStatus(w, vm, Moved(vm, target), input.Fate(CleanupUpdate)).w;
    var w2 := DeletePod(w1, source.name, input.Fate(SourceDelete)).w;
    assert w2 == w1.(pods := w2.pods);
    var w3 := DeleteJob(w2, input.Fate(JobDelete)).w;
    assert w3 == w2.(job := w3.job, jobPod := w3.jobPod);
    var w4 := DeleteConsole(w3, input.Fate(ConsoleDelete)).w;
    assert w4 == w3.(console := w4.console);
  }

  lemma MigrationFrame(w: World, vm: VM, input: Input)
    ensures var r := ContinueMigration(w, vm, input).w;
      r == w.(vm := r.vm, pods := r.pods, job := r.job, jobPod := r.jobPod, console := r.console)
  {
    hide Rollback, Cleanup, TargetPod;
    var w1 := StartTarget(w, vm, input).w;
    assert w1 == w.(pods := w1.pods);
    var alive := Alive(w1.pods);
    if |alive| == 2 {
      RollbackFrame(w1, vm, Newer(alive), input);
      var w2 := RunJob(w1, Older(alive), Newer(alive), input).w;
      assert w2 == w1.(job := w2.job);
      CleanupFrame(w2, vm, Older(alive), Newer(alive), input);
    }
  }

  lemma StartFrame(w: World, vm: VM, input: Input)
    ensures var r := StartVM(w, vm, input).w;
      r.volume == w.volume && r.pv == w.pv && r.pvc == w.pvc
  {
    hide UpdateMachinePod, UpdateNovnc, ContinueMigration, UpdateStatus, Mark, Misplaced, WantsMigration, BootPod, Alive;
    PodUpdateEffect(w, vm, input);
    var r1 := UpdateMachinePod(w, vm, input);
    NovncFrame(r1.w, vm, input);
    var w2 := if r1.pod.Some? && r1.pod.value.name != "" then UpdateNovnc(r1.w, vm, input).w else r1.w;
    var m := WithState(vm, Migrating);
    StatusFrame(w2, vm, m, input.Fate(MigratingUpdate));
    MigrationFrame(UpdateStatus(w2, vm, m, input.Fate(MigratingUpdate)).w, m, input);
    MigrationFrame(w2, vm, input);
    if r1.pod.Some? {
      var w3 := DeletePod(w2, r1.pod.value.name, input.Fate(UnschedulableDelete)).w;
      assert w3 == w2.(pods := w3.pods);
    }
  }

  lemma StopFrame(w: World, vm: VM, input: Input)
    ensures var r := StopVM(w, vm, input).w;
      && r.volume == w.volume && r.pv == w.pv && r.pvc == w.pvc && r.service == w.service
      && (w.console.Absent? ==> r.console.Absent?)
  {
    hide UpdateStatus, MarkAll;
    var r1 := DeleteLabelledPods(w, input.Fate(PodsDelete));
    assert r1.w == w.(pods := r1.w.pods, console := r1.w.console, jobPod := r1.w.jobPod);
    var r2 := DeleteJob(r1.w, input.Fate(JobDelete));
    assert r2.w == r1.w.(job := r2.w.job, jobPod := r2.w.jobPod);
    var r3 := DeleteConsole(r2.w, input.Fate(ConsoleDelete));
    assert r3.w == r2.w.(console := r3.w.console);
    var stopped := vm.(status := vm.status.(nodeName := if r1.err == NotFound then "" else vm.status.nodeName,
                                            state := StopState(r1.err, r2.err, r3.err)));
    StatusFrame(r3.w, vm, stopped, input.Fate(StopUpdate));
  }

  // ---- Longhorn

  /** One attempt: what exists stays, only a missing part is created and only after the part before it, and
      success means that the volume, the persistent volume and the claim exist. */
  lemma LonghornRestartable(w: World, input: Input)
    ensures var r := CreateLonghorn(w, input);
      && (r.w.volume == w.volume || (w.volume.Absent? && r.w.volume.Present?))
      && (r.w.pv == w.pv || (w.pv.Absent? && r.w.pv.Present? && !r.w.volume.Absent?))
      && (r.w.pvc == w.pvc || (w.pvc.Absent? && r.w.pvc.Present? && !r.w.pv.Absent?))
      && (r.err == Nil ==> w.image.ImageReady? && NoStorage(r.w, Absent))
  {
    var w1 := if w.volume.Absent? then Attempt(w, input.Fate(VolumeCreate), w.(volume := Present)).w else w;
    assert w1 == w.(volume := w1.volume);
    var w2 := if w1.pv.Absent? then Attempt(w1, input.Fate(PVCreate), w1.(pv := Present)).w else w1;
    assert w2 == w1.(pv := w2.pv);
  }

  /** A deletion that reports success left nothing that is not at least going. */
  lemma LonghornDeleted(w: World, input: Input)
    ensures var r := DeleteLonghorn(w, input);
      && (r.err == Nil || NoStorage(w, Present) ==> NoStorage(r.w, Present))
      && (AllStorage(w, Absent) ==> r.w == w)
  {
  }

  // ---- copies of the record

  /** A record and a later state of it. */
  predicate Follows(a: Option<VM>, b: Option<VM>) {
    b.Some? ==>
      && a.Some?
      && (a == b || b.value.version > a.value.version)
      && (a.value.deleting ==> b.value.deleting)
      && a.value.spec.longhorn == b.value.spec.longhorn
      && (Unprepared(b.value) ==> Unprepared(a.value))
  }

  /** A reconcile from this copy makes no pod, console or volume. */
  predicate Harmless(vm: VM) {
    vm.deleting || Unprepared(vm) || vm.spec.action != Start
  }

  /** A copy that is an earlier state of the record; once the record is gone, a harmless one. */
  predicate Cached(w: World, vm: VM) {
    Follows(Some(vm), w.vm) && (w.vm.None? ==> Harmless(vm))
  }

  // ---- every step keeps ownership

  lemma StartOwned(w: World, vm: VM, input: Input)
    requires Owned(w) && Cached(w, vm) && !vm.deleting && !Unprepared(vm) && vm.spec.action == Start
    ensures Owned(Process(w, vm, input).w)
  {
    hide CreateLonghorn, StartVM, Bare;
    CreateLonghornFrame(w, input);
    LonghornRestartable(w, input);
    var r1 := if vm.spec.longhorn then CreateLonghorn(w, input) else Result(w, Nil);
    StartFrame(r1.w, vm, input);
    StartWrites(w, r1.w, vm, input);
  }

  lemma StopOwned(w: World, vm: VM, input: Input)
    requires Owned(w) && Cached(w, vm) && !vm.deleting && !Unprepared(vm) && vm.spec.action == Stop
    ensures Owned(Process(w, vm, input).w)
  {
    hide StopVM, MarkAll;
    StopFrame(w, vm, input);
    StopWrites(w, vm, input);
    StopEffect(w, vm, input);
    assert |MarkAll(w.pods)| == |w.pods|;
  }

  /** From `w` a deletion left `w4`, and then `r`: less of everything, of storage only what goes, and the
      finalizer is taken away at most when nothing is left. */
  predicate Leaves(w: World, w4: World, r: World, vm: VM, o: Outcome) {
    && w4.vm == w.vm && (Bare(w) ==> Bare(w4)) && (NoStorage(w, Present) ==> NoStorage(w4, Present))
    && (!vm.spec.longhorn ==> w4.volume == w.volume && w4.pv == w.pv && w4.pvc == w.pvc)
    && (|| r == w4
        || (&& Bare(w4) && (vm.spec.longhorn ==> NoStorage(w4, Present))
            && r == UpdateStatus(w4, vm, vm.(finalizers := []), o).w))
  }

  lemma TerminateLeaves(w: World, vm: VM, input: Input) returns (w4: World)
    requires vm.deleting && vm.status.state == Terminating
    ensures Leaves(w, w4, Terminate(w, vm, input).w, vm, input.Fate(FinalizerUpdate))
  {
    hide DeleteLonghorn, UpdateStatus, MarkAll, NoStorage;
    var r1 := DeleteLabelledPods(w, input.Fate(PodsDelete));
    assert r1.w == w.(pods := r1.w.pods, console := r1.w.console, jobPod := r1.w.jobPod);
    assert |MarkAll(w.pods)| == |w.pods|;
    var r2 := DeleteConsole(r1.w, input.Fate(ConsoleDelete));
    assert r2.w == r1.w.(console := r2.w.console);
    var r3 := DeleteService(r2.w, input.Fate(ServiceDelete));
    assert r3.w == r2.w.(service := r3.w.service);
    DeleteLonghornFrame(r3.w, input);
    LonghornDeleted(r3.w, input);
    var r4 := if vm.spec.longhorn then DeleteLonghorn(r3.w, input) else Result(r3.w, Nil);
    assert NoStorage(w, Present) ==> NoStorage(r4.w, Present) by { SameStorage(w, r3.w); }
    assert r1.err == NotFound && r2.err == NotFound && r3.err == NotFound ==> Bare(r4.w);
    w4 := r4.w;
  }

  lemma SameStorage(w: World, w': World)
    requires w'.volume == w.volume && w'.pv == w.pv && w'.pvc == w.pvc
    ensures NoStorage(w, Present) <==> NoStorage(w', Present)
  {
  }

  /** The record only goes when nothing of the machine is left, or its storage is at least going. */
  lemma TerminateOwned(w: World, vm: VM, input: Input)
    requires Owned(w) && Cached(w, vm) && vm.deleting
    ensures Owned(Terminate(w, vm, input).w)
  {
    if vm.status.state == Terminating {
      hide Terminate, UpdateStatus, Bare, NoStorage;
      var w4 := TerminateLeaves(w, vm, input);
      FinalWrite(w4, vm, input.Fate(FinalizerUpdate));
      if !vm.spec.longhorn && w.vm.Some? {
        assert NoStorage(w4, Present) by { NothingStored(w4); }
      }
    }
  }

  lemma NothingStored(w: World)
    requires AllStorage(w, Absent)
    ensures NoStorage(w, Present)
  {
  }

  lemma FinalWrite(w: World, vm: VM, o: Outcome)
    requires Cached(w, vm) && vm.deleting
    ensures var r := UpdateStatus(w, vm, vm.(finalizers := []), o).w;
      r == w || (w.vm.Some? && w.vm.value == vm && r == w.(vm := None))
  {
  }

  lemma CachedIsSnapshot(w: World, vm: VM)
    requires Follows(Some(vm), w.vm)
    ensures Snapshot(w, vm)
  {
  }

  lemma ReconcileOwned(w: World, vm: VM, input: Input)
    requires Owned(w) && Cached(w, vm)
    ensures Owned(Process(w, vm, input).w)
  {
    if vm.deleting {
      hide Terminate, Owned;
      TerminateOwned(w, vm, input);
    } else if Unprepared(vm) {
      assert Prepared(vm).finalizers == [FINALIZER];
    } else if vm.spec.action == Start {
      StartOwned(w, vm, input);
    } else if vm.spec.action == Stop {
      StopOwned(w, vm, input);
    }
  }

  lemma EnvironmentOwned(w: World, w': World)
    requires Owned(w) && Environment(w, w')
    ensures Owned(w')
  {
    NoPodAppears(w.pods, w'.pods);
  }

  lemma NoPodAppears(pods: seq<Pod>, pods': seq<Pod>)
    requires PodsEvolved(pods, pods')
    ensures pods' != [] ==> pods != []
  {
    if pods' != [] {
      assert pods'[0] in pods';
      var p :| p in pods && Evolved(p, pods'[0]);
    }
  }

  /** The record after any step follows the record before it. */
  lemma ReconcileFollows(w: World, vm: VM, input: Input)
    requires Owned(w) && Snapshot(w, vm)
    ensures Follows(w.vm, Process(w, vm, input).w.vm)
  {
    hide Process, Bare, AllStorage, NoStorage;
    ReconcileWritesOnce(w, vm, input);
  }

  lemma EnvironmentFollows(w: World, w': World)
    requires Environment(w, w')
    ensures Follows(w.vm, w'.vm)
  {
    hide PodsEvolved;
  }

  lemma FollowsChain(a: Option<VM>, b: Option<VM>, c: Option<VM>)
    requires Follows(a, b) && Follows(b, c)
    ensures Follows(a, c)
  {
  }

  // ---- runs with a cache of the record

  /** A reconcile at step `i` works from the record as it was at an earlier step `seen[i]`. */
  ghost predicate CacheNext(ws: seq<World>, steps: seq<Step>, seen: seq<nat>, i: nat)
    requires |ws| == |steps| + 1 && |seen| == |steps| && i < |steps|
  {
    match steps[i]
    case Reconciled(vm, input) =>
      seen[i] <= i && ws[seen[i]].vm == Some(vm) && ws[i + 1] == Process(ws[i], vm, input).w
    case Elsewhere => Environment(ws[i], ws[i + 1])
  }

  /** The controller's cache lags behind by any amount, but never goes back. */
  ghost predicate CacheRun(ws: seq<World>, steps: seq<Step>, seen: seq<nat>) {
    && |ws| == |steps| + 1 && |seen| == |steps|
    && (forall i :: 0 <= i < |steps| ==> CacheNext(ws, steps, seen, i))
    && (forall i, j :: 0 <= i <= j < |seen| ==> seen[i] <= seen[j])
  }

  /** A machine as the server creates it: no id, no MAC, no finalizer, nothing in the cluster. */
  predicate JustCreated(w: World) {
    w.vm.Some? && Unprepared(w.vm.value) && !w.vm.value.deleting && Bare(w) && AllStorage(w, Absent)
  }

  /** Every record that a later reconcile may still work from is harmless. */
  ghost predicate LaterHarmless(ws: seq<World>, floor: nat, i: nat)
    requires i < |ws|
  {
    forall k :: floor <= k <= i && ws[k].vm.Some? ==> Harmless(ws[k].vm.value)
  }

  /** One step, from what holds before it. */
  lemma CacheStep(ws: seq<World>, steps: seq<Step>, seen: seq<nat>, i: nat)
    requires CacheRun(ws, steps, seen) && JustCreated(ws[0]) && 0 < i < |ws| && Owned(ws[i - 1])
    requires forall j :: 0 <= j <= i - 1 ==> Follows(ws[j].vm, ws[i - 1].vm)
    requires ws[i - 1].vm.None? ==> i > 1 && LaterHarmless(ws, seen[i - 2], i - 1)
    ensures Owned(ws[i]) && Follows(ws[i - 1].vm, ws[i].vm)
    ensures steps[i - 1].Reconciled? ==> Snapshot(ws[i - 1], steps[i - 1].vm)
  {
    hide Process, Environment, Owned, Follows, Harmless, JustCreated, Snapshot;
    var w, w' := ws[i - 1], ws[i];
    assert CacheNext(ws, steps, seen, i - 1);
    match steps[i - 1]
    case Reconciled(vm, input) =>
      assert Follows(ws[seen[i - 1]].vm, w.vm);
      assert Cached(w, vm);
      CachedIsSnapshot(w, vm);
      ReconcileOwned(w, vm, input);
      ReconcileFollows(w, vm, input);
    case Elsewhere =>
      EnvironmentOwned(w, w');
      EnvironmentFollows(w, w');
  }

  /** What holds at step `i`: ownership, one line of records, and harmless copies once the record is gone. */
  lemma {:induction false} CacheOwned(ws: seq<World>, steps: seq<Step>, seen: seq<nat>, i: nat)
    requires CacheRun(ws, steps, seen) && JustCreated(ws[0]) && i < |ws|
    ensures Owned(ws[i])
    ensures forall j :: 0 <= j <= i ==> Follows(ws[j].vm, ws[i].vm)
    ensures ws[i].vm.None? ==> i > 0 && LaterHarmless(ws, seen[i - 1], i)
    decreases i, 1
  {
    if i > 0 {
      hide Owned, Follows, LaterHarmless, CacheNext, JustCreated, Snapshot;
      CacheOwned(ws, steps, seen, i - 1);
      CacheStep(ws, steps, seen, i);
      HistoryFollows(ws, i);
      if ws[i].vm.None? {
        GoneHarmless(ws, steps, seen, i);
      }
    }
  }

  lemma HistoryFollows(ws: seq<World>, i: nat)
    requires 0 < i < |ws| && (forall j :: 0 <= j <= i - 1 ==> Follows(ws[j].vm, ws[i - 1].vm)) && Follows(ws[i - 1].vm, ws[i].vm)
    ensures forall j :: 0 <= j <= i ==> Follows(ws[j].vm, ws[i].vm)
  {
    forall j | 0 <= j <= i ensures Follows(ws[j].vm, ws[i].vm) {
      if j < i {
        FollowsChain(ws[j].vm, ws[i - 1].vm, ws[i].vm);
      }
    }
  }

  /** The step that removed the record worked from the current copy, and no later copy is older than that. */
  lemma GoneHarmless(ws: seq<World>, steps: seq<Step>, seen: seq<nat>, i: nat)
    requires CacheRun(ws, steps, seen) && JustCreated(ws[0]) && 0 < i < |ws| && ws[i].vm.None? && Owned(ws[i - 1])
    requires forall j :: 0 <= j <= i - 1 ==> Follows(ws[j].vm, ws[i - 1].vm)
    requires steps[i - 1].Reconciled? ==> Snapshot(ws[i - 1], steps[i - 1].vm)
    requires ws[i - 1].vm.None? ==> i > 1 && LaterHarmless(ws, seen[i - 2], i - 1)
    ensures LaterHarmless(ws, seen[i - 1], i)
    decreases i, 0
  {
    hide Process, Environment, Bare, AllStorage, NoStorage;
    var w := ws[i - 1];
    assert CacheNext(ws, steps, seen, i - 1);
    if w.vm.Some? {
      if steps[i - 1].Reconciled? {
        ReconcileWritesOnce(w, steps[i - 1].vm, steps[i - 1].input);
        forall k | seen[i - 1] <= k <= i && ws[k].vm.Some? ensures Harmless(ws[k].vm.value) {
          CacheHistory(ws, steps, seen, seen[i - 1], k);
        }
      } else {
        assert w.vm.value.finalizers == [] by { RemovedUnprepared(w, ws[i]); }
      }
    }
  }

  lemma RemovedUnprepared(w: World, w': World)
    requires Environment(w, w') && w.vm.Some? && w'.vm.None?
    ensures w.vm.value.finalizers == []
  {
  }

  /** Records of one run, at any two steps. */
  lemma CacheHistory(ws: seq<World>, steps: seq<Step>, seen: seq<nat>, j: nat, i: nat)
    requires CacheRun(ws, steps, seen) && JustCreated(ws[0]) && j <= i < |ws|
    ensures Follows(ws[j].vm, ws[i].vm)
    decreases i, 2
  {
    CacheOwned(ws, steps, seen, i);
  }

  /** A copy from such a cache is either outdated or the current record. */
  lemma CacheRunIsRun(ws: seq<World>, steps: seq<Step>, seen: seq<nat>)
    requires CacheRun(ws, steps, seen) && JustCreated(ws[0])
    ensures Run(ws, steps)
  {
    hide Process, Environment, Follows, Owned;
    forall i | 0 <= i < |steps| ensures Next(ws[i], steps[i], ws[i + 1]) {
      assert CacheNext(ws, steps, seen, i);
      if steps[i].Reconciled? {
        CacheHistory(ws, steps, seen, seen[i], i);
        CachedIsSnapshot(ws[i], steps[i].vm);
      }
    }
  }

  /**
    In every run of a machine created through the server, whatever calls fail or get lost and however far
    the controller's cache lags behind: pods, console and service exist only while the record holds its
    finalizer; when the record is gone none of them is left and every part of its storage is gone or going;
    and a Longhorn machine that is not being deleted has pods only while its volume, persistent volume and
    claim exist.
  */
  lemma NothingOutlivesTheMachine(ws: seq<World>, steps: seq<Step>, seen: seq<nat>, i: nat)
    requires CacheRun(ws, steps, seen) && JustCreated(ws[0]) && i < |ws|
    ensures Owned(ws[i])
    ensures !Bare(ws[i]) ==> ws[i].vm.Some? && ws[i].vm.value.finalizers == [FINALIZER]
    ensures ws[i].vm.None? ==> Bare(ws[i]) && NoStorage(ws[i], Present)
  {
    hide CacheRun, JustCreated;
    CacheOwned(ws, steps, seen, i);
  }

  // ---- a cache that goes back

  /** Once the record is gone, a reconcile leaves nothing behind, whatever its calls return, exactly when its
      copy of the record is harmless. */
  lemma HarmlessExactlyWhen(w: World, vm: VM)
    requires w.vm.None? && Owned(w) && Lookup(w) == Nil
    ensures (forall input :: Owned(Process(w, vm, input).w)) <==> Harmless(vm)
  {
    if Harmless(vm) {
      hide Process, Owned, Harmless;
      forall input ensures Owned(Process(w, vm, input).w) {
        ReconcileOwned(w, vm, input);
      }
    } else {
      var input := Input(map[], "b", 0, "t", 1, 0, 30000);
      LateStart(w, vm, input);
    }
  }

  /** A start from an old copy makes a pod for a machine that is gone. */
  lemma LateStart(w: World, vm: VM, input: Input)
    requires w.vm.None? && Bare(w) && Lookup(w) == Nil && input.faults == map[]
    requires !vm.deleting && !Unprepared(vm) && vm.spec.action == Start
    ensures var r := Process(w, vm, input).w; r.vm.None? && r.pods != []
  {
    hide CreateLonghorn, UpdateNovnc, Migrate;
    CreateLonghornFrame(w, input);
    assert CreateLonghorn(w, input).err == Nil by { AnsweredCreate(w, input); }
    var w1 := if vm.spec.longhorn then CreateLonghorn(w, input).w else w;
    var boot := BootPod(vm, input);
    assert CreatePod(w1, boot, Accepted) == Result(w1.(pods := [boot]), Nil);
    StartWrites(w1, w1, vm, input);
    if StatusWithPod(vm, boot).status != vm.status {
      assert UpdateMachinePod(w1, vm, input).err == NotFound;
    } else {
      StartKeepsBoot(w1, vm, input);
    }
  }

  lemma AnsweredCreate(w: World, input: Input)
    requires input.faults == map[] && w.image.ImageReady?
    ensures CreateLonghorn(w, input).err == Nil
  {
  }

  lemma StartKeepsBoot(w: World, vm: VM, input: Input)
    requires w.vm.None? && w.pods == [] && UpdateMachinePod(w, vm, input).err == Nil && input.faults == map[] && Lookup(w) == Nil
    requires StatusWithPod(vm, BootPod(vm, input)).status == vm.status && !vm.deleting
    ensures StartVM(w, vm, input).w.pods != []
  {
    hide Migrate, UpdateNovnc, UpdateMachinePod;
    PodUpdateEffect(w, vm, input);
    NovncFrame(UpdateMachinePod(w, vm, input).w, vm, input);
  }

  lemma FirstWrites(w: World, vm: VM, input: Input)
    requires w.vm == Some(vm) && input.faults == map[]
    ensures !vm.deleting && Unprepared(vm) ==> Process(w, vm, input).w == w.(vm := Committed(Prepared(vm)))
    ensures vm.deleting && vm.status.state != Terminating && vm.finalizers != [] ==>
              Process(w, vm, input).w == w.(vm := Committed(WithState(vm, Terminating)))
  {
    hide StartVM, StopVM, CreateLonghorn;
  }

  lemma LastTermination(w: World, vm: VM, input: Input)
    requires w.vm == Some(vm) && vm.deleting && vm.status.state == Terminating && !vm.spec.longhorn
    requires vm.finalizers != [] && Bare(w) && w.jobPod.Absent? && input.faults == map[]
    ensures Process(w, vm, input).w == w.(vm := None)
  {
  }

  /** Without the order of copies the property is false: this run ends with a pod and no record. */
  lemma OldCopyLeavesAPod() returns (ws: seq<World>, steps: seq<Step>)
    ensures Run(ws, steps) && JustCreated(ws[0])
    ensures var last := ws[|steps|]; last.vm.None? && last.pods != []
  {
    hide Process, Prepared;
    var vm0 := VM(Spec(Start, "", false, false), Status(Unset, NoEndpoint, "", "", "", ""), [], false, 1, "00000000");
    var input := Input(map[], "m-a", 0, "m-b", 1, 0, 30000);
    var w0 := World(Some(vm0), [], None, Absent, Absent, None, Absent, Absent, Absent, ImageReady, true);
    var vm1 := Prepared(vm0).(version := 2);
    var vm2 := vm1.(deleting := true, version := 3);
    var vm3 := WithState(vm2, Terminating).(version := 4);
    PreparedKeeps(vm0);
    var w1, w2, w3, w4 := w0.(vm := Some(vm1)), w0.(vm := Some(vm2)), w0.(vm := Some(vm3)), w0.(vm := None);
    FirstWrites(w0, vm0, input);
    FirstWrites(w2, vm2, input);
    LastTermination(w3, vm3, input);
    LateStart(w4, vm1, input);
    ws := [w0, w1, w2, w3, w4, Process(w4, vm1, input).w];
    steps := [Reconciled(vm0, input), Elsewhere, Reconciled(vm2, input), Reconciled(vm3, input), Reconciled(vm1, input)];
    assert Next(ws[0], steps[0], ws[1]) && Next(ws[1], steps[1], ws[2]) && Next(ws[2], steps[2], ws[3]);
    assert Next(ws[3], steps[3], ws[4]) && Next(ws[4], steps[4], ws[5]);
  }

  lemma PreparedKeeps(vm: VM)
    requires vm.finalizers == []
    ensures var p := Prepared(vm);
      && p.finalizers == [FINALIZER] && p.spec == vm.spec && p.deleting == vm.deleting && p.version == vm.version
      && p.status.state == vm.status.state
  {
  }

  // ---- storage is created once

  datatype Part = Volume | PersistentVolume | Claim

  function At(w: World, part: Part): Presence {
    match part
    case Volume => w.volume
    case PersistentVolume => w.pv
    case Claim => w.pvc
  }

  /** The step creates the part. */
  predicate Creates(w: World, w': World, part: Part) {
    At(w, part).Absent? && At(w', part).Present?
  }

  lemma PresentStays(w: World, vm: VM, input: Input, part: Part)
    requires !vm.deleting && At(w, part).Present?
    ensures At(Process(w, vm, input).w, part).Present?
  {
    hide CreateLonghorn, StartVM, StopVM;
    CreateLonghornFrame(w, input);
    LonghornRestartable(w, input);
    StartFrame(if vm.spec.longhorn then CreateLonghorn(w, input).w else w, vm, input);
    StopFrame(w, vm, input);
  }

  /** A part that exists stays until the machine is told to go, through every failure and retry. */
  lemma {:induction false} PartStays(ws: seq<World>, steps: seq<Step>, seen: seq<nat>, part: Part, i: nat, j: nat)
    requires CacheRun(ws, steps, seen) && JustCreated(ws[0]) && i <= j < |ws|
    requires At(ws[i], part).Present? && ws[j].vm.Some? && !ws[j].vm.value.deleting
    ensures At(ws[j], part).Present?
    decreases j
  {
    hide Process, JustCreated;
    if i < j {
      CacheHistory(ws, steps, seen, j - 1, j);
      PartStays(ws, steps, seen, part, i, j - 1);
      assert CacheNext(ws, steps, seen, j - 1);
      if steps[j - 1].Reconciled? {
        CacheHistory(ws, steps, seen, seen[j - 1], j - 1);
        PresentStays(ws[j - 1], steps[j - 1].vm, steps[j - 1].input, part);
      }
    }
  }

  /** Each part is created by at most one step before the machine is told to go. */
  lemma PartsCreatedOnce(ws: seq<World>, steps: seq<Step>, seen: seq<nat>, part: Part, i: nat, j: nat)
    requires CacheRun(ws, steps, seen) && JustCreated(ws[0]) && i < j < |steps|
    requires Creates(ws[i], ws[i + 1], part) && Creates(ws[j], ws[j + 1], part)
    ensures ws[j].vm.None? || ws[j].vm.value.deleting
  {
    hide CacheNext, JustCreated;
    if ws[j].vm.Some? && !ws[j].vm.value.deleting {
      PartStays(ws, steps, seen, part, i + 1, j);
    }
  }

  /** A pod appears only for a ready image and, on Longhorn, complete storage. */
  lemma PodsNeedImageAndStorage(w: World, vm: VM, input: Input)
    ensures var r := Process(w, vm, input).w;
      |r.pods| > |w.pods| ==> w.image.ImageReady? && w.keysFound && (vm.spec.longhorn ==> NoStorage(r, Absent))
  {
    hide CreateLonghorn, StartVM, StopVM, Terminate, MarkAll;
    StopEffect(w, vm, input);
    TerminateEffect(w, vm, input);
    assert |MarkAll(w.pods)| == |w.pods|;
    CreateLonghornFrame(w, input);
    LonghornRestartable(w, input);
    var r1 := if vm.spec.longhorn then CreateLonghorn(w, input) else Result(w, Nil);
    StartFrame(r1.w, vm, input);
    if Lookup(r1.w) != Nil {
      LookupFirst(r1.w, vm, input);
    }
  }

  lemma LookupFirst(w: World, vm: VM, input: Input)
    requires Lookup(w) != Nil
    ensures StartVM(w, vm, input).w == w
  {
  }

  // ---- what the deletion path does not do

  /** Deleting a machine never touches its migration job. */
  lemma TerminateKeepsJob(w: World, vm: VM, input: Input)
    ensures Terminate(w, vm, input).w.job == w.job
  {
    hide DeleteLonghorn, UpdateStatus, MarkAll;
    StatusFrame(w, vm, WithState(vm, Terminating), input.Fate(TerminatingUpdate));
    var r1 := DeleteLabelledPods(w, input.Fate(PodsDelete));
    var r2 := DeleteConsole(r1.w, input.Fate(ConsoleDelete));
    assert r2.w.job == r1.w.job == w.job;
    var r3 := DeleteService(r2.w, input.Fate(ServiceDelete));
    assert r3.w.job == w.job;
    DeleteLonghornFrame(r3.w, input);
    var r4 := if vm.spec.longhorn then DeleteLonghorn(r3.w, input) else Result(r3.w, Nil);
    StatusFrame(r4.w, vm, vm.(finalizers := []), input.Fate(FinalizerUpdate));
  }

  /** So a job is left behind by the step that removes the record exactly when there was one before it. */
  lemma JobOutlivesTheMachine(w: World, vm: VM, input: Input)
    requires w.vm == Some(vm) && vm.deleting && Process(w, vm, input).w.vm.None?
    ensures Process(w, vm, input).w.job.Some? <==> w.job.Some?
  {
    TerminateKeepsJob(w, vm, input);
  }

  /** And there are such steps. */
  lemma SomeJobOutlives() returns (w: World, vm: VM, input: Input)
    ensures w.vm == Some(vm) && vm.deleting
    ensures var r := Process(w, vm, input).w; r.vm.None? && r.job.Some?
  {
    vm := VM(Spec(Start, "", false, false), Status(Terminating, NoEndpoint, "i", "m", "", ""), [FINALIZER], true, 7,
             "00000000");
    w := World(Some(vm), [], Some(Job("a", "b", 40000, 0, false)), Absent, Absent, None, Absent, Absent, Absent,
               ImageReady, true);
    input := Input(map[], "", 0, "", 0, 0, 0);
  }
}
