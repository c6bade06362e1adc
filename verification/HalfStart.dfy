/**
  A migration that was only half started: the record said Migrating, but the target pod could not be
  created. The controller does not get out of what follows by itself.
*/
module HalfStart {
  import opened Replies
  import opened Cluster
  import opened Reconcile
  import opened Safety
  import opened Pods
  import opened Runs
  import opened Protocol
  import opened StaleJob
  import opened Convergence

  /** How it begins: nothing is left to write, the pod is on the wrong node, and the target is refused. */
  lemma TargetRefused(w: World, vm: VM, p: Pod, input: Input)
    requires Moving(w) && w.vm == Some(vm) && Alive(w.pods) == [p]
    requires p.node != vm.spec.nodeName && Owed(w, vm, p) == 0 && input.faults == map[TargetCreate := Rejected]
    ensures var r := Process(w, vm, input).w;
      r.vm == Committed(WithState(vm, Migrating)) && r.pods == w.pods && Lookup(r) == Nil
  {
    hide Alive, UpdateNovnc, ContinueMigration, CreateLonghorn, UniqueNames, UpdateStatus;
    var w1 := WithStorage(w, vm, input);
    assert CreateLonghorn(w, input).err == Nil by { AnsweredLonghorn(w, input); }
    CreateLonghornFrame(w, input);
    CalmWrite(w1, vm, StatusWithPod(vm, p));
    assert UpdateMachinePod(w1, vm, input) == PodResult(w1, Some(p), Nil);
    NovncFrame(w1, vm, input);
    var w2 := if p.name != "" then UpdateNovnc(w1, vm, input).w else w1;
    assert w2.vm == w.vm by {
      SameNovnc(w1, vm, input);
      OwedFalls(w1, vm, p, input.(faults := map[]));
      SameOwed(w, w1, vm, p);
    }
    var m := WithState(vm, Migrating);
    CalmWrite(w2, vm, m);
    RefusedTarget(w2.(vm := Committed(m)), m, input);
  }

  lemma AnsweredLonghorn(w: World, input: Input)
    requires input.faults == map[TargetCreate := Rejected] && w.image.ImageReady?
    ensures CreateLonghorn(w, input).err == Nil
  {
  }

  /** The console update does not depend on what happens to the target pod. */
  lemma SameNovnc(w: World, vm: VM, input: Input)
    requires input.faults == map[TargetCreate := Rejected]
    ensures UpdateNovnc(w, vm, input) == UpdateNovnc(w, vm, input.(faults := map[]))
  {
    hide UpdateStatus;
  }

  lemma RefusedTarget(w: World, m: VM, input: Input)
    requires input.faults == map[TargetCreate := Rejected] && |Alive(w.pods)| == 1
    ensures ContinueMigration(w, m, input).w == w
  {
    hide Alive, Rollback, Cleanup;
  }

  /** How it goes on: the next start writes the pod's status over Migrating and then adds the target after all. */
  lemma TargetAfterAll(w: World, vm: VM, p: Pod, input: Input)
    requires w.vm == Some(vm) && !vm.deleting && vm.status.state == Migrating && Calm(w, input)
    requires Alive(w.pods) == [p] && p.ready && Lookup(w) == Nil
    ensures var r := StartVM(w, vm, input).w;
      && r.vm == Committed(StatusWithPod(vm, p)) && r.vm.value.status.state == Running
      && r.pods == w.pods + [TargetPod(vm, input)] && |Alive(r.pods)| == 2
  {
    hide Alive, UpdateNovnc, Migrate, Names, UniqueNames;
    AliveMembers(w.pods, p);
    var upd := StatusWithPod(vm, p);
    CalmWrite(w, vm, upd);
    var w1 := w.(vm := After(vm, upd));
    assert UpdateMachinePod(w, vm, input) == PodResult(w1, Some(p), Nil);
    NovncFrame(w1, vm, input);
    NovncKeepsState(w, w1, vm, input);
    var w2 := if p.name != "" then UpdateNovnc(w1, vm, input).w else w1;
    MigrateIsContinue(w2, vm, input);
    var target := TargetPod(vm, input);
    assert StartTarget(w2, vm, input) == TargetResult(w2.(pods := w.pods + [target]), false, false, Nil);
    AliveAppend(w.pods, target);
  }

  // ---- where it ends

  /** Two pods alive and a record that does not say Migrating. */
  predicate Stuck(w: World) {
    && w.vm.Some? && !w.vm.value.deleting && !Unprepared(w.vm.value) && w.vm.value.spec.action == Start
    && w.vm.value.status.state != Migrating
    && UniqueNames(w.pods) && |Alive(w.pods)| == 2
  }

  /** One refused call, at the moment a migration starts, and one ordinary start after it, lead there. */
  lemma RefusedTargetGetsStuck(w: World, p: Pod, input: Input, next: Input)
    requires Moving(w) && Alive(w.pods) == [p] && p.node != w.vm.value.spec.nodeName && Owed(w, w.vm.value, p) == 0
    requires input.faults == map[TargetCreate := Rejected]
    ensures var r := Process(w, w.vm.value, input).w;
      r.vm.Some? && (Calm(r, next) ==> Stuck(Process(r, r.vm.value, next).w))
  {
    hide Alive, Process, StartVM, Owed, UniqueNames, Names, CreateLonghorn;
    var vm := w.vm.value;
    TargetRefused(w, vm, p, input);
    var r := Process(w, vm, input).w;
    if Calm(r, next) {
      var m := r.vm.value;
      PreparedStays(vm, WithState(vm, Migrating));
      CalmProcess(r, m, next);
      var r1 := WithStorage(r, m, next);
      TargetAfterAll(r1, m, p, next);
      PreparedStays(m, StatusWithPod(m, p));
      AliveAppend(r.pods, TargetPod(m, next));
    }
  }

  /** With two pods alive and any state but Migrating in its copy of the record, a start does nothing. */
  lemma HalfStartedIsStuck(w: World, vm: VM, input: Input)
    requires |Alive(w.pods)| >= 2 && vm.status.state != Migrating
    ensures StartVM(w, vm, input).w == w
  {
    hide Alive, UpdateNovnc, Migrate;
  }

  /** Reconciles with any failures; users edit anything but the action; both pods stay alive. */
  ghost predicate StuckNext(w: World, s: Step, w': World) {
    match s
    case Reconciled(vm, input) => w.vm == Some(vm) && w' == Process(w, vm, input).w
    case Elsewhere =>
      && Environment(w, w') && AliveNames(w'.pods) == AliveNames(w.pods)
      && w'.vm.Some? && !w'.vm.value.deleting && w'.vm.value.spec.action == Start
  }

  ghost predicate StuckRun(ws: seq<World>, steps: seq<Step>) {
    && |ws| == |steps| + 1
    && forall i :: 0 <= i < |steps| ==> StuckNext(ws[i], steps[i], ws[i + 1])
  }

  lemma StaysStuck(w: World, s: Step, w': World)
    requires Stuck(w) && StuckNext(w, s, w')
    ensures Stuck(w') && w'.vm.value.status == w.vm.value.status && AliveNames(w'.pods) == AliveNames(w.pods)
    ensures s.Reconciled? ==> w' == w.(volume := w'.volume, pv := w'.pv, pvc := w'.pvc)
  {
    hide Alive, StartVM, CreateLonghorn, UniqueNames, AliveNames;
    match s
    case Reconciled(vm, input) =>
      CreateLonghornFrame(w, input);
      HalfStartedIsStuck(if vm.spec.longhorn then CreateLonghorn(w, input).w else w, vm, input);
    case Elsewhere =>
      AliveCount(w.pods);
      AliveCount(w'.pods);
  }

  /**
    For as long as both pods stay alive and the action stays start, whatever node the user asks for: the
    same two pods are alive, the recorded status is the same, and reconciles touch nothing but storage.
  */
  lemma {:induction false} StuckForGood(ws: seq<World>, steps: seq<Step>, i: nat)
    requires StuckRun(ws, steps) && Stuck(ws[0]) && i < |ws|
    ensures Stuck(ws[i]) && ws[i].vm.value.status == ws[0].vm.value.status
    ensures AliveNames(ws[i].pods) == AliveNames(ws[0].pods)
    ensures i < |steps| && steps[i].Reconciled? ==>
              ws[i + 1] == ws[i].(volume := ws[i + 1].volume, pv := ws[i + 1].pv, pvc := ws[i + 1].pvc)
  {
    hide StuckNext, Alive, UniqueNames, AliveNames;
    if i > 0 {
      StuckForGood(ws, steps, i - 1);
      StaysStuck(ws[i - 1], steps[i - 1], ws[i]);
    }
    if i < |steps| {
      StaysStuck(ws[i], steps[i], ws[i + 1]);
    }
  }
}
