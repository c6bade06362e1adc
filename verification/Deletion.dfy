/** Deleting a machine: when its record goes, and what can keep it for ever. */
module Deletion {
  import opened Replies
  import opened Cluster
  import opened Reconcile
  import opened Safety
  import opened Pods
  import opened Runs
  import opened Ownership
  import opened Protocol
  import opened Stopping

  predicate BeingDeleted(w: World) {
    && UniqueNames(w.pods)
    && w.vm.Some? && w.vm.value.deleting && w.vm.value.finalizers != []
  }

  /** What a deletion still has to see disappear. */
  function ToGo(w: World): nat {
    |w.pods| + One(!w.console.Absent?) + One(!w.jobPod.Absent?) + One(w.service.Some?)
  }

  predicate Ended(w: World) {
    w.vm.None? && ToGo(w) == 0
  }

  function DeletionRank(w: World): nat {
    if w.vm.None? then 0 else 1 + ToGo(w) + One(w.vm.value.status.state != Terminating)
  }

  /** What a reconcile of a deleted machine does when its calls are answered. */
  lemma CalmTerminate(w: World, vm: VM, input: Input)
    requires w.vm == Some(vm) && vm.deleting && vm.finalizers != [] && input.faults == map[]
    ensures var r := Process(w, vm, input).w;
      if vm.status.state != Terminating then r == w.(vm := Committed(WithState(vm, Terminating)))
      else
        && r.pods == MarkAll(w.pods) && r.console == Leaving(w.console) && r.jobPod == Leaving(w.jobPod)
        && r.service == None && r.job == w.job
        && r.vm == if ToGo(w) == 0 then None else w.vm
  {
    if vm.status.state == Terminating {
      hide DeleteLonghorn, UpdateStatus, MarkAll;
      assert |MarkAll(w.pods)| == |w.pods|;
      var r1 := DeleteLabelledPods(w, Accepted);
      assert r1.w == w.(pods := MarkAll(w.pods), console := Leaving(w.console), jobPod := Leaving(w.jobPod));
      var r2 := DeleteConsole(r1.w, Accepted);
      assert r2.w == r1.w;
      var r3 := DeleteService(r2.w, Accepted);
      assert r3.w == r2.w.(service := None);
      DeleteLonghornFrame(r3.w, input);
      AnsweredDelete(r3.w, input);
      var w4 := if vm.spec.longhorn then DeleteLonghorn(r3.w, input).w else r3.w;
      LastWrite(w4, vm);
    }
  }

  /** One failure does not keep a deletion from trying the rest: what was not refused is marked. */
  lemma TerminateTriesAll(w: World, vm: VM, input: Input)
    requires vm.status.state == Terminating
    ensures var r := Terminate(w, vm, input).w;
      && (input.Fate(PodsDelete) != Rejected ==> r.pods == MarkAll(w.pods) && !r.jobPod.Present?)
      && (input.Fate(ConsoleDelete) != Rejected ==> !r.console.Present?)
      && (input.Fate(ServiceDelete) != Rejected ==> r.service.None?)
      && (vm.spec.longhorn && input.Fate(VolumeGet) == Accepted && input.Fate(VolumeDelete) != Rejected ==> !r.volume.Present?)
  {
    hide UpdateStatus, MarkAll, DeleteLonghorn, DeleteLabelledPods, DeleteConsole, DeleteService;
    var w1 := DeleteLabelledPods(w, input.Fate(PodsDelete)).w;
    Deletions(w, input.Fate(PodsDelete));
    var w2 := DeleteConsole(w1, input.Fate(ConsoleDelete)).w;
    Deletions(w1, input.Fate(ConsoleDelete));
    var w3 := DeleteService(w2, input.Fate(ServiceDelete)).w;
    Deletions(w2, input.Fate(ServiceDelete));
    DeleteLonghornFrame(w3, input);
    VolumeToldToGo(w3, input);
    var w4 := if vm.spec.longhorn then DeleteLonghorn(w3, input).w else w3;
    StatusFrame(w4, vm, vm.(finalizers := []), input.Fate(FinalizerUpdate));
  }

  lemma VolumeToldToGo(w: World, input: Input)
    ensures input.Fate(VolumeGet) == Accepted && input.Fate(VolumeDelete) != Rejected ==> !DeleteLonghorn(w, input).w.volume.Present?
  {
  }

  lemma AnsweredDelete(w: World, input: Input)
    requires input.faults == map[]
    ensures DeleteLonghorn(w, input).err == Nil
  {
  }

  lemma LastWrite(w: World, vm: VM)
    requires w.vm == Some(vm) && vm.deleting && vm.finalizers != []
    ensures UpdateStatus(w, vm, vm.(finalizers := []), Accepted).w == w.(vm := None)
  {
  }

  // ---- runs

  /** Reconciles whose calls are answered, between anything the environment and the users do. */
  ghost predicate DeletionNext(w: World, s: Step, w': World) {
    match s
    case Reconciled(vm, input) => w.vm == Some(vm) && input.faults == map[] && w' == Process(w, vm, input).w
    case Elsewhere => Tends(w, w')
  }

  ghost predicate DeletionRun(ws: seq<World>, steps: seq<Step>) {
    && |ws| == |steps| + 1
    && forall i :: 0 <= i < |steps| ==> DeletionNext(ws[i], steps[i], ws[i + 1])
  }

  /** The deletion is recorded, the service goes, the record goes; or something has disappeared. */
  ghost predicate Productive(w: World, s: Step, w': World) {
    && w.vm.Some?
    && if s.Reconciled? then w.vm.value.status.state != Terminating || w.service.Some? || ToGo(w) == 0
       else ToGo(w') < ToGo(w)
  }

  ghost function ProductiveSteps(ws: seq<World>, steps: seq<Step>, i: nat): nat
    requires |ws| == |steps| + 1 && i < |ws|
  {
    if i == 0 then 0
    else ProductiveSteps(ws, steps, i - 1) + One(Productive(ws[i - 1], steps[i - 1], ws[i]))
  }

  /** Being deleted, or gone; and no job at work that would make another pod. */
  predicate Departing(w: World) {
    !Restarting(w.job) && (BeingDeleted(w) || Ended(w))
  }

  lemma ReconcileDeletes(w: World, vm: VM, input: Input)
    requires BeingDeleted(w) && w.vm == Some(vm) && input.faults == map[]
    ensures var r := Process(w, vm, input).w;
      && (BeingDeleted(r) || Ended(r)) && r.job == w.job
      && DeletionRank(r) + One(Productive(w, Reconciled(vm, input), r)) <= DeletionRank(w)
  {
    hide Process, MarkAll, UniqueNames;
    CalmTerminate(w, vm, input);
    AliveMarkAll(w.pods);
    assert |MarkAll(w.pods)| == |w.pods|;
  }

  lemma TendingDeletes(w: World, w': World)
    requires Departing(w) && Tends(w, w')
    ensures Departing(w') && DeletionRank(w') + One(Productive(w, Elsewhere, w')) <= DeletionRank(w)
  {
    if w.vm.Some? {
      hide UniqueNames;
      NoMorePods(w.pods, w'.pods);
    } else {
      NoPodAppears(w.pods, w'.pods);
    }
  }

  lemma DeletionStep(w: World, s: Step, w': World)
    requires Departing(w) && DeletionNext(w, s, w')
    ensures Departing(w') && DeletionRank(w') + One(Productive(w, s, w')) <= DeletionRank(w)
  {
    hide Process, Tends, DeletionRank, Productive;
    match s
    case Reconciled(vm, input) => ReconcileDeletes(w, vm, input);
    case Elsewhere => TendingDeletes(w, w');
  }

  /**
    In every run of reconciles of a deleted machine without a job at work: after as many productive steps as
    the variant said at the start, the record is gone, and no pod, console or service is left.
  */
  lemma {:induction false} DeletionConverges(ws: seq<World>, steps: seq<Step>, i: nat)
    requires DeletionRun(ws, steps) && Departing(ws[0]) && i < |ws|
    ensures Departing(ws[i]) && DeletionRank(ws[i]) + ProductiveSteps(ws, steps, i) <= DeletionRank(ws[0])
    ensures ProductiveSteps(ws, steps, i) >= DeletionRank(ws[0]) ==> Ended(ws[i])
  {
    hide DeletionNext, Productive;
    if i > 0 {
      DeletionConverges(ws, steps, i - 1);
      DeletionStep(ws[i - 1], steps[i - 1], ws[i]);
    }
  }

  /** Without a job at work, every deletion can be brought to its end. */
  lemma {:induction false} DeletionCanFinish(w: World) returns (ws: seq<World>, steps: seq<Step>)
    requires Departing(w)
    ensures DeletionRun(ws, steps) && ws[0] == w && Ended(ws[|steps|])
    decreases DeletionRank(w)
  {
    hide Process;
    if w.vm.None? {
      ws, steps := [w], [];
    } else {
      var input := Input(map[], "", 0, "", 0, 0, 0);
      var s, w' := Reconciled(w.vm.value, input), Process(w, w.vm.value, input).w;
      if !Productive(w, s, w') {
        s, w' := Elsewhere, w.(pods := [], console := Absent, jobPod := Absent);
      }
      DeletionStep(w, s, w');
      var ws', steps' := DeletionCanFinish(w');
      ws, steps := [w] + ws', [s] + steps';
    }
  }

  /** The job's pod is back. */
  function Replaced(w: World): World {
    w.(jobPod := Present)
  }

  lemma JobReplacesItsPod(w: World)
    requires BeingDeleted(w) && Restarting(w.job) && Addressed(w.pods)
    ensures Tends(w, Replaced(w))
  {
    forall q | q in w.pods ensures Evolved(q, q) {
    }
  }

  function Reconciles(steps: seq<Step>): nat {
    if steps == [] then 0 else One(steps[0].Reconciled?) + Reconciles(steps[1..])
  }

  /** One more reconcile that finds the job's pod. */
  lemma OneMoreReconcile(w: World, input: Input)
    requires BeingDeleted(w) && Restarting(w.job) && Addressed(w.pods) && input.faults == map[]
    ensures var r := Process(Replaced(w), w.vm.value, input).w;
      BeingDeleted(r) && Restarting(r.job) && Addressed(r.pods)
  {
    hide Process, UniqueNames, Addressed, MarkAll;
    CalmTerminate(Replaced(w), w.vm.value, input);
    AliveMarkAll(w.pods);
    MarkAddressed(w.pods, "");
  }

  /**
    The condition is exact. While a job is at work nobody deletes it, and it can replace its pod each time:
    any number of answered reconciles leave the record in place.
  */
  lemma {:induction false} JobKeepsTheRecord(w: World, n: nat) returns (ws: seq<World>, steps: seq<Step>)
    requires BeingDeleted(w) && Restarting(w.job) && Addressed(w.pods)
    ensures DeletionRun(ws, steps) && ws[0] == w && Reconciles(steps) == n
    ensures forall i :: 0 <= i < |ws| ==> ws[i].vm.Some?
    decreases n
  {
    hide Process, Tends, UniqueNames, Addressed, Restarting;
    if n == 0 {
      ws, steps := [w], [];
    } else {
      var u, vm, input := Replaced(w), w.vm.value, Input(map[], "", 0, "", 0, 0, 0);
      JobReplacesItsPod(w);
      OneMoreReconcile(w, input);
      var ws', steps' := JobKeepsTheRecord(Process(u, vm, input).w, n - 1);
      ws, steps := [w, u] + ws', [Elsewhere, Reconciled(vm, input)] + steps';
      assert steps[1..][1..] == steps';
    }
  }
}
