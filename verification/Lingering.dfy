/**
  The migration that ends on the word of another migration's job does happen: every cancelled migration
  whose job was already made leads there, when the user asks for a third node before the job is gone.
*/
module Lingering {
  import opened Replies
  import opened Cluster
  import opened Reconcile
  import opened Safety
  import opened Pods
  import opened Runs
  import opened Protocol
  import opened StaleJob
  import opened Convergence

  /** Two alive pods with the job that moves the machine between them, and a user who wants it back. */
  ghost predicate CancelledWithJob(w: World) {
    && InProtocol(w) && Lookup(w) == Nil && w.job.Some?
    && var vm := w.vm.value; var alive := Alive(w.pods);
    && !Unprepared(vm) && vm.spec.action == Start
    && |alive| == 2 && Older(alive).ready && vm.spec.nodeName == Older(alive).node
  }

  /** The cancelling reconcile leaves the older pod alone, and the job listed but told to go. */
  lemma CancelKeepsTheJob(w: World, vm: VM, input: Input)
    requires CancelledWithJob(w) && w.vm == Some(vm) && Calm(w, input)
    ensures var r := Process(w, vm, input).w;
      && InProtocol(r) && Lookup(r) == Nil && r.vm == Committed(WithState(vm, Running))
      && Alive(r.pods) == [Older(Alive(w.pods))] && Names(r.pods) == Names(w.pods) && r.job == Gone(w.job)
  {
    hide Process, StartVM, Alive, UniqueNames, Names, AliveNames, Mark, CreateLonghorn, Unprepared;
    var alive := Alive(w.pods);
    CalmProcess(w, vm, input);
    PairStep(WithStorage(w, vm, input), vm, input);
    ReconcileKeepsProtocol(w, vm, input);
    MarkedPair(w.pods, Newer(alive), Older(alive));
    AliveMark(w.pods, Newer(alive).name);
  }

  function Asked(vm: VM, node: string): VM {
    vm.(spec := vm.spec.(nodeName := node), version := vm.version + 1)
  }

  /** The user asks for another node. */
  lemma AskElsewhere(w: World, node: string)
    requires InProtocol(w)
    ensures Orderly(w, w.(vm := Some(Asked(w.vm.value, node))))
  {
    hide Alive, AliveNames, UniqueNames, Unprepared;
    forall q | q in w.pods ensures Evolved(q, q) {
    }
  }

  /** Reconciles alone bring a machine on the wrong node to the start of its migration, whatever job is listed. */
  lemma {:induction false} StartComes(w: World) returns (ws: seq<World>, steps: seq<Step>)
    requires Moving(w) && |Alive(w.pods)| == 1 && Alive(w.pods)[0].node != w.vm.value.spec.nodeName
    ensures |steps| > 0 && CalmRun(ws, steps) && ws[0] == w && forall i :: 0 <= i < |steps| ==> steps[i].Reconciled?
    ensures var u := ws[|steps| - 1];
      InProtocol(u) && u.pods == w.pods && u.job == w.job && Starts(u, ws[|steps|])
    decreases Rank(w)
  {
    hide Process, Alive, Rank, Calm, Due;
    var input := CalmInput(w);
    var vm := w.vm.value;
    var r := Process(w, vm, input).w;
    SingleMoves(w, vm, input);
    WrongNodeIsDue(w);
    if r.pods == w.pods {
      var ws', steps' := StartComes(r);
      ws, steps := [w] + ws', [Reconciled(vm, input)] + steps';
    } else {
      ws, steps := [w, r], [Reconciled(vm, input)];
    }
  }

  lemma WrongNodeIsDue(w: World)
    requires Moving(w) && |Alive(w.pods)| == 1 && Alive(w.pods)[0].node != w.vm.value.spec.nodeName
    ensures Due(w)
  {
    hide Alive;
  }

  lemma Glued(ws: seq<World>, steps: seq<Step>, ws': seq<World>, steps': seq<Step>)
    requires CalmRun(ws, steps) && CalmRun(ws', steps') && ws[|ws| - 1] == ws'[0]
    ensures CalmRun(ws + ws'[1..], steps + steps')
  {
    hide CalmNext;
    var all, whole := ws + ws'[1..], steps + steps';
    forall i | 0 <= i < |whole| ensures CalmNext(all[i], whole[i], all[i + 1]) {
      if i >= |steps| {
        assert all[i] == ws'[i - |steps|] && all[i + 1] == ws'[i - |steps| + 1];
      }
    }
  }

  /**
    From every cancelled migration whose job was already made, and for every node other than the one the
    machine is on, a calm run ends with the older pod taken away in favour of a pod that did not exist
    when the migration was cancelled, on the word of the job of the cancelled migration.
  */
  lemma CancelledJobEndsTheNext(w: World, node: string) returns (ws: seq<World>, steps: seq<Step>)
    requires CancelledWithJob(w) && node != "" && node != w.vm.value.spec.nodeName
    ensures |steps| > 0 && CalmRun(ws, steps) && ws[0] == w
    ensures var u := ws[|steps| - 1];
      && steps[|steps| - 1].Reconciled? && Finishes(u, ws[|steps|])
      && u.job == Some(w.job.value.(deleting := true, succeeded := 1))
      && !(AliveNames(u.pods) <= Names(w.pods))
  {
    hide Process, Alive, UniqueNames, Names, AliveNames, Calm, Orderly, Unprepared;
    var vm := w.vm.value;
    var input := CalmInput(w);
    CancelKeepsTheJob(w, vm, input);
    var r := Process(w, vm, input).w;
    var a := r.(vm := Some(Asked(r.vm.value, node)));
    AskElsewhere(r, node);
    EnvironmentKeepsProtocol(r, a);
    PreparedStays(vm, WithState(vm, Running));
    PreparedStays(r.vm.value, Asked(r.vm.value, node));
    assert Moving(a);
    var ws1, steps1 := StartComes(a);
    ws, steps := [w, r, a], [Reconciled(vm, input), Elsewhere];
    assert CalmRun(ws, steps);
    Glued(ws, steps, ws1, steps1);
    ws, steps := ws + ws1[1..], steps + steps1;
    var n := |steps1|;
    assert CalmNext(ws1[n - 1], steps1[n - 1], ws1[n]);
    var ws2, steps2 := OnItsWord(ws1[n - 1], steps1[n - 1].vm, steps1[n - 1].input);
    Glued(ws, steps, ws2, steps2);
    ws, steps := ws + ws2[1..], steps + steps2;
  }

  /** The last steps: the target comes up, the listed job succeeds, and the migration ends. */
  lemma OnItsWord(w: World, vm: VM, input: Input) returns (ws: seq<World>, steps: seq<Step>)
    requires InProtocol(w) && w.vm == Some(vm) && Calm(w, input) && Starts(w, Process(w, vm, input).w) && w.job.Some?
    ensures |steps| == 2 && CalmRun(ws, steps) && ws[0] == Process(w, vm, input).w
    ensures steps[1].Reconciled? && Finishes(ws[1], ws[2]) && ws[1].job == Some(w.job.value.(succeeded := 1))
    ensures !(AliveNames(ws[1].pods) <= Names(w.pods))
  {
    hide Process, Alive, UniqueNames, Names, AliveNames;
    var r := Process(w, vm, input).w;
    StartShape(w, vm, input);
    var next := CalmInput(r);
    LingeringJobEndsMigration(w, vm, input, next);
    var u :| Orderly(r, u) && JobLeftAlone(r, u)
      && u.job == Some(w.job.value.(succeeded := 1)) && u.vm.Some? && Calm(u, next)
      && Finishes(u, Process(u, u.vm.value, next).w);
    ws, steps := [r, u, Process(u, u.vm.value, next).w], [Elsewhere, Reconciled(u.vm.value, next)];
    AliveAppend(w.pods, TargetPod(vm, input));
    assert TargetPod(vm, input).name in AliveNames(u.pods);
  }

  /** There is such a state. */
  lemma SomeCancelledPair() returns (w: World)
    ensures CancelledWithJob(w)
  {
    var a := Pod("m-a", 1, None, None, "n1", "10.0.0.1", "10.1.0.1", true, false, false);
    var b := Pod("m-b", 2, Some("n2"), Some(40000), "n2", "10.0.0.2", "10.1.0.2", true, false, false);
    var vm := VM(Spec(Start, "n1", false, false), Status(Migrating, NoEndpoint, "i", "m", "n1", "10.0.0.1"), ["f"], false, 7,
                 "00000000");
    w := World(Some(vm), [a, b], Some(JobFor(a, b)), Present, Absent, None, Absent, Absent, Absent, ImageReady, true);
    AliveAppend([], a);
    AliveAppend([a], b);
    assert [] + [a] == [a] && [a] + [b] == [a, b];
  }
}
