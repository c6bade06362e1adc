/**
  The slice of the Kubernetes cluster that concerns one virtual machine, and the API calls the
  machine controller makes on it.

  Every call can be accepted, rejected, or lost: a lost call took effect on the server but the
  controller is told that it failed. Updates of the machine record are optimistic, so a write made
  from a copy with an old resource version is refused. Deletions are marks: a pod, job, volume or
  claim whose deletion was accepted stays visible until the environment removes it.
*/
module Cluster {
  import opened Replies

  datatype State = Unset | Pending | Running | Stopping | Stopped | Terminating | Migrating | Errored

  /** `Reboot` stands for every action that `process` does not know. */
  datatype Action = Start | Stop | Reboot

  datatype Endpoint = NoEndpoint | Endpoint(ip: string, port: int)

  datatype Spec = Spec(action: Action, nodeName: string, hostedNovnc: bool, longhorn: bool)

  datatype Status = Status(
    state: State, vncEndpoint: Endpoint, id: string, mac: string, nodeName: string, nodeIP: string)

  /** Kubernetes object identifiers are never shorter than the eight characters the code slices. */
  type Uid = s: string | |s| >= 8 witness "00000000"

  datatype VM = VM(
    spec: Spec, status: Status, finalizers: seq<string>, deleting: bool, version: nat, uid: Uid)

  datatype Pod = Pod(
    name: string, created: nat, affinity: Option<string>, migratePort: Option<nat>,
    node: string, hostIP: string, podIP: string, ready: bool, unschedulable: bool, deleting: bool)

  datatype Job = Job(source: string, targetIP: string, targetPort: nat, succeeded: nat, deleting: bool)

  /** `Going`: the deletion was accepted and the object has not disappeared yet. */
  datatype Presence = Absent | Present | Going

  datatype Image = ImageMissing | ImageNotReady | ImageReady

  datatype World = World(
    vm: Option<VM>,
    pods: seq<Pod>,           // pods labelled with the machine's name and role vm
    job: Option<Job>,         // the migration job
    jobPod: Presence,         // the job's pod; it carries the machine's name label too
    console: Presence,        // the noVNC pod; likewise
    service: Option<int>,     // the noVNC service, with its node port
    volume: Presence, pv: Presence, pvc: Presence,
    image: Image, keysFound: bool)

  /** The call sites of one reconcile; each is reached at most once. */
  datatype Call =
    | PrepareUpdate | BootCreate | PodStatusUpdate | UnschedulableDelete
    | ConsoleCreate | ServiceCreate | ConsoleDelete | ServiceDelete | VncUpdate
    | MigratingUpdate | TargetCreate | TargetGet | JobCreate | JobDelete
    | TargetDelete | RollbackUpdate | CleanupUpdate | SourceDelete
    | PodsDelete | StopUpdate | TerminatingUpdate | FinalizerUpdate
    | VolumeGet | VolumeCreate | PVCreate | PVCCreate | VolumeDelete | PVDelete | PVCDelete

  /** Everything one reconcile takes from outside: call outcomes (absent means accepted), the random
      pod names and port, the server's creation times, and the node port given to a new service. */
  datatype Input = Input(
    faults: map<Call, Outcome>, bootName: string, bootTime: nat, targetName: string, targetTime: nat,
    rand: nat, nodePort: int)
  {
    function Fate(c: Call): Outcome {
      if c in faults then faults[c] else Accepted
    }
  }

  datatype Result = Result(w: World, err: Error)

  function Attempt(w: World, o: Outcome, done: World): Result {
    match o
    case Accepted => Result(done, Nil)
    case Rejected => Result(w, Failed)
    case Lost => Result(done, Failed)
  }

  /** What the server stores for an update that passed the version check: a real change gets a new
      version, and a deleted record that lost its last finalizer is gone. */
  function Stored(current: VM, vm: VM): Option<VM> {
    if vm.deleting && vm.finalizers == [] then None
    else if vm == current then Some(current)
    else Some(vm.(version := current.version + 1))
  }

  function UpdateVM(w: World, vm: VM, o: Outcome): Result {
    if o.Rejected? then Result(w, Failed)
    else if w.vm.None? then Result(w, NotFound)
    else if w.vm.value.version != vm.version then Result(w, Conflict)
    else Attempt(w, o, w.(vm := Stored(w.vm.value, vm)))
  }

  function Names(pods: seq<Pod>): set<string> {
    if pods == [] then {} else Names(pods[..|pods| - 1]) + {pods[|pods| - 1].name}
  }

  function CreatePod(w: World, pod: Pod, o: Outcome): Result {
    if o.Rejected? then Result(w, Failed)
    else if pod.name in Names(w.pods) then Result(w, AlreadyExists)
    else Attempt(w, o, w.(pods := w.pods + [pod]))
  }

  function Mark(pods: seq<Pod>, name: string): (r: seq<Pod>)
    ensures |r| == |pods|
  {
    if pods == [] then []
    else
      var p := pods[|pods| - 1];
      Mark(pods[..|pods| - 1], name) + [if p.name == name then p.(deleting := true) else p]
  }

  function MarkAll(pods: seq<Pod>): (r: seq<Pod>)
    ensures |r| == |pods|
  {
    if pods == [] then [] else MarkAll(pods[..|pods| - 1]) + [pods[|pods| - 1].(deleting := true)]
  }

  function DeletePod(w: World, name: string, o: Outcome): Result {
    if o.Rejected? then Result(w, Failed)
    else if name !in Names(w.pods) then Result(w, NotFound)
    else Attempt(w, o, w.(pods := Mark(w.pods, name)))
  }

  function Leaving(p: Presence): Presence {
    if p.Absent? then Absent else Going
  }

  /** Error of deleting something whose presence is `p`. */
  function Deleted(w: World, p: Presence, o: Outcome, done: World): Result {
    if o.Rejected? then Result(w, Failed)
    else if p.Absent? then Result(w, NotFound)
    else Attempt(w, o, done)
  }

  function DeleteConsole(w: World, o: Outcome): Result {
    Deleted(w, w.console, o, w.(console := Going))
  }

  function DeleteService(w: World, o: Outcome): Result {
    if o.Rejected? then Result(w, Failed)
    else if w.service.None? then Result(w, NotFound)
    else Attempt(w, o, w.(service := None))
  }

  /** Foreground propagation: the job stays, marked, until its pod is gone. */
  function DeleteJob(w: World, o: Outcome): Result {
    if o.Rejected? then Result(w, Failed)
    else if w.job.None? then Result(w, NotFound)
    else Attempt(w, o, w.(job := Some(w.job.value.(deleting := true)), jobPod := Leaving(w.jobPod)))
  }

  /** The name label alone selects machine pods, the console pod and the migration job's pod. */
  predicate NoLabelledPods(w: World) {
    w.pods == [] && w.console.Absent? && w.jobPod.Absent?
  }

  function DeleteLabelledPods(w: World, o: Outcome): Result {
    if NoLabelledPods(w) then Result(w, NotFound)
    else Attempt(w, o, w.(pods := MarkAll(w.pods), console := Leaving(w.console), jobPod := Leaving(w.jobPod)))
  }

  /** The pods without a deletion mark, in list order. */
  function Alive(pods: seq<Pod>): seq<Pod> {
    if pods == [] then []
    else
      var p := pods[|pods| - 1];
      Alive(pods[..|pods| - 1]) + if p.deleting then [] else [p]
  }

  function AliveNames(pods: seq<Pod>): set<string> {
    if pods == [] then {}
    else
      var p := pods[|pods| - 1];
      AliveNames(pods[..|pods| - 1]) + if p.deleting then {} else {p.name}
  }

  predicate UniqueNames(pods: seq<Pod>) {
    pods == [] ||
    var p := pods[|pods| - 1];
    p.name !in Names(pods[..|pods| - 1]) && UniqueNames(pods[..|pods| - 1])
  }

  /** For counting what is left to do. */
  function One(b: bool): nat {
    if b then 1 else 0
  }

  // ---- facts about pod lists, each by induction on the list

  lemma {:induction false} AliveMembers(pods: seq<Pod>, p: Pod)
    ensures p in Alive(pods) <==> p in pods && !p.deleting
    ensures p in pods ==> p.name in Names(pods)
    ensures p in pods && !p.deleting ==> p.name in AliveNames(pods)
  {
    if pods != [] {
      var n := |pods| - 1;
      assert pods == pods[..n] + [pods[n]];
      AliveMembers(pods[..n], p);
    }
  }

  lemma AliveAppend(pods: seq<Pod>, p: Pod)
    ensures Alive(pods + [p]) == Alive(pods) + if p.deleting then [] else [p]
    ensures AliveNames(pods + [p]) == AliveNames(pods) + if p.deleting then {} else {p.name}
    ensures Names(pods + [p]) == Names(pods) + {p.name}
    ensures UniqueNames(pods + [p]) <==> p.name !in Names(pods) && UniqueNames(pods)
  {
    assert (pods + [p])[..|pods|] == pods;
  }

  lemma {:induction false} AliveWithinNames(pods: seq<Pod>)
    ensures AliveNames(pods) <= Names(pods)
  {
    if pods != [] {
      AliveWithinNames(pods[..|pods| - 1]);
    }
  }

  lemma {:induction false} AliveMark(pods: seq<Pod>, name: string)
    ensures AliveNames(Mark(pods, name)) == AliveNames(pods) - {name}
    ensures Names(Mark(pods, name)) == Names(pods)
    ensures UniqueNames(pods) ==> UniqueNames(Mark(pods, name))
  {
    if pods != [] {
      var n := |pods| - 1;
      AliveMark(pods[..n], name);
      assert Mark(pods, name)[..n] == Mark(pods[..n], name);
    }
  }

  lemma {:induction false} AliveMarkAll(pods: seq<Pod>)
    ensures AliveNames(MarkAll(pods)) == {} && Alive(MarkAll(pods)) == []
    ensures Names(MarkAll(pods)) == Names(pods)
    ensures UniqueNames(pods) ==> UniqueNames(MarkAll(pods))
  {
    if pods != [] {
      var n := |pods| - 1;
      AliveMarkAll(pods[..n]);
      assert MarkAll(pods)[..n] == MarkAll(pods[..n]);
    }
  }

  lemma {:induction false} AliveCount(pods: seq<Pod>)
    requires UniqueNames(pods)
    ensures |Alive(pods)| == |AliveNames(pods)|
    ensures UniqueNames(Alive(pods)) && Names(Alive(pods)) == AliveNames(pods)
  {
    if pods != [] {
      var n := |pods| - 1;
      AliveCount(pods[..n]);
      AliveWithinNames(pods[..n]);
      if !pods[n].deleting {
        AliveAppend(Alive(pods[..n]), pods[n]);
      } else {
        assert Alive(pods) == Alive(pods[..n]);
      }
    }
  }

  lemma {:induction false} PodCount(pods: seq<Pod>)
    requires UniqueNames(pods)
    ensures |Names(pods)| == |pods|
  {
    if pods != [] {
      PodCount(pods[..|pods| - 1]);
    }
  }

  /** Marking one of the alive pods leaves exactly the others alive. */
  lemma {:induction false} AliveAfterMark(pods: seq<Pod>, name: string)
    requires UniqueNames(pods)
    ensures forall p :: p in Alive(Mark(pods, name)) <==> p in Alive(pods) && p.name != name
    ensures name !in AliveNames(pods) ==> Alive(Mark(pods, name)) == Alive(pods)
  {
    if pods != [] {
      var n := |pods| - 1;
      AliveAfterMark(pods[..n], name);
      assert Mark(pods, name)[..n] == Mark(pods[..n], name);
    }
  }
}
