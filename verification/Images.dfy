/**
  The machine image pipeline: snapshot, backup, publish, then provisioning node by node until enough
  nodes have the image. One call of `processMachineImage` is one step; any of its calls may fail.
*/
module Images {
  import opened Replies
  import opened Sorting

  datatype Stage = Unset | Snapshot | Backup | Publish | Provision | Ready

  datatype Status = Status(
    snapshot: string, backupURL: string, baseImage: string, published: bool, state: Stage, nodes: seq<string>)

  /** `fromVM`: the image is made from a virtual machine's volume. */
  datatype Image = Image(fromVM: bool, sizeGiB: int, status: Status)

  datatype Phase = PodPending | PodRunning | PodSucceeded | PodFailed | PodUnknown

  /** The pod that pulls the image on one node. */
  datatype Pull = Pull(phase: Phase, deleting: bool)

  datatype Container = Container(name: string, exitCode: Option<int>)

  /** The pod that builds and pushes the image. */
  datatype Publisher = Publisher(containers: seq<Container>, deleting: bool)

  /** The machine an image is made from, as far as the pipeline looks at it. */
  datatype Origin = Origin(found: bool, longhorn: bool, parentSize: Option<int>)

  datatype World = World(
    image: Option<Image>, nodes: seq<string>, pulls: map<string, Pull>, publisher: Option<Publisher>,
    minimum: Option<int>, origin: Origin, settingsFound: bool)

  /** A backup as the storage system lists it; the counts are those of its URL's query parameters. */
  datatype BackupReply = BackupFailed | NoBackup | Found(url: string, backups: nat, volumes: nat, base: Option<string>)

  datatype Input = Input(
    snapshot: Option<string>, backup: BackupReply, backupCreated: bool, backupAgain: BackupReply,
    update: Outcome, publisherCreate: Outcome, publisherDelete: Outcome,
    pullDelete: map<string, Outcome>, pullCreate: map<string, Outcome>)
  {
    function DeleteFate(node: string): Outcome {
      if node in pullDelete then pullDelete[node] else Accepted
    }

    function CreateFate(node: string): Outcome {
      if node in pullCreate then pullCreate[node] else Accepted
    }
  }

  datatype Result = Result(w: World, err: Error)

  function Attempt(w: World, o: Outcome, done: World): Result {
    match o
    case Accepted => Result(done, Nil)
    case Rejected => Result(w, Failed)
    case Lost => Result(done, Failed)
  }

  function Save(w: World, image: Image, o: Outcome): Result {
    Attempt(w, o, w.(image := Some(image)))
  }

  function WithState(image: Image, state: Stage): Image {
    image.(status := image.status.(state := state))
  }

  // ---- the stages before provisioning

  /** A backup whose URL names one backup and one volume. */
  predicate Usable(b: BackupReply) {
    b.Found? && b.url != "" && b.backups == 1 && b.volumes == 1
  }

  function CreateBackup(w: World, image: Image, input: Input): Result {
    if input.backup.BackupFailed? then Result(w, Failed)
    else if input.backup.NoBackup? && !input.backupCreated then Result(w, Failed)
    else
      var b := if input.backup.NoBackup? then input.backupAgain else input.backup;
      if b.BackupFailed? then Result(w, Failed)
      else if b.NoBackup? then Result(w, Nil)
      else if !Usable(b) then Result(w, Failed)
      else
        Save(w, image.(status := image.status.(
               backupURL := b.url, baseImage := if b.base.Some? then b.base.value else image.status.baseImage)), input.update)
  }

  /** Exit code of the first kaniko container that has terminated. */
  function KanikoExit(containers: seq<Container>): Option<int> {
    if containers == [] then None
    else if containers[0].name == "kaniko" && containers[0].exitCode.Some? then containers[0].exitCode
    else KanikoExit(containers[1..])
  }

  function PublishImage(w: World, image: Image, input: Input): Result {
    if w.publisher.None? then
      if !w.settingsFound then Result(w, NotFound)
      else Attempt(w, input.publisherCreate, w.(publisher := Some(Publisher([], false))))
    else
      var exit := KanikoExit(w.publisher.value.containers);
      if exit.None? then Result(w, Nil)
      else if exit.value != 0 then Result(w, Failed)
      else
        var Result(w1, e1) :=
          Attempt(w, input.publisherDelete, w.(publisher := Some(w.publisher.value.(deleting := true))));
        if e1 != Nil then Result(w1, e1)
        else Save(w1, image.(status := image.status.(published := true)), input.update)
  }

  // ---- provisioning

  datatype Pass = Pass(pulls: map<string, Pull>, ready: seq<string>, err: Error)

  function DeletePull(pulls: map<string, Pull>, node: string, o: Outcome): (map<string, Pull>, Error) {
    if o.Rejected? then (pulls, Failed)
    else if node !in pulls then (pulls, NotFound)
    else (pulls[node := pulls[node].(deleting := true)], if o.Lost? then Failed else Nil)
  }

  /** One turn of the loop over the nodes. */
  function Visit(pass: Pass, node: string, recorded: bool, input: Input): Pass {
    if recorded then
      var (pulls, e) := DeletePull(pass.pulls, node, input.DeleteFate(node));
      Pass(pulls, pass.ready + [node], if e == NotFound then Nil else e)
    else if node in pass.pulls then
      match pass.pulls[node].phase
      case PodPending => pass
      case PodRunning => pass
      case PodSucceeded =>
        var (pulls, e) := DeletePull(pass.pulls, node, input.DeleteFate(node));
        Pass(pulls, pass.ready + [node], e)
      case _ =>
        var (pulls, e) := DeletePull(pass.pulls, node, input.DeleteFate(node));
        Pass(pulls, pass.ready, e)
    else
      match input.CreateFate(node)
      case Accepted => Pass(pass.pulls[node := Pull(PodPending, false)], pass.ready, Nil)
      case Rejected => pass.(err := Failed)
      case Lost => Pass(pass.pulls[node := Pull(PodPending, false)], pass.ready, Failed)
  }

  /** The loop over the nodes; it stops at the first error. */
  function VisitAll(pulls: map<string, Pull>, nodes: seq<string>, recorded: seq<string>, input: Input): Pass {
    if nodes == [] then Pass(pulls, [], Nil)
    else
      var n := |nodes| - 1;
      var before := VisitAll(pulls, nodes[..n], recorded, input);
      if before.err != Nil then before else Visit(before, nodes[n], nodes[n] in recorded, input)
  }

  predicate Enough(ready: nat, nodes: nat, minimum: int) {
    ready >= minimum || ready == nodes
  }

  function Provisioned(image: Image, ready: seq<string>, nodes: nat, minimum: int): Image {
    image.(status := image.status.(
             state := if Enough(|ready|, nodes, minimum) then Ready else Provision, nodes := Sort(ready)))
  }

  function ProvisionNodes(w: World, image: Image, input: Input): Result {
    var pass := VisitAll(w.pulls, w.nodes, image.status.nodes, input);
    var w1 := w.(pulls := pass.pulls);
    if pass.err != Nil then Result(w1, pass.err)
    else if w.minimum.None? then Result(w1, Failed)
    else Save(w1, Provisioned(image, pass.ready, |w.nodes|, w.minimum.value), input.update)
  }

  function ProcessFromVM(w: World, image: Image, input: Input): Result {
    var s := image.status;
    if !w.origin.found then Result(w, NotFound)
    else if image.sizeGiB == 0 then
      if w.origin.parentSize.None? then Result(w, NotFound)
      else Save(w, image.(sizeGiB := w.origin.parentSize.value), input.update)
    else if !w.origin.longhorn then Result(w, Failed)
    else if s.snapshot == "" then
      if s.state != Snapshot then Save(w, WithState(image, Snapshot), input.update)
      else if input.snapshot.None? then Result(w, Failed)
      else Save(w, image.(status := s.(snapshot := input.snapshot.value)), input.update)
    else if s.backupURL == "" then
      if s.state != Backup then Save(w, WithState(image, Backup), input.update)
      else CreateBackup(w, image, input)
    else if !s.published then
      if s.state != Publish then Save(w, WithState(image, Publish), input.update)
      else PublishImage(w, image, input)
    else ProvisionNodes(w, image, input)
  }

  /** One reconcile of the image. */
  function Process(w: World, input: Input): Result {
    if w.image.None? then Result(w, Nil)
    else
      var image := w.image.value;
      if image.fromVM then ProcessFromVM(w, image, input)
      else if !image.status.published then
        Save(w, image.(status := image.status.(published := true)), input.update)
      else ProvisionNodes(w, image, input)
  }

  // ---- what the loop over the nodes finds

  /** The nodes of the list that hold the image: recorded before, or pulled by now. */
  function HavingImage(pulls: map<string, Pull>, nodes: seq<string>, recorded: seq<string>): seq<string> {
    if nodes == [] then []
    else
      var n := |nodes| - 1;
      HavingImage(pulls, nodes[..n], recorded)
      + if nodes[n] in recorded || (nodes[n] in pulls && pulls[nodes[n]].phase == PodSucceeded) then [nodes[n]] else []
  }

  lemma {:induction false} HavingMembers(pulls: map<string, Pull>, nodes: seq<string>, recorded: seq<string>, x: string)
    ensures x in HavingImage(pulls, nodes, recorded) <==>
      x in nodes && (x in recorded || (x in pulls && pulls[x].phase == PodSucceeded))
  {
    if nodes != [] {
      var n := |nodes| - 1;
      assert nodes == nodes[..n] + [nodes[n]];
      HavingMembers(pulls, nodes[..n], recorded, x);
    }
  }

  lemma {:induction false} HavingDistinct(pulls: map<string, Pull>, nodes: seq<string>, recorded: seq<string>)
    requires Distinct(nodes)
    ensures Distinct(HavingImage(pulls, nodes, recorded))
  {
    if nodes != [] {
      var n := |nodes| - 1;
      HavingDistinct(pulls, nodes[..n], recorded);
      var before := HavingImage(pulls, nodes[..n], recorded);
      forall i | 0 <= i < |before| ensures before[i] != nodes[n] {
        HavingMembers(pulls, nodes[..n], recorded, before[i]);
        assert before[i] in nodes[..n];
      }
    }
  }

  /** The pull pod of one node after an error-free pass. */
  predicate Visited(before: map<string, Pull>, after: map<string, Pull>, node: string, recorded: bool) {
    if node in before then
      && node in after && after[node].phase == before[node].phase
      && after[node].deleting == (before[node].deleting || recorded || before[node].phase !in {PodPending, PodRunning})
    else if recorded then node !in after
    else node in after && after[node] == Pull(PodPending, false)
  }

  predicate SamePull(a: map<string, Pull>, b: map<string, Pull>, x: string) {
    (x in a <==> x in b) && (x in a ==> a[x] == b[x])
  }

  lemma VisitOne(pass: Pass, node: string, recorded: bool, input: Input, x: string)
    requires pass.err == Nil
    ensures var p := Visit(pass, node, recorded, input);
      && (x != node ==> SamePull(pass.pulls, p.pulls, x))
      && (p.err == Nil ==>
            && Visited(pass.pulls, p.pulls, node, recorded)
            && p.ready == pass.ready +
                 if recorded || (node in pass.pulls && pass.pulls[node].phase == PodSucceeded) then [node] else [])
  {
  }

  lemma VisitedMove(before: map<string, Pull>, before': map<string, Pull>, after: map<string, Pull>, after': map<string, Pull>,
                    node: string, recorded: bool)
    requires Visited(before, after, node, recorded) && SamePull(before, before', node) && SamePull(after, after', node)
    ensures Visited(before', after', node, recorded)
  {
  }

  /** An error-free pass reports exactly the nodes with the image and has dealt with every node's pod. */
  lemma {:induction false} PassFinds(
    pulls: map<string, Pull>, nodes: seq<string>, recorded: seq<string>, input: Input, x: string)
    requires Distinct(nodes)
    ensures var p := VisitAll(pulls, nodes, recorded, input);
      && (p.err == Nil ==> p.ready == HavingImage(pulls, nodes, recorded))
      && (x !in nodes ==> SamePull(pulls, p.pulls, x))
      && (p.err == Nil && x in nodes ==> Visited(pulls, p.pulls, x, x in recorded))
  {
    hide Visit, Visited;
    if nodes != [] {
      var n := |nodes| - 1;
      var node := nodes[n];
      assert nodes == nodes[..n] + [node] && node !in nodes[..n];
      PassFinds(pulls, nodes[..n], recorded, input, x);
      PassFinds(pulls, nodes[..n], recorded, input, node);
      var before := VisitAll(pulls, nodes[..n], recorded, input);
      if before.err == Nil {
        var p := Visit(before, node, node in recorded, input);
        VisitOne(before, node, node in recorded, input, x);
        if p.err == Nil {
          VisitedMove(before.pulls, pulls, p.pulls, p.pulls, node, node in recorded);
          if x in nodes[..n] {
            VisitedMove(pulls, pulls, before.pulls, p.pulls, x, x in recorded);
          }
        }
      }
    }
  }
}
