/** The stages of an image before provisioning: what each records, and that an image gets through them. */
module ImageStages {
  import opened Replies
  import opened Sorting
  import opened Images
  import opened ImageRuns

  /** The backup that a step finds or makes, if its URL names one backup and one volume. */
  function BackupFound(input: Input): Option<BackupReply> {
    var b := if input.backup.NoBackup? && input.backupCreated then input.backupAgain else input.backup;
    if b.Found? && b.url != "" && b.backups == 1 && b.volumes == 1 then Some(b) else None
  }

  /** An image made from a machine on Longhorn. */
  predicate OnLonghorn(w: World, image: Image) {
    w.image == Some(image) && image.fromVM && w.origin.found && w.origin.longhorn
  }

  function Recorded(w: World, status: Status): Result
    requires w.image.Some?
  {
    Result(w.(image := Some(w.image.value.(status := status))), Nil)
  }

  /** What the stages record when the write is accepted: each the reply of its own call. */
  lemma StagesRecord(w: World, image: Image, input: Input)
    requires OnLonghorn(w, image) && input.update == Accepted
    ensures var r := Process(w, input); var s := image.status;
      && (image.sizeGiB == 0 && w.origin.parentSize.Some? ==>
            r == Result(w.(image := Some(image.(sizeGiB := w.origin.parentSize.value))), Nil))
      && (image.sizeGiB != 0 && s.snapshot == "" && s.state != Snapshot ==> r == Recorded(w, s.(state := Snapshot)))
      && (image.sizeGiB != 0 && s.snapshot == "" && s.state == Snapshot && input.snapshot.Some? ==>
            r == Recorded(w, s.(snapshot := input.snapshot.value)))
      && (image.sizeGiB != 0 && s.snapshot != "" && s.backupURL == "" && s.state != Backup ==>
            r == Recorded(w, s.(state := Backup)))
      && (image.sizeGiB != 0 && s.snapshot != "" && s.backupURL == "" && s.state == Backup && BackupFound(input).Some? ==>
            var b := BackupFound(input).value;
            && b.Found?
            && r == Recorded(w, s.(backupURL := b.url, baseImage := if b.base.Some? then b.base.value else s.baseImage)))
      && (image.sizeGiB != 0 && s.snapshot != "" && s.backupURL != "" && !s.published && s.state != Publish ==>
            r == Recorded(w, s.(state := Publish)))
  {
    hide ProvisionNodes, PublishImage;
  }

  // ---- progress

  /** An image that can be built: its machine is found, on Longhorn, and its size is known. */
  predicate Buildable(w: World) {
    && w.image.Some? && w.settingsFound
    && (w.image.value.fromVM ==>
          && w.origin.found && w.origin.longhorn
          && (w.image.value.sizeGiB == 0 ==> w.origin.parentSize.Some? && w.origin.parentSize.value != 0))
  }

  /** A publish pod that failed has to go, then one has to be made, to build, and to be acted upon. */
  function PublisherLeft(w: World): (n: nat)
    ensures 1 <= n <= 4
  {
    if w.publisher.None? then 3
    else
      match KanikoExit(w.publisher.value.containers)
      case None => 2
      case Some(code) => if code == 0 then 1 else 4
  }

  /** What is left before the image is published. */
  function StageRank(w: World): nat
    requires w.image.Some?
  {
    var image := w.image.value;
    var s := image.status;
    (if image.fromVM && image.sizeGiB == 0 then 1 else 0)
    + if s.published then 0
      else if !image.fromVM then 1
      else if s.snapshot == "" then (if s.state == Snapshot then 8 else 9)
      else if s.backupURL == "" then (if s.state == Backup then 6 else 7)
      else PublisherLeft(w) + if s.state == Publish then 0 else 1
  }

  /** The publish pod is at work, or has failed: nothing for the controller to do. */
  predicate Building(w: World)
    requires w.image.Some?
  {
    var image := w.image.value;
    && image.fromVM && image.sizeGiB != 0 && !image.status.published
    && image.status.snapshot != "" && image.status.backupURL != "" && image.status.state == Publish
    && (PublisherLeft(w) == 2 || PublisherLeft(w) == 4)
  }

  /** Every call is answered, and with something to go on. */
  predicate Helpful(input: Input) {
    && input.update == Accepted && input.publisherCreate == Accepted && input.publisherDelete == Accepted
    && input.snapshot.Some? && input.snapshot.value != "" && BackupFound(input).Some?
  }

  lemma PublishRank(w: World, input: Input)
    requires Buildable(w) && !w.image.value.status.published && w.image.value.fromVM
    requires w.image.value.status.snapshot != "" && w.image.value.status.backupURL != "" && w.image.value.status.state == Publish
    ensures var r := PublishImage(w, w.image.value, input).w;
      && Buildable(r) && StageRank(r) <= StageRank(w)
      && (Helpful(input) && PublisherLeft(w) != 2 && PublisherLeft(w) != 4 ==> StageRank(r) < StageRank(w))
  {
    hide BackupFound, KanikoExit;
    var r := PublishImage(w, w.image.value, input).w;
    if w.publisher.None? && r.publisher.Some? {
      assert KanikoExit(r.publisher.value.containers) == None by { NoContainers(); }
    }
  }

  lemma NoContainers()
    ensures KanikoExit([]) == None
  {
  }

  /** Whatever its calls return, a step takes an image no further back; a helpful one brings it on. */
  lemma StepAdvances(w: World, input: Input)
    requires Buildable(w)
    ensures var r := Process(w, input).w;
      && Buildable(r) && StageRank(r) <= StageRank(w)
      && (Helpful(input) && StageRank(w) > 0 && !Building(w) ==> StageRank(r) < StageRank(w))
  {
    hide ProvisionNodes, PublishImage, PublisherLeft, KanikoExit;
    var image := w.image.value;
    var s := image.status;
    if s.published {
      ProvisionKeeps(w, image, input);
    } else if image.fromVM && image.sizeGiB != 0 && s.snapshot != "" && s.backupURL != "" && s.state == Publish {
      PublishRank(w, input);
    } else if image.fromVM && image.sizeGiB != 0 && s.snapshot != "" && s.backupURL == "" && s.state == Backup {
      BackupAdvances(w, input);
    } else {
      SamePublisher(w, Process(w, input).w);
    }
  }

  lemma SamePublisher(w: World, w': World)
    ensures 1 <= PublisherLeft(w') <= 4 && (w'.publisher == w.publisher ==> PublisherLeft(w') == PublisherLeft(w))
  {
  }

  lemma BackupAdvances(w: World, input: Input)
    requires Buildable(w) && !w.image.value.status.published && w.image.value.fromVM && w.image.value.sizeGiB != 0
    requires w.image.value.status.snapshot != "" && w.image.value.status.backupURL == "" && w.image.value.status.state == Backup
    ensures var r := CreateBackup(w, w.image.value, input).w;
      && Buildable(r) && StageRank(r) <= StageRank(w) && (Helpful(input) ==> StageRank(r) < StageRank(w))
  {
    hide PublisherLeft;
    var r := CreateBackup(w, w.image.value, input).w;
    assert 1 <= PublisherLeft(r) <= 4;
  }

  /** The publish pod does anything at all; the record, the machine and the settings stay. */
  predicate PublisherGoesOn(w: World, w': World) {
    && w.image.Some? && w'.image == w.image && w'.origin == w.origin && w'.settingsFound == w.settingsFound
  }

  /** The publish pod failed, or vanished too early. */
  predicate BuildLost(w: World, w': World) {
    PublisherLeft(w') > PublisherLeft(w)
  }

  predicate StageNext(w: World, s: Step, w': World) {
    match s
    case Reconciled(input) => w' == Process(w, input).w
    case Elsewhere => PublisherGoesOn(w, w')
  }

  predicate StageRun(ws: seq<World>, steps: seq<Step>) {
    && |ws| == |steps| + 1
    && forall i :: 0 <= i < |steps| ==> StageNext(ws[i], steps[i], ws[i + 1])
  }

  /** A helpful reconcile in the controller's turn, or a publish pod that got on while it is awaited. */
  predicate Advances(w: World, s: Step, w': World) {
    && w.image.Some? && w'.image.Some? && StageRank(w) > 0
    && match s
       case Reconciled(input) => Helpful(input) && !Building(w)
       case Elsewhere => Building(w) && PublisherLeft(w') < PublisherLeft(w)
  }

  lemma StageStep(w: World, s: Step, w': World)
    requires Buildable(w) && StageNext(w, s, w')
    ensures Buildable(w')
    ensures StageRank(w') + (if Advances(w, s, w') then 1 else 0)
              <= StageRank(w) + if s.Elsewhere? && BuildLost(w, w') then 3 else 0
  {
    hide Process, PublisherLeft;
    match s
    case Reconciled(input) => StepAdvances(w, input);
    case Elsewhere =>
      assert 1 <= PublisherLeft(w) <= 4 && 1 <= PublisherLeft(w') <= 4;
  }

  function AdvancingSteps(ws: seq<World>, steps: seq<Step>, i: nat): nat
    requires |ws| == |steps| + 1 && i < |ws|
  {
    if i == 0 then 0
    else AdvancingSteps(ws, steps, i - 1) + if Advances(ws[i - 1], steps[i - 1], ws[i]) then 1 else 0
  }

  function BuildsLost(ws: seq<World>, steps: seq<Step>, i: nat): nat
    requires |ws| == |steps| + 1 && i < |ws|
  {
    if i == 0 then 0
    else BuildsLost(ws, steps, i - 1) + if steps[i - 1].Elsewhere? && BuildLost(ws[i - 1], ws[i]) then 1 else 0
  }

  /**
    In every run, with any calls failing and publish pods that fail or vanish: once the advancing steps reach
    what was left at the start and a constant for each build lost, the image is published and has a size, so
    that provisioning can begin.
  */
  lemma {:induction false} ImageGetsPublished(ws: seq<World>, steps: seq<Step>, i: nat)
    requires StageRun(ws, steps) && Buildable(ws[0]) && i < |ws|
    ensures Buildable(ws[i])
    ensures StageRank(ws[i]) + AdvancingSteps(ws, steps, i) <= StageRank(ws[0]) + 3 * BuildsLost(ws, steps, i)
    ensures AdvancingSteps(ws, steps, i) >= StageRank(ws[0]) + 3 * BuildsLost(ws, steps, i) ==>
              ws[i].image.value.status.published && (ws[i].image.value.fromVM ==> ws[i].image.value.sizeGiB != 0)
  {
    hide StageNext, Advances, BuildLost, PublisherLeft;
    if i > 0 {
      ImageGetsPublished(ws, steps, i - 1);
      StageStep(ws[i - 1], steps[i - 1], ws[i]);
    }
  }

  /** A published image whose stages are in order is one that provisioning takes over. */
  lemma PublishedIsProvisioning(w: World)
    requires Buildable(w) && StageRank(w) == 0 && StagesInOrder(w.image.value) && Distinct(w.nodes) && w.minimum.Some?
    ensures Provisioning(w)
  {
  }

  /** The publish pod as the controller awaits it: done, or gone if it had failed. */
  function Built(w: World): World {
    w.(publisher := if PublisherLeft(w) == 4 then None else Some(Publisher([Container("kaniko", Some(0))], false)))
  }

  lemma BuiltAdvances(w: World)
    requires w.image.Some? && Building(w)
    ensures PublisherLeft(Built(w)) < PublisherLeft(w)
  {
  }

  /** From every state some run of advancing steps publishes the image. */
  lemma {:induction false} ImageCanBePublished(w: World, input: Input) returns (ws: seq<World>, steps: seq<Step>)
    requires Buildable(w) && Helpful(input)
    ensures StageRun(ws, steps) && ws[0] == w
    ensures ws[|steps|].image.Some? && ws[|steps|].image.value.status.published
    decreases StageRank(w)
  {
    hide Process, PublisherLeft, Built;
    if StageRank(w) == 0 {
      ws, steps := [w], [];
    } else {
      var s, w' := Reconciled(input), Process(w, input).w;
      if Building(w) {
        BuiltAdvances(w);
        s, w' := Elsewhere, Built(w);
        assert PublisherGoesOn(w, w') by { BuiltGoesOn(w); }
      }
      StageStep(w, s, w');
      var ws', steps' := ImageCanBePublished(w', input);
      ws, steps := [w] + ws', [s] + steps';
    }
  }

  lemma BuiltGoesOn(w: World)
    requires w.image.Some?
    ensures PublisherGoesOn(w, Built(w))
  {
  }
}
