/** The image pipeline in the source's form: loops over containers and nodes, early returns, one record write. */
module ImageController {
  import opened Replies
  import opened Sorting
  import opened Images
  import ImageRuns

  /** Whether the image's record lists the node. */
  method NodeContainsImage(node: string, image: Image) returns (found: bool)
    ensures found <==> node in image.status.nodes
  {
    for i := 0 to |image.status.nodes|
      invariant node !in image.status.nodes[..i]
    {
      if image.status.nodes[i] == node {
        return true;
      }
    }
    found := false;
  }

  class Controller {
    var image: Option<Image>
    var pulls: map<string, Pull>
    var publisher: Option<Publisher>
    const nodes: seq<string>
    const minimum: Option<int>
    const origin: Origin
    const settingsFound: bool

    function Now(): World
      reads this
    {
      World(image, nodes, pulls, publisher, minimum, origin, settingsFound)
    }

    constructor (w: World)
      ensures Now() == w
    {
      image, pulls, publisher := w.image, w.pulls, w.publisher;
      nodes, minimum, origin, settingsFound := w.nodes, w.minimum, w.origin, w.settingsFound;
    }

    method Update(mutable: Image, o: Outcome) returns (err: Error)
      modifies this`image
      ensures Result(Now(), err) == Save(old(Now()), mutable, o)
    {
      if o.Rejected? {
        return Failed;
      }
      image := Some(mutable);
      err := if o.Lost? then Failed else Nil;
    }

    method DeletePullPod(node: string, o: Outcome) returns (err: Error)
      modifies this`pulls
      ensures (pulls, err) == DeletePull(old(pulls), node, o)
    {
      if o.Rejected? {
        return Failed;
      }
      if node !in pulls {
        return NotFound;
      }
      pulls := pulls[node := pulls[node].(deleting := true)];
      err := if o.Lost? then Failed else Nil;
    }

    method CreatePullPod(node: string, o: Outcome) returns (err: Error)
      modifies this`pulls
      ensures if o.Rejected? then pulls == old(pulls) && err == Failed
              else pulls == old(pulls)[node := Pull(PodPending, false)] && err == (if o.Lost? then Failed else Nil)
    {
      if o.Rejected? {
        return Failed;
      }
      pulls := pulls[node := Pull(PodPending, false)];
      err := if o.Lost? then Failed else Nil;
    }

    method CreateSnapshot(machineImage: Image, input: Input) returns (err: Error)
      modifies this`image
      ensures Result(Now(), err) ==
        if input.snapshot.None? then Result(old(Now()), Failed)
        else Save(old(Now()), machineImage.(status := machineImage.status.(snapshot := input.snapshot.value)), input.update)
    {
      if input.snapshot.None? {
        return Failed;
      }
      var mutable := machineImage.(status := machineImage.status.(snapshot := input.snapshot.value));
      err := Update(mutable, input.update);
    }

    method CreateImageBackup(machineImage: Image, input: Input) returns (err: Error)
      modifies this`image
      ensures Result(Now(), err) == CreateBackup(old(Now()), machineImage, input)
    {
      var backup := input.backup;
      if backup.BackupFailed? {
        return Failed;
      }
      if backup.NoBackup? {
        if !input.backupCreated {
          return Failed;
        }
        backup := input.backupAgain;
        if backup.BackupFailed? {
          return Failed;
        }
      }
      if backup.NoBackup? {
        return Nil;
      }
      if backup.url == "" || backup.backups != 1 || backup.volumes != 1 {
        return Failed;
      }
      var status := machineImage.status.(backupURL := backup.url);
      if backup.base.Some? {
        status := status.(baseImage := backup.base.value);
      }
      err := Update(machineImage.(status := status), input.update);
    }

    method Publish(machineImage: Image, input: Input) returns (err: Error)
      modifies this`image, this`publisher
      ensures Result(Now(), err) == PublishImage(old(Now()), machineImage, input)
    {
      if publisher.None? {
        if !settingsFound {
          return NotFound;
        }
        if input.publisherCreate.Rejected? {
          return Failed;
        }
        publisher := Some(Publisher([], false));
        return if input.publisherCreate.Lost? then Failed else Nil;
      }
      var containers := publisher.value.containers;
      for i := 0 to |containers|
        invariant publisher == old(publisher) && image == old(image)
        invariant KanikoExit(containers) == KanikoExit(containers[i..])
      {
        assert containers[i..][1..] == containers[i + 1..];
        if containers[i].name == "kaniko" {
          if containers[i].exitCode.Some? {
            if containers[i].exitCode.value != 0 {
              return Failed;
            }
            if input.publisherDelete.Rejected? {
              return Failed;
            }
            publisher := Some(publisher.value.(deleting := true));
            if input.publisherDelete.Lost? {
              return Failed;
            }
            err := Update(machineImage.(status := machineImage.status.(published := true)), input.update);
            return;
          }
        }
      }
      err := Nil;
    }

    method Provision(machineImage: Image, input: Input) returns (err: Error)
      modifies this`image, this`pulls
      ensures Result(Now(), err) == ProvisionNodes(old(Now()), machineImage, input)
    {
      hide Sort, Enough;
      var nodesReady: seq<string> := [];
      ghost var recorded := machineImage.status.nodes;
      for i := 0 to |nodes|
        invariant image == old(image)
        invariant VisitAll(old(pulls), nodes[..i], recorded, input) == Pass(pulls, nodesReady, Nil)
      {
        StopsAtError(old(pulls), nodes, recorded, input, i);
        var node := nodes[i];
        var contains := NodeContainsImage(node, machineImage);
        if contains {
          nodesReady := nodesReady + [node];
          err := DeletePullPod(node, input.DeleteFate(node));
          if err != Nil && err != NotFound {
            return;
          }
        } else if node in pulls {
          match pulls[node].phase
          case PodPending =>
          case PodRunning =>
          case PodSucceeded =>
            nodesReady := nodesReady + [node];
            err := DeletePullPod(node, input.DeleteFate(node));
            if err != Nil {
              return;
            }
          case _ =>
            err := DeletePullPod(node, input.DeleteFate(node));
            if err != Nil {
              return;
            }
        } else {
          err := CreatePullPod(node, input.CreateFate(node));
          if err != Nil {
            return;
          }
        }
      }
      assert nodes[..|nodes|] == nodes;
      if minimum.None? {
        return Failed;
      }
      var currentState := Stage.Provision;
      if Enough(|nodesReady|, |nodes|, minimum.value) {
        currentState := Ready;
      }
      var status := machineImage.status.(state := currentState, nodes := Sort(nodesReady));
      err := Update(machineImage.(status := status), input.update);
    }

    method ProcessMachineImage(input: Input) returns (err: Error)
      modifies this
      ensures Result(Now(), err) == Process(old(Now()), input)
      ensures old(image).Some? && ImageRuns.StagesInOrder(old(image).value) ==>
        image.Some? && ImageRuns.StagesInOrder(image.value) && ImageRuns.NotUndone(old(image).value, image.value)
    {
      hide ProvisionNodes, PublishImage, CreateBackup, Save, ImageRuns.StagesInOrder, ImageRuns.NotUndone;
      if image.Some? && ImageRuns.StagesInOrder(image.value) {
        ImageRuns.StepKeepsOrder(Now(), input);
      }
      if image.None? {
        return Nil;
      }
      var machineImage := image.value;
      if machineImage.fromVM {
        if !origin.found {
          return NotFound;
        }
        if machineImage.sizeGiB == 0 {
          if origin.parentSize.None? {
            return NotFound;
          }
          err := Update(machineImage.(sizeGiB := origin.parentSize.value), input.update);
          return;
        }
        if !origin.longhorn {
          return Failed;
        }
        if machineImage.status.snapshot == "" {
          if machineImage.status.state != Snapshot {
            err := Update(WithState(machineImage, Snapshot), input.update);
            return;
          }
          err := CreateSnapshot(machineImage, input);
          return;
        }
        if machineImage.status.backupURL == "" {
          if machineImage.status.state != Backup {
            err := Update(WithState(machineImage, Backup), input.update);
            return;
          }
          err := CreateImageBackup(machineImage, input);
          return;
        }
        if !machineImage.status.published {
          if machineImage.status.state != Stage.Publish {
            err := Update(WithState(machineImage, Stage.Publish), input.update);
            return;
          }
          err := Publish(machineImage, input);
          return;
        }
      } else if !machineImage.status.published {
        err := Update(machineImage.(status := machineImage.status.(published := true)), input.update);
        return;
      }
      err := Provision(machineImage, input);
    }
  }

  /** The pass over the first `i + 1` nodes, and that an error there ends the whole pass. */
  lemma StopsAtError(pulls: map<string, Pull>, nodes: seq<string>, recorded: seq<string>, input: Input, i: nat)
    requires i < |nodes|
    ensures var before := VisitAll(pulls, nodes[..i], recorded, input);
      var next := VisitAll(pulls, nodes[..i + 1], recorded, input);
      && (before.err == Nil ==> next == Visit(before, nodes[i], nodes[i] in recorded, input))
      && (next.err != Nil ==> VisitAll(pulls, nodes, recorded, input) == next)
  {
    hide Visit;
    assert nodes[..i + 1][..i] == nodes[..i];
    if VisitAll(pulls, nodes[..i + 1], recorded, input).err != Nil {
      ErrorStays(pulls, nodes, recorded, input, i + 1);
    }
  }

  lemma {:induction false} ErrorStays(pulls: map<string, Pull>, nodes: seq<string>, recorded: seq<string>, input: Input, k: nat)
    requires k <= |nodes| && VisitAll(pulls, nodes[..k], recorded, input).err != Nil
    ensures VisitAll(pulls, nodes, recorded, input) == VisitAll(pulls, nodes[..k], recorded, input)
    decreases |nodes|
  {
    hide Visit;
    if k < |nodes| {
      var n := |nodes| - 1;
      assert nodes[..n][..k] == nodes[..k];
      ErrorStays(pulls, nodes[..n], recorded, input, k);
    } else {
      assert nodes[..k] == nodes;
    }
  }
}
