/** Names of pods and jobs, and how their owner is recovered from them when an event arrives. */
module Names {
  import opened Replies

  // ---- machines

  /** Everything before the last dash; without a dash the slice expression would fail. */
  function BeforeLastDash(s: string): Option<string> {
    if s == "" then None
    else if s[|s| - 1] == '-' then Some(s[..|s| - 1])
    else BeforeLastDash(s[..|s| - 1])
  }

  predicate NoDash(s: string) {
    forall i :: 0 <= i < |s| ==> s[i] != '-'
  }

  lemma {:induction false} DashSplits(name: string, suffix: string)
    requires NoDash(suffix)
    ensures BeforeLastDash(name + "-" + suffix) == Some(name)
  {
    var s := name + "-" + suffix;
    if suffix == "" {
      assert s[..|s| - 1] == name;
    } else {
      var shorter := suffix[..|suffix| - 1];
      assert s[..|s| - 1] == name + "-" + shorter;
      assert s[|s| - 1] == suffix[|suffix| - 1];
      DashSplits(name, shorter);
    }
  }

  /** One hexadecimal digit. */
  function HexDigit(n: nat): char
    requires n < 16
  {
    "0123456789abcdef"[n]
  }

  /** The last `width` hexadecimal digits of a number, with leading zeros. */
  function Hex(n: nat, width: nat): (s: string)
    ensures |s| == width && NoDash(s)
  {
    if width == 0 then "" else Hex(n / 16, width - 1) + [HexDigit(n % 16)]
  }

  function MachinePodName(machine: string, random: nat): string {
    machine + "-" + Hex(random, 8)
  }

  function ConsolePodName(machine: string): string {
    machine + "-" + "novnc"
  }

  function JobName(machine: string): string {
    machine + "-" + "migrate"
  }

  /** Pod, console and job names lead back to exactly their machine, whatever dashes its name has. */
  lemma OwnerOfMachineNames(machine: string, random: nat)
    ensures BeforeLastDash(MachinePodName(machine, random)) == Some(machine)
    ensures BeforeLastDash(ConsolePodName(machine)) == Some(machine)
    ensures BeforeLastDash(JobName(machine)) == Some(machine)
  {
    DashSplits(machine, Hex(random, 8));
    DashSplits(machine, "novnc");
    DashSplits(machine, "migrate");
  }

  /** The names of a machine's pods, console and job are different, and so are those of two machine pods
      with different random numbers of 32 bits. */
  lemma MachineNamesDiffer(machine: string, random: nat, other: nat)
    requires random < 0x1_0000_0000 && other < 0x1_0000_0000
    ensures MachinePodName(machine, random) != ConsolePodName(machine)
    ensures MachinePodName(machine, random) != JobName(machine) && ConsolePodName(machine) != JobName(machine)
    ensures MachinePodName(machine, random) == MachinePodName(machine, other) ==> random == other
  {
    hide Hex;
    var n := |machine| + 1;
    assert |MachinePodName(machine, random)| == n + 8 && |ConsolePodName(machine)| == n + 5 && |JobName(machine)| == n + 7;
    assert MachinePodName(machine, random)[n..] == Hex(random, 8) && MachinePodName(machine, other)[n..] == Hex(other, 8);
    HexValue(random, 8, 0x1_0000_0000);
    HexValue(other, 8, 0x1_0000_0000);
  }

  function DigitValue(c: char): nat {
    if '0' <= c <= '9' then c as int - '0' as int else if 'a' <= c <= 'f' then c as int - 'a' as int + 10 else 0
  }

  /** The number that hexadecimal digits denote. */
  function HexNumber(s: string): nat {
    if s == "" then 0 else 16 * HexNumber(s[..|s| - 1]) + DigitValue(s[|s| - 1])
  }

  function Power(width: nat): nat {
    if width == 0 then 1 else 16 * Power(width - 1)
  }

  lemma DigitRead(n: nat)
    requires n < 16
    ensures DigitValue(HexDigit(n)) == n
  {
  }

  lemma {:induction false} HexValue(n: nat, width: nat, limit: nat)
    requires n < limit && limit == Power(width)
    ensures HexNumber(Hex(n, width)) == n
  {
    hide HexDigit, DigitValue, NoDash;
    if width > 0 {
      var high, low := n / 16, n % 16;
      assert n == 16 * high + low && high < Power(width - 1);
      HexValue(high, width - 1, Power(width - 1));
      DigitRead(low);
      NumberAppend(Hex(high, width - 1), HexDigit(low));
    }
  }

  lemma NumberAppend(s: string, c: char)
    ensures HexNumber(s + [c]) == 16 * HexNumber(s) + DigitValue(c)
  {
    hide DigitValue;
    assert (s + [c])[..|s|] == s;
  }

  // ---- images

  predicate HasPrefix(s: string, p: string) {
    |p| <= |s| && s[..|p|] == p
  }

  predicate HasSuffix(s: string, t: string) {
    |t| <= |s| && s[|s| - |t|..] == t
  }

  function TrimPrefix(s: string, p: string): string {
    if HasPrefix(s, p) then s[|p|..] else s
  }

  function TrimSuffix(s: string, t: string): string {
    if HasSuffix(s, t) then s[..|s| - |t|] else s
  }

  function PullPodName(image: string, node: string): string {
    "pull" + "-" + image + "-" + node
  }

  function PublishPodName(image: string): string {
    "publish-" + image
  }

  /** The image an image pod is taken to belong to. */
  function ImageOfPod(pod: string, node: string): string {
    var name := if HasPrefix(pod, "publish") then TrimPrefix(pod, "publish-") else TrimPrefix(pod, "pull-");
    TrimSuffix(name, "-" + node)
  }

  /** A pull pod leads back to its image, for every image and node name. */
  lemma OwnerOfPullPod(image: string, node: string)
    ensures ImageOfPod(PullPodName(image, node), node) == image
  {
    var pod, t := PullPodName(image, node), "-" + node;
    assert |pod| >= 7 ==> pod[..7][2] == 'l';
    assert !HasPrefix(pod, "publish");
    assert pod == "pull-" + (image + t);
    assert pod[..5] == "pull-" && pod[5..] == image + t;
    assert (image + t)[|image|..] == t && (image + t)[..|image|] == image;
  }

  /** A publish pod leads back to its image exactly when the image name does not end in a dash and the
      name of the pod's node. */
  lemma OwnerOfPublishPod(image: string, node: string)
    ensures ImageOfPod(PublishPodName(image), node) == image <==> !HasSuffix(image, "-" + node)
  {
    var pod := PublishPodName(image);
    assert pod[..8] == "publish-" && pod[8..] == image;
    assert pod[..7] == "publish";
    if HasSuffix(image, "-" + node) {
      assert |ImageOfPod(pod, node)| < |image|;
    }
  }

  /** For one image the pull pods of different nodes have different names... */
  lemma PullPodsOfOneImage(image: string, node: string, other: string)
    requires PullPodName(image, node) == PullPodName(image, other)
    ensures node == other
  {
    var n := |"pull" + "-" + image + "-"|;
    assert PullPodName(image, node)[n..] == node && PullPodName(image, other)[n..] == other;
  }

  lemma SharedPullPod(image: string, node: string, longer: string, other: string) returns (mid: string)
    requires |image| < |longer| && PullPodName(image, node) == PullPodName(longer, other)
    ensures longer == image + "-" + mid && node == mid + "-" + other
  {
    var s := image + "-" + node;
    assert PullPodName(image, node)[5..] == s;
    assert PullPodName(longer, other)[5..] == longer + "-" + other;
    mid := longer[|image| + 1..];
    assert longer == s[..|longer|];
    assert longer[|image|] == s[|image|] == '-';
    assert longer[..|image|] == s[..|image|] == image;
    assert longer == image + "-" + mid;
    assert node == s[|image| + 1..];
    assert s[|image| + 1..] == (longer + "-" + other)[|image| + 1..] == mid + "-" + other;
  }

  lemma SamePullPod(image: string, mid: string, other: string)
    ensures PullPodName(image, mid + "-" + other) == PullPodName(image + "-" + mid, other)
  {
    assert PullPodName(image, mid + "-" + other) == "pull-" + image + "-" + mid + "-" + other;
  }

  /** ...but two images share a pull pod exactly when one name extends the other by a dash and a text
      with which the other's node name begins. */
  lemma PullPodsOfTwoImages(image: string, node: string, longer: string, other: string)
    requires |image| < |longer|
    ensures PullPodName(image, node) == PullPodName(longer, other) <==>
      exists mid :: longer == image + "-" + mid && node == mid + "-" + other
  {
    hide PullPodName;
    if PullPodName(image, node) == PullPodName(longer, other) {
      var mid := SharedPullPod(image, node, longer, other);
    }
    if mid :| longer == image + "-" + mid && node == mid + "-" + other {
      SamePullPod(image, mid, other);
    }
  }
}
