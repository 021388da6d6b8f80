/** The disks of a host: raw devices waiting to be partitioned, and the pool of partitions for OSDs
    (src/state/HostConfig.hpp). */
module HostConfigs {
  import opened Text
  import opened Types

  /** The value of a HostConfig object. */
  datatype Host = Host(
    original: HostSpec, pendingOsd: seq<string>, pendingJnl: seq<string>,
    failedOsd: seq<string>, failedJnl: seq<string>, osdParts: seq<string>, jnlParts: seq<string>,
    preparing: bool, done: bool)

  function NewHost(spec: HostSpec): Host {
    Host(spec, spec.osddevs, spec.jnldevs, [], [], [], [], false, false)
  }

  predicate HasPending(h: Host) {
    h.pendingOsd != [] || h.pendingJnl != []
  }

  /** The names of the first `count` partitions of a device. */
  function DevicePartitions(dev: string, count: int): seq<string>
    decreases if count < 0 then 0 else count
  {
    if count < 1 then [] else DevicePartitions(dev, count - 1) + [dev + IntText(count)]
  }

  /** The partitions of the devices that did not fail, device by device. */
  function Partitions(devs: seq<string>, failed: seq<string>, count: int): seq<string> {
    if devs == [] then []
    else
      var rest := Partitions(devs[..|devs| - 1], failed, count);
      var dev := devs[|devs| - 1];
      if dev in failed then rest else rest + DevicePartitions(dev, count)
  }

  /** The devices that are in the failed list, in order. */
  function Failing(devs: seq<string>, failed: seq<string>): seq<string> {
    if devs == [] then []
    else
      var rest := Failing(devs[..|devs| - 1], failed);
      var dev := devs[|devs| - 1];
      if dev in failed then rest + [dev] else rest
  }

  function UpdateDiskPartition(h: Host, failed: seq<string>, count: int): Host {
    h.(osdParts := h.osdParts + Partitions(h.pendingOsd, failed, 1),
       jnlParts := h.jnlParts + Partitions(h.pendingJnl, failed, count),
       failedOsd := h.failedOsd + Failing(h.pendingOsd, failed),
       failedJnl := h.failedJnl + Failing(h.pendingJnl, failed),
       pendingOsd := [], pendingJnl := [])
  }

  /** The last entry of a pool, or the empty name. */
  function Top(pool: seq<string>): string {
    if pool == [] then "" else pool[|pool| - 1]
  }

  function Popped(pool: seq<string>): seq<string> {
    if pool == [] then [] else pool[..|pool| - 1]
  }

  class HostConfig {
    var originalConfig: HostSpec
    var jnlPartsCount: int
    var pendingOSDDevs: seq<string>
    var pendingJNLDevs: seq<string>
    var failedOSDDevs: seq<string>
    var failedJNLDevs: seq<string>
    var osdPartitions: seq<string>
    var jnlPartitions: seq<string>
    var isPreparingDiskFlag: bool
    var doneDiskPreparationFlag: bool

    ghost function View(): Host
      reads this
    {
      Host(originalConfig, pendingOSDDevs, pendingJNLDevs, failedOSDDevs, failedJNLDevs,
           osdPartitions, jnlPartitions, isPreparingDiskFlag, doneDiskPreparationFlag)
    }

    ghost predicate Valid()
      reads this
    {
      jnlPartsCount == originalConfig.jnlparts
    }

    /** The constructor for a host with a configuration of its own. */
    constructor ForHost(spec: HostSpec)
      ensures Valid() && View() == NewHost(spec)
    {
      originalConfig, jnlPartsCount := spec, spec.jnlparts;
      pendingOSDDevs, pendingJNLDevs := spec.osddevs, spec.jnldevs;
      failedOSDDevs, failedJNLDevs, osdPartitions, jnlPartitions := [], [], [], [];
      isPreparingDiskFlag, doneDiskPreparationFlag := false, false;
    }

    /** The constructor of the fallback entry, which copies no devices. */
    constructor Fallback(spec: HostSpec)
      ensures Valid() && View() == NewHost(spec).(pendingOsd := [], pendingJnl := [])
    {
      originalConfig, jnlPartsCount := spec, spec.jnlparts;
      pendingOSDDevs, pendingJNLDevs := [], [];
      failedOSDDevs, failedJNLDevs, osdPartitions, jnlPartitions := [], [], [], [];
      isPreparingDiskFlag, doneDiskPreparationFlag := false, false;
    }

    method PopOSDPartition() returns (p: string)
      modifies this`osdPartitions
      ensures p == Top(old(View()).osdParts)
      ensures View() == old(View()).(osdParts := Popped(old(View()).osdParts))
    {
      p := "";
      if osdPartitions != [] {
        p := osdPartitions[|osdPartitions| - 1];
        osdPartitions := osdPartitions[..|osdPartitions| - 1];
      }
    }

    method PopJournalPartition() returns (p: string)
      modifies this`jnlPartitions
      ensures p == Top(old(View()).jnlParts)
      ensures View() == old(View()).(jnlParts := Popped(old(View()).jnlParts))
    {
      p := "";
      if jnlPartitions != [] {
        p := jnlPartitions[|jnlPartitions| - 1];
        jnlPartitions := jnlPartitions[..|jnlPartitions| - 1];
      }
    }

    static method Contains(origin: seq<string>, searchStr: string) returns (found: bool)
      ensures found <==> searchStr in origin
    {
      for i := 0 to |origin|
        invariant searchStr !in origin[..i]
      {
        if searchStr == origin[i] {
          return true;
        }
      }
      found := false;
    }

    method UpdateOSDPartitions(failedDevs: seq<string>)
      modifies this`osdPartitions, this`failedOSDDevs
      ensures osdPartitions == old(osdPartitions) + Partitions(pendingOSDDevs, failedDevs, 1)
      ensures failedOSDDevs == old(failedOSDDevs) + Failing(pendingOSDDevs, failedDevs)
    {
      var devs := pendingOSDDevs;
      for i := 0 to |devs|
        invariant osdPartitions == old(osdPartitions) + Partitions(devs[..i], failedDevs, 1)
        invariant failedOSDDevs == old(failedOSDDevs) + Failing(devs[..i], failedDevs)
      {
        assert devs[..i + 1][..i] == devs[..i];
        var bad := Contains(failedDevs, devs[i]);
        if bad {
          failedOSDDevs := failedOSDDevs + [devs[i]];
          continue;
        }
        SinglePartition(devs[i]);
        osdPartitions := osdPartitions + [devs[i] + "1"];
      }
      assert devs[..|devs|] == devs;
    }

    /** The inner loop of updateDiskPartition for one journal device. */
    method AddJNLPartitions(dev: string, jnlPartitionCount: int)
      modifies this`jnlPartitions
      ensures jnlPartitions == old(jnlPartitions) + DevicePartitions(dev, jnlPartitionCount)
    {
      var j := 1;
      while j < jnlPartitionCount + 1
        invariant j == 1 || 1 <= j <= jnlPartitionCount + 1
        invariant jnlPartitions == old(jnlPartitions) + DevicePartitions(dev, j - 1)
      {
        assert DevicePartitions(dev, j) == DevicePartitions(dev, j - 1) + [dev + IntText(j)];
        jnlPartitions := jnlPartitions + [dev + IntText(j)];
        j := j + 1;
      }
    }

    method UpdateJNLPartitions(failedDevs: seq<string>, jnlPartitionCount: int)
      modifies this`jnlPartitions, this`failedJNLDevs
      ensures jnlPartitions == old(jnlPartitions) + Partitions(pendingJNLDevs, failedDevs, jnlPartitionCount)
      ensures failedJNLDevs == old(failedJNLDevs) + Failing(pendingJNLDevs, failedDevs)
    {
      hide DevicePartitions;
      var devs := pendingJNLDevs;
      for i := 0 to |devs|
        invariant jnlPartitions == old(jnlPartitions) + Partitions(devs[..i], failedDevs, jnlPartitionCount)
        invariant failedJNLDevs == old(failedJNLDevs) + Failing(devs[..i], failedDevs)
      {
        assert devs[..i + 1][..i] == devs[..i];
        var bad := Contains(failedDevs, devs[i]);
        if bad {
          failedJNLDevs := failedJNLDevs + [devs[i]];
          continue;
        }
        AddJNLPartitions(devs[i], jnlPartitionCount);
      }
      assert devs[..|devs|] == devs;
    }

    method UpdatePartitions(failedDevs: seq<string>, jnlPartitionCount: int)
      modifies this
      ensures View() == UpdateDiskPartition(old(View()), failedDevs, jnlPartitionCount)
      ensures jnlPartsCount == old(jnlPartsCount)
    {
      UpdateOSDPartitions(failedDevs);
      UpdateJNLPartitions(failedDevs, jnlPartitionCount);
      pendingOSDDevs, pendingJNLDevs := [], [];
    }

    method SetDiskPreparationOnGoing()
      modifies this`isPreparingDiskFlag, this`doneDiskPreparationFlag
      ensures View() == old(View()).(preparing := true, done := false)
    {
      isPreparingDiskFlag, doneDiskPreparationFlag := true, false;
    }

    method SetDiskPreparationDone()
      modifies this`isPreparingDiskFlag, this`doneDiskPreparationFlag
      ensures View() == old(View()).(preparing := false, done := true)
    {
      isPreparingDiskFlag, doneDiskPreparationFlag := false, true;
    }
  }

  // ---------------------------------------------------------------- partition names

  lemma SinglePartition(dev: string)
    ensures DevicePartitions(dev, 1) == [dev + "1"]
  {
    assert DevicePartitions(dev, 1) == DevicePartitions(dev, 0) + [dev + IntText(1)];
    assert IntText(1) == "1";
  }

  ghost predicate Distinct<T>(s: seq<T>) {
    forall i, j :: 0 <= i < j < |s| ==> s[i] != s[j]
  }

  predicate EndsInDigit(s: string) {
    s != "" && IsDigit(s[|s| - 1])
  }

  /** Device lists as the operators write them: all names different, none ending in a digit. */
  ghost predicate Clean(spec: HostSpec) {
    && Distinct(spec.osddevs + spec.jnldevs)
    && forall d :: d in spec.osddevs + spec.jnldevs ==> !EndsInDigit(d)
  }

  /** A name without its trailing digits. */
  function Base(name: string): string {
    if EndsInDigit(name) then Base(name[..|name| - 1]) else name
  }

  lemma {:induction false} BaseOfNumbered(dev: string, digits: string)
    requires !EndsInDigit(dev) && AllDigits(digits)
    ensures Base(dev + digits) == dev
  {
    if digits == "" {
      assert dev + digits == dev;
    } else {
      BaseOfNumbered(dev, digits[..|digits| - 1]);
      assert (dev + digits)[..|dev + digits| - 1] == dev + digits[..|digits| - 1];
    }
  }

  lemma {:induction false} DevicePartitionsDistinct(dev: string, count: int)
    requires !EndsInDigit(dev)
    ensures Distinct(DevicePartitions(dev, count))
    ensures forall p :: p in DevicePartitions(dev, count) ==>
              Base(p) == dev && |p| > |dev| && exists k :: 1 <= k <= count && p == dev + IntText(k)
    decreases if count < 0 then 0 else count
  {
    if count >= 1 {
      DevicePartitionsDistinct(dev, count - 1);
      BaseOfNumbered(dev, IntText(count));
      var last := dev + IntText(count);
      if last in DevicePartitions(dev, count - 1) {
        var k :| 1 <= k <= count - 1 && last == dev + IntText(k);
        assert last[|dev|..] == IntText(k) == IntText(count);
        IntTextInjective(k, count);
      }
    }
  }

  /** The partitions of differently named devices are differently named, and each carries its device's name. */
  lemma {:induction false} PartitionsDistinct(devs: seq<string>, failed: seq<string>, count: int)
    requires Distinct(devs) && forall d :: d in devs ==> !EndsInDigit(d)
    ensures Distinct(Partitions(devs, failed, count))
    ensures forall p :: p in Partitions(devs, failed, count) ==> Base(p) in devs && p != ""
  {
    if devs != [] {
      var dev := devs[|devs| - 1];
      PartitionsDistinct(devs[..|devs| - 1], failed, count);
      DevicePartitionsDistinct(dev, count);
      assert dev !in devs[..|devs| - 1];
      DistinctJoin(Partitions(devs[..|devs| - 1], failed, count), DevicePartitions(dev, count));
    }
  }

  lemma DistinctJoin<T>(a: seq<T>, b: seq<T>)
    requires Distinct(a) && Distinct(b) && forall x :: x in a ==> x !in b
    ensures Distinct(a + b)
  {
    forall i, j | 0 <= i < j < |a + b| ensures (a + b)[i] != (a + b)[j] {
      if i < |a| <= j {
        assert a[i] in a && b[j - |a|] in b;
      }
    }
  }

  /** A sequence is free of duplicates exactly if its multiset is a set. */
  lemma {:induction false} DistinctCounts<T>(s: seq<T>)
    ensures Distinct(s) <==> forall x :: multiset(s)[x] <= 1
  {
    if s != [] {
      var rest, x := s[..|s| - 1], s[|s| - 1];
      DistinctCounts(rest);
      assert s == rest + [x];
      assert multiset(s) == multiset(rest) + multiset{x};
      if x in rest {
        assert multiset(s)[x] >= 2;
        var i :| 0 <= i < |rest| && rest[i] == x;
        assert s[i] == s[|s| - 1];
      } else if forall y :: multiset(s)[y] <= 1 {
        assert forall y :: multiset(rest)[y] <= multiset(s)[y];
      } else {
        var y :| multiset(s)[y] > 1;
        assert y != x;
      }
    }
  }

  /** The OSD and journal partitions that the devices of a clean host yield are all different. */
  lemma HostPartitionsDistinct(spec: HostSpec)
    requires Clean(spec)
    ensures Distinct(Partitions(spec.osddevs, [], 1) + Partitions(spec.jnldevs, [], spec.jnlparts))
    ensures "" !in Partitions(spec.osddevs, [], 1) && "" !in Partitions(spec.jnldevs, [], spec.jnlparts)
  {
    var all := spec.osddevs + spec.jnldevs;
    assert forall i :: 0 <= i < |spec.osddevs| ==> all[i] == spec.osddevs[i];
    assert forall i :: 0 <= i < |spec.jnldevs| ==> all[|spec.osddevs| + i] == spec.jnldevs[i];
    PartitionsDistinct(spec.osddevs, [], 1);
    PartitionsDistinct(spec.jnldevs, [], spec.jnlparts);
    assert forall d :: d in spec.osddevs ==> d !in spec.jnldevs;
    DistinctJoin(Partitions(spec.osddevs, [], 1), Partitions(spec.jnldevs, [], spec.jnlparts));
  }
}
