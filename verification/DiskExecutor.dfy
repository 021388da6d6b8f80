/** The disk-preparation executor: it partitions and formats raw devices and reports those that failed
    (src/executor/DiskExecutor.cpp). */
module DiskExecutors {
  import opened Text
  import opened Types
  import opened Wire
  import opened HostConfigs

  const OSD_DEVS_KEY := "osddevs"
  const JNL_DEVS_KEY := "jnldevs"
  const JNL_PARTITION_COUNT_KEY := "jnlpartitioncount"

  // ---------------------------------------------------------------- partition ranges

  /** One `mkpart` command: from `start` (in percent, or in megabytes for the first one) to `end` percent. */
  datatype Range = Range(start: int, inPercent: bool, end: int)

  /** The percentage at which a range starts; the first one starts one megabyte into the disk. */
  function StartPercent(r: Range): int {
    if r.inPercent then r.start else 0
  }

  /** `n` ranges, each as wide as the others, one after the other, within the disk and leaving less than n percent. */
  ghost predicate SplitsEvenly(rs: seq<Range>, n: int) {
    && |rs| == n > 0
    && rs[0] == Range(1, false, rs[0].end)
    && (forall i :: 0 <= i < n ==> (rs[i].inPercent <==> i > 0) && rs[i].end - StartPercent(rs[i]) == 100 / n)
    && (forall i :: 0 < i < n ==> rs[i].start == rs[i - 1].end)
    && 100 - n < rs[n - 1].end <= 100
  }

  /** Every range ends behind its start. */
  ghost predicate NoneEmpty(rs: seq<Range>) {
    forall i :: 0 <= i < |rs| ==> StartPercent(rs[i]) < rs[i].end
  }

  /** The range that the loop writes in round `k`. */
  function RangeAt(k: nat, share: int): Range {
    Range(if k == 0 then 1 else k * share, k > 0, (k + 1) * share)
  }

  lemma RangeWidth(k: nat, share: int)
    ensures RangeAt(k, share).end - StartPercent(RangeAt(k, share)) == share
    ensures RangeAt(k, share).end + share == RangeAt(k + 1, share).end
  {
    assert (k + 1) * share == k * share + share;
    assert (k + 2) * share == (k + 1) * share + share;
  }

  lemma EvenRangesSplit(rs: seq<Range>, n: int)
    requires n > 0 && |rs| == n && forall k :: 0 <= k < n ==> rs[k] == RangeAt(k, 100 / n)
    ensures SplitsEvenly(rs, n)
    ensures NoneEmpty(rs) <==> n <= 100
  {
    var share := 100 / n;
    forall k | 0 <= k < n ensures rs[k].end - StartPercent(rs[k]) == share { RangeWidth(k, share); }
    assert 100 - n < n * share <= 100 && (share > 0 <==> n <= 100);
    assert StartPercent(rs[0]) < rs[0].end <==> share > 0;
  }

  /** The command loop of partitionDisk. None is the division by zero of an empty partition count.
      The disk is split evenly whenever the count is positive, and into usable ranges exactly up to 100. */
  method PartitionDisk(partitionCount: int) returns (r: Option<seq<Range>>)
    ensures r == None <==> partitionCount == 0
    ensures partitionCount < 0 ==> r == Some([])
    ensures partitionCount > 0 ==> SplitsEvenly(r.value, partitionCount)
    ensures partitionCount > 0 ==> (NoneEmpty(r.value) <==> partitionCount <= 100)
  {
    if partitionCount == 0 {
      return None;
    }
    ghost var share := Quotient(100, partitionCount);
    var ranges: seq<Range> := [];
    var start, end := 1, Quotient(100, partitionCount);
    var i := 0;
    while i < partitionCount
      invariant i == 0 || 0 < i <= partitionCount
      invariant |ranges| == i && start == RangeAt(i, share).start && end == RangeAt(i, share).end
      invariant forall k :: 0 <= k < i ==> ranges[k] == RangeAt(k, share)
    {
      RangeWidth(i, share);
      ranges := ranges + [Range(start, i != 0, end)];
      start := end;
      end := start + Quotient(100, partitionCount);
      i := i + 1;
    }
    if partitionCount > 0 {
      EvenRangesSplit(ranges, partitionCount);
    }
    r := Some(ranges);
  }

  // ---------------------------------------------------------------- the devices of a task

  function Valued(key: string, values: seq<string>): seq<Label> {
    if values == [] then []
    else Valued(key, values[..|values| - 1]) + [Label(key, values[|values| - 1])]
  }

  /** The labels tryLaunchDiskTask puts on a disk task. */
  function DiskLabels(osd: seq<string>, jnl: seq<string>, count: int): seq<Label> {
    Valued(OSD_DEVS_KEY, osd) + Valued(JNL_DEVS_KEY, jnl) + [Label(JNL_PARTITION_COUNT_KEY, IntText(count))]
  }

  /** The values carried by the labels with a key, in order. */
  function ValuesOf(labels: seq<Label>, key: string): seq<string> {
    if labels == [] then []
    else
      var rest := ValuesOf(labels[..|labels| - 1], key);
      var last := labels[|labels| - 1];
      if last.key == key then rest + [last.value] else rest
  }

  lemma {:induction false} ValuesOfJoin(a: seq<Label>, b: seq<Label>, key: string)
    ensures ValuesOf(a + b, key) == ValuesOf(a, key) + ValuesOf(b, key)
  {
    if b == [] {
      assert a + b == a;
    } else {
      ValuesOfJoin(a, b[..|b| - 1], key);
      assert (a + b)[..|a + b| - 1] == a + b[..|b| - 1];
    }
  }

  lemma ValuesOfOne(one: Label, key: string)
    ensures ValuesOf([one], key) == if one.key == key then [one.value] else []
  {
    assert [one][..0] == [];
    assert ValuesOf([], key) == [];
  }

  lemma ValuesOfNext(labels: seq<Label>, i: nat, key: string)
    requires i < |labels|
    ensures ValuesOf(labels[..i + 1], key) ==
            ValuesOf(labels[..i], key) + if labels[i].key == key then [labels[i].value] else []
  {
    assert labels[..i + 1][..i] == labels[..i];
  }

  lemma {:induction false} ValuesOfValued(key: string, values: seq<string>, other: string)
    ensures ValuesOf(Valued(key, values), other) == if other == key then values else []
  {
    if values != [] {
      ValuesOfValued(key, values[..|values| - 1], other);
      ValuesOfJoin(Valued(key, values[..|values| - 1]), [Label(key, values[|values| - 1])], other);
      ValuesOfOne(Label(key, values[|values| - 1]), other);
    }
  }

  lemma LabelsOfKey(osd: seq<string>, jnl: seq<string>, count: int, key: string)
    ensures ValuesOf(DiskLabels(osd, jnl, count), key) ==
            (if key == OSD_DEVS_KEY then osd else []) + (if key == JNL_DEVS_KEY then jnl else [])
            + (if key == JNL_PARTITION_COUNT_KEY then [IntText(count)] else [])
  {
    var c := [Label(JNL_PARTITION_COUNT_KEY, IntText(count))];
    ValuesOfOne(Label(JNL_PARTITION_COUNT_KEY, IntText(count)), key);
    ValuesOfValued(OSD_DEVS_KEY, osd, key);
    ValuesOfValued(JNL_DEVS_KEY, jnl, key);
    ValuesOfJoin(Valued(OSD_DEVS_KEY, osd), Valued(JNL_DEVS_KEY, jnl), key);
    ValuesOfJoin(Valued(OSD_DEVS_KEY, osd) + Valued(JNL_DEVS_KEY, jnl), c, key);
  }

  /** The devices and the count that a scheduler labelled are what the executor will read. */
  lemma DiskLabelsRoundTrip(osd: seq<string>, jnl: seq<string>, count: int)
    requires IsInt32(count)
    ensures var labels := DiskLabels(osd, jnl, count);
            && ValuesOf(labels, OSD_DEVS_KEY) == osd && ValuesOf(labels, JNL_DEVS_KEY) == jnl
            && CountIn(labels) == Some(count)
  {
    LabelsOfKey(osd, jnl, count, OSD_DEVS_KEY);
    LabelsOfKey(osd, jnl, count, JNL_DEVS_KEY);
    LabelsOfKey(osd, jnl, count, JNL_PARTITION_COUNT_KEY);
    IntTextRoundTrip(count);
  }

  /** The last count label, read as an integer, or the default of the executor. */
  function CountIn(labels: seq<Label>): Option<int> {
    var counts := ValuesOf(labels, JNL_PARTITION_COUNT_KEY);
    if counts == [] then Some(4) else ParseInt(counts[|counts| - 1])
  }

  /** What addPendingDisks makes of labels whose counts are all integers: the devices appended, and the last count. */
  ghost predicate Gathered(labels: seq<Label>, osd0: seq<string>, jnl0: seq<string>, count0: int,
                           osd: seq<string>, jnl: seq<string>, count: int) {
    var counts := ValuesOf(labels, JNL_PARTITION_COUNT_KEY);
    && osd == osd0 + ValuesOf(labels, OSD_DEVS_KEY) && jnl == jnl0 + ValuesOf(labels, JNL_DEVS_KEY)
    && (forall c :: c in counts ==> ParseInt(c) != None)
    && if counts == [] then count == count0 else ParseInt(counts[|counts| - 1]) == Some(count)
  }

  lemma NothingGathered(osd: seq<string>, jnl: seq<string>, count: int)
    ensures Gathered([], osd, jnl, count, osd, jnl, count)
  {
  }

  lemma OneGathered(labels: seq<Label>, i: nat, osd0: seq<string>, jnl0: seq<string>, count0: int,
                    osd: seq<string>, jnl: seq<string>, count: int)
    requires i < |labels| && Gathered(labels[..i], osd0, jnl0, count0, osd, jnl, count)
    requires labels[i].key == JNL_PARTITION_COUNT_KEY ==> ParseInt(labels[i].value) != None
    ensures var one := labels[i];
            Gathered(labels[..i + 1], osd0, jnl0, count0,
                     if one.key == OSD_DEVS_KEY then osd + [one.value] else osd,
                     if one.key == JNL_DEVS_KEY then jnl + [one.value] else jnl,
                     if one.key == JNL_PARTITION_COUNT_KEY then ParseInt(one.value).value else count)
  {
    hide ValuesOf, ParseInt;
    var one := labels[i];
    ValuesOfNext(labels, i, OSD_DEVS_KEY);
    ValuesOfNext(labels, i, JNL_DEVS_KEY);
    ValuesOfNext(labels, i, JNL_PARTITION_COUNT_KEY);
  }

  /** The devices whose check failed, by position. */
  function FailedOf(devs: seq<string>, ok: seq<bool>): seq<string>
    requires |ok| == |devs|
  {
    if devs == [] then []
    else
      var n := |devs| - 1;
      FailedOf(devs[..n], ok[..n]) + if ok[n] then [] else [devs[n]]
  }

  lemma FailedOfNext(devs: seq<string>, ok: seq<bool>, i: nat)
    requires i < |devs| == |ok|
    ensures FailedOf(devs[..i + 1], ok[..i + 1]) == FailedOf(devs[..i], ok[..i]) + if ok[i] then [] else [devs[i]]
  {
    assert devs[..i + 1][..i] == devs[..i] && ok[..i + 1][..i] == ok[..i];
  }

  lemma PartitionsNext(devs: seq<string>, i: nat, count: int)
    requires i < |devs|
    ensures Partitions(devs[..i + 1], [], count) == Partitions(devs[..i], [], count) + DevicePartitions(devs[i], count)
  {
    assert devs[..i + 1][..i] == devs[..i];
  }

  /** The partitions formatted on the devices whose check succeeded, by position. */
  function GoodPartitions(devs: seq<string>, ok: seq<bool>, count: int): seq<string>
    requires |ok| == |devs|
  {
    if devs == [] then []
    else
      var n := |devs| - 1;
      GoodPartitions(devs[..n], ok[..n], count) + if ok[n] then DevicePartitions(devs[n], count) else []
  }

  /** The `mkpart` commands given for one device. */
  datatype Split = Split(device: string, ranges: seq<Range>)

  /** Each device was split evenly, in order; a negative count makes no partition. */
  ghost predicate SplitInto(splits: seq<Split>, devs: seq<string>, count: int) {
    && |splits| == |devs|
    && forall i :: 0 <= i < |devs| ==>
         && splits[i].device == devs[i]
         && if count > 0 then SplitsEvenly(splits[i].ranges, count) else splits[i].ranges == []
  }

  /** What a disk executor has to show: failed devices of one kind, partitions formatted, devices split. */
  datatype Work = Work(failed: seq<string>, formatted: seq<string>, splits: seq<Split>)

  /** The work on one device. */
  ghost predicate OneDone(w: Work, w': Work, dev: string, ok: bool, count: int) {
    && w'.failed == w.failed + (if ok then [] else [dev])
    && w'.formatted == w.formatted + DevicePartitions(dev, count)
    && |w'.splits| == |w.splits| + 1 && w.splits <= w'.splits
    && SplitInto(w'.splits[|w.splits|..], [dev], count)
  }

  /** The work on a list of devices, by position. */
  ghost predicate AllDone(w: Work, w': Work, devs: seq<string>, ok: seq<bool>, count: int)
    requires |ok| == |devs|
  {
    && w'.failed == w.failed + FailedOf(devs, ok)
    && w'.formatted == w.formatted + Partitions(devs, [], count)
    && w.splits <= w'.splits && SplitInto(w'.splits[|w.splits|..], devs, count)
  }

  lemma NothingDone(w: Work, count: int)
    ensures AllDone(w, w, [], [], count)
  {
  }

  lemma OneMoreDone(w0: Work, w: Work, w': Work, devs: seq<string>, ok: seq<bool>, i: nat, count: int)
    requires i < |devs| == |ok| && AllDone(w0, w, devs[..i], ok[..i], count)
    requires OneDone(w, w', devs[i], ok[i], count)
    ensures AllDone(w0, w', devs[..i + 1], ok[..i + 1], count)
  {
    hide FailedOf, Partitions, DevicePartitions, SplitsEvenly;
    FailedOfNext(devs, ok, i);
    PartitionsNext(devs, i, count);
    var mine, one := w.splits[|w0.splits|..], w'.splits[|w.splits|..];
    assert w'.splits[|w0.splits|..] == mine + one;
    assert devs[..i + 1] == devs[..i] + [devs[i]];
  }

  /** The data devices were split whole, then the journals by the count. */
  ghost predicate SplitsAfter(before: seq<Split>, after: seq<Split>, osd: seq<string>, jnl: seq<string>, count: int) {
    && |after| == |before| + |osd| + |jnl| && after[..|before|] == before
    && SplitInto(after[|before|..|before| + |osd|], osd, 1) && SplitInto(after[|before| + |osd|..], jnl, count)
  }

  lemma SplitsJoin(before: seq<Split>, middle: seq<Split>, after: seq<Split>, osd: seq<string>, jnl: seq<string>,
                   count: int)
    requires before <= middle <= after
    requires SplitInto(middle[|before|..], osd, 1) && SplitInto(after[|middle|..], jnl, count)
    ensures SplitsAfter(before, after, osd, jnl, count)
  {
    hide SplitsEvenly;
    assert after[|before|..|before| + |osd|] == middle[|before|..];
  }

  class DiskExecutor {
    const myHostname: string
    var pendingOSDDevs: seq<string>
    var pendingJNLDevs: seq<string>
    var failedOSDDevs: seq<string>
    var failedJNLDevs: seq<string>
    var jnlPartitionCount: int
    /** The partitions that were given to mkfs. */
    var formatted: seq<string>
    /** How the devices were split before that. */
    var splits: seq<Split>

    constructor (hostname: string)
      ensures myHostname == hostname && jnlPartitionCount == 4
      ensures pendingOSDDevs == pendingJNLDevs == failedOSDDevs == failedJNLDevs == formatted == [] && splits == []
    {
      myHostname, jnlPartitionCount := hostname, 4;
      pendingOSDDevs, pendingJNLDevs, failedOSDDevs, failedJNLDevs, formatted, splits := [], [], [], [], [], [];
    }

    /** addPendingDisks: collects the devices of the labels. A count that is no integer is an uncaught exception. */
    method AddPendingDisks(labels: seq<Label>) returns (ok: bool, crashed: bool)
      modifies this`pendingOSDDevs, this`pendingJNLDevs, this`jnlPartitionCount
      ensures ok <==> labels != [] && !crashed
      ensures !crashed ==>
                Gathered(labels, old(pendingOSDDevs), old(pendingJNLDevs), old(jnlPartitionCount),
                         pendingOSDDevs, pendingJNLDevs, jnlPartitionCount)
      ensures crashed ==> exists c :: c in ValuesOf(labels, JNL_PARTITION_COUNT_KEY) && ParseInt(c) == None
    {
      hide Gathered, ValuesOf, ParseInt;
      if labels == [] {
        NothingGathered(pendingOSDDevs, pendingJNLDevs, jnlPartitionCount);
        return false, false;
      }
      NothingGathered(pendingOSDDevs, pendingJNLDevs, jnlPartitionCount);
      assert labels[..0] == [];
      for i := 0 to |labels|
        invariant Gathered(labels[..i], old(pendingOSDDevs), old(pendingJNLDevs), old(jnlPartitionCount),
                           pendingOSDDevs, pendingJNLDevs, jnlPartitionCount)
      {
        var one := labels[i];
        ghost var osd, jnl, last := pendingOSDDevs, pendingJNLDevs, jnlPartitionCount;
        if one.key == OSD_DEVS_KEY {
          pendingOSDDevs := pendingOSDDevs + [one.value];
        }
        if one.key == JNL_DEVS_KEY {
          pendingJNLDevs := pendingJNLDevs + [one.value];
        }
        if one.key == JNL_PARTITION_COUNT_KEY {
          var count := ParseInt(one.value);
          if count == None {
            LaterValuesStay(labels, i, JNL_PARTITION_COUNT_KEY);
            return false, true;
          }
          jnlPartitionCount := count.value;
        }
        OneGathered(labels, i, old(pendingOSDDevs), old(pendingJNLDevs), old(jnlPartitionCount), osd, jnl, last);
      }
      assert labels[..|labels|] == labels;
      ok, crashed := true, false;
    }

    /** launchTask of a new executor. A task without usable labels is first reported failed and then, as the code does
        not return there, finished all the same. None is a crash, after which no report comes. */
    method LaunchTask(labels: seq<Label>, osdOk: seq<bool>, jnlOk: seq<bool>)
      returns (report: Option<string>, failedFirst: bool)
      requires pendingOSDDevs == pendingJNLDevs == failedOSDDevs == failedJNLDevs == []
      requires |osdOk| == |ValuesOf(labels, OSD_DEVS_KEY)| && |jnlOk| == |ValuesOf(labels, JNL_DEVS_KEY)|
      modifies this
      ensures failedFirst <==> labels == []
      ensures labels == [] ==> report == Some(DiskReadyText(myHostname, [], []))
      ensures report == None <==>
                || (exists c :: c in ValuesOf(labels, JNL_PARTITION_COUNT_KEY) && ParseInt(c) == None)
                || (ValuesOf(labels, JNL_DEVS_KEY) != [] && jnlPartitionCount == 0)
      ensures report.Some? ==>
                report.value == DiskReadyText(myHostname, FailedOf(ValuesOf(labels, OSD_DEVS_KEY), osdOk),
                                              FailedOf(ValuesOf(labels, JNL_DEVS_KEY), jnlOk))
      ensures report.Some? && labels != [] ==>
                formatted == old(formatted) + Partitions(ValuesOf(labels, OSD_DEVS_KEY), [], 1)
                             + Partitions(ValuesOf(labels, JNL_DEVS_KEY), [], jnlPartitionCount)
      ensures report.Some? ==>
                SplitsAfter(old(splits), splits, ValuesOf(labels, OSD_DEVS_KEY), ValuesOf(labels, JNL_DEVS_KEY),
                            jnlPartitionCount)
    {
      var ok, crashed := AddPendingDisks(labels);
      failedFirst := !ok && !crashed;
      if crashed {
        return None, false;
      }
      ghost var osd, jnl := ValuesOf(labels, OSD_DEVS_KEY), ValuesOf(labels, JNL_DEVS_KEY);
      assert [] + osd == osd && [] + jnl == jnl;
      crashed := PrepareDisks(osdOk, jnlOk);
      if crashed {
        return None, failedFirst;
      }
      assert failedOSDDevs == FailedOf(osd, osdOk) && failedJNLDevs == FailedOf(jnl, jnlOk);
      var msg := PrepareReturnValue();
      report := Some(msg);
    }

    /** The journal half of prepareDisks for one device. */
    method FormatPartitions(dev: string, count: int)
      modifies this`formatted
      ensures formatted == old(formatted) + DevicePartitions(dev, count)
    {
      var j := 1;
      while j < count + 1
        invariant j == 1 || 1 <= j <= count + 1
        invariant formatted == old(formatted) + DevicePartitions(dev, j - 1)
      {
        assert DevicePartitions(dev, j) == DevicePartitions(dev, j - 1) + [dev + IntText(j)];
        formatted := formatted + [dev + IntText(j)];
        j := j + 1;
      }
    }

    /** prepareDisks, where `osdOk` and `jnlOk` are the answers of checkSuccess. With a journal device and a count
        of zero the executor dies of the division by zero in partitionDisk. */
    method PrepareDisks(osdOk: seq<bool>, jnlOk: seq<bool>) returns (crashed: bool)
      requires |osdOk| == |pendingOSDDevs| && |jnlOk| == |pendingJNLDevs|
      modifies this`failedOSDDevs, this`failedJNLDevs, this`formatted, this`splits
      ensures crashed <==> pendingJNLDevs != [] && jnlPartitionCount == 0
      ensures failedOSDDevs == old(failedOSDDevs) + FailedOf(pendingOSDDevs, osdOk)
      ensures !crashed ==> failedJNLDevs == old(failedJNLDevs) + FailedOf(pendingJNLDevs, jnlOk)
      ensures !crashed ==> formatted == old(formatted) + Partitions(pendingOSDDevs, [], 1)
                                        + Partitions(pendingJNLDevs, [], jnlPartitionCount)
      ensures !crashed ==> SplitsAfter(old(splits), splits, pendingOSDDevs, pendingJNLDevs, jnlPartitionCount)
    {
      hide SplitInto;
      PrepareOSDs(osdOk);
      ghost var middle := splits;
      crashed := PrepareJournals(jnlOk);
      if !crashed {
        SplitsJoin(old(splits), middle, splits, pendingOSDDevs, pendingJNLDevs, jnlPartitionCount);
      }
    }

    ghost function OsdWork(): Work
      reads this
    {
      Work(failedOSDDevs, formatted, splits)
    }

    ghost function JournalWork(): Work
      reads this
    {
      Work(failedJNLDevs, formatted, splits)
    }

    method PrepareOSD(dev: string, ok: bool)
      modifies this`failedOSDDevs, this`formatted, this`splits
      ensures OneDone(old(OsdWork()), OsdWork(), dev, ok, 1)
    {
      hide SplitsEvenly, DevicePartitions;
      var ranges := PartitionDisk(1);
      splits := splits + [Split(dev, ranges.value)];
      SinglePartition(dev);
      formatted := formatted + [dev + "1"];
      if !ok {
        failedOSDDevs := failedOSDDevs + [dev];
      }
    }

    method PrepareOSDs(osdOk: seq<bool>)
      requires |osdOk| == |pendingOSDDevs|
      modifies this`failedOSDDevs, this`formatted, this`splits
      ensures AllDone(old(OsdWork()), OsdWork(), pendingOSDDevs, osdOk, 1)
    {
      hide AllDone, OneDone;
      var devs := pendingOSDDevs;
      NothingDone(OsdWork(), 1);
      for i := 0 to |devs|
        invariant AllDone(old(OsdWork()), OsdWork(), devs[..i], osdOk[..i], 1)
      {
        ghost var before := OsdWork();
        PrepareOSD(devs[i], osdOk[i]);
        OneMoreDone(old(OsdWork()), before, OsdWork(), devs, osdOk, i, 1);
      }
      assert devs[..|devs|] == devs && osdOk[..|osdOk|] == osdOk;
    }

    method PrepareJournal(dev: string, count: int, ok: bool) returns (crashed: bool)
      modifies this`failedJNLDevs, this`formatted, this`splits
      ensures crashed <==> count == 0
      ensures !crashed ==> OneDone(old(JournalWork()), JournalWork(), dev, ok, count)
    {
      hide SplitsEvenly, DevicePartitions;
      var ranges := PartitionDisk(count);
      if ranges == None {
        return true;
      }
      splits := splits + [Split(dev, ranges.value)];
      FormatPartitions(dev, count);
      if !ok {
        failedJNLDevs := failedJNLDevs + [dev];
      }
      crashed := false;
    }

    method PrepareJournals(jnlOk: seq<bool>) returns (crashed: bool)
      requires |jnlOk| == |pendingJNLDevs|
      modifies this`failedJNLDevs, this`formatted, this`splits
      ensures crashed <==> pendingJNLDevs != [] && jnlPartitionCount == 0
      ensures !crashed ==> AllDone(old(JournalWork()), JournalWork(), pendingJNLDevs, jnlOk, jnlPartitionCount)
    {
      hide AllDone, OneDone;
      var devs, count := pendingJNLDevs, jnlPartitionCount;
      NothingDone(JournalWork(), count);
      for i := 0 to |devs|
        invariant i > 0 ==> count != 0
        invariant AllDone(old(JournalWork()), JournalWork(), devs[..i], jnlOk[..i], count)
      {
        ghost var before := JournalWork();
        crashed := PrepareJournal(devs[i], count, jnlOk[i]);
        if crashed {
          return;
        }
        OneMoreDone(old(JournalWork()), before, JournalWork(), devs, jnlOk, i, count);
      }
      assert devs[..|devs|] == devs && jnlOk[..|jnlOk|] == jnlOk;
      crashed := false;
    }

    /** prepareReturnValue, with its two comma rules. */
    method PrepareReturnValue() returns (msg: string)
      ensures msg == DiskReadyText(myHostname, failedOSDDevs, failedJNLDevs)
    {
      msg := IntText(DISK_READY);
      var tmp := "";
      for i := 0 to |failedOSDDevs|
        invariant tmp == Terminated(failedOSDDevs[..i], ',')
      {
        TerminatedAppend(failedOSDDevs[..i], failedOSDDevs[i], ',');
        assert failedOSDDevs[..i] + [failedOSDDevs[i]] == failedOSDDevs[..i + 1];
        tmp := tmp + failedOSDDevs[i] + ",";
      }
      assert failedOSDDevs[..|failedOSDDevs|] == failedOSDDevs;
      tmp := AppendJournals(tmp);
      msg := msg + "." + (myHostname + ":" + (if "" == tmp then "-" else tmp));
    }

    method AppendJournals(text: string) returns (tmp: string)
      ensures tmp == text + if failedJNLDevs == [] then "" else Concatenated(failedJNLDevs) + ","
    {
      tmp := text;
      for i := 0 to |failedJNLDevs|
        invariant tmp == text + Concatenated(failedJNLDevs[..i]) + if 0 < i == |failedJNLDevs| then "," else ""
      {
        assert failedJNLDevs[..i + 1][..i] == failedJNLDevs[..i];
        if i == |failedJNLDevs| - 1 {
          tmp := tmp + failedJNLDevs[i] + ",";
        } else {
          tmp := tmp + failedJNLDevs[i];
        }
      }
      assert failedJNLDevs[..|failedJNLDevs|] == failedJNLDevs;
    }
  }

  lemma {:induction false} LaterValuesStay(labels: seq<Label>, i: nat, key: string)
    requires i < |labels| && labels[i].key == key
    ensures labels[i].value in ValuesOf(labels, key)
  {
    if i < |labels| - 1 {
      LaterValuesStay(labels[..|labels| - 1], i, key);
    }
  }

  // ---------------------------------------------------------------- what the scheduler pools

  lemma {:induction false} FailedOfMembers(devs: seq<string>, ok: seq<bool>)
    requires |ok| == |devs| && Distinct(devs)
    ensures forall i :: 0 <= i < |devs| ==> (devs[i] in FailedOf(devs, ok) <==> !ok[i])
    ensures forall d :: d in FailedOf(devs, ok) ==> d in devs
  {
    if devs != [] {
      var n := |devs| - 1;
      FailedOfMembers(devs[..n], ok[..n]);
      assert devs[n] !in devs[..n];
    }
  }

  lemma {:induction false} PartitionsByName(devs: seq<string>, ok: seq<bool>, failed: seq<string>, count: int)
    requires |ok| == |devs|
    requires forall i :: 0 <= i < |devs| ==> (devs[i] in failed <==> !ok[i])
    ensures Partitions(devs, failed, count) == GoodPartitions(devs, ok, count)
  {
    if devs != [] {
      var n := |devs| - 1;
      PartitionsByName(devs[..n], ok[..n], failed, count);
    }
  }

  /** If the scheduler were given the failed list the executor collected, it would pool exactly the partitions that
      the executor formatted on the devices whose check succeeded. */
  lemma PooledWouldBeGood(spec: HostSpec, osdOk: seq<bool>, jnlOk: seq<bool>)
    requires Distinct(spec.osddevs + spec.jnldevs)
    requires |osdOk| == |spec.osddevs| && |jnlOk| == |spec.jnldevs|
    ensures var failed := FailedOf(spec.osddevs, osdOk) + FailedOf(spec.jnldevs, jnlOk);
            var h := UpdateDiskPartition(NewHost(spec), failed, spec.jnlparts);
            && h.osdParts == GoodPartitions(spec.osddevs, osdOk, 1)
            && h.jnlParts == GoodPartitions(spec.jnldevs, jnlOk, spec.jnlparts)
  {
    var failed := FailedOf(spec.osddevs, osdOk) + FailedOf(spec.jnldevs, jnlOk);
    DistinctParts(spec);
    FailedOfMembers(spec.osddevs, osdOk);
    FailedOfMembers(spec.jnldevs, jnlOk);
    PartitionsByName(spec.osddevs, osdOk, failed, 1);
    PartitionsByName(spec.jnldevs, jnlOk, failed, spec.jnlparts);
  }

  lemma DistinctParts(spec: HostSpec)
    requires Distinct(spec.osddevs + spec.jnldevs)
    ensures Distinct(spec.osddevs) && Distinct(spec.jnldevs)
    ensures forall d :: d in spec.osddevs ==> d !in spec.jnldevs
  {
    var all := spec.osddevs + spec.jnldevs;
    assert forall i :: 0 <= i < |spec.osddevs| ==> all[i] == spec.osddevs[i];
    assert forall i :: 0 <= i < |spec.jnldevs| ==> all[|spec.osddevs| + i] == spec.jnldevs[i];
  }

  lemma {:induction false} GoodLength(devs: seq<string>, ok: seq<bool>, count: int)
    requires |ok| == |devs|
    ensures |GoodPartitions(devs, ok, count)| <= |Partitions(devs, [], count)|
    ensures |GoodPartitions(devs, ok, count)| == |Partitions(devs, [], count)| <==>
              count <= 0 || FailedOf(devs, ok) == []
  {
    if devs != [] {
      var n := |devs| - 1;
      GoodLength(devs[..n], ok[..n], count);
      assert |DevicePartitions(devs[n], count)| > 0 <==> count > 0;
    }
  }

  /** As the code stands, statusUpdate always passes an empty failed list. The pool then holds exactly the good
      partitions if and only if no OSD device failed, and no journal device either, unless it was to have no
      partitions at all. */
  lemma PooledAsWritten(spec: HostSpec, osdOk: seq<bool>, jnlOk: seq<bool>)
    requires Distinct(spec.osddevs + spec.jnldevs)
    requires |osdOk| == |spec.osddevs| && |jnlOk| == |spec.jnldevs|
    ensures var h := UpdateDiskPartition(NewHost(spec), [], spec.jnlparts);
            (&& h.osdParts == GoodPartitions(spec.osddevs, osdOk, 1)
             && h.jnlParts == GoodPartitions(spec.jnldevs, jnlOk, spec.jnlparts))
            <==> FailedOf(spec.osddevs, osdOk) == [] && (spec.jnlparts <= 0 || FailedOf(spec.jnldevs, jnlOk) == [])
  {
    DistinctParts(spec);
    PartitionsOfGood(spec.osddevs, osdOk, 1);
    PartitionsOfGood(spec.jnldevs, jnlOk, spec.jnlparts);
  }

  /** Partitioning all devices yields the good partitions exactly if none failed or there are none to yield. */
  lemma PartitionsOfGood(devs: seq<string>, ok: seq<bool>, count: int)
    requires |ok| == |devs| && Distinct(devs)
    ensures Partitions(devs, [], count) == GoodPartitions(devs, ok, count) <==> count <= 0 || FailedOf(devs, ok) == []
  {
    GoodLength(devs, ok, count);
    FailedOfMembers(devs, ok);
    if count <= 0 {
      NoPartitions(devs, [], count);
    } else if FailedOf(devs, ok) == [] {
      PartitionsByName(devs, ok, [], count);
    }
  }

  lemma {:induction false} NoPartitions(devs: seq<string>, failed: seq<string>, count: int)
    requires count <= 0
    ensures Partitions(devs, failed, count) == []
  {
    if devs != [] {
      NoPartitions(devs[..|devs| - 1], failed, count);
    }
  }

  /** The whole way of a disk preparation as it was meant: the executor reads the devices and the count the scheduler
      labelled, and the failed list it reports, once read back and used, would leave exactly the good partitions in the
      pool. At most one journal may have failed, and host and devices must be free of the marks of the report. */
  lemma PreparationEndToEnd(spec: HostSpec, hostname: string, osdOk: seq<bool>, jnlOk: seq<bool>)
    requires Distinct(spec.osddevs + spec.jnldevs) && IsInt32(spec.jnlparts)
    requires |osdOk| == |spec.osddevs| && |jnlOk| == |spec.jnldevs| && |FailedOf(spec.jnldevs, jnlOk)| <= 1
    requires Free(hostname, ".:") && AllFree(spec.osddevs, ".:,") && AllFree(spec.jnldevs, ".:,")
    ensures var labels := DiskLabels(spec.osddevs, spec.jnldevs, spec.jnlparts);
            var osd, jnl := ValuesOf(labels, OSD_DEVS_KEY), ValuesOf(labels, JNL_DEVS_KEY);
            && |osd| == |osdOk| && |jnl| == |jnlOk| && CountIn(labels) == Some(spec.jnlparts)
            && var news := ReadDiskNews(Some(DiskReadyText(hostname, FailedOf(osd, osdOk), FailedOf(jnl, jnlOk))));
               && news.Ready? && news.hostname == hostname
               && var h := UpdateDiskPartition(NewHost(spec), news.failed, spec.jnlparts);
                  && h.osdParts == GoodPartitions(spec.osddevs, osdOk, 1)
                  && h.jnlParts == GoodPartitions(spec.jnldevs, jnlOk, spec.jnlparts)
  {
    hide DiskLabels, ValuesOf, ReadDiskNews, DiskReadyText, UpdateDiskPartition, CountIn, Free, FailedOf;
    DiskLabelsRoundTrip(spec.osddevs, spec.jnldevs, spec.jnlparts);
    DistinctParts(spec);
    FailedAreFree(spec.osddevs, osdOk);
    FailedAreFree(spec.jnldevs, jnlOk);
    DiskReadyRoundTrip(hostname, FailedOf(spec.osddevs, osdOk), FailedOf(spec.jnldevs, jnlOk));
    PooledWouldBeGood(spec, osdOk, jnlOk);
  }

  lemma FailedAreFree(devs: seq<string>, ok: seq<bool>)
    requires |ok| == |devs| && Distinct(devs) && AllFree(devs, ".:,")
    ensures AllFree(FailedOf(devs, ok), ".:,")
  {
    FailedOfMembers(devs, ok);
  }
}
