/** What the hosts' disks mean for the tasks: which partitions an OSD gets, and which hosts never get a task. */
module DiskUse {
  import opened Text
  import opened Types
  import opened Wire
  import opened HostConfigs
  import opened DiskExecutors
  import opened StateMachines
  import opened Schedulers
  import opened Effects
  import opened CephExecutors
  import opened Protocol
  import opened Counters
  import opened Identity
  import opened Messages
  import opened Supply
  import opened Disks
  import opened Assignments
  import opened Invariants
  import opened Runs
  import opened Evolution
  import opened Safety
  import FlexUp

  type Hosts = map<string, Host>

  // ---------------------------------------------------------------- partitions in order

  /** The OSDs launched on a host. */
  function OsdsOn(infos: seq<TaskInfo>, hostname: string): nat {
    if infos == [] then 0
    else
      var last := infos[|infos| - 1];
      OsdsOn(infos[..|infos| - 1], hostname) + if last.hostname == hostname && last.taskType == OSD then 1 else 0
  }

  /** What is left of a list after `n` entries were taken from its end. */
  function Left(parts: seq<string>, n: nat): seq<string> {
    if n < |parts| then parts[..|parts| - n] else []
  }

  /** The entry that is taken after `n` others. */
  function Nth(parts: seq<string>, n: nat): string {
    if n < |parts| then parts[|parts| - 1 - n] else ""
  }

  lemma LeftPops(parts: seq<string>, n: nat)
    ensures Top(Left(parts, n)) == Nth(parts, n) && Popped(Left(parts, n)) == Left(parts, n + 1)
  {
  }

  function DataParts(spec: HostSpec): seq<string> {
    Partitions(spec.osddevs, [], 1)
  }

  function JournalParts(spec: HostSpec): seq<string> {
    Partitions(spec.jnldevs, [], spec.jnlparts)
  }

  /** A host that has launched `n` OSDs: raw and unused, or with the pool that `n` OSDs leave. */
  predicate Serves(h: Host, n: nat) {
    if HasPending(h)
    then h.pendingOsd == h.original.osddevs && h.pendingJnl == h.original.jnldevs && h.osdParts == h.jnlParts == []
         && n == 0
    else h.osdParts == Left(DataParts(h.original), n) && h.jnlParts == Left(JournalParts(h.original), n)
  }

  /** Task number `n` has the partitions that the OSDs launched before it on its host left on top. */
  predicate InOrder(hosts: Hosts, infos: seq<TaskInfo>, n: nat)
    requires n < |infos|
  {
    var info := infos[n];
    && info.hostname in hosts
    && var spec, before := hosts[info.hostname].original, OsdsOn(infos[..n], info.hostname);
       if info.taskType == OSD
       then info.osdDisk == Nth(DataParts(spec), before) && info.jnlDisk == Nth(JournalParts(spec), before)
       else info.osdDisk == info.jnlDisk == ""
  }

  ghost predicate HostServes(hosts: Hosts, infos: seq<TaskInfo>, h: string) {
    if h in hosts then Serves(hosts[h], OsdsOn(infos, h)) else OsdsOn(infos, h) == 0
  }

  ghost predicate Orderly(hosts: Hosts, infos: seq<TaskInfo>) {
    && (forall h :: HostServes(hosts, infos, h))
    && (forall n :: 0 <= n < |infos| ==> InOrder(hosts, infos, n))
  }

  /** Hosts stay, with their devices; what has no raw device stays so; a host that prepares its disks stays as it is. */
  ghost predicate HostsKept(hosts: Hosts, hosts': Hosts) {
    forall x :: x in hosts ==>
      && x in hosts' && hosts'[x].original == hosts[x].original
      && (!HasPending(hosts[x]) ==> !HasPending(hosts'[x]))
      && (hosts[x].preparing ==> hosts'[x] == hosts[x])
  }

  /** The entries change, and no task is launched. */
  lemma ChangedHosts(hosts: Hosts, hosts': Hosts, infos: seq<TaskInfo>)
    requires Orderly(hosts, infos)
    requires forall x :: x in hosts ==> x in hosts' && hosts'[x].original == hosts[x].original
    requires forall x :: HostServes(hosts, infos, x) ==> HostServes(hosts', infos, x)
    ensures Orderly(hosts', infos)
  {
    hide HostServes, Serves, DataParts, JournalParts;
    forall n | 0 <= n < |infos| ensures InOrder(hosts', infos, n) {
      assert InOrder(hosts, infos, n);
    }
  }

  lemma NewServes(spec: HostSpec)
    ensures Serves(NewHost(spec), 0)
  {
  }

  lemma PreparedServes(s: Sched, o: Offer, infos: seq<TaskInfo>, x: string)
    requires HostServes(s.hosts, infos, x)
    ensures HostServes(Prepared(s, o).hosts, infos, x)
  {
    hide DiskLabels, OsdsOn, DataParts, JournalParts;
    NewServes(o.spec);
  }

  lemma PreparedEntries(s: Sched, o: Offer)
    ensures var s1 := Prepared(s, o);
            && HostsKept(s.hosts, s1.hosts) && o.hostname in s1.hosts
            && (o.enough && !s1.hosts[o.hostname].preparing ==> !HasPending(s1.hosts[o.hostname]))
  {
    hide DiskLabels;
  }

  /** Before any task is decided on: the host is there, and if it has the resources, it is preparing or has no raw
      device. */
  lemma PreparedInOrder(s: Sched, o: Offer)
    requires Orderly(s.hosts, Launches(s.calls))
    ensures var s1 := Prepared(s, o);
            && Orderly(s1.hosts, Launches(s.calls)) && Launches(s1.calls) == Launches(s.calls)
            && HostsKept(s.hosts, s1.hosts) && o.hostname in s1.hosts
            && (o.enough && !s1.hosts[o.hostname].preparing ==> !HasPending(s1.hosts[o.hostname]))
  {
    hide Launches, Prepared, HostServes, HasPending, InOrder;
    PreparedKeeps(s, o);
    PreparedEntries(s, o);
    var hosts' := Prepared(s, o).hosts;
    forall x | HostServes(s.hosts, Launches(s.calls), x) ensures HostServes(hosts', Launches(s.calls), x) {
      PreparedServes(s, o, Launches(s.calls), x);
    }
    ChangedHosts(s.hosts, hosts', Launches(s.calls));
  }

  /** A task is launched on a host without raw devices. */
  lemma LaunchInOrder(hosts: Hosts, infos: seq<TaskInfo>, info: TaskInfo)
    requires Orderly(hosts, infos) && info.hostname in hosts && !HasPending(hosts[info.hostname])
    requires var h := hosts[info.hostname];
             && info.osdDisk == (if info.taskType == OSD then Top(h.osdParts) else "")
             && info.jnlDisk == (if info.taskType == OSD then Top(h.jnlParts) else "")
    ensures Orderly(hosts[info.hostname := Served(hosts[info.hostname], info.taskType)], infos + [info])
  {
    hide Partitions;
    var hosts', infos' := hosts[info.hostname := Served(hosts[info.hostname], info.taskType)], infos + [info];
    var h, n := hosts[info.hostname], OsdsOn(infos, info.hostname);
    assert infos'[..|infos|] == infos;
    assert HostServes(hosts, infos, info.hostname);
    LeftPops(DataParts(h.original), n);
    LeftPops(JournalParts(h.original), n);
    forall x ensures HostServes(hosts', infos', x) {
      assert HostServes(hosts, infos, x);
    }
    forall j | 0 <= j < |infos'| ensures InOrder(hosts', infos', j) {
      if j < |infos| {
        assert InOrder(hosts, infos, j) && infos'[..j] == infos[..j];
      }
    }
  }

  lemma LaunchedHosts(s: Sched, o: Offer, t: TaskType, token: int, initial: bool, ch: Choice)
    requires Orderly(s.hosts, Launches(s.calls)) && o.hostname in s.hosts && !HasPending(s.hosts[o.hostname])
    requires !s.hosts[o.hostname].preparing
    ensures var s' := Launched(s, o, t, token, initial, ch);
            Orderly(s'.hosts, Launches(s'.calls)) && HostsKept(s.hosts, s'.hosts)
  {
    hide Orderly, Launches, Sends, FlexLaunches, TaskIdText, ExecutorIdText, AddStagingTask;
    LaunchedEffect(s, o, t, token, initial, ch);
    LaunchInOrder(s.hosts, Launches(s.calls), InfoFor(s.hosts[o.hostname], o, t, token, initial, ch));
  }

  lemma ProceedInOrder(s: Sched, o: Offer, t: TaskType, token: int, phase: Phase, initial: bool, ch: Choice)
    requires Orderly(s.hosts, Launches(s.calls)) && o.hostname in s.hosts && !s.hosts[o.hostname].preparing
    requires o.enough ==> !HasPending(s.hosts[o.hostname])
    ensures var s' := Proceed(s, o, t, token, phase, initial, ch).s;
            Orderly(s'.hosts, Launches(s'.calls)) && HostsKept(s.hosts, s'.hosts)
  {
    hide Orderly, Launches, Launched, HasPending;
    LogKept(s.calls, DeclineOffer(o.id, None));
    if o.enough && !(phase == WAITING_REQUEST && s.requests == []) {
      var s1 := if phase == WAITING_REQUEST then s.(requests := FlexUp.AfterTake(s.requests)) else s;
      LaunchedHosts(s1, o, t, token, initial || (t == MON && token == 0), ch);
    }
  }

  lemma LogKept(calls: seq<Call>, call: Call)
    requires !call.LaunchTask?
    ensures Launches(calls + [call]) == Launches(calls)
  {
    LogAppend(calls, call);
  }

  lemma KeptThrough(a: Hosts, b: Hosts, c: Hosts)
    requires HostsKept(a, b) && HostsKept(b, c)
    ensures HostsKept(a, c)
  {
    hide HasPending;
  }

  lemma RoundInOrder(p: Progress, o: Offer, phase: Phase, ch: Choice)
    requires Orderly(p.s.hosts, Launches(p.s.calls))
    ensures var s' := OfferStep(p, o, phase, ch).s;
            Orderly(s'.hosts, Launches(s'.calls)) && HostsKept(p.s.hosts, s'.hosts)
  {
    hide Orderly, Launches, Proceed, Prepared, HasPending;
    if !o.hasRole {
      LogKept(p.s.calls, DeclineOffer(o.id, Some(86400)));
    } else {
      PreparedInOrder(p.s, o);
      var s1 := Prepared(p.s, o);
      var m := NextMove(s1.c, HostOf(s1, o.hostname).preparing);
      var s2 := s1.(c := AfterMove(s1.c, m));
      LogKept(s2.calls, DeclineOffer(o.id, None));
      if m.Go? {
        ProceedInOrder(s2, o, m.taskType, m.token, phase, p.initial, ch);
        KeptThrough(p.s.hosts, s1.hosts, OfferStep(p, o, phase, ch).s.hosts);
      }
    }
  }

  lemma {:induction false} RoundsInOrder(p: Progress, offers: seq<Offer>, choices: seq<Choice>, phase: Phase)
    requires |choices| == |offers| && Orderly(p.s.hosts, Launches(p.s.calls))
    ensures var s' := OfferSteps(p, offers, choices, phase).s;
            Orderly(s'.hosts, Launches(s'.calls)) && HostsKept(p.s.hosts, s'.hosts)
  {
    hide Orderly, Launches, OfferStep, HasPending;
    if offers != [] {
      var n := |offers| - 1;
      RoundsInOrder(p, offers[..n], choices[..n], phase);
      var p1 := OfferSteps(p, offers[..n], choices[..n], phase);
      RoundInOrder(p1, offers[n], phase, choices[n]);
      KeptThrough(p.s.hosts, p1.s.hosts, OfferSteps(p, offers, choices, phase).s.hosts);
    }
  }

  lemma OffersInOrder(w: World, e: Event)
    requires e.Offers? && Enabled(w, e) && Orderly(w.sched.hosts, LaunchesOf(w))
    ensures Orderly(Apply(w, e).sched.hosts, LaunchesOf(Apply(w, e)))
    ensures HostsKept(w.sched.hosts, Apply(w, e).sched.hosts)
  {
    hide Orderly, Launches, HandleWaiting, OfferSteps, ChoicesFit, HasPending;
    HandleWaitingKeeps(w.sched, e.waiting);
    var s1 := HandleWaiting(w.sched, e.waiting);
    RoundsInOrder(Progress(s1, false), e.offers, e.choices, s1.c.phase);
  }

  /** The host that a DISK_READY report names. */
  predicate Names(e: Event, hostname: string) {
    e.DiskReport? && ReadDiskNews(e.message).Ready? && ReadDiskNews(e.message).hostname == hostname
  }

  /** A disk report opens the pool of the host it names, if that is raw, and leaves the others alone. */
  lemma ReportOnHosts(w: World, message: Option<string>)
    requires Enabled(w, DiskReport(message))
    ensures var hosts, hosts' := w.sched.hosts, Apply(w, DiskReport(message)).sched.hosts;
            && hosts'.Keys == hosts.Keys
            && forall x :: x in hosts ==>
                 hosts'[x] == if Names(DiskReport(message), x)
                              then UpdateDiskPartition(hosts[x], [], hosts[x].original.jnlparts)
                                   .(preparing := false, done := true)
                              else hosts[x]
  {
    hide ReadDiskNews, UpdateDiskPartition;
  }

  lemma OpenedServes(h: Host, n: nat)
    requires Serves(h, n)
    ensures Serves(UpdateDiskPartition(h, [], h.original.jnlparts).(preparing := false, done := true), n)
  {
    var h' := UpdateDiskPartition(h, [], h.original.jnlparts).(preparing := false, done := true);
    if HasPending(h) {
      assert h'.osdParts == DataParts(h.original) && h'.jnlParts == JournalParts(h.original);
    } else {
      assert h'.osdParts == h.osdParts && h'.jnlParts == h.jnlParts;
    }
  }

  lemma ReportInOrder(w: World, message: Option<string>)
    requires Enabled(w, DiskReport(message)) && Orderly(w.sched.hosts, LaunchesOf(w))
    ensures Orderly(Apply(w, DiskReport(message)).sched.hosts, LaunchesOf(w))
  {
    hide Launches, OsdsOn, Serves, Enabled, Apply, UpdateDiskPartition;
    ReportOnHosts(w, message);
    var hosts, hosts' := w.sched.hosts, Apply(w, DiskReport(message)).sched.hosts;
    forall x | HostServes(hosts, LaunchesOf(w), x) ensures HostServes(hosts', LaunchesOf(w), x) {
      if x in hosts {
        OpenedServes(hosts[x], OsdsOn(LaunchesOf(w), x));
      }
    }
    forall x | x in hosts ensures hosts'[x].original == hosts[x].original {
      OpenedKeepsDevices(hosts[x]);
    }
    ChangedHosts(hosts, hosts', LaunchesOf(w));
  }

  lemma OpenedKeepsDevices(h: Host)
    ensures UpdateDiskPartition(h, [], h.original.jnlparts).original == h.original
  {
  }

  /** No other event touches the hosts. */
  lemma OthersLeaveHosts(w: World, e: Event)
    requires Inv(w) && Enabled(w, e) && !e.Offers? && !e.DiskReport?
    ensures Apply(w, e).sched.hosts == w.sched.hosts && Apply(w, e).sched.calls == w.sched.calls
  {
    hide Inv, ResourceOffers, StatusUpdate, FrameworkMessage, OnLaunch, OnMessage, IntText, Launches, MayBeInitialMon,
         InFlightTo;
    match e {
      case Deliver(k) =>
        DeliveredIsNoFinish(w, k);
        UpdateLeavesHosts(w.sched, k, ReportsOf(w.reports, k)[0]);
      case OtherReport(k) => UpdateLeavesHosts(w.sched, k, Other);
      case IdArrives(reply, mon) => ReplyLeavesHosts(w.sched, reply.executorId, IntText(reply.osdId), mon);
      case _ =>
    }
  }

  lemma UpdateLeavesHosts(s: Sched, k: string, u: Update)
    requires !u.Finished?
    ensures StatusUpdate(s, k, u).hosts == s.hosts && StatusUpdate(s, k, u).calls == s.calls
  {
    hide SetStatus, SetStatusAndMove;
  }

  lemma ReplyLeavesHosts(s: Sched, executorId: string, data: string, mon: TaskState)
    ensures var s' := FrameworkMessage(s, executorId, data, mon);
            s'.hosts == s.hosts && s'.calls == s.calls
  {
    hide ParseInt;
  }

  lemma DeliveredIsNoFinish(w: World, k: string)
    requires Inv(w) && Enabled(w, Deliver(k))
    ensures !ReportsOf(w.reports, k)[0].Finished?
  {
    hide SchedulerSound, Directed, Supplied, IdsConserved;
    assert LinkedTask(TasksOf(w), w.execs, w.reports, k);
  }

  lemma StepInOrder(w: World, e: Event)
    requires Inv(w) && Enabled(w, e) && Orderly(w.sched.hosts, LaunchesOf(w))
    ensures Orderly(Apply(w, e).sched.hosts, LaunchesOf(Apply(w, e)))
  {
    hide Inv, Orderly, Launches, Enabled, Apply;
    match e {
      case Offers(_, _, _) => OffersInOrder(w, e);
      case DiskReport(message) =>
        ReportInOrder(w, message);
        OthersLeaveCluster(w, e);
      case _ => OthersLeaveHosts(w, e);
    }
  }

  lemma {:induction false} RunsAreOrderly(ws: seq<World>, es: seq<Event>, i: nat)
    requires IsRun(ws, es) && i < |ws|
    ensures Orderly(ws[i].sched.hosts, LaunchesOf(ws[i]))
  {
    hide Inv, Orderly, Launches, Enabled, Apply, Initial;
    if i == 0 {
      InitialIsOrderly(ws[0]);
    } else {
      RunsAreOrderly(ws, es, i - 1);
      RunsAreSound(ws, es, i - 1);
      assert Enabled(ws[i - 1], es[i - 1]) && ws[i - 1 + 1] == Apply(ws[i - 1], es[i - 1]);
      StepInOrder(ws[i - 1], es[i - 1]);
    }
  }

  lemma InitialIsOrderly(w: World)
    requires Initial(w)
    ensures Orderly(w.sched.hosts, LaunchesOf(w))
  {
  }

  /** The OSDs of a host get its partitions one by one, in the reverse order of its devices, and nothing when none is
      left; other tasks get none. */
  lemma PartitionsInOrder(ws: seq<World>, es: seq<Event>, i: nat, n: nat)
    requires IsRun(ws, es) && i < |ws| && n < |LaunchesOf(ws[i])|
    ensures InOrder(ws[i].sched.hosts, LaunchesOf(ws[i]), n)
  {
    hide IsRun, Launches, InOrder, HostServes;
    RunsAreOrderly(ws, es, i);
  }

  lemma {:induction false} PartitionCount(devs: seq<string>, count: int)
    ensures |Partitions(devs, [], count)| == |devs| * (if count < 0 then 0 else count)
  {
    if devs != [] {
      var c := if count < 0 then 0 else count;
      PartitionCount(devs[..|devs| - 1], count);
      DeviceCount(devs[|devs| - 1], count);
      assert |devs| * c == (|devs| - 1) * c + c;
    }
  }

  lemma {:induction false} DeviceCount(dev: string, count: int)
    ensures |DevicePartitions(dev, count)| == if count < 0 then 0 else count
    decreases if count < 0 then 0 else count
  {
    if count >= 1 {
      DeviceCount(dev, count - 1);
    }
  }

  lemma NthIsEmptyIff(devs: seq<string>, count: int, n: nat)
    ensures Nth(Partitions(devs, [], count), n) == "" <==> n >= |devs| * (if count < 0 then 0 else count)
  {
    PartitionCount(devs, count);
    NamesNonEmpty(devs, count);
  }

  lemma {:induction false} DevicePartitionAt(dev: string, count: int, j: nat)
    requires j < count
    ensures |DevicePartitions(dev, count)| == count && DevicePartitions(dev, count)[j] == dev + IntText(j + 1)
  {
    DeviceCount(dev, count);
    DeviceCount(dev, count - 1);
    if j < count - 1 {
      DevicePartitionAt(dev, count - 1, j);
    }
  }

  /** Partition `j` of device `d` stands at position `d * count + j`. */
  lemma {:induction false} PartitionAt(devs: seq<string>, count: nat, d: nat, j: nat)
    requires d < |devs| && j < count
    ensures d * count + j < |devs| * count == |Partitions(devs, [], count)|
    ensures Partitions(devs, [], count)[d * count + j] == devs[d] + IntText(j + 1)
  {
    hide IntText, Partitions, DevicePartitions;
    var n := |devs| - 1;
    PartitionCount(devs, count);
    PartitionCount(devs[..n], count);
    LastDevice(devs, count);
    Below(d, |devs|, count, j);
    if d < n {
      PartitionAt(devs[..n], count, d, j);
    } else {
      DevicePartitionAt(devs[n], count, j);
    }
  }

  lemma LastDevice(devs: seq<string>, count: int)
    requires devs != []
    ensures var n := |devs| - 1;
            Partitions(devs, [], count) == Partitions(devs[..n], [], count) + DevicePartitions(devs[n], count)
  {
  }

  lemma Below(d: nat, n: nat, count: nat, j: nat)
    requires d < n && j < count
    ensures d * count + j < n * count
  {
    assert (d + 1) * count <= n * count;
  }

  /** On a host with `count` partitions per journal, the OSD with `before` others before it gets the first partition of
      the last device not yet used, and the last journal partition not yet used: of the last journal that has one left,
      the one with the highest number. */
  lemma OsdsGetTheirNames(ws: seq<World>, es: seq<Event>, i: nat, n: nat, d: nat, j: nat)
    requires IsRun(ws, es) && i < |ws| && n < |LaunchesOf(ws[i])| && LaunchesOf(ws[i])[n].taskType == OSD
    ensures LaunchesOf(ws[i])[n].hostname in ws[i].sched.hosts
    ensures var info := LaunchesOf(ws[i])[n];
            var before := OsdsOn(LaunchesOf(ws[i])[..n], info.hostname);
            var spec := ws[i].sched.hosts[info.hostname].original;
            && (before < |spec.osddevs| ==> info.osdDisk == spec.osddevs[|spec.osddevs| - 1 - before] + "1")
            && (d < |spec.jnldevs| && j < spec.jnlparts
                && before + d * spec.jnlparts + j == |spec.jnldevs| * spec.jnlparts - 1
                ==> info.jnlDisk == spec.jnldevs[d] + IntText(j + 1))
  {
    hide IsRun, Launches, OsdsOn, Partitions, IntText;
    PartitionsInOrder(ws, es, i, n);
    var info := LaunchesOf(ws[i])[n];
    var before, spec := OsdsOn(LaunchesOf(ws[i])[..n], info.hostname), ws[i].sched.hosts[info.hostname].original;
    if before < |spec.osddevs| {
      PartitionAt(spec.osddevs, 1, |spec.osddevs| - 1 - before, 0);
      assert IntText(1) == "1" by { OneText(); }
    }
    if d < |spec.jnldevs| && j < spec.jnlparts && before + d * spec.jnlparts + j == |spec.jnldevs| * spec.jnlparts - 1 {
      PartitionAt(spec.jnldevs, spec.jnlparts, d, j);
    }
  }

  lemma OneText()
    ensures IntText(1) == "1"
  {
  }

  /** An OSD runs without a data disk of its own if and only if at least as many OSDs were launched on its host before
      it as the host has data devices; and without a journal partition likewise. */
  lemma DisklessExactlyWhen(ws: seq<World>, es: seq<Event>, i: nat, n: nat)
    requires IsRun(ws, es) && i < |ws| && n < |LaunchesOf(ws[i])| && LaunchesOf(ws[i])[n].taskType == OSD
    ensures var info := LaunchesOf(ws[i])[n];
            var before := OsdsOn(LaunchesOf(ws[i])[..n], info.hostname);
            && info.hostname in ws[i].sched.hosts
            && var spec := ws[i].sched.hosts[info.hostname].original;
               && (info.osdDisk == "" <==> before >= |spec.osddevs|)
               && (info.jnlDisk == "" <==> before >= |spec.jnldevs| * (if spec.jnlparts < 0 then 0 else spec.jnlparts))
  {
    hide IsRun, Launches, OsdsOn, Nth, Partitions;
    PartitionsInOrder(ws, es, i, n);
    var info := LaunchesOf(ws[i])[n];
    var before, spec := OsdsOn(LaunchesOf(ws[i])[..n], info.hostname), ws[i].sched.hosts[info.hostname].original;
    NthIsEmptyIff(spec.osddevs, 1, before);
    NthIsEmptyIff(spec.jnldevs, spec.jnlparts, before);
  }

  // ---------------------------------------------------------------- hosts that stay in preparation

  predicate Preparing(w: World, hostname: string) {
    hostname in w.sched.hosts && w.sched.hosts[hostname].preparing
  }

  /** A host whose devices, if it has any, are all partitioned. */
  predicate Open(w: World, hostname: string) {
    hostname in w.sched.hosts && !HasPending(w.sched.hosts[hostname])
  }

  lemma OpenIsNotPreparing(w: World, hostname: string)
    requires Inv(w) && Open(w, hostname)
    ensures !Preparing(w, hostname)
  {
    hide ExchangeSound, Counted, Logged, UsageOf;
    assert HostSound(w.sched.hosts, w.sched.calls, hostname);
  }

  /** What one event does to a host that is preparing its disks or open. */
  lemma PreparationStep(w: World, e: Event, hostname: string)
    requires Inv(w) && Enabled(w, e) && Orderly(w.sched.hosts, LaunchesOf(w))
    ensures Open(w, hostname) ==> Open(Apply(w, e), hostname)
    ensures Preparing(w, hostname) && Names(e, hostname) ==> Open(Apply(w, e), hostname)
    ensures Preparing(w, hostname) && !Names(e, hostname) ==> Preparing(Apply(w, e), hostname)
  {
    hide Inv, Orderly, Launches, Enabled, Apply, Names;
    match e {
      case Offers(_, _, _) =>
        OffersInOrder(w, e);
        assert !Names(e, hostname) by { NoReport(e, hostname); }
      case DiskReport(message) => ReportOnHosts(w, message);
      case _ =>
        OthersLeaveHosts(w, e);
        assert !Names(e, hostname) by { NoReport(e, hostname); }
    }
  }

  lemma NoReport(e: Event, hostname: string)
    requires !e.DiskReport?
    ensures !Names(e, hostname)
  {
  }

  /** One of the first `i` events is a report that names the host. */
  predicate NamedBefore(es: seq<Event>, i: nat, hostname: string)
    requires i <= |es|
  {
    exists j :: 0 <= j < i && Names(es[j], hostname)
  }

  /** A host that prepares its disks goes on doing so until a report names it, and is open from then on. */
  lemma {:induction false} PreparingOrOpen(ws: seq<World>, es: seq<Event>, s: nat, i: nat, hostname: string)
    requires IsRun(ws, es) && s <= i < |ws| && Preparing(ws[s], hostname)
    ensures if NamedBefore(es[s..], i - s, hostname) then Open(ws[i], hostname) else Preparing(ws[i], hostname)
  {
    hide Inv, Orderly, Launches, Enabled, Apply, Initial, Names, Open, Preparing;
    if i > s {
      PreparingOrOpen(ws, es, s, i - 1, hostname);
      RunsAreSound(ws, es, i - 1);
      RunsAreOrderly(ws, es, i - 1);
      assert Enabled(ws[i - 1], es[i - 1]) && ws[i - 1 + 1] == Apply(ws[i - 1], es[i - 1]);
      PreparationStep(ws[i - 1], es[i - 1], hostname);
      assert es[s..][i - 1 - s] == es[i - 1];
    }
  }

  /** A host that prepares its disks is still at it if and only if no report has named it since, and has not been given
      a single Ceph task until then. */
  lemma PreparesUntilNamed(ws: seq<World>, es: seq<Event>, s: nat, i: nat, hostname: string)
    requires IsRun(ws, es) && s <= i < |ws| && Preparing(ws[s], hostname)
    ensures Preparing(ws[i], hostname) <==> !NamedBefore(es[s..], i - s, hostname)
    ensures Preparing(ws[i], hostname) ==>
              forall n :: 0 <= n < |LaunchesOf(ws[i])| ==> LaunchesOf(ws[i])[n].hostname != hostname
  {
    hide IsRun, Inv, Launches, Names, Preparing, Open, NamedBefore;
    RunsAreSound(ws, es, i);
    PreparingOrOpen(ws, es, s, i, hostname);
    if Open(ws[i], hostname) {
      OpenIsNotPreparing(ws[i], hostname);
    } else {
      PreparingIsUnused(ws[i], hostname);
    }
  }

  /** The tasks launched on a host. */
  function TasksOn(infos: seq<TaskInfo>, hostname: string): nat {
    if infos == [] then 0
    else TasksOn(infos[..|infos| - 1], hostname) + if infos[|infos| - 1].hostname == hostname then 1 else 0
  }

  lemma {:induction false} UsageCountsTasks(calls: seq<Call>, hostname: string)
    ensures UsageOf(calls, hostname).tasks == TasksOn(Launches(calls), hostname)
  {
    if calls != [] {
      var rest, last := calls[..|calls| - 1], calls[|calls| - 1];
      UsageCountsTasks(rest, hostname);
      if last.LaunchTask? {
        assert (Launches(rest) + [last.info])[..|Launches(rest)|] == Launches(rest);
      }
    }
  }

  lemma {:induction false} NoneOn(infos: seq<TaskInfo>, hostname: string, n: nat)
    requires TasksOn(infos, hostname) == 0 && n < |infos|
    ensures infos[n].hostname != hostname
  {
    if n < |infos| - 1 {
      NoneOn(infos[..|infos| - 1], hostname, n);
    }
  }

  lemma PreparingIsUnused(w: World, hostname: string)
    requires Inv(w) && Preparing(w, hostname)
    ensures forall n :: 0 <= n < |LaunchesOf(w)| ==> LaunchesOf(w)[n].hostname != hostname
  {
    hide ExchangeSound, Counted, Logged, UsageOf, Launches, TasksOn;
    assert HostSound(w.sched.hosts, w.sched.calls, hostname);
    UsageCountsTasks(w.sched.calls, hostname);
    forall n | 0 <= n < |LaunchesOf(w)| ensures LaunchesOf(w)[n].hostname != hostname {
      NoneOn(LaunchesOf(w), hostname, n);
    }
  }
}
