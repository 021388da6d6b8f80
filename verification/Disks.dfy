/** The disks over whole runs: one preparation per host, no task before it is over, no partition handed out twice. */
module Disks {
  import opened Text
  import opened Types
  import opened Wire
  import opened HostConfigs
  import opened DiskExecutors
  import opened StateMachines
  import opened Schedulers
  import opened Effects
  import FlexUp

  /** What the log has taken from a host: partitions handed out, Ceph tasks and disk tasks launched. */
  datatype Usage = Usage(osd: seq<string>, jnl: seq<string>, tasks: nat, disks: nat)

  function NonEmpty(name: string): seq<string> {
    if name == "" then [] else [name]
  }

  function Use(u: Usage, call: Call, h: string): Usage {
    match call
    case LaunchTask(_, info, _) =>
      if info.hostname == h
      then Usage(u.osd + NonEmpty(info.osdDisk), u.jnl + NonEmpty(info.jnlDisk), u.tasks + 1, u.disks)
      else u
    case LaunchDisk(_, hostname, _) => if hostname == h then u.(disks := u.disks + 1) else u
    case _ => u
  }

  function UsageOf(calls: seq<Call>, h: string): Usage {
    if calls == [] then Usage([], [], 0, 0)
    else Use(UsageOf(calls[..|calls| - 1], h), calls[|calls| - 1], h)
  }

  lemma UsageAppend(calls: seq<Call>, call: Call, h: string)
    ensures UsageOf(calls + [call], h) == Use(UsageOf(calls, h), call, h)
  {
    assert (calls + [call])[..|calls + [call]| - 1] == calls;
  }

  /** All partitions the devices of a host yield are in the pool or were handed out. */
  predicate PoolBalanced(h: Host, u: Usage) {
    && multiset(h.osdParts) + multiset(u.osd) == multiset(Partitions(h.original.osddevs, [], 1))
    && multiset(h.jnlParts) + multiset(u.jnl) == multiset(Partitions(h.original.jnldevs, [], h.original.jnlparts))
  }

  /** A host is either still raw and unused, or its devices are all partitioned and accounted for. */
  predicate HostOk(h: Host, u: Usage) {
    && (|| (h.pendingOsd == h.original.osddevs && h.pendingJnl == h.original.jnldevs && h.osdParts == h.jnlParts == []
            && u.osd == u.jnl == [])
        || (!HasPending(h) && PoolBalanced(h, u)))
    && (h.preparing ==> HasPending(h))
    && (HasPending(h) ==> u.tasks == 0)
    && u.disks <= 1
    && (HasPending(h) && !h.preparing ==> u.disks == 0)
  }

  ghost predicate HostSound(hosts: map<string, Host>, calls: seq<Call>, h: string) {
    if h in hosts then HostOk(hosts[h], UsageOf(calls, h)) else UsageOf(calls, h) == Usage([], [], 0, 0)
  }

  ghost predicate DisksSound(hosts: map<string, Host>, calls: seq<Call>) {
    forall h :: HostSound(hosts, calls, h)
  }

  // ---------------------------------------------------------------- single hosts

  lemma NewHostOk(spec: HostSpec)
    ensures HostOk(NewHost(spec), Usage([], [], 0, 0))
  {
  }

  lemma PreparationOk(h: Host, u: Usage)
    requires HostOk(h, u) && !h.preparing && HasPending(h)
    ensures HostOk(h.(preparing := true, done := false), u.(disks := u.disks + 1))
  {
  }

  /** A host without pending devices balances even if it was never prepared. */
  lemma UnpreparedBalances(h: Host, u: Usage)
    requires HostOk(h, u) && !HasPending(h)
    ensures PoolBalanced(h, u)
  {
    if h.osdParts == h.jnlParts == [] && u.osd == u.jnl == [] && h.original.osddevs == [] && h.original.jnldevs == [] {
      assert Partitions([], [], 1) == [] && Partitions([], [], h.original.jnlparts) == [];
    }
  }

  /** A DISK_READY report, expected or not, for the first time or again, leaves the host sound. */
  lemma ReadyOk(h: Host, u: Usage)
    requires HostOk(h, u)
    ensures HostOk(UpdateDiskPartition(h, [], h.original.jnlparts).(preparing := false, done := true), u)
  {
    var h' := UpdateDiskPartition(h, [], h.original.jnlparts).(preparing := false, done := true);
    if HasPending(h) {
      assert h'.osdParts == Partitions(h.original.osddevs, [], 1);
      assert h'.jnlParts == Partitions(h.original.jnldevs, [], h.original.jnlparts);
    } else {
      UnpreparedBalances(h, u);
      assert h'.osdParts == h.osdParts && h'.jnlParts == h.jnlParts;
    }
  }

  lemma PopSplits(pool: seq<string>)
    requires "" !in pool
    ensures multiset(Popped(pool)) + multiset(NonEmpty(Top(pool))) == multiset(pool)
  {
    if pool != [] {
      assert pool == pool[..|pool| - 1] + [pool[|pool| - 1]];
    }
  }

  lemma {:induction false} NamesNonEmpty(devs: seq<string>, count: int)
    ensures "" !in Partitions(devs, [], count)
  {
    if devs != [] {
      NamesNonEmpty(devs[..|devs| - 1], count);
      DeviceNamesNonEmpty(devs[|devs| - 1], count);
    }
  }

  lemma {:induction false} DeviceNamesNonEmpty(dev: string, count: int)
    ensures "" !in DevicePartitions(dev, count)
    decreases if count < 0 then 0 else count
  {
    if count >= 1 {
      DeviceNamesNonEmpty(dev, count - 1);
    }
  }

  lemma PoolNamesNonEmpty(h: Host, u: Usage)
    requires PoolBalanced(h, u)
    ensures "" !in h.osdParts && "" !in h.jnlParts
  {
    NamesNonEmpty(h.original.osddevs, 1);
    NamesNonEmpty(h.original.jnldevs, h.original.jnlparts);
    assert "" in h.osdParts ==> "" in multiset(Partitions(h.original.osddevs, [], 1));
    assert "" in h.jnlParts ==> "" in multiset(Partitions(h.original.jnldevs, [], h.original.jnlparts));
  }

  /** Serving a task moves the names it gets from the pool to the log. */
  lemma ServedOk(h: Host, u: Usage, t: TaskType)
    requires HostOk(h, u) && !HasPending(h)
    ensures var osd := if t == OSD then Top(h.osdParts) else "";
            var jnl := if t == OSD then Top(h.jnlParts) else "";
            HostOk(Served(h, t), Usage(u.osd + NonEmpty(osd), u.jnl + NonEmpty(jnl), u.tasks + 1, u.disks))
  {
    hide Partitions, DevicePartitions;
    UnpreparedBalances(h, u);
    if t == OSD {
      PoolNamesNonEmpty(h, u);
      PopSplits(h.osdParts);
      PopSplits(h.jnlParts);
    } else {
      assert u.osd + [] == u.osd && u.jnl + [] == u.jnl;
    }
  }

  // ---------------------------------------------------------------- rounds of the offer loop

  /** A call that concerns no host. */
  lemma OtherCallKeepsDisks(hosts: map<string, Host>, calls: seq<Call>, call: Call)
    requires DisksSound(hosts, calls) && (call.DeclineOffer? || call.SendMessage?)
    ensures DisksSound(hosts, calls + [call])
  {
    var calls' := calls + [call];
    forall h ensures HostSound(hosts, calls', h) {
      assert HostSound(hosts, calls, h);
      UsageAppend(calls, call, h);
    }
  }

  /** A call that concerns one host, whose entry changes accordingly. */
  lemma HostCallKeepsDisks(hosts: map<string, Host>, calls: seq<Call>, call: Call, hostname: string, h': Host)
    requires DisksSound(hosts, calls) && hostname in hosts
    requires call.LaunchTask? ==> call.info.hostname == hostname
    requires call.LaunchDisk? ==> call.hostname == hostname
    requires HostOk(h', Use(UsageOf(calls, hostname), call, hostname))
    ensures DisksSound(hosts[hostname := h'], calls + [call])
  {
    var hosts', calls' := hosts[hostname := h'], calls + [call];
    forall h ensures HostSound(hosts', calls', h) {
      assert HostSound(hosts, calls, h);
      UsageAppend(calls, call, h);
    }
  }

  /** After the disk step, a host that could launch a task has no raw device. */
  lemma PreparedDisks(s: Sched, o: Offer)
    requires DisksSound(s.hosts, s.calls)
    ensures var s1 := Prepared(s, o);
            && DisksSound(s1.hosts, s1.calls) && o.hostname in s1.hosts
            && (o.enough && !s1.hosts[o.hostname].preparing ==> !HasPending(s1.hosts[o.hostname]))
  {
    var hosts := AddHost(s.hosts, o.hostname, o.spec);
    NewHostOk(o.spec);
    forall h ensures HostSound(hosts, s.calls, h) {
      assert HostSound(s.hosts, s.calls, h);
    }
    var h := hosts[o.hostname];
    if !h.preparing && HasPending(h) && o.enough {
      assert HostSound(hosts, s.calls, o.hostname);
      PreparationOk(h, UsageOf(s.calls, o.hostname));
      HostCallKeepsDisks(hosts, s.calls,
        LaunchDisk(o.id, o.hostname, DiskLabels(h.pendingOsd, h.pendingJnl, h.original.jnlparts)),
        o.hostname, h.(preparing := true, done := false));
    }
  }

  lemma LaunchedDisks(s: Sched, o: Offer, t: TaskType, token: int, initial: bool, ch: Choice)
    requires DisksSound(s.hosts, s.calls) && o.hostname in s.hosts && !HasPending(s.hosts[o.hostname])
    ensures var s' := Launched(s, o, t, token, initial, ch);
            DisksSound(s'.hosts, s'.calls)
  {
    hide HostOk, UsageOf, TaskIdText, ExecutorIdText, AddStagingTask;
    var h := s.hosts[o.hostname];
    var call := LaunchTask(o.id, InfoFor(h, o, t, token, initial, ch), s.c.phase);
    assert HostSound(s.hosts, s.calls, o.hostname);
    ServedOk(h, UsageOf(s.calls, o.hostname), t);
    HostCallKeepsDisks(s.hosts, s.calls, call, o.hostname, Served(h, t));
    OtherCallKeepsDisks(s.hosts[o.hostname := Served(h, t)], s.calls + [call],
      SendMessage(Envelope(ch.registerMon.executorId, ch.registerMon.slaveId, RegisterOsd)));
  }

  /** A round of the offer loop keeps every host sound. */
  lemma RoundKeepsDisks(p: Progress, o: Offer, phase: Phase, ch: Choice)
    requires DisksSound(p.s.hosts, p.s.calls)
    ensures var s' := OfferStep(p, o, phase, ch).s;
            DisksSound(s'.hosts, s'.calls)
  {
    if !o.hasRole {
      OtherCallKeepsDisks(p.s.hosts, p.s.calls, DeclineOffer(o.id, Some(86400)));
    } else {
      PreparedDisks(p.s, o);
      var s1 := Prepared(p.s, o);
      var m := NextMove(s1.c, s1.hosts[o.hostname].preparing);
      OtherCallKeepsDisks(s1.hosts, s1.calls, DeclineOffer(o.id, None));
      if m.Go? && o.enough {
        var s2 := s1.(c := AfterMove(s1.c, m));
        var s3 := if phase == WAITING_REQUEST && s2.requests != []
                  then s2.(requests := FlexUp.AfterTake(s2.requests)) else s2;
        LaunchedDisks(s3, o, m.taskType, m.token, p.initial || (m.taskType == MON && m.token == 0), ch);
      }
    }
  }

  /** A task goes only to a host that is not preparing disks and has no raw device left. */
  lemma LaunchesOnPreparedHosts(p: Progress, o: Offer, phase: Phase, ch: Choice)
    requires DisksSound(p.s.hosts, p.s.calls) && LaunchIn(p, o, phase, ch).Some?
    ensures var s' := OfferStep(p, o, phase, ch).s;
            o.hostname in s'.hosts && !s'.hosts[o.hostname].preparing && !HasPending(s'.hosts[o.hostname])
  {
    PreparedDisks(p.s, o);
  }

  /** An offer leads to a launch exactly when it has the role and the resources, its host has no raw device left, the
      phase has room for a task, and in the last phase a flex-up is pending. */
  lemma LaunchesExactlyWhen(p: Progress, o: Offer, phase: Phase, ch: Choice)
    requires DisksSound(p.s.hosts, p.s.calls)
    ensures LaunchIn(p, o, phase, ch).Some? <==>
              && o.hasRole && o.enough && !HasPending(AddHost(p.s.hosts, o.hostname, o.spec)[o.hostname])
              && NextMove(p.s.c, false).Go? && (phase == WAITING_REQUEST ==> p.s.requests != [])
  {
    hide InfoFor, DiskLabels, UsageOf, PoolBalanced;
    assert HostSound(p.s.hosts, p.s.calls, o.hostname);
  }

  /** A token is spent by a launch, and lost on an offer that is accepted before its resources are found wanting; it is
      given back only if no flex-up is pending. */
  lemma TokensSpentExactlyWhen(p: Progress, o: Offer, phase: Phase, ch: Choice, t: TaskType)
    requires phase == p.s.c.phase
    ensures var h := AddHost(p.s.hosts, o.hostname, o.spec)[o.hostname];
            var launch := LaunchIn(p, o, phase, ch);
            var lost := o.hasRole && !o.enough && !h.preparing && NextMove(p.s.c, false).Go?
                        && NextMove(p.s.c, false).taskType == t;
            Of(OfferStep(p, o, phase, ch).s.c, t).index == Of(p.s.c, t).index +
              if lost || (launch.Some? && launch.value.taskType == t) then 1 else 0
  {
    hide DiskLabels, Proceed, TaskIdText, ExecutorIdText, Top;
    var s1 := Prepared(p.s, o);
    var m := NextMove(s1.c, HostOf(s1, o.hostname).preparing);
    if m.Go? {
      ProceedTokens(s1.(c := AfterMove(s1.c, m)), o, m, phase, p.initial, ch, t);
    }
  }

  lemma ProceedTokens(s: Sched, o: Offer, m: Move, phase: Phase, initial: bool, ch: Choice, t: TaskType)
    requires m.Go?
    ensures Of(Proceed(s, o, m.taskType, m.token, phase, initial, ch).s.c, t).index ==
            Of(s.c, t).index - if o.enough && phase == WAITING_REQUEST && s.requests == [] && t == OSD then 1 else 0
  {
    hide Launched;
    if o.enough && !(phase == WAITING_REQUEST && s.requests == []) {
      var s1 := if phase == WAITING_REQUEST then s.(requests := FlexUp.AfterTake(s.requests)) else s;
      LaunchedEffect(s1, o, m.taskType, m.token, initial || (m.taskType == MON && m.token == 0), ch);
    }
  }

  // ---------------------------------------------------------------- reports

  lemma ReportKeepsDisks(s: Sched, hostname: string)
    requires DisksSound(s.hosts, s.calls)
    ensures DisksSound(DiskReady(s, hostname).hosts, s.calls)
  {
    var s' := DiskReady(s, hostname);
    forall h ensures HostSound(s'.hosts, s.calls, h) {
      assert HostSound(s.hosts, s.calls, h);
      if h == hostname && h in s.hosts {
        ReadyOk(s.hosts[h], UsageOf(s.calls, h));
      }
    }
  }

  // ---------------------------------------------------------------- linearity

  /** On a host with clean device names no partition was handed out twice, as data or as journal, and none that was
      handed out is still in the pool. */
  lemma PartitionsAreLinear(h: Host, u: Usage)
    requires HostOk(h, u) && Clean(h.original)
    ensures Distinct(u.osd + u.jnl)
    ensures forall x :: x in u.osd + u.jnl ==> x !in h.osdParts + h.jnlParts
  {
    if HasPending(h) {
      assert u.osd + u.jnl == [];
    } else {
      UnpreparedBalances(h, u);
      HostPartitionsDistinct(h.original);
      var osd := Partitions(h.original.osddevs, [], 1);
      var jnl := Partitions(h.original.jnldevs, [], h.original.jnlparts);
      DistinctCounts(osd + jnl);
      forall x ensures multiset(u.osd + u.jnl)[x] + multiset(h.osdParts + h.jnlParts)[x] <= 1 {
        assert multiset(osd + jnl)[x] == multiset(osd)[x] + multiset(jnl)[x];
        assert multiset(u.osd + u.jnl)[x] == multiset(u.osd)[x] + multiset(u.jnl)[x];
        assert multiset(h.osdParts + h.jnlParts)[x] == multiset(h.osdParts)[x] + multiset(h.jnlParts)[x];
        assert multiset(h.osdParts)[x] + multiset(u.osd)[x] == multiset(osd)[x];
        assert multiset(h.jnlParts)[x] + multiset(u.jnl)[x] == multiset(jnl)[x];
      }
      DistinctCounts(u.osd + u.jnl);
      forall x | x in u.osd + u.jnl ensures x !in h.osdParts + h.jnlParts {
        assert x in multiset(u.osd + u.jnl);
      }
    }
  }
}
