/** Where the entry of a host comes from, and what the disk tasks launched on it are told. */
module HostSetups {
  import opened Text
  import opened Types
  import opened Wire
  import opened HostConfigs
  import opened DiskExecutors
  import opened StateMachines
  import opened Schedulers
  import opened Effects
  import opened Protocol
  import opened Counters
  import opened Identity
  import opened Disks
  import opened Assignments
  import opened Invariants
  import opened Evolution
  import opened Safety
  import opened InitialMons
  import opened DiskUse
  import opened Decisions
  import FlexUp

  // ---------------------------------------------------------------- the configuration of a host

  /** What the first offer with the role that names the host says about its devices. */
  function FirstSpec(offers: seq<Offer>, hostname: string): Option<HostSpec> {
    if offers == [] then None
    else
      var o := offers[|offers| - 1];
      match FirstSpec(offers[..|offers| - 1], hostname)
      case Some(spec) => Some(spec)
      case None => if o.hasRole && o.hostname == hostname then Some(o.spec) else None
  }

  /** All offers of the first `n` events, in order. */
  function OffersUntil(es: seq<Event>, n: nat): seq<Offer>
    requires n <= |es|
  {
    if n == 0 then [] else OffersUntil(es, n - 1) + if es[n - 1].Offers? then es[n - 1].offers else []
  }

  ghost predicate HostSetUp(hosts: Hosts, offers: seq<Offer>, h: string) {
    FirstSpec(offers, h) == if h in hosts then Some(hosts[h].original) else None
  }

  /** The hosts with an entry are those offered so far, each with the devices it was first offered with. */
  ghost predicate SetUp(hosts: Hosts, offers: seq<Offer>) {
    forall h :: HostSetUp(hosts, offers, h)
  }

  /** The entries after a step for an offer from `hostname`: at most that host is new. */
  predicate HostAdded(hosts: Hosts, hosts': Hosts, hostname: string, spec: HostSpec) {
    && hosts'.Keys == hosts.Keys + {hostname}
    && (forall h :: h in hosts ==> hosts'[h].original == hosts[h].original)
    && (hostname !in hosts ==> hosts'[hostname].original == spec)
  }

  lemma PreparedAddsHost(s: Sched, o: Offer)
    ensures HostAdded(s.hosts, Prepared(s, o).hosts, o.hostname, o.spec)
  {
    hide DiskLabels;
  }

  lemma ProceedAddsHost(s: Sched, o: Offer, t: TaskType, token: int, phase: Phase, initial: bool, ch: Choice)
    requires o.hostname in s.hosts
    ensures HostAdded(s.hosts, Proceed(s, o, t, token, phase, initial, ch).s.hosts, o.hostname, o.spec)
  {
    hide TaskIdText, ExecutorIdText, AddStagingTask, Top, Popped;
  }

  /** A round adds an entry at most for the host of its offer, and changes no entry's devices. */
  lemma RoundAddsHost(p: Progress, o: Offer, phase: Phase, ch: Choice)
    ensures var hosts' := OfferStep(p, o, phase, ch).s.hosts;
            if o.hasRole then HostAdded(p.s.hosts, hosts', o.hostname, o.spec) else hosts' == p.s.hosts
  {
    hide Prepared, Proceed, NextMove;
    if o.hasRole {
      PreparedAddsHost(p.s, o);
      var s1 := Prepared(p.s, o);
      var m := NextMove(s1.c, HostOf(s1, o.hostname).preparing);
      if m.Go? {
        ProceedAddsHost(s1.(c := AfterMove(s1.c, m)), o, m.taskType, m.token, phase, p.initial, ch);
      }
    }
  }

  lemma RoundSetsUp(p: Progress, o: Offer, phase: Phase, ch: Choice, offers: seq<Offer>)
    requires SetUp(p.s.hosts, offers)
    ensures SetUp(OfferStep(p, o, phase, ch).s.hosts, offers + [o])
  {
    hide OfferStep;
    RoundAddsHost(p, o, phase, ch);
    assert (offers + [o])[..|offers|] == offers;
    forall h ensures HostSetUp(OfferStep(p, o, phase, ch).s.hosts, offers + [o], h) {
      assert HostSetUp(p.s.hosts, offers, h);
    }
  }

  lemma {:induction false} RoundsSetUp(p: Progress, batch: seq<Offer>, choices: seq<Choice>, phase: Phase,
                                       offers: seq<Offer>)
    requires |choices| == |batch| && SetUp(p.s.hosts, offers)
    ensures SetUp(OfferSteps(p, batch, choices, phase).s.hosts, offers + batch)
  {
    hide OfferStep, SetUp;
    if batch == [] {
      assert offers + batch == offers;
    } else {
      var n := |batch| - 1;
      RoundsSetUp(p, batch[..n], choices[..n], phase, offers);
      RoundSetsUp(OfferSteps(p, batch[..n], choices[..n], phase), batch[n], phase, choices[n], offers + batch[..n]);
      assert offers + batch[..n] + [batch[n]] == offers + batch;
    }
  }

  lemma StepSetsUp(w: World, e: Event, offers: seq<Offer>)
    requires Inv(w) && Enabled(w, e) && SetUp(w.sched.hosts, offers)
    ensures SetUp(Apply(w, e).sched.hosts, offers + if e.Offers? then e.offers else [])
  {
    hide Inv, FirstSpec, UpdateDiskPartition, HandleWaiting, OfferSteps, ChoicesFit, ReadDiskNews;
    match e {
      case Offers(waiting, batch, choices) =>
        HandleWaitingKeeps(w.sched, waiting);
        var s1 := HandleWaiting(w.sched, waiting);
        RoundsSetUp(Progress(s1, false), batch, choices, s1.c.phase, offers);
      case DiskReport(message) =>
        ReportSetsUp(w, message, offers);
      case _ => OthersLeaveHosts(w, e);
    }
    assert offers + [] == offers;
  }

  lemma ReportSetsUp(w: World, message: Option<string>, offers: seq<Offer>)
    requires Enabled(w, DiskReport(message)) && SetUp(w.sched.hosts, offers)
    ensures SetUp(Apply(w, DiskReport(message)).sched.hosts, offers)
  {
    hide FirstSpec, UpdateDiskPartition, Enabled, Apply, Names;
    ReportOnHosts(w, message);
    var hosts' := Apply(w, DiskReport(message)).sched.hosts;
    forall h ensures HostSetUp(hosts', offers, h) {
      assert HostSetUp(w.sched.hosts, offers, h);
      if h in w.sched.hosts {
        OpenedKeepsDevices(w.sched.hosts[h]);
      }
    }
  }

  /** In every world of every run a host has an entry exactly if some offer with the role named it, and the entry's
      devices are those of the first such offer. */
  lemma {:induction false} HostsAreConfigured(ws: seq<World>, es: seq<Event>, i: nat)
    requires IsRun(ws, es) && i < |ws|
    ensures SetUp(ws[i].sched.hosts, OffersUntil(es, i))
  {
    hide Inv, Enabled, Apply, FirstSpec, Stepped;
    if i == 0 {
      NothingOffered();
    } else {
      HostsAreConfigured(ws, es, i - 1);
      RunStep(ws, es, i - 1);
      StepSetsUp(ws[i - 1], es[i - 1], OffersUntil(es, i - 1));
    }
  }

  lemma NothingOffered()
    ensures SetUp(map[], [])
  {
  }

  // ---------------------------------------------------------------- disk tasks

  /** The labels of a disk task spell out the devices of the host and the number of partitions per journal. */
  ghost predicate Carries(labels: seq<Label>, spec: HostSpec) {
    && ValuesOf(labels, OSD_DEVS_KEY) == spec.osddevs && ValuesOf(labels, JNL_DEVS_KEY) == spec.jnldevs
    && ValuesOf(labels, JNL_PARTITION_COUNT_KEY) == [IntText(spec.jnlparts)]
  }

  lemma LabelsCarry(spec: HostSpec)
    ensures Carries(DiskLabels(spec.osddevs, spec.jnldevs, spec.jnlparts), spec)
    ensures DiskLabels(spec.osddevs, spec.jnldevs, spec.jnlparts) != []
  {
    LabelsOfKey(spec.osddevs, spec.jnldevs, spec.jnlparts, OSD_DEVS_KEY);
    LabelsOfKey(spec.osddevs, spec.jnldevs, spec.jnlparts, JNL_DEVS_KEY);
    LabelsOfKey(spec.osddevs, spec.jnldevs, spec.jnlparts, JNL_PARTITION_COUNT_KEY);
  }

  /** The executor reads the devices and the count from such labels. */
  lemma CarriedIsRead(labels: seq<Label>, spec: HostSpec)
    requires Carries(labels, spec) && IsInt32(spec.jnlparts)
    ensures CountIn(labels) == Some(spec.jnlparts)
  {
    IntTextRoundTrip(spec.jnlparts);
  }

  /** The offer has the role and the resources, and its host has devices that no disk task was launched for. */
  predicate Raw(hosts: Hosts, o: Offer) {
    && o.hasRole && o.enough
    && if o.hostname in hosts then HasPending(hosts[o.hostname]) && !hosts[o.hostname].preparing
       else o.spec.osddevs != [] || o.spec.jnldevs != []
  }

  /** The devices of the host of an offer. */
  function SpecOf(hosts: Hosts, o: Offer): HostSpec {
    if o.hostname in hosts then hosts[o.hostname].original else o.spec
  }

  predicate IsDiskTask(call: Call, o: Offer) {
    call.LaunchDisk? && call.offerId == o.id && call.hostname == o.hostname
  }

  /** The disk step launches a disk task exactly for a raw host, labelled with its devices. */
  lemma PreparedCalls(s: Sched, o: Offer)
    requires DisksSound(s.hosts, s.calls) && o.hasRole
    ensures var s1 := Prepared(s, o);
            && o.hostname in s1.hosts
            && if Raw(s.hosts, o)
               then |s1.calls| == |s.calls| + 1 && s1.calls[..|s.calls|] == s.calls
                    && IsDiskTask(s1.calls[|s.calls|], o)
                    && Carries(s1.calls[|s.calls|].labels, SpecOf(s.hosts, o)) && s1.hosts[o.hostname].preparing
               else s1.calls == s.calls
  {
    hide Carries, UsageOf, DiskLabels;
    assert HostSound(s.hosts, s.calls, o.hostname);
    LabelsCarry(SpecOf(s.hosts, o));
  }

  /** What a round says to the driver about its offer: a day's refusal without the role, a disk task and a decline for a
      raw host, the task launched and at most one registration, or else a decline. */
  predicate RoundSays(hosts: Hosts, o: Offer, launch: Option<TaskInfo>, during: Phase, added: seq<Call>) {
    if !o.hasRole then added == [DeclineOffer(o.id, Some(86400))]
    else if Raw(hosts, o) then |added| == 2 && IsDiskTask(added[0], o) && added[1] == DeclineOffer(o.id, None)
    else
      match launch
      case None => added == [DeclineOffer(o.id, None)]
      case Some(info) =>
        && 1 <= |added| == 1 + (if info.taskType == OSD && !info.initial then 1 else 0)
        && added[0] == LaunchTask(o.id, info, during)
        && (|added| == 2 ==> added[1].SendMessage? && added[1].envelope.message == RegisterOsd)
  }

  lemma LaunchedSays(s: Sched, o: Offer, t: TaskType, token: int, initial: bool, ch: Choice)
    ensures var s' := Launched(s, o, t, token, initial, ch);
            var info := InfoFor(HostOf(s, o.hostname), o, t, token, initial, ch);
            && s.calls <= s'.calls
            && |s'.calls| == |s.calls| + 1 + (if info.taskType == OSD && !info.initial then 1 else 0)
            && s'.calls[|s.calls|] == LaunchTask(o.id, info, s.c.phase)
            && (|s'.calls| == |s.calls| + 2 ==>
                s'.calls[|s.calls| + 1].SendMessage? && s'.calls[|s.calls| + 1].envelope.message == RegisterOsd)
  {
    hide TaskIdText, ExecutorIdText, AddStagingTask;
    LaunchedCalls(s, o, t, token, initial, ch);
  }

  lemma ProceedSays(s: Sched, o: Offer, m: Move, phase: Phase, initial: bool, ch: Choice)
    requires m.Go?
    ensures var p' := Proceed(s, o, m.taskType, m.token, phase, initial, ch);
            && s.calls <= p'.s.calls
            && var added := p'.s.calls[|s.calls|..];
               if !o.enough || (phase == WAITING_REQUEST && s.requests == []) then added == [DeclineOffer(o.id, None)]
               else
                 var initial' := initial || (m.taskType == MON && m.token == 0);
                 var info := InfoFor(HostOf(s, o.hostname), o, m.taskType, m.token, initial', ch);
                 && 1 <= |added| == 1 + (if info.taskType == OSD && !info.initial then 1 else 0)
                 && added[0] == LaunchTask(o.id, info, s.c.phase)
                 && (|added| == 2 ==> added[1].SendMessage? && added[1].envelope.message == RegisterOsd)
  {
    hide Launched, InfoFor;
    if o.enough && !(phase == WAITING_REQUEST && s.requests == []) {
      var s1 := if phase == WAITING_REQUEST then s.(requests := FlexUp.AfterTake(s.requests)) else s;
      LaunchedSays(s1, o, m.taskType, m.token, initial || (m.taskType == MON && m.token == 0), ch);
    }
  }

  lemma RawHasRole(hosts: Hosts, o: Offer, c: Cluster)
    ensures Raw(hosts, o) ==> o.hasRole && o.enough
    ensures NextMove(c, true) == Stay
  {
  }

  lemma RoundCalls(p: Progress, o: Offer, phase: Phase, ch: Choice)
    requires DisksSound(p.s.hosts, p.s.calls)
    ensures var s' := OfferStep(p, o, phase, ch).s;
            && p.s.calls <= s'.calls
            && var added := s'.calls[|p.s.calls|..];
               && RoundSays(p.s.hosts, o, LaunchIn(p, o, phase, ch), p.s.c.phase, added)
               && (Raw(p.s.hosts, o) ==>
                   Carries(added[0].labels, SpecOf(p.s.hosts, o)) && o.hostname in s'.hosts
                   && s'.hosts[o.hostname].preparing)
  {
    hide Prepared, Proceed, Carries, NextMove, InfoFor, DisksSound, Raw, SpecOf;
    RawHasRole(p.s.hosts, o, p.s.c);
    if o.hasRole {
      PreparedKeeps(p.s, o);
      PreparedCalls(p.s, o);
      var s1 := Prepared(p.s, o);
      var m := NextMove(s1.c, s1.hosts[o.hostname].preparing);
      var s2 := s1.(c := AfterMove(s1.c, m));
      if Raw(p.s.hosts, o) {
        assert m == Stay;
        assert OfferStep(p, o, phase, ch).s == Decline(s2, o);
      } else if m.Go? {
        ProceedSays(s2, o, m, phase, p.initial, ch);
        assert s2.c.phase == p.s.c.phase;
        assert OfferStep(p, o, phase, ch) == Proceed(s2, o, m.taskType, m.token, phase, p.initial, ch);
        assert s2.calls == p.s.calls;
      } else {
        assert OfferStep(p, o, phase, ch).s.calls[|p.s.calls|..] == [DeclineOffer(o.id, None)];
      }
    }
  }

  // ---------------------------------------------------------------- whole runs

  /** In every callback of every run: without the role the offer is refused for a day; for a raw host a disk task is
      launched that is labelled with the host's devices, the host starts preparing, and the offer is declined; else the
      offer gets the task that was launched, and an OSD's registration, or a decline. */
  lemma OffersAreAnsweredExactly(ws: seq<World>, es: seq<Event>, i: nat, n: nat)
    requires IsRun(ws, es) && i < |es| && es[i].Offers? && n < |es[i].offers|
    ensures AllKnown(TasksOf(ws[i]), es[i].waiting) && |es[i].offers| == |es[i].choices|
    ensures var s, s', o := LoopAt(ws[i], es[i], n).s, LoopAt(ws[i], es[i], n + 1).s, es[i].offers[n];
            var infos, infos' := Launches(s.calls), Launches(s'.calls);
            && s.calls <= s'.calls && infos <= infos' && |infos'| <= |infos| + 1
            && var added := s'.calls[|s.calls|..];
               var launch := if infos' == infos then None else Some(infos'[|infos|]);
               && RoundSays(s.hosts, o, launch, ws[i].sched.c.phase, added)
               && (Raw(s.hosts, o) ==>
                   Carries(added[0].labels, SpecOf(s.hosts, o)) && o.hostname in s'.hosts
                   && s'.hosts[o.hostname].preparing)
  {
    hide Initial, Inv, LoopAt, Enabled, Apply, Stepped, OfferStep, Launches, FlagSound, ChoiceFits, LaunchIn, RoundSays,
         Raw, Carries, SpecOf;
    RunStep(ws, es, i);
    LoopIsSound(ws[i], es[i], n);
    LoopStep(ws[i], es[i], n);
    LoopBegins(ws[i], es[i]);
    var p, o, ch := LoopAt(ws[i], es[i], n), es[i].offers[n], es[i].choices[n];
    HostsAreSound(ws[i].(sched := p.s));
    RoundCalls(p, o, p.s.c.phase, ch);
    if LaunchIn(p, o, p.s.c.phase, ch) == None {
      QuietRound(p, o, p.s.c.phase, ch);
    } else {
      LaunchRound(p, o, p.s.c.phase, ch);
    }
  }

  lemma HostsAreSound(w: World)
    requires Inv(w)
    ensures DisksSound(w.sched.hosts, w.sched.calls)
  {
    hide ExchangeSound, Counted, Logged, DisksSound;
  }

  /** Every disk task in the log is labelled with the devices of its host. */
  ghost predicate Labelled(hosts: Hosts, calls: seq<Call>) {
    forall n :: 0 <= n < |calls| && calls[n].LaunchDisk? ==>
      calls[n].hostname in hosts && Carries(calls[n].labels, hosts[calls[n].hostname].original)
  }

  lemma RoundLabels(p: Progress, o: Offer, phase: Phase, ch: Choice)
    requires DisksSound(p.s.hosts, p.s.calls) && Labelled(p.s.hosts, p.s.calls)
    ensures var s' := OfferStep(p, o, phase, ch).s;
            Labelled(s'.hosts, s'.calls)
  {
    hide OfferStep, Carries, DisksSound, Raw, LaunchIn;
    RoundCalls(p, o, phase, ch);
    RoundAddsHost(p, o, phase, ch);
    RawHasRole(p.s.hosts, o, p.s.c);
    var s, s' := p.s, OfferStep(p, o, phase, ch).s;
    forall n | 0 <= n < |s'.calls| && s'.calls[n].LaunchDisk?
      ensures s'.calls[n].hostname in s'.hosts && Carries(s'.calls[n].labels, s'.hosts[s'.calls[n].hostname].original)
    {
      if n < |s.calls| {
        assert s'.calls[n] == s.calls[n];
      } else {
        assert s'.calls[n] == s'.calls[|s.calls|..][n - |s.calls|];
      }
    }
  }

  lemma {:induction false} RoundsLabel(p: Progress, batch: seq<Offer>, choices: seq<Choice>, phase: Phase)
    requires |choices| == |batch| && DisksSound(p.s.hosts, p.s.calls) && Labelled(p.s.hosts, p.s.calls)
    ensures var s' := OfferSteps(p, batch, choices, phase).s;
            DisksSound(s'.hosts, s'.calls) && Labelled(s'.hosts, s'.calls)
  {
    hide OfferStep, DisksSound, Labelled;
    if batch != [] {
      var n := |batch| - 1;
      RoundsLabel(p, batch[..n], choices[..n], phase);
      var p1 := OfferSteps(p, batch[..n], choices[..n], phase);
      RoundLabels(p1, batch[n], phase, choices[n]);
      RoundKeepsDisks(p1, batch[n], phase, choices[n]);
    }
  }

  lemma {:induction false} AssigningLabels(s: Sched, ids: seq<string>, n: nat)
    requires n <= |ids| && n <= |s.c.pendingIds| && AllKnown(s.c.tasks, ids) && Labelled(s.hosts, s.calls)
    ensures var s' := AssignFirst(s, ids, n);
            Labelled(s'.hosts, s'.calls)
  {
    hide Carries, SetStatus;
    if n > 0 {
      AssigningLabels(s, ids, n - 1);
    }
  }

  lemma StepLabels(w: World, e: Event)
    requires Inv(w) && Enabled(w, e) && Labelled(w.sched.hosts, w.sched.calls)
    ensures Labelled(Apply(w, e).sched.hosts, Apply(w, e).sched.calls)
  {
    hide Inv, Labelled, AssignFirst, OfferSteps, ChoicesFit, ReadDiskNews, UpdateDiskPartition, DisksSound;
    match e {
      case Offers(waiting, batch, choices) =>
        AssigningLabels(w.sched, waiting, Min(|waiting|, |w.sched.c.pendingIds|));
        LoopIsSound(w, e, 0);
        LoopBegins(w, e);
        var s1 := HandleWaiting(w.sched, waiting);
        HostsAreSound(w.(sched := s1));
        RoundsLabel(Progress(s1, false), batch, choices, s1.c.phase);
      case DiskReport(message) =>
        ReportLabels(w, message);
      case _ => OthersLeaveHosts(w, e);
    }
  }

  lemma ReportLabels(w: World, message: Option<string>)
    requires Inv(w) && Enabled(w, DiskReport(message)) && Labelled(w.sched.hosts, w.sched.calls)
    ensures var s' := Apply(w, DiskReport(message)).sched;
            Labelled(s'.hosts, s'.calls)
  {
    hide Inv, Enabled, Apply, Carries, UpdateDiskPartition, Names;
    ReportOnHosts(w, message);
    OthersLeaveCluster(w, DiskReport(message));
    var hosts' := Apply(w, DiskReport(message)).sched.hosts;
    forall h | h in w.sched.hosts ensures hosts'[h].original == w.sched.hosts[h].original {
      OpenedKeepsDevices(w.sched.hosts[h]);
    }
  }

  /** In every world of every run each disk task that was launched carries the devices of its host, in order, and its
      number of partitions per journal. */
  lemma {:induction false} DiskTasksAreLabelled(ws: seq<World>, es: seq<Event>, i: nat)
    requires IsRun(ws, es) && i < |ws|
    ensures Labelled(ws[i].sched.hosts, ws[i].sched.calls)
  {
    hide Inv, Enabled, Apply, Carries, Stepped;
    if i > 0 {
      DiskTasksAreLabelled(ws, es, i - 1);
      RunStep(ws, es, i - 1);
      StepLabels(ws[i - 1], es[i - 1]);
    }
  }

  // ---------------------------------------------------------------- what reports leave behind

  /** The flags and the failed lists of a host that was, or was not, named by a report. */
  predicate Marked(hosts: Hosts, h: string, named: bool) {
    if h in hosts
    then hosts[h].failedOsd == hosts[h].failedJnl == [] && hosts[h].done == named && (named ==> !HasPending(hosts[h]))
    else !named
  }

  lemma PreparedMarks(s: Sched, o: Offer, h: string, named: bool)
    requires Marked(s.hosts, h, named)
    ensures Marked(Prepared(s, o).hosts, h, named)
  {
    hide DiskLabels;
  }

  lemma ProceedMarks(s: Sched, o: Offer, m: Move, phase: Phase, initial: bool, ch: Choice, h: string, named: bool)
    requires m.Go? && Marked(s.hosts, h, named)
    ensures Marked(Proceed(s, o, m.taskType, m.token, phase, initial, ch).s.hosts, h, named)
  {
    hide TaskIdText, ExecutorIdText, AddStagingTask, Top, Popped;
  }

  lemma RoundMarks(p: Progress, o: Offer, phase: Phase, ch: Choice, h: string, named: bool)
    requires Marked(p.s.hosts, h, named)
    ensures Marked(OfferStep(p, o, phase, ch).s.hosts, h, named)
  {
    hide Prepared, Proceed, NextMove, Marked;
    if o.hasRole {
      PreparedMarks(p.s, o, h, named);
      var s1 := Prepared(p.s, o);
      var m := NextMove(s1.c, HostOf(s1, o.hostname).preparing);
      if m.Go? {
        ProceedMarks(s1.(c := AfterMove(s1.c, m)), o, m, phase, p.initial, ch, h, named);
      }
    }
  }

  lemma {:induction false} RoundsMark(p: Progress, batch: seq<Offer>, choices: seq<Choice>, phase: Phase, h: string,
                                      named: bool)
    requires |choices| == |batch| && Marked(p.s.hosts, h, named)
    ensures Marked(OfferSteps(p, batch, choices, phase).s.hosts, h, named)
  {
    hide OfferStep, Marked;
    if batch != [] {
      var n := |batch| - 1;
      RoundsMark(p, batch[..n], choices[..n], phase, h, named);
      RoundMarks(OfferSteps(p, batch[..n], choices[..n], phase), batch[n], phase, choices[n], h, named);
    }
  }

  lemma {:induction false} NoneFailing(devs: seq<string>)
    ensures Failing(devs, []) == []
  {
    if devs != [] {
      NoneFailing(devs[..|devs| - 1]);
    }
  }

  lemma OpenedMarks(h: Host)
    requires h.failedOsd == h.failedJnl == []
    ensures var h' := UpdateDiskPartition(h, [], h.original.jnlparts);
            h'.failedOsd == h'.failedJnl == [] && !HasPending(h')
  {
    NoneFailing(h.pendingOsd);
    NoneFailing(h.pendingJnl);
  }

  lemma StepMarks(w: World, e: Event, h: string, named: bool)
    requires Inv(w) && Enabled(w, e) && Marked(w.sched.hosts, h, named)
    ensures Marked(Apply(w, e).sched.hosts, h, named || (Names(e, h) && h in w.sched.hosts))
  {
    hide Inv, Marked, HandleWaiting, OfferSteps, ChoicesFit, Names;
    match e {
      case Offers(waiting, batch, choices) =>
        NoReport(e, h);
        HandleWaitingKeeps(w.sched, waiting);
        var s1 := HandleWaiting(w.sched, waiting);
        RoundsMark(Progress(s1, false), batch, choices, s1.c.phase, h, named);
      case DiskReport(message) => ReportMarks(w, message, h, named);
      case _ =>
        NoReport(e, h);
        OthersLeaveHosts(w, e);
    }
  }

  lemma ReportMarks(w: World, message: Option<string>, h: string, named: bool)
    requires Enabled(w, DiskReport(message)) && Marked(w.sched.hosts, h, named)
    ensures Marked(Apply(w, DiskReport(message)).sched.hosts, h,
                   named || (Names(DiskReport(message), h) && h in w.sched.hosts))
  {
    hide Enabled, Apply, UpdateDiskPartition, Names;
    ReportOnHosts(w, message);
    if h in w.sched.hosts {
      OpenedMarks(w.sched.hosts[h]);
    }
  }

  /** One of the first `i` events is a report that names the host, which had an entry by then. */
  ghost predicate WasNamed(ws: seq<World>, es: seq<Event>, i: nat, h: string)
    requires i <= |es| && i <= |ws|
  {
    exists j :: 0 <= j < i && Names(es[j], h) && h in ws[j].sched.hosts
  }

  /** In every run a host's preparation is marked done exactly if a report named it, and no host ever records a failed
      device, whatever the reports said. */
  lemma {:induction false} DoneExactlyWhenNamed(ws: seq<World>, es: seq<Event>, i: nat, h: string)
    requires IsRun(ws, es) && i < |ws|
    ensures Marked(ws[i].sched.hosts, h, WasNamed(ws, es, i, h))
  {
    hide Inv, Enabled, Apply, Stepped, Names;
    if i > 0 {
      DoneExactlyWhenNamed(ws, es, i - 1, h);
      RunStep(ws, es, i - 1);
      StepMarks(ws[i - 1], es[i - 1], h, WasNamed(ws, es, i - 1, h));
    }
  }
}
