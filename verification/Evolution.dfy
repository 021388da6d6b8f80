/** What a single event can change: which steps records take, what launches presuppose, and which quantities grow. */
module Evolution {
  import opened Text
  import opened Types
  import opened Wire
  import opened HostConfigs
  import opened StateMachines
  import opened Schedulers
  import opened Effects
  import opened CephExecutors
  import opened Protocol
  import opened Counters
  import opened Identity
  import opened Messages
  import opened Supply
  import opened Disks
  import opened Assignments
  import opened Invariants

  // ---------------------------------------------------------------- one callback of offers

  /** Within an offers callback a record only goes from WAITING_OSDID to STARTING. */
  predicate Advanced(r: TaskState, r': TaskState) {
    r' == r || (IsWaiting(r) && r' == r.(currentStatus := STARTING))
  }

  /** What the launch of a task presupposes of the cluster. */
  predicate Justified(c: Cluster, info: TaskInfo) {
    match info.taskType
    case MON => c.mon.running == 0 && info.token >= c.mon.index
    case OSD => c.mon.running >= 1
    case RADOSGW => c.mon.running >= 1 && c.osd.running >= 3 && c.rgw.running == 0
  }

  ghost predicate AllAdvanced(tasks: Tasks, tasks': Tasks) {
    && (forall k :: k in tasks ==> k in tasks' && Advanced(tasks[k], tasks'[k]))
    && (forall k :: k in tasks' && k !in tasks ==> tasks'[k].currentStatus == STAGING)
  }

  ghost predicate AllJustified(c: Cluster, infos: seq<TaskInfo>, infos': seq<TaskInfo>) {
    && infos <= infos'
    && forall n :: |infos| <= n < |infos'| ==> Justified(c, infos'[n])
  }

  predicate SameRunning(c: Cluster, c': Cluster) {
    c'.mon.running == c.mon.running && c'.osd.running == c.osd.running && c'.rgw.running == c.rgw.running
  }

  /** Every OSD that is starting or running was sent an id. */
  ghost predicate AllServed(tasks: Tasks, sent: seq<Envelope>) {
    forall k :: k in tasks && tasks[k].taskType == OSD
                && (tasks[k].currentStatus == STARTING || tasks[k].currentStatus == RUNNING) ==>
      tasks[k].executorId in Targets(sent)
  }

  lemma TargetsAppend(sent: seq<Envelope>, env: Envelope)
    ensures Targets(sent + [env]) == if env.message.LaunchOsd? then Targets(sent) + {env.executorId} else Targets(sent)
  {
    assert (sent + [env])[..|sent + [env]| - 1] == sent;
  }

  lemma RegistrationTargets(sent: seq<Envelope>, info: TaskInfo, ch: Choice)
    ensures Targets(sent + Registration(info, ch)) == Targets(sent)
  {
    if !info.initial && info.taskType == OSD {
      TargetsAppend(sent, Registration(info, ch)[0]);
    } else {
      assert sent + Registration(info, ch) == sent;
    }
  }

  ghost predicate Moved(s: Sched, s': Sched) {
    && (AllServed(s.c.tasks, Sends(s.calls)) ==> AllServed(s'.c.tasks, Sends(s'.calls)))
    && Targets(Sends(s.calls)) <= Targets(Sends(s'.calls))
    && s'.c.phase == s.c.phase && SameRunning(s.c, s'.c) && s'.c.mon.index >= s.c.mon.index
    && AllAdvanced(s.c.tasks, s'.c.tasks)
    && AllJustified(s.c, Launches(s.calls), Launches(s'.calls))
    && (s.c.phase != WAITING_REQUEST ==> FlexLaunches(s'.calls) == FlexLaunches(s.calls))
  }

  lemma AdvancedThrough(a: Tasks, b: Tasks, c: Tasks)
    requires AllAdvanced(a, b) && AllAdvanced(b, c)
    ensures AllAdvanced(a, c)
  {
    forall k | k in c && k !in a ensures c[k].currentStatus == STAGING {
      assert k in b ==> Advanced(b[k], c[k]);
    }
  }

  lemma JustifiedThrough(c: Cluster, c': Cluster, x: seq<TaskInfo>, y: seq<TaskInfo>, z: seq<TaskInfo>)
    requires AllJustified(c, x, y) && AllJustified(c', y, z) && SameRunning(c, c') && c'.mon.index >= c.mon.index
    ensures AllJustified(c, x, z)
  {
    forall n | |x| <= n < |z| ensures Justified(c, z[n]) {
      if n >= |y| {
        assert Justified(c', z[n]);
      } else {
        assert z[n] == y[n] && Justified(c, y[n]);
      }
    }
  }

  lemma MovedThrough(s: Sched, s1: Sched, s2: Sched)
    requires Moved(s, s1) && Moved(s1, s2)
    ensures Moved(s, s2)
  {
    hide AllAdvanced, AllJustified, AllServed;
    AdvancedThrough(s.c.tasks, s1.c.tasks, s2.c.tasks);
    JustifiedThrough(s.c, s1.c, Launches(s.calls), Launches(s1.calls), Launches(s2.calls));
  }

  lemma QuietMoves(s: Sched, s': Sched)
    requires Quiet(s, s')
    ensures Moved(s, s')
  {
    assert Of(s'.c, MON).index >= Of(s.c, MON).index;
    assert Of(s'.c, MON).running == Of(s.c, MON).running && Of(s'.c, OSD).running == Of(s.c, OSD).running
        && Of(s'.c, RADOSGW).running == Of(s.c, RADOSGW).running;
  }

  lemma LaunchMoves(s: Sched, s': Sched, info: TaskInfo, ch: Choice, stuck: set<string>)
    requires Counted(s.c, stuck) && NewTask(s, s', info, ch) && info.taskId !in s.c.tasks
    ensures Moved(s, s')
  {
    hide Launches, FlexLaunches, Sends, WellNamed;
    NoCounterNegative(s.c, stuck, MON);
    NoCounterNegative(s.c, stuck, OSD);
    NoCounterNegative(s.c, stuck, RADOSGW);
    LaunchJustified(s.c, info, stuck);
    RegistrationTargets(Sends(s.calls), info, ch);
  }

  lemma LaunchJustified(c: Cluster, info: TaskInfo, stuck: set<string>)
    requires Counted(c, stuck) && NextMove(c, false) == Go(info.taskType, info.token)
    ensures Justified(c, info)
  {
    NoCounterNegative(c, stuck, MON);
    NoCounterNegative(c, stuck, RADOSGW);
  }

  lemma AssignMoves(s: Sched, k: string)
    requires k in s.c.tasks && s.c.pendingIds != [] && IsWaiting(s.c.tasks[k])
    ensures Moved(s, AssignOne(s, k))
  {
    hide AssignOne;
    AssignEffect(s, k);
    TargetsAppend(Sends(s.calls), LaunchEnvelope(s.c.tasks[k], s.c.pendingIds[|s.c.pendingIds| - 1]));
  }

  lemma {:induction false} AssigningMoves(w: World, ids: seq<string>, n: nat)
    requires Inv(w) && Distinct(ids) && WaitingFrom(w.sched.c.tasks, ids, 0)
    requires n <= |ids| && n <= |w.sched.c.pendingIds| && AllKnown(w.sched.c.tasks, ids)
    ensures Moved(w.sched, AssignFirst(w.sched, ids, n))
  {
    hide Inv, Moved, AssignOne, Distinct;
    if n == 0 {
      StillMoved(w.sched);
    } else {
      AssigningMoves(w, ids, n - 1);
      assert w.(sched := w.sched) == w;
      AssigningKeepsInv(w, w.sched, ids, n - 1);
      var s1 := AssignFirst(w.sched, ids, n - 1);
      AssignMoves(s1, ids[n - 1]);
      MovedThrough(w.sched, s1, AssignFirst(w.sched, ids, n));
    }
  }

  lemma StillMoved(s: Sched)
    ensures Moved(s, s)
  {
  }

  lemma RoundMoves(w: World, p: Progress, o: Offer, phase: Phase, ch: Choice)
    requires w.sched == p.s && Inv(w) && FlagSound(p) && phase == p.s.c.phase && ChoiceFits(p, o, phase, ch)
    ensures Moved(p.s, OfferStep(p, o, phase, ch).s)
  {
    hide Moved, OfferStep, LaunchIn, DisksSound, Directed, Linked, Supplied, ChoiceFits;
    if LaunchIn(p, o, phase, ch) == None {
      QuietRound(p, o, phase, ch);
      QuietMoves(p.s, OfferStep(p, o, phase, ch).s);
    } else {
      var info := LaunchIn(p, o, phase, ch).value;
      LaunchRound(p, o, phase, ch);
      BookedWhenLogged(p.s.c, Launches(p.s.calls));
      MonTokenSpent(p.s.c, BookOf(w), w.stuck, info.taskType, info.token);
      TaskIdIsFresh(p.s.c, BookOf(w), info);
      LaunchMoves(p.s, OfferStep(p, o, phase, ch).s, info, ch, w.stuck);
    }
  }

  lemma {:induction false} RoundsMove(w: World, p: Progress, offers: seq<Offer>, choices: seq<Choice>, phase: Phase)
    requires w.sched == p.s && Inv(w) && FlagSound(p) && phase == p.s.c.phase
    requires |choices| == |offers| && ChoicesFit(p, offers, choices, phase)
    ensures Moved(p.s, OfferSteps(p, offers, choices, phase).s)
  {
    hide Inv, Moved, OfferStep, ChoiceFits;
    if offers == [] {
      StillMoved(p.s);
    } else {
      var n := |offers| - 1;
      PrefixFits(p, offers, choices, phase);
      RoundsMove(w, p, offers[..n], choices[..n], phase);
      RoundsKeepInv(w, p, offers[..n], choices[..n], phase);
      var p1 := OfferSteps(p, offers[..n], choices[..n], phase);
      RoundMoves(w.(sched := p1.s), p1, offers[n], phase, choices[n]);
      MovedThrough(p.s, p1.s, OfferSteps(p, offers, choices, phase).s);
    }
  }

  /** The two halves of the callback: the assignments, then the rounds. */
  lemma OffersHalves(w: World, waiting: seq<string>, offers: seq<Offer>, choices: seq<Choice>)
    requires Inv(w) && Enabled(w, Offers(waiting, offers, choices))
    ensures var s1 := HandleWaiting(w.sched, waiting);
            Moved(w.sched, s1) && Moved(s1, Apply(w, Offers(waiting, offers, choices)).sched)
  {
    hide Inv, Moved, AssignFirst, OfferSteps;
    WaitingListed(w.sched.c.tasks, waiting);
    WaitingOnce(w.sched.c.tasks, waiting);
    var n := Min(|waiting|, |w.sched.c.pendingIds|);
    assert w.(sched := w.sched) == w;
    AssigningKeepsInv(w, w.sched, waiting, n);
    AssigningMoves(w, waiting, n);
    var s1 := HandleWaiting(w.sched, waiting);
    RoundsMove(w.(sched := s1), Progress(s1, false), offers, choices, s1.c.phase);
  }

  lemma OffersMove(w: World, waiting: seq<string>, offers: seq<Offer>, choices: seq<Choice>)
    requires Inv(w) && Enabled(w, Offers(waiting, offers, choices))
    ensures Moved(w.sched, Apply(w, Offers(waiting, offers, choices)).sched)
  {
    hide Inv, Moved, AssignFirst, OfferSteps;
    OffersHalves(w, waiting, offers, choices);
    MovedThrough(w.sched, HandleWaiting(w.sched, waiting), Apply(w, Offers(waiting, offers, choices)).sched);
  }

  // ---------------------------------------------------------------- any event

  /** Records keep their identity, take legal steps only, and start out as STAGING. */
  ghost predicate RecordsStep(tasks: Tasks, tasks': Tasks) {
    && (forall k :: k in tasks ==>
          && k in tasks' && tasks'[k] == tasks[k].(currentStatus := tasks'[k].currentStatus)
          && (tasks'[k] == tasks[k] || Legal(tasks[k].taskType, tasks[k].currentStatus, tasks'[k].currentStatus)))
    && (forall k :: k in tasks' && k !in tasks ==> tasks'[k].currentStatus == STAGING)
  }

  /** The scheduler is told of a failure. */
  predicate IsFailure(w: World, e: Event) {
    e.Deliver? && ReportsOf(w.reports, e.taskId) != [] && ReportsOf(w.reports, e.taskId)[0] == Failed
  }

  predicate RunningGrows(c: Cluster, c': Cluster) {
    c'.mon.running >= c.mon.running && c'.osd.running >= c.osd.running && c'.rgw.running >= c.rgw.running
  }

  ghost predicate Stepped(w: World, e: Event, w': World) {
    && RecordsStep(w.sched.c.tasks, w'.sched.c.tasks)
    && AllJustified(w.sched.c, Launches(w.sched.calls), Launches(w'.sched.calls))
    && w'.sched.c.mon.index >= w.sched.c.mon.index
    && (w.sched.c.phase != WAITING_REQUEST ==> FlexLaunches(w'.sched.calls) == FlexLaunches(w.sched.calls))
    && (!IsFailure(w, e) ==> RunningGrows(w.sched.c, w'.sched.c))
    && (!IsFailure(w, e) ==> w'.stuck == w.stuck)
    && w.stuck <= w'.stuck
    && (AllServed(w.sched.c.tasks, Sends(w.sched.calls)) ==> AllServed(w'.sched.c.tasks, Sends(w'.sched.calls)))
    && Targets(Sends(w.sched.calls)) <= Targets(Sends(w'.sched.calls))
  }

  lemma MovedSteps(tasks: Tasks, tasks': Tasks)
    requires AllAdvanced(tasks, tasks')
    ensures RecordsStep(tasks, tasks')
  {
  }

  lemma InformedGrows(c: Cluster, k: string, to: Status)
    requires k in c.tasks && (to == WAITING_OSDID || to == RUNNING)
    ensures RunningGrows(c, Informed(c, k, to))
  {
  }

  lemma ReportServes(tasks: Tasks, k: string, to: Status, sent: seq<Envelope>)
    requires AllServed(tasks, sent) && k in tasks && Legal(tasks[k].taskType, tasks[k].currentStatus, to)
            && to != STARTING
    ensures AllServed(tasks[k := tasks[k].(currentStatus := to)], sent)
  {
  }

  lemma ReportSteps(tasks: Tasks, k: string, to: Status)
    requires k in tasks && Legal(tasks[k].taskType, tasks[k].currentStatus, to)
    ensures RecordsStep(tasks, tasks[k := tasks[k].(currentStatus := to)])
  {
  }

  lemma DeliverSteps(w: World, k: string)
    requires Inv(w) && Enabled(w, Deliver(k))
    ensures Stepped(w, Deliver(k), Apply(w, Deliver(k)))
  {
    hide SchedulerSound, Directed, Supplied, Consistent, Apply, Informed, Legal, RecordsStep, AllServed;
    hide Launches, FlexLaunches, Sends;
    var c := w.sched.c;
    var to := DeliverEffect(w, k);
    InformedEffect(c, k, to);
    ReportSteps(c.tasks, k, to);
    if to != FAILED {
      InformedGrows(c, k, to);
    }
    if AllServed(c.tasks, Sends(w.sched.calls)) {
      ReportServes(c.tasks, k, to, Sends(w.sched.calls));
    }
  }

  /** A report of a finished task concerns the hosts only. */
  lemma FinishedLeavesCluster(s: Sched, message: Option<string>)
    ensures var s' := StatusUpdate(s, "", Finished(message));
            s'.c == s.c && s'.calls == s.calls
  {
    hide ReadDiskNews, UpdateDiskPartition;
  }

  /** A reply concerns the pending ids only. */
  lemma ReplyLeavesCluster(s: Sched, executorId: string, data: string, mon: TaskState)
    ensures var s' := FrameworkMessage(s, executorId, data, mon);
            s'.c == s.c.(pendingIds := s'.c.pendingIds) && s'.calls == s.calls
  {
    hide ParseInt;
  }

  /** The other events leave the records, the counters and the log alone. */
  lemma OthersLeaveCluster(w: World, e: Event)
    requires Enabled(w, e) && !e.Offers? && !e.Deliver?
    ensures var w' := Apply(w, e);
            && w'.sched.c == w.sched.c.(pendingIds := w'.sched.c.pendingIds)
            && w'.sched.calls == w.sched.calls && w'.stuck == w.stuck
  {
    hide ResourceOffers, StatusUpdate, FrameworkMessage, ReadDiskNews, OnLaunch, OnMessage, InFlightTo, Launches,
         MayBeInitialMon, IntText, TaskData, MessageText;
    match e {
      case DiskReport(message) => FinishedLeavesCluster(w.sched, message);
      case OtherReport(k) => assert StatusUpdate(w.sched, k, Other) == w.sched by { OtherLeavesAll(w.sched, k); }
      case IdArrives(reply, mon) => ReplyLeavesCluster(w.sched, reply.executorId, IntText(reply.osdId), mon);
      case _ =>
    }
  }

  lemma OtherLeavesAll(s: Sched, k: string)
    ensures StatusUpdate(s, k, Other) == s
  {
  }

  lemma NothingSteps(w: World, e: Event, w': World)
    requires w'.sched.c == w.sched.c.(pendingIds := w'.sched.c.pendingIds)
    requires w'.sched.calls == w.sched.calls && w'.stuck == w.stuck
    ensures Stepped(w, e, w')
  {
  }

  lemma OffersStep(w: World, e: Event, w': World)
    requires Moved(w.sched, w'.sched) && w'.stuck == w.stuck
    ensures Stepped(w, e, w')
  {
    MovedSteps(w.sched.c.tasks, w'.sched.c.tasks);
  }

  /** Every event is a step of this kind. */
  lemma EventSteps(w: World, e: Event)
    requires Inv(w) && Enabled(w, e)
    ensures Stepped(w, e, Apply(w, e))
  {
    hide Inv, Stepped, Moved, ResourceOffers, StatusUpdate, FrameworkMessage;
    match e {
      case Offers(waiting, offers, choices) =>
        OffersMove(w, waiting, offers, choices);
        OffersStep(w, e, Apply(w, e));
      case Deliver(k) =>
        DeliverSteps(w, k);
      case _ =>
        OthersLeaveCluster(w, e);
        NothingSteps(w, e, Apply(w, e));
    }
  }
}
