/** The invariant of the protocol: it holds initially and every event keeps it. */
module Invariants {
  import opened Text
  import opened Types
  import opened Wire
  import opened HostConfigs
  import opened StateMachines
  import opened Schedulers
  import opened Effects
  import opened CephExecutors
  import opened Protocol
  import opened Counters
  import opened Identity
  import opened Messages
  import opened Supply
  import opened Disks
  import opened FlexUp
  import opened Assignments

  function BookOf(w: World): Messages.Book {
    Identity.Book(Launches(w.sched.calls))
  }

  /** Accepted OSD instances are in the queue, in the list, or launched; no entry of the list is empty. */
  predicate Demanded(w: World) {
    && AllPositive(w.sched.requests)
    && (forall i :: 0 <= i < |w.queue| ==> Acceptable(w.queue[i]))
    && w.accepted == OsdInstances(w.queue) + Sum(w.sched.requests) + FlexLaunches(w.sched.calls)
  }

  /** What concerns the scheduler by itself. */
  ghost predicate SchedulerSound(w: World) {
    && Counted(w.sched.c, w.stuck)
    && Bounded(w.sched.c, FlexLaunches(w.sched.calls))
    && Logged(w.sched.c, Launches(w.sched.calls))
    && DisksSound(w.sched.hosts, w.sched.calls)
    && Demanded(w)
    && Registered(w.sched.calls)
  }

  /** What connects the scheduler with the executors and the channels. */
  ghost predicate ExchangeSound(w: World) {
    && Linked(w.sched.c.tasks, w.execs, w.reports)
    && Directed(w.sched.c.tasks, BookOf(w), w.execs, w.taken, Sends(w.sched.calls))
    && Supplied(w.sched.c, BookOf(w), ChannelsOf(w), w.execs)
    && IdsConserved(w.received, w.sched.c.pendingIds, Sends(w.sched.calls))
    && (forall r :: r in w.replies ==> IsInt32(r.osdId))
    && w.taken <= multiset(Sends(w.sched.calls))
  }

  ghost predicate Inv(w: World) {
    SchedulerSound(w) && ExchangeSound(w)
  }

  lemma InitialIsSound(w: World)
    requires Initial(w)
    ensures Inv(w)
  {
    var c := w.sched.c;
    forall t ensures CountedType(c.tasks, w.stuck, t, Of(c, t)) && OfType(c.tasks, t) == {} {
      assert RunningOf(c.tasks, t) == {} && StagingOf(c.tasks, t) == {} && StuckOf(c.tasks, w.stuck, t) == {};
    }
  }

  lemma BookedWhenLogged(c: Cluster, infos: seq<TaskInfo>)
    requires Logged(c, infos)
    ensures Booked(c, Identity.Book(infos))
  {
  }

  lemma SuppliedSame(c: Cluster, c': Cluster, book: Messages.Book, ch: Channels, execs: Execs)
    requires Supplied(c, book, ch, execs) && c' == c.(pendingIds := c'.pendingIds)
    ensures Supplied(c', book, ch, execs)
  {
  }

  lemma StatusKeepsSupply(c: Cluster, c': Cluster, book: Messages.Book, ch: Channels, execs: Execs, k: string,
          to: Status)
    requires Supplied(c, book, ch, execs) && k in c.tasks && c'.mon.index == c.mon.index
    requires c'.tasks == c.tasks[k := c.tasks[k].(currentStatus := to)]
    ensures Supplied(c', book, ch, execs)
  {
    OfTypeUpdate(c.tasks, k, c.tasks[k].(currentStatus := to), OSD);
    assert OfType(c'.tasks, OSD) == OfType(c.tasks, OSD);
  }

  // ---------------------------------------------------------------- assignments

  /** The cluster after an assignment. */
  function Assigned(c: Cluster, k: string, rest: seq<int>): Cluster
    requires k in c.tasks
  {
    c.(pendingIds := rest, tasks := c.tasks[k := c.tasks[k].(currentStatus := STARTING)])
  }

  lemma AssignedIsStarting(c: Cluster, k: string, rest: seq<int>)
    requires k in c.tasks && IsWaiting(c.tasks[k])
    ensures Assigned(c, k, rest) == SetStatus(c, k, STARTING).(pendingIds := rest)
    ensures forall t :: Of(SetStatus(c, k, STARTING), t) == Of(c, t)
  {
  }

  lemma AssignCounts(c: Cluster, stuck: set<string>, k: string, rest: seq<int>)
    requires Counted(c, stuck) && k in c.tasks && IsWaiting(c.tasks[k])
    ensures Counted(Assigned(c, k, rest), stuck)
  {
    AssignedIsStarting(c, k, rest);
    WaitingChangeCounts(c, stuck, k, STARTING);
    CountedSame(SetStatus(c, k, STARTING), Assigned(c, k, rest), stuck);
  }

  lemma AssignLogs(c: Cluster, infos: seq<TaskInfo>, k: string, rest: seq<int>)
    requires Logged(c, infos) && k in c.tasks && IsWaiting(c.tasks[k])
    ensures Logged(Assigned(c, k, rest), infos)
  {
    AssignedIsStarting(c, k, rest);
    StatusKeepsLog(c, SetStatus(c, k, STARTING), infos, k, STARTING);
    LoggedSame(SetStatus(c, k, STARTING), Assigned(c, k, rest), infos);
  }

  lemma AssignSound(w: World, k: string)
    requires SchedulerSound(w) && k in w.sched.c.tasks && IsWaiting(w.sched.c.tasks[k]) && w.sched.c.pendingIds != []
    ensures SchedulerSound(w.(sched := AssignOne(w.sched, k)))
  {
    hide Counted, Logged, DisksSound, Registrations, SetStatus, IsWaiting;
    var s, c := w.sched, w.sched.c;
    var last := |c.pendingIds| - 1;
    AssignEffect(s, k);
    AssignCounts(c, w.stuck, k, c.pendingIds[..last]);
    AssignLogs(c, Launches(s.calls), k, c.pendingIds[..last]);
    RegistrationsAppend(Sends(s.calls), LaunchEnvelope(c.tasks[k], c.pendingIds[last]));
    OtherCallKeepsDisks(s.hosts, s.calls, SendMessage(LaunchEnvelope(c.tasks[k], c.pendingIds[last])));
  }

  lemma AssignLinked(tasks: Tasks, execs: Execs, reports: Reports, k: string)
    requires Linked(tasks, execs, reports) && k in tasks && IsWaiting(tasks[k])
    ensures Linked(tasks[k := tasks[k].(currentStatus := STARTING)], execs, reports)
    ensures ExecOf(execs, k) == AwaitingId || ExecOf(execs, k) == Gone
  {
    assert LinkedTask(tasks, execs, reports, k);
    var tasks' := tasks[k := tasks[k].(currentStatus := STARTING)];
    forall j ensures LinkedTask(tasks', execs, reports, j) {
      assert LinkedTask(tasks, execs, reports, j);
    }
  }

  lemma AssignExchange(w: World, k: string)
    requires Inv(w) && k in w.sched.c.tasks && IsWaiting(w.sched.c.tasks[k]) && w.sched.c.pendingIds != []
    ensures ExchangeSound(w.(sched := AssignOne(w.sched, k)))
  {
    hide Counted, Bounded, DisksSound, Linked, Directed, Supplied, IdsConserved, Booked, Launches, Sends, AssignOne;
    var s, c, book := w.sched, w.sched.c, BookOf(w);
    var osdId := c.pendingIds[|c.pendingIds| - 1];
    AssignEffect(s, k);
    TaskImpliesMonToken(c, Launches(s.calls), k);
    AssignLinked(c.tasks, w.execs, w.reports, k);
    AssignKeepsDirected(c, book, w.execs, w.taken, Sends(s.calls), k, osdId);
    AssignKeepsSupply(c, book, ChannelsOf(w), w.execs, k, osdId);
    SuppliedSame(c.(tasks := c.tasks[k := c.tasks[k].(currentStatus := STARTING)]), AssignOne(s, k).c, book,
                 ChannelsOf(w.(sched := AssignOne(s, k))), w.execs);
    AssignKeepsIds(w.received, c.pendingIds, Sends(s.calls), LaunchEnvelope(c.tasks[k], osdId));
  }

  lemma AssignKeepsInv(w: World, k: string)
    requires Inv(w) && k in w.sched.c.tasks && IsWaiting(w.sched.c.tasks[k]) && w.sched.c.pendingIds != []
    ensures Inv(w.(sched := AssignOne(w.sched, k)))
  {
    AssignSound(w, k);
    AssignExchange(w, k);
  }

  ghost predicate WaitingFrom(tasks: Tasks, ids: seq<string>, n: nat) {
    forall j :: n <= j < |ids| ==> ids[j] in tasks && IsWaiting(tasks[ids[j]])
  }

  lemma WaitingLater(tasks: Tasks, ids: seq<string>, n: nat)
    requires Distinct(ids) && n < |ids| && WaitingFrom(tasks, ids, n)
    ensures WaitingFrom(tasks[ids[n] := tasks[ids[n]].(currentStatus := STARTING)], ids, n + 1)
  {
  }

  lemma AssignNext(w: World, s: Sched, ids: seq<string>, n: nat)
    requires Inv(w.(sched := s)) && s.c.pendingIds != []
    requires Distinct(ids) && n < |ids| && WaitingFrom(s.c.tasks, ids, n)
    ensures var s' := AssignOne(s, ids[n]);
            Inv(w.(sched := s')) && s'.c.phase == s.c.phase && WaitingFrom(s'.c.tasks, ids, n + 1)
  {
    AssignKeepsInv(w.(sched := s), ids[n]);
    AssignEffect(s, ids[n]);
    WaitingLater(s.c.tasks, ids, n);
  }

  lemma {:induction false} AssigningKeepsInv(w: World, s: Sched, ids: seq<string>, n: nat)
    requires Inv(w.(sched := s)) && Distinct(ids) && WaitingFrom(s.c.tasks, ids, 0)
    requires n <= |ids| && n <= |s.c.pendingIds| && AllKnown(s.c.tasks, ids)
    ensures var s' := AssignFirst(s, ids, n);
            Inv(w.(sched := s')) && s'.c.phase == s.c.phase && WaitingFrom(s'.c.tasks, ids, n)
  {
    hide Inv, AssignOne, IsWaiting, Distinct;
    if n > 0 {
      AssigningKeepsInv(w, s, ids, n - 1);
      AssignNext(w, AssignFirst(s, ids, n - 1), ids, n - 1);
    }
  }

  // ---------------------------------------------------------------- rounds

  /** Once the flag is set, the initial MON is staging, and nothing more can be launched in this callback. */
  ghost predicate FlagSound(p: Progress) {
    p.initial ==> p.s.c.phase == BOOTSTRAP_MON && p.s.c.mon.staging >= 1
  }

  lemma FlagStopsLaunches(p: Progress, o: Offer, phase: Phase, ch: Choice, stuck: set<string>)
    requires FlagSound(p) && Counted(p.s.c, stuck) && p.initial
    ensures LaunchIn(p, o, phase, ch) == None
  {
    PreparedKeeps(p.s, o);
  }

  lemma QuietKeepsInv(w: World, s': Sched)
    requires Inv(w) && Quiet(w.sched, s') && DisksSound(s'.hosts, s'.calls)
    ensures Inv(w.(sched := s'))
  {
    hide Counted, Logged, Bounded, DisksSound, Registrations, Directed;
    QuietCounts(w.sched, s', w.stuck);
    QuietBounds(w.sched, s');
    QuietKeepsLog(w.sched, s');
    QuietKeepsMonToken(w.sched, s');
    forall j ensures LinkedTask(s'.c.tasks, w.execs, w.reports, j) {
      assert LinkedTask(w.sched.c.tasks, w.execs, w.reports, j);
    }
  }

  lemma LaunchKeepsDemand(w: World, s': Sched, info: TaskInfo, ch: Choice)
    requires Demanded(w) && NewTask(w.sched, s', info, ch)
    ensures Demanded(w.(sched := s'))
  {
    if w.sched.c.phase == WAITING_REQUEST {
      TakeOne(w.sched.requests);
    }
  }

  lemma LaunchSound(w: World, s': Sched, info: TaskInfo, ch: Choice)
    requires SchedulerSound(w) && NewTask(w.sched, s', info, ch) && DisksSound(s'.hosts, s'.calls)
    requires info.initial <==> info.taskType == MON && info.token == 0
    requires MayBeInitialMon(w.sched.c.tasks, ch.configMon)
    ensures SchedulerSound(w.(sched := s'))
  {
    var c, infos := w.sched.c, Launches(w.sched.calls);
    MonTokenSpent(c, BookOf(w), w.stuck, info.taskType, info.token);
    TaskIdIsFresh(c, BookOf(w), info);
    LaunchCounts(c, w.stuck, info);
    LaunchBounds(w.sched, s', info, ch, w.stuck);
    LaunchKeepsLog(c, infos, w.stuck, info, ch);
    LaunchKeepsDemand(w, s', info, ch);
    LaunchKeepsRegistered(w.sched, s', info, ch);
  }

  lemma LaunchLinked(tasks: Tasks, execs: Execs, reports: Reports, info: TaskInfo)
    requires Linked(tasks, execs, reports) && info.taskId !in tasks
    ensures Linked(tasks[info.taskId := RecordFor(info)], execs, reports)
  {
    var tasks' := tasks[info.taskId := RecordFor(info)];
    forall j ensures LinkedTask(tasks', execs, reports, j) {
      assert LinkedTask(tasks, execs, reports, j);
    }
  }

  lemma LaunchExchange(w: World, s': Sched, info: TaskInfo, ch: Choice)
    requires Inv(w) && NewTask(w.sched, s', info, ch)
    requires info.initial <==> info.taskType == MON && info.token == 0
    requires MayBeInitialMon(s'.c.tasks, ch.registerMon)
    ensures ExchangeSound(w.(sched := s'))
  {
    var c, book := w.sched.c, BookOf(w);
    MonTokenSpent(c, book, w.stuck, info.taskType, info.token);
    TaskIdIsFresh(c, book, info);
    assert c.mon.index == 0 ==> book == map[];
    LaunchExchangeParts(w, s', info, ch);
  }

  lemma LaunchExchangeParts(w: World, s': Sched, info: TaskInfo, ch: Choice)
    requires ExchangeSound(w) && Booked(w.sched.c, BookOf(w)) && NewTask(w.sched, s', info, ch)
    requires info.initial <==> info.taskType == MON && info.token == 0
    requires MayBeInitialMon(s'.c.tasks, ch.registerMon)
    requires info.token == Of(w.sched.c, info.taskType).index >= 0 && info.taskId !in w.sched.c.tasks
    requires !info.initial ==> w.sched.c.mon.index >= 1
    requires w.sched.c.mon.index == 0 ==> BookOf(w) == map[]
    ensures ExchangeSound(w.(sched := s'))
  {
    hide Linked, Directed, Supplied, IdsConserved, Booked, Launches, Sends, OfType;
    var c, book := w.sched.c, BookOf(w);
    LogGrows(Launches(w.sched.calls), info);
    LaunchLinked(c.tasks, w.execs, w.reports, info);
    LaunchKeepsDirected(c, book, w.execs, w.taken, Sends(w.sched.calls), info, Registration(info, ch));
    LaunchKeepsSupply(c, book, ChannelsOf(w), w.execs, info, ch);
    RegistrationsKeepIds(w.received, c.pendingIds, Sends(w.sched.calls), Registration(info, ch));
  }

  lemma QuietRoundKeepsInv(w: World, p: Progress, o: Offer, phase: Phase, ch: Choice)
    requires w.sched == p.s && Inv(w) && FlagSound(p) && phase == p.s.c.phase && LaunchIn(p, o, phase, ch) == None
    ensures var p' := OfferStep(p, o, phase, ch);
            Inv(w.(sched := p'.s)) && FlagSound(p') && p'.s.c.phase == phase
  {
    var p' := OfferStep(p, o, phase, ch);
    RoundKeepsDisks(p, o, phase, ch);
    QuietRound(p, o, phase, ch);
    QuietKeepsInv(w, p'.s);
    assert Of(p'.s.c, MON).staging == Of(p.s.c, MON).staging;
  }

  lemma LaunchRoundKeepsInv(w: World, p: Progress, o: Offer, phase: Phase, ch: Choice)
    requires w.sched == p.s && Inv(w) && !p.initial && phase == p.s.c.phase && LaunchIn(p, o, phase, ch).Some?
    requires ChoiceFits(p, o, phase, ch)
    ensures Inv(w.(sched := OfferStep(p, o, phase, ch).s))
  {
    var s', info := OfferStep(p, o, phase, ch).s, LaunchIn(p, o, phase, ch).value;
    RoundKeepsDisks(p, o, phase, ch);
    LaunchRound(p, o, phase, ch);
    LaunchSound(w, s', info, ch);
    LaunchExchange(w, s', info, ch);
  }

  lemma LaunchRoundKeepsFlag(p: Progress, o: Offer, phase: Phase, ch: Choice, stuck: set<string>)
    requires Counted(p.s.c, stuck) && !p.initial && phase == p.s.c.phase && LaunchIn(p, o, phase, ch).Some?
    ensures var p' := OfferStep(p, o, phase, ch);
            FlagSound(p') && p'.s.c.phase == phase
  {
    hide OfferStep;
    LaunchRound(p, o, phase, ch);
    NoCounterNegative(p.s.c, stuck, MON);
  }

  lemma RoundKeepsInv(w: World, p: Progress, o: Offer, phase: Phase, ch: Choice)
    requires w.sched == p.s && Inv(w) && FlagSound(p) && phase == p.s.c.phase && ChoiceFits(p, o, phase, ch)
    ensures var p' := OfferStep(p, o, phase, ch);
            Inv(w.(sched := p'.s)) && FlagSound(p') && p'.s.c.phase == phase
  {
    if p.initial {
      FlagStopsLaunches(p, o, phase, ch, w.stuck);
    }
    if LaunchIn(p, o, phase, ch) == None {
      QuietRoundKeepsInv(w, p, o, phase, ch);
    } else {
      LaunchRoundKeepsInv(w, p, o, phase, ch);
      LaunchRoundKeepsFlag(p, o, phase, ch, w.stuck);
    }
  }

  lemma PrefixFits(p: Progress, offers: seq<Offer>, choices: seq<Choice>, phase: Phase)
    requires |choices| == |offers| > 0 && ChoicesFit(p, offers, choices, phase)
    ensures var n := |offers| - 1;
            && ChoicesFit(p, offers[..n], choices[..n], phase)
            && ChoiceFits(OfferSteps(p, offers[..n], choices[..n], phase), offers[n], phase, choices[n])
  {
    hide ChoiceFits, OfferSteps;
    var n := |offers| - 1;
    forall i | 0 <= i < n
      ensures ChoiceFits(OfferSteps(p, offers[..n][..i], choices[..n][..i], phase),
                         offers[..n][i], phase, choices[..n][i])
    {
      assert offers[..n][..i] == offers[..i] && choices[..n][..i] == choices[..i];
    }
  }

  lemma {:induction false} RoundsKeepInv(w: World, p: Progress, offers: seq<Offer>, choices: seq<Choice>, phase: Phase)
    requires w.sched == p.s && Inv(w) && FlagSound(p) && phase == p.s.c.phase
    requires |choices| == |offers| && ChoicesFit(p, offers, choices, phase)
    ensures var p' := OfferSteps(p, offers, choices, phase);
            Inv(w.(sched := p'.s)) && FlagSound(p') && p'.s.c.phase == phase
  {
    hide Inv, OfferStep, ChoiceFits;
    if offers != [] {
      var n := |offers| - 1;
      PrefixFits(p, offers, choices, phase);
      RoundsKeepInv(w, p, offers[..n], choices[..n], phase);
      var p1 := OfferSteps(p, offers[..n], choices[..n], phase);
      RoundKeepsInv(w.(sched := p1.s), p1, offers[n], phase, choices[n]);
    }
  }

  lemma OffersKeepInv(w: World, waiting: seq<string>, offers: seq<Offer>, choices: seq<Choice>)
    requires Inv(w) && Enabled(w, Offers(waiting, offers, choices))
    ensures Inv(Apply(w, Offers(waiting, offers, choices)))
  {
    hide Inv, AssignFirst, OfferSteps;
    WaitingListed(w.sched.c.tasks, waiting);
    WaitingOnce(w.sched.c.tasks, waiting);
    assert w.(sched := w.sched) == w;
    AssigningKeepsInv(w, w.sched, waiting, Min(|waiting|, |w.sched.c.pendingIds|));
    var s1 := HandleWaiting(w.sched, waiting);
    RoundsKeepInv(w.(sched := s1), Progress(s1, false), offers, choices, s1.c.phase);
  }

  // ---------------------------------------------------------------- reports to the scheduler

  /** The cluster after a legal report. */
  function Informed(c: Cluster, k: string, to: Status): Cluster {
    if to == WAITING_OSDID then SetStatus(c, k, to) else SetStatusAndMove(c, k, to)
  }

  lemma InformedEffect(c: Cluster, k: string, to: Status)
    requires k in c.tasks
    ensures var c' := Informed(c, k, to);
            && c'.tasks == c.tasks[k := c.tasks[k].(currentStatus := to)] && c'.pendingIds == c.pendingIds
            && (forall t :: Of(c', t).index == Of(c, t).index)
            && c'.mon.index == c.mon.index
  {
    SetStatusEffect(c, k, to);
    MovedCounts(SetStatus(c, k, to));
    assert Of(Informed(c, k, to), MON).index == Of(c, MON).index;
  }

  lemma ReportCounts(c: Cluster, stuck: set<string>, k: string, to: Status)
    requires Counted(c, stuck) && k in c.tasks && Legal(c.tasks[k].taskType, c.tasks[k].currentStatus, to)
    requires to == WAITING_OSDID || to == RUNNING || to == FAILED
    ensures Counted(Informed(c, k, to), StuckWith(stuck, k, c.tasks[k].currentStatus, to))
  {
    if to == WAITING_OSDID {
      WaitingChangeCounts(c, stuck, k, to);
    } else {
      MovingChangeCounts(c, stuck, k, to);
    }
  }

  lemma MovedCounts(c: Cluster)
    ensures forall t :: Of(c.(phase := PhaseOf(c)), t) == Of(c, t)
  {
  }

  /** The state after the oldest report of a task was delivered. */
  lemma DeliverEffect(w: World, k: string) returns (to: Status)
    requires Linked(w.sched.c.tasks, w.execs, w.reports) && Enabled(w, Deliver(k))
    ensures var c, q := w.sched.c, ReportsOf(w.reports, k);
            && k in c.tasks && to == StatusFor(q[0]) && Legal(c.tasks[k].taskType, c.tasks[k].currentStatus, to)
            && (to == WAITING_OSDID || to == RUNNING || to == FAILED)
            && Apply(w, Deliver(k)) == w.(
                 sched := w.sched.(c := Informed(c, k, to)),
                 reports := w.reports[k := q[1..]], stuck := StuckWith(w.stuck, k, c.tasks[k].currentStatus, to))
  {
    var c, q := w.sched.c, ReportsOf(w.reports, k);
    assert LinkedTask(c.tasks, w.execs, w.reports, k);
    NextReportIsLegal(c.tasks[k].taskType, c.tasks[k].currentStatus, ExecOf(w.execs, k), q);
    to := StatusFor(q[0]);
  }

  lemma DeliverLinked(tasks: Tasks, execs: Execs, reports: Reports, k: string)
    requires Linked(tasks, execs, reports) && k in tasks && ReportsOf(reports, k) != []
    ensures var q := ReportsOf(reports, k);
            Linked(tasks[k := tasks[k].(currentStatus := StatusFor(q[0]))], execs, reports[k := q[1..]])
  {
    var q := ReportsOf(reports, k);
    assert LinkedTask(tasks, execs, reports, k);
    NextReportIsLegal(tasks[k].taskType, tasks[k].currentStatus, ExecOf(execs, k), q);
    var tasks', reports' := tasks[k := tasks[k].(currentStatus := StatusFor(q[0]))], reports[k := q[1..]];
    forall j ensures LinkedTask(tasks', execs, reports', j) {
      assert LinkedTask(tasks, execs, reports, j);
    }
  }

  lemma DeliverKeepsInv(w: World, k: string)
    requires Inv(w) && Enabled(w, Deliver(k))
    ensures Inv(Apply(w, Deliver(k)))
  {
    hide Counted, DisksSound, Directed, Supplied, Logged, LinkedTask, Legal, Apply;
    var c, infos := w.sched.c, Launches(w.sched.calls);
    var to := DeliverEffect(w, k);
    ReportCounts(c, w.stuck, k, to);
    InformedEffect(c, k, to);
    StatusKeepsLog(c, Informed(c, k, to), infos, k, to);
    ChangeBounds(c, k, to, FlexLaunches(w.sched.calls));
    DeliverLinked(c.tasks, w.execs, w.reports, k);
    assert LinkedTask(c.tasks, w.execs, w.reports, k);
    ReportKeepsDirected(c.tasks, BookOf(w), w.execs, w.taken, Sends(w.sched.calls), w.reports, k);
    StatusKeepsSupply(c, Informed(c, k, to), BookOf(w), ChannelsOf(w), w.execs, k, to);
  }

  lemma DiskReportKeepsInv(w: World, message: Option<string>)
    requires Inv(w) && Enabled(w, DiskReport(message))
    ensures Inv(Apply(w, DiskReport(message)))
  {
    hide Counted, Bounded, Logged, DisksSound, Linked, Directed, Supplied, Launches, Sends, FlexLaunches, IdsConserved;
    var news := ReadDiskNews(message);
    if news.Ready? {
      ReportKeepsDisks(w.sched, news.hostname);
    }
  }

  /** The state after a reply arrived. */
  lemma ArrivalEffect(w: World, reply: Reply, mon: TaskState)
    requires Enabled(w, IdArrives(reply, mon)) && IsInt32(reply.osdId)
    ensures var ids := w.sched.c.pendingIds;
            var counts := mon.executorId == reply.executorId;
            Apply(w, IdArrives(reply, mon)) == w.(
              sched := w.sched.(c := w.sched.c.(pendingIds := if counts then ids + [reply.osdId] else ids)),
              replies := w.replies - multiset{reply},
              received := if counts then w.received + [reply.osdId] else w.received)
  {
    IntTextRoundTrip(reply.osdId);
  }

  lemma ArrivalKeepsInv(w: World, reply: Reply, mon: TaskState)
    requires Inv(w) && Enabled(w, IdArrives(reply, mon))
    ensures Inv(Apply(w, IdArrives(reply, mon)))
  {
    hide Apply, Counted, Logged, DisksSound, Linked, Directed, Supplied;
    var c := w.sched.c;
    ArrivalEffect(w, reply, mon);
    var c' := Apply(w, IdArrives(reply, mon)).sched.c;
    CountedSame(c, c', w.stuck);
    LoggedSame(c, c', Launches(w.sched.calls));
    BookedWhenLogged(c, Launches(w.sched.calls));
    ArrivalKeepsSupply(c, BookOf(w), ChannelsOf(w), w.execs, reply, mon);
    SuppliedSame(c, c', BookOf(w), ChannelsOf(Apply(w, IdArrives(reply, mon))), w.execs);
  }
}
