/** What holds over whole runs. */
module Safety {
  import opened Text
  import opened Types
  import opened Wire
  import opened StateMachines
  import opened Schedulers
  import opened Effects
  import opened CephExecutors
  import opened Protocol
  import opened Counters
  import opened Identity
  import opened Messages
  import opened Supply
  import opened Disks
  import opened Invariants
  import opened Runs
  import opened Evolution

  function TasksOf(w: World): Tasks {
    w.sched.c.tasks
  }

  function LaunchesOf(w: World): seq<TaskInfo> {
    Launches(w.sched.calls)
  }

  function FlexLaunchesOf(w: World): nat {
    FlexLaunches(w.sched.calls)
  }

  /** One step of a run. */
  lemma RunStep(ws: seq<World>, es: seq<Event>, i: nat)
    requires IsRun(ws, es) && i < |es|
    ensures Inv(ws[i]) && Inv(ws[i + 1]) && Enabled(ws[i], es[i]) && ws[i + 1] == Apply(ws[i], es[i])
    ensures Stepped(ws[i], es[i], ws[i + 1])
  {
    hide Inv, Enabled, Apply, Initial, Stepped;
    RunsAreSound(ws, es, i);
    assert Enabled(ws[i], es[i]) && ws[i + 1] == Apply(ws[i], es[i]);
    StepKeepsInv(ws[i], es[i]);
    EventSteps(ws[i], es[i]);
  }

  // ---------------------------------------------------------------- the life of a task

  function Rank(st: Status): int {
    match st
    case STAGING => 0
    case WAITING_OSDID => 1
    case STARTING => 2
    case RUNNING => 3
    case FAILED => 4
    case _ => 5
  }

  predicate SameTask(r: TaskState, r': TaskState) {
    r' == r.(currentStatus := r'.currentStatus)
  }

  /** In every step a record keeps its identity and at most takes one legal status step; new records are STAGING. */
  lemma RecordsStepLegally(ws: seq<World>, es: seq<Event>, i: nat)
    requires IsRun(ws, es) && i < |es|
    ensures RecordsStep(TasksOf(ws[i]), TasksOf(ws[i + 1]))
  {
    hide Inv, Enabled, Apply, IsRun, RecordsStep;
    RunStep(ws, es, i);
  }

  /** Over any stretch of a run a record is never lost, never renamed, and never goes back. */
  lemma {:induction false} RecordsOnlyAdvance(ws: seq<World>, es: seq<Event>, i: nat, j: nat, k: string)
    requires IsRun(ws, es) && i <= j < |ws| && k in TasksOf(ws[i])
    ensures k in TasksOf(ws[j]) && SameTask(TasksOf(ws[i])[k], TasksOf(ws[j])[k])
    ensures Rank(TasksOf(ws[i])[k].currentStatus) <= Rank(TasksOf(ws[j])[k].currentStatus)
  {
    hide Enabled, Apply, Initial;
    if i < j {
      RecordsOnlyAdvance(ws, es, i, j - 1, k);
      RecordsStepLegally(ws, es, j - 1);
    }
  }

  /** The first RUNNING report of an OSD finds its record STARTING, and that of any other task finds it STAGING;
      every report that arrives is a legal step for the record it meets. */
  lemma ReportsMeetTheirRecords(ws: seq<World>, es: seq<Event>, i: nat, k: string)
    requires IsRun(ws, es) && i < |es| && es[i] == Deliver(k)
    ensures k in TasksOf(ws[i])
    ensures var r, u := TasksOf(ws[i])[k], ReportsOf(ws[i].reports, k)[0];
            && Legal(r.taskType, r.currentStatus, StatusFor(u)) && k in TasksOf(ws[i + 1])
            && TasksOf(ws[i + 1])[k] == r.(currentStatus := StatusFor(u))
            && (u == Running ==> r.currentStatus == if r.taskType == OSD then STARTING else STAGING)
  {
    hide SchedulerSound, Directed, Supplied, IdsConserved;
    RunsAreSound(ws, es, i);
    var c := ws[i].sched.c;
    assert Enabled(ws[i], es[i]) && ws[i + 1] == Apply(ws[i], es[i]);
    var to := DeliverEffect(ws[i], k);
    InformedEffect(c, k, to);
    assert LinkedTask(c.tasks, ws[i].execs, ws[i].reports, k);
    NextReportIsLegal(c.tasks[k].taskType, c.tasks[k].currentStatus,
                      ExecOf(ws[i].execs, k), ReportsOf(ws[i].reports, k));
    if ReportsOf(ws[i].reports, k)[0] == Running {
      RunningMeets(c.tasks[k].taskType, c.tasks[k].currentStatus, ExecOf(ws[i].execs, k), ReportsOf(ws[i].reports, k));
    }
  }

  lemma RunningMeets(t: TaskType, st: Status, e: Exec, q: seq<Update>)
    requires Consistent(t, st, e, q) && q != [] && q[0] == Running
    ensures st == if t == OSD then STARTING else STAGING
  {
  }

  lemma {:induction false} ServedThroughout(ws: seq<World>, es: seq<Event>, i: nat)
    requires IsRun(ws, es) && i < |ws|
    ensures AllServed(TasksOf(ws[i]), Sends(ws[i].sched.calls))
  {
    hide Enabled, Apply, Inv, AllServed, RecordsStep, AllJustified;
    if i == 0 {
      NoneToServe(Sends(ws[0].sched.calls));
    } else {
      ServedThroughout(ws, es, i - 1);
      RunStep(ws, es, i - 1);
    }
  }

  lemma NoneToServe(sent: seq<Envelope>)
    ensures AllServed(map[], sent)
  {
  }

  /** The executor was sent an OSD id by message number `n`. */
  predicate SentAt(sent: seq<Envelope>, executorId: string, n: int) {
    0 <= n < |sent| && sent[n].message.LaunchOsd? && sent[n].executorId == executorId
  }

  lemma {:induction false} TargetSentAt(sent: seq<Envelope>, x: string) returns (n: nat)
    requires x in Targets(sent)
    ensures SentAt(sent, x, n)
  {
    var last := |sent| - 1;
    if sent[last].message.LaunchOsd? && sent[last].executorId == x {
      n := last;
    } else {
      n := TargetSentAt(sent[..last], x);
    }
  }

  /** An OSD that starts or runs was sent exactly one id; one that is staging or waits was sent none. */
  lemma OneIdPerOsd(ws: seq<World>, es: seq<Event>, i: nat, k: string)
    requires IsRun(ws, es) && i < |ws| && k in TasksOf(ws[i]) && TasksOf(ws[i])[k].taskType == OSD
    ensures var r, sent := TasksOf(ws[i])[k], Sends(ws[i].sched.calls);
            && (forall m, n :: SentAt(sent, r.executorId, m) && SentAt(sent, r.executorId, n) ==> m == n)
            && (r.currentStatus == STARTING || r.currentStatus == RUNNING ==> exists n :: SentAt(sent, r.executorId, n))
            && (r.currentStatus == STAGING || r.currentStatus == WAITING_OSDID ==>
                forall n :: !SentAt(sent, r.executorId, n))
  {
    hide IsRun, SchedulerSound, Supplied, IdsConserved, Linked, Addressed, Sends, Targets;
    var r, sent := TasksOf(ws[i])[k], Sends(ws[i].sched.calls);
    RunsAreSound(ws, es, i);
    ServedThroughout(ws, es, i);
    if r.currentStatus == STARTING || r.currentStatus == RUNNING {
      var n := TargetSentAt(sent, r.executorId);
    }
    forall n | SentAt(sent, r.executorId, n) ensures r.currentStatus != STAGING && r.currentStatus != WAITING_OSDID {
      assert Targeted(TasksOf(ws[i]), ws[i].execs, ws[i].taken, sent[n]);
    }
  }

  // ---------------------------------------------------------------- counters and phase

  /** The tasks in the history variable `stuck` are those whose failure was reported while they were WAITING_OSDID
      or STARTING. */
  ghost predicate FailedUncounted(ws: seq<World>, es: seq<Event>, j: int, k: string) {
    && 0 <= j < |es| && j < |ws| && es[j] == Deliver(k) && IsFailure(ws[j], es[j]) && k in TasksOf(ws[j])
    && (TasksOf(ws[j])[k].currentStatus == WAITING_OSDID || TasksOf(ws[j])[k].currentStatus == STARTING)
  }

  lemma StuckStep(w: World, e: Event, k: string)
    requires Inv(w) && Enabled(w, e)
    ensures k in Apply(w, e).stuck <==>
            k in w.stuck || (e == Deliver(k) && IsFailure(w, e) && k in TasksOf(w)
                             && (TasksOf(w)[k].currentStatus == WAITING_OSDID
                                 || TasksOf(w)[k].currentStatus == STARTING))
  {
    hide Inv, Stepped;
    if !e.Deliver? {
      EventSteps(w, e);
      StuckOnlyByDelivery(w, e);
    }
  }

  lemma StuckOnlyByDelivery(w: World, e: Event)
    requires Enabled(w, e) && !e.Deliver?
    ensures Apply(w, e).stuck == w.stuck
  {
    hide ResourceOffers, StatusUpdate, FrameworkMessage, OnLaunch, OnMessage;
  }

  lemma {:induction false} StuckMeaning(ws: seq<World>, es: seq<Event>, i: nat, k: string)
    requires IsRun(ws, es) && i < |ws|
    ensures k in ws[i].stuck <==> exists j :: j < i && FailedUncounted(ws, es, j, k)
  {
    hide Inv, Enabled, Apply, Stepped;
    if i > 0 {
      StuckMeaning(ws, es, i - 1, k);
      RunStep(ws, es, i - 1);
      StuckStep(ws[i - 1], es[i - 1], k);
      if k in ws[i].stuck && k !in ws[i - 1].stuck {
        assert FailedUncounted(ws, es, i - 1, k);
      }
    }
  }

  /** Over every run the counters are a census of the task table, no counter is negative, the phase follows from the
      running counters, and the populations are bounded. */
  lemma CountersAreACensus(ws: seq<World>, es: seq<Event>, i: nat, t: TaskType)
    requires IsRun(ws, es) && i < |ws|
    ensures var c := ws[i].sched.c;
            && Of(c, t).running == |RunningOf(c.tasks, t)|
            && Of(c, t).staging == |StagingOf(c.tasks, t)| + |StuckOf(c.tasks, ws[i].stuck, t)|
            && Of(c, t).running >= 0 && Of(c, t).staging >= 0
            && (t != OSD ==> StuckOf(c.tasks, ws[i].stuck, t) == {})
            && c.phase == PhaseOf(c)
            && Bounded(c, FlexLaunchesOf(ws[i]))
  {
    hide IsRun, Logged, DisksSound, ExchangeSound;
    RunsAreSound(ws, es, i);
    assert CountedType(ws[i].sched.c.tasks, ws[i].stuck, t, Of(ws[i].sched.c, t));
  }

  /** Every launch finds the cluster it needs: a MON only when none runs, an OSD only with a running MON, a gateway only
      with a running MON, three running OSDs and no running gateway. */
  lemma LaunchesFindTheirCluster(ws: seq<World>, es: seq<Event>, i: nat, n: nat)
    requires IsRun(ws, es) && i < |es| && |LaunchesOf(ws[i])| <= n < |LaunchesOf(ws[i + 1])|
    ensures LaunchesOf(ws[i]) <= LaunchesOf(ws[i + 1])
    ensures var tasks := TasksOf(ws[i]);
            match LaunchesOf(ws[i + 1])[n].taskType
            case MON => RunningOf(tasks, MON) == {}
            case OSD => RunningOf(tasks, MON) != {}
            case RADOSGW =>
              RunningOf(tasks, MON) != {} && |RunningOf(tasks, OSD)| >= 3 && RunningOf(tasks, RADOSGW) == {}
  {
    hide Initial, Logged, DisksSound, ExchangeSound, Enabled, Apply, RecordsStep, AllServed, Launches;
    RunStep(ws, es, i);
    var c := ws[i].sched.c;
    assert Justified(c, LaunchesOf(ws[i + 1])[n]);
    assert CountedType(c.tasks, ws[i].stuck, MON, Of(c, MON));
    assert CountedType(c.tasks, ws[i].stuck, OSD, Of(c, OSD));
    assert CountedType(c.tasks, ws[i].stuck, RADOSGW, Of(c, RADOSGW));
  }

  /** Without flex-up launches so far, a cluster that waits for requests is complete: one MON, three OSDs and one
      gateway run, nothing stages, and nothing was left behind. */
  lemma CompleteWhenWaiting(ws: seq<World>, es: seq<Event>, i: nat)
    requires IsRun(ws, es) && i < |ws| && ws[i].sched.c.phase == WAITING_REQUEST && FlexLaunchesOf(ws[i]) == 0
    ensures var tasks := TasksOf(ws[i]);
            && |RunningOf(tasks, MON)| == 1 && |RunningOf(tasks, OSD)| == 3 && |RunningOf(tasks, RADOSGW)| == 1
            && (forall t :: StagingOf(tasks, t) == {}) && ws[i].stuck == {}
  {
    hide IsRun, Logged, DisksSound, ExchangeSound;
    RunsAreSound(ws, es, i);
    BootstrapComplete(ws[i].sched.c, ws[i].stuck);
    assert ws[i].stuck == StuckOf(TasksOf(ws[i]), ws[i].stuck, OSD);
  }

  lemma {:induction false} NoFlexUpsBeforeWaiting(ws: seq<World>, es: seq<Event>, i: nat)
    requires IsRun(ws, es) && i < |ws|
    requires forall j :: 0 <= j < i ==> ws[j].sched.c.phase != WAITING_REQUEST
    ensures FlexLaunchesOf(ws[i]) == 0
  {
    hide Inv, Enabled, Apply, RecordsStep, AllServed, AllJustified, Launches;
    if i > 0 {
      NoFlexUpsBeforeWaiting(ws, es, i - 1);
      RunStep(ws, es, i - 1);
    }
  }

  /** The first time a run gets to WAITING_REQUEST, exactly one MON, three OSDs and one gateway run, and nothing stages,
      whatever failed on the way. */
  lemma FirstArrivalIsComplete(ws: seq<World>, es: seq<Event>, i: nat)
    requires IsRun(ws, es) && i < |ws| && ws[i].sched.c.phase == WAITING_REQUEST
    requires forall j :: 0 <= j < i ==> ws[j].sched.c.phase != WAITING_REQUEST
    ensures var tasks := TasksOf(ws[i]);
            && |RunningOf(tasks, MON)| == 1 && |RunningOf(tasks, OSD)| == 3 && |RunningOf(tasks, RADOSGW)| == 1
            && (forall t :: StagingOf(tasks, t) == {}) && ws[i].stuck == {}
  {
    hide IsRun;
    NoFlexUpsBeforeWaiting(ws, es, i);
    CompleteWhenWaiting(ws, es, i);
  }

  /** A single OSD that fails while it waits or starts during the bootstrap keeps every later world of the run in the
      first two phases: the cluster is never completed. */
  lemma {:induction false} StuckForever(ws: seq<World>, es: seq<Event>, i: nat, j: nat)
    requires IsRun(ws, es) && i <= j < |ws| && ws[i].stuck != {} && FlexLaunchesOf(ws[i]) == 0
    ensures ws[j].stuck != {} && FlexLaunchesOf(ws[j]) == 0
    ensures ws[j].sched.c.phase == BOOTSTRAP_MON || ws[j].sched.c.phase == BOOTSTRAP_OSD
  {
    hide Enabled, Apply, Initial, Logged, DisksSound, ExchangeSound, RecordsStep, AllServed, AllJustified, Launches;
    hide Counted, Bounded;
    if i < j {
      StuckForever(ws, es, i, j - 1);
      RunStep(ws, es, j - 1);
    }
    RunsAreSound(ws, es, j);
    StuckBlocksBootstrap(ws[j].sched.c, ws[j].stuck);
  }

  function PhaseRank(p: Phase): int {
    match p
    case RECONCILING_TASKS => 0
    case BOOTSTRAP_MON => 1
    case BOOTSTRAP_OSD => 2
    case BOOTSTRAP_RADOSGW => 3
    case WAITING_REQUEST => 4
  }

  /** As long as no failure is reported, the phase does not go back. */
  lemma {:induction false} PhaseOnlyAdvances(ws: seq<World>, es: seq<Event>, i: nat, j: nat)
    requires IsRun(ws, es) && i <= j < |ws|
    requires forall n :: i <= n < j ==> !IsFailure(ws[n], es[n])
    ensures RunningGrows(ws[i].sched.c, ws[j].sched.c)
    ensures PhaseRank(ws[i].sched.c.phase) <= PhaseRank(ws[j].sched.c.phase)
  {
    hide Enabled, Apply, Initial, Census, Bounded, Logged, DisksSound, ExchangeSound, RecordsStep, AllServed,
         AllJustified;
    hide IsFailure, Launches, FlexLaunches;
    if i < j {
      PhaseOnlyAdvances(ws, es, i, j - 1);
      RunStep(ws, es, j - 1);
    }
    RunsAreSound(ws, es, i);
    RunsAreSound(ws, es, j);
  }

  // ---------------------------------------------------------------- identities

  /** Tokens of a type are launched in strictly increasing order, no two launches share a task id or an executor id,
      and the launched tasks are exactly those in the table. */
  lemma LaunchesAreFresh(ws: seq<World>, es: seq<Event>, i: nat, m: nat, n: nat)
    requires IsRun(ws, es) && i < |ws| && m < n < |LaunchesOf(ws[i])|
    ensures var a, b := LaunchesOf(ws[i])[m], LaunchesOf(ws[i])[n];
            && (a.taskType == b.taskType ==> 0 <= a.token < b.token < Of(ws[i].sched.c, b.taskType).index)
            && a.taskId != b.taskId && a.executorId != b.executorId
            && a.taskId in TasksOf(ws[i]) && b.taskId in TasksOf(ws[i])
  {
    hide IsRun, Counted, DisksSound, ExchangeSound, AllConfigured, Launches, Identity.Book;
    RunsAreSound(ws, es, i);
    var infos := LaunchesOf(ws[i]);
    var book := Identity.Book(infos);
    assert infos[m].taskId in book && book[infos[m].taskId] == infos[m];
    assert infos[n].taskId in book && book[infos[n].taskId] == infos[n];
    assert WellNamed(book[infos[m].taskId]) && WellNamed(book[infos[n].taskId]);
    if infos[m].executorId == infos[n].executorId {
      ExecutorIdsSeparate(infos[m], infos[n]);
    }
  }

  lemma {:induction false} BookedIsLaunched(infos: seq<TaskInfo>, k: string)
    requires k in Identity.Book(infos)
    ensures Identity.Book(infos)[k] in infos
  {
    if infos[|infos| - 1].taskId != k {
      BookedIsLaunched(infos[..|infos| - 1], k);
    }
  }

  lemma {:induction false} LaunchesGrow(ws: seq<World>, es: seq<Event>, i: nat, j: nat)
    requires IsRun(ws, es) && i <= j < |ws|
    ensures LaunchesOf(ws[i]) <= LaunchesOf(ws[j])
  {
    hide Inv, Enabled, Apply, Initial, RecordsStep, AllServed, Launches, FlexLaunches;
    if i < j {
      LaunchesGrow(ws, es, i, j - 1);
      RunStep(ws, es, j - 1);
    }
  }

  lemma BookStays(ws: seq<World>, es: seq<Event>, i: nat, j: nat, k: string)
    requires IsRun(ws, es) && i <= j < |ws| && k in BookOf(ws[i])
    ensures k in BookOf(ws[j]) && BookOf(ws[j])[k] == BookOf(ws[i])[k]
  {
    hide IsRun, Inv, Launches, Identity.Book;
    RunsAreSound(ws, es, i);
    RunsAreSound(ws, es, j);
    LaunchesGrow(ws, es, i, j);
    BookGrows(ws[i], ws[j], k);
  }

  /** The book only grows. */
  lemma BookGrows(w: World, w': World, k: string)
    requires Inv(w) && Inv(w') && LaunchesOf(w) <= LaunchesOf(w') && k in BookOf(w)
    ensures k in BookOf(w') && BookOf(w')[k] == BookOf(w)[k]
  {
    hide Counted, DisksSound, ExchangeSound, AllConfigured, TokensIncrease, Launches, Identity.Book;
    BookedIsLaunched(LaunchesOf(w), k);
    var info := BookOf(w)[k];
    var n :| 0 <= n < |LaunchesOf(w)| && LaunchesOf(w)[n] == info;
    assert LaunchesOf(w')[n] == info;
    assert Recorded(w.sched.c, k, info);
  }

  /** Once mon0 was launched, getInitialMon answers with its identity in every later world, whatever order the table is
      scanned in, and even after mon0 failed. */
  lemma InitialMonStays(ws: seq<World>, es: seq<Event>, i: nat, j: nat, m: string, r: TaskState)
    requires IsRun(ws, es) && i <= j < |ws| && IsInitialMon(BookOf(ws[i]), m) && MayBeInitialMon(TasksOf(ws[j]), r)
    ensures var info := BookOf(ws[i])[m];
            && r.taskId == m == info.taskId && r.executorId == info.executorId
            && r.slaveId == info.slaveId && r.hostName == info.hostname
  {
    hide IsRun, Counted, DisksSound, ExchangeSound, TokensIncrease, AllConfigured, AllEntered, MayBeInitialMon;
    BookStays(ws, es, i, j, m);
    RunsAreSound(ws, es, j);
    InitialMonAnswer(ws[j].sched.c, BookOf(ws[j]), m, r);
    assert Recorded(ws[j].sched.c, m, BookOf(ws[j])[m]);
  }

  /** If the first MON token was spent without a launch, there is never an initial MON. */
  lemma {:induction false} InitialMonNeverComes(ws: seq<World>, es: seq<Event>, i: nat, j: nat, m: string)
    requires IsRun(ws, es) && i <= j < |ws|
    requires ws[i].sched.c.mon.index >= 1 && forall k :: !IsInitialMon(BookOf(ws[i]), k)
    ensures !IsInitialMon(BookOf(ws[j]), m) && ws[j].sched.c.mon.index >= 1
  {
    hide Inv, Enabled, Apply, Initial, RecordsStep, AllServed, Launches, FlexLaunches, Identity.Book;
    if i < j {
      InitialMonNeverComes(ws, es, i, j - 1, m);
      RunStep(ws, es, j - 1);
      if IsInitialMon(BookOf(ws[j]), m) {
        NewInBook(ws[j - 1], ws[j], m);
      }
    }
  }

  lemma NewInBook(w: World, w': World, m: string)
    requires Inv(w) && Inv(w') && AllJustified(w.sched.c, LaunchesOf(w), LaunchesOf(w'))
    requires IsInitialMon(BookOf(w'), m) && w.sched.c.mon.index >= 1
    ensures IsInitialMon(BookOf(w), m)
  {
    hide Counted, DisksSound, ExchangeSound, TokensIncrease, AllConfigured, Identity.Book, Launches;
    var info := BookOf(w')[m];
    BookedIsLaunched(LaunchesOf(w'), m);
    var n :| 0 <= n < |LaunchesOf(w')| && LaunchesOf(w')[n] == info;
    assert Recorded(w'.sched.c, m, info);
    assert n >= |LaunchesOf(w)| ==> Justified(w.sched.c, LaunchesOf(w')[n]);
    assert LaunchesOf(w)[n] == info;
  }

  /** Exactly the initial MON is marked as such; every other task is pointed to the host of the initial MON, if there is
      one; and one registration message was sent for every OSD launched. */
  lemma LaunchesAreConfigured(ws: seq<World>, es: seq<Event>, i: nat, n: nat)
    requires IsRun(ws, es) && i < |ws| && n < |LaunchesOf(ws[i])|
    ensures var info := LaunchesOf(ws[i])[n];
            && (info.initial <==> info.taskType == MON && info.token == 0)
            && (info.configHost == None <==> info.initial)
            && (!info.initial ==>
                  forall m :: IsInitialMon(BookOf(ws[i]), m) ==> info.configHost == Some(BookOf(ws[i])[m].hostname))
    ensures Registrations(Sends(ws[i].sched.calls)) == CountType(LaunchesOf(ws[i]), OSD)
  {
    hide IsRun, Counted, DisksSound, ExchangeSound, Booked, TokensIncrease, AllEntered, IsInitialMon;
    RunsAreSound(ws, es, i);
    assert Configured(BookOf(ws[i]), LaunchesOf(ws[i])[n]);
  }
}
