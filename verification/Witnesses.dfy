/** Concrete runs: the bootstrap can be completed, a failure can be left uncounted, a container can never appear, and a
    failed initial MON can still have a registration to answer. */
module Witnesses {
  import opened Types
  import opened Wire
  import opened StateMachines
  import opened Schedulers
  import opened Effects
  import opened CephExecutors
  import opened Protocol
  import opened Counters
  import opened Identity
  import opened Messages
  import opened Supply
  import opened Disks
  import opened Invariants
  import opened Runs
  import opened Evolution
  import opened Safety
  import opened Outcomes
  import opened Conservation
  import opened Deadlocks
  import opened InitialMons
  import opened Recovery

  /** The last world of a run, from which it can go on. */
  ghost predicate RunTo(ws: seq<World>, es: seq<Event>, w: World) {
    IsRun(ws, es) && ws[|es|] == w && Inv(w)
  }

  lemma Extend(ws: seq<World>, es: seq<Event>, w: World, e: Event)
    requires RunTo(ws, es, w) && Enabled(w, e)
    ensures RunTo(ws + [Apply(w, e)], es + [e], Apply(w, e))
  {
    hide Initial, Inv, Enabled, Apply;
    var ws', es' := ws + [Apply(w, e)], es + [e];
    StepKeepsInv(w, e);
    forall i | 0 <= i < |es'| ensures Enabled(ws'[i], es'[i]) && ws'[i + 1] == Apply(ws'[i], es'[i]) {
      if i < |es| {
        assert ws'[i] == ws[i] && es'[i] == es[i] && ws'[i + 1] == ws[i + 1];
        assert Enabled(ws[i], es[i]) && ws[i + 1] == Apply(ws[i], es[i]);
      }
    }
    assert ws'[0] == ws[0] && ws'[|es'|] == Apply(w, e);
  }

  // ---------------------------------------------------------------- steps

  /** Where a run stands: its cluster, and what the executors and the channels hold for one task. */
  ghost predicate Stands(w: World, c: Cluster, hosts: set<string>, stuck: set<string>) {
    && w.sched.c == c && w.sched.hosts.Keys == hosts && w.stuck == stuck && FlexLaunchesOf(w) == 0
  }

  /** The next task is launched on a new host. */
  lemma Launch(ws: seq<World>, es: seq<Event>, w: World, hostname: string)
    returns (e: Event, w': World, info: TaskInfo)
    requires RunTo(ws, es, w) && Stands(w, w.sched.c, w.sched.hosts.Keys, w.stuck)
    requires hostname !in w.sched.hosts && WaitingOf(TasksOf(w)) == {}
    requires NextMove(w.sched.c, false).Go? && w.sched.c.phase != WAITING_REQUEST
    ensures RunTo(ws + [w'], es + [e], w')
    ensures LaunchesOne(w, w', info, NextMove(w.sched.c, false).taskType) && info in LaunchesOf(w')
    ensures Stands(w', WithNewTask(w.sched.c, info), w.sched.hosts.Keys + {hostname}, w.stuck)
    ensures ExecOf(w'.execs, info.taskId) == Staged && ReportsOf(w'.reports, info.taskId) == []
    ensures w'.execs == w.execs && w'.taken == w.taken
  {
    hide IsRun, Inv, Launches, FlexLaunches, WaitingOf, NextMove;
    e, info := LaunchOne(w, hostname);
    w' := Apply(w, e);
    Extend(ws, es, w, e);
    NewAtExecutor(w, info.taskId);
  }

  lemma NewAtExecutor(w: World, k: string)
    requires Inv(w) && k !in TasksOf(w)
    ensures ExecOf(w.execs, k) == Staged && ReportsOf(w.reports, k) == []
  {
    hide SchedulerSound, Directed, Supplied, IdsConserved;
    assert LinkedTask(TasksOf(w), w.execs, w.reports, k);
  }

  /** The executor of a new task answers the launch. */
  lemma Start(ws: seq<World>, es: seq<Event>, w: World, info: TaskInfo, container: Container) returns (w': World)
    requires RunTo(ws, es, w) && info in LaunchesOf(w)
    requires ExecOf(w.execs, info.taskId) == Staged && ReportsOf(w.reports, info.taskId) == []
    ensures RunTo(ws + [w'], es + [ExecutorLaunch(info, true, container)], w')
    ensures w'.sched == w.sched && w'.stuck == w.stuck && w'.taken == w.taken
    ensures ExecOf(w'.execs, info.taskId)
            == if info.taskType == OSD then AwaitingId else AfterStart(container).0
    ensures ReportsOf(w'.reports, info.taskId)
            == if info.taskType == OSD then [Starting] else AfterStart(container).1
    ensures forall j :: j != info.taskId ==> ExecOf(w'.execs, j) == ExecOf(w.execs, j)
  {
    hide IsRun, Inv, Launches;
    TaskDataRoundTrip(info.initial, info.taskType);
    var e := ExecutorLaunch(info, true, container);
    w' := Apply(w, e);
    Extend(ws, es, w, e);
  }

  /** The only report under way for a task reaches the scheduler. */
  lemma Report(ws: seq<World>, es: seq<Event>, w: World, k: string, u: Update) returns (w': World)
    requires RunTo(ws, es, w) && k in TasksOf(w) && ReportsOf(w.reports, k) == [u] && u in [Starting, Running, Failed]
    ensures RunTo(ws + [w'], es + [Deliver(k)], w')
    ensures w'.sched.c == Informed(w.sched.c, k, StatusFor(u)) && w'.stuck == StuckAfter(w, k, u)
    ensures w'.sched.hosts == w.sched.hosts && w'.sched.calls == w.sched.calls && w'.execs == w.execs
    ensures w'.taken == w.taken
    ensures ReportsOf(w'.reports, k) == []
  {
    hide IsRun, Inv;
    w' := Apply(w, Deliver(k));
    Extend(ws, es, w, Deliver(k));
  }

  lemma Die(ws: seq<World>, es: seq<Event>, w: World, info: TaskInfo) returns (w': World)
    requires RunTo(ws, es, w) && info in LaunchesOf(w)
    requires ExecOf(w.execs, info.taskId) == AwaitingId && ReportsOf(w.reports, info.taskId) == []
    ensures RunTo(ws + [w'], es + [ExecutorDies(info)], w')
    ensures w'.sched == w.sched && w'.stuck == w.stuck && ReportsOf(w'.reports, info.taskId) == [Failed]
  {
    hide IsRun, Inv, Launches;
    w' := Apply(w, ExecutorDies(info));
    Extend(ws, es, w, ExecutorDies(info));
  }

  // ---------------------------------------------------------------- the first MON

  function MonRecord(info: TaskInfo, st: Status): TaskState {
    RecordFor(info).(currentStatus := st)
  }

  /** The cluster whose only task is a running initial MON. */
  function OneMon(info: TaskInfo): Cluster {
    NewCluster().(tasks := map[info.taskId := MonRecord(info, RUNNING)], phase := BOOTSTRAP_OSD, mon := Counts(1, 0, 1))
  }

  lemma StartOfRun(w: World)
    requires Initial(w)
    ensures RunTo([w], [], w) && Stands(w, NewCluster(), {}, {}) && WaitingOf(TasksOf(w)) == {} && w.taken == multiset{}
  {
    hide Inv;
    InitialIsSound(w);
  }

  /** Three events bring up mon0. */
  lemma MonRun(w: World) returns (ws: seq<World>, es: seq<Event>, w': World, info: TaskInfo)
    requires Initial(w)
    ensures RunTo(ws, es, w') && |es| == 3 && ws[0] == w
    ensures info.taskType == MON && info.token == 0 && info in LaunchesOf(w')
    ensures Stands(w', OneMon(info), {"node1"}, {}) && w'.taken == multiset{}
    ensures forall j :: ExecOf(w'.execs, j) == if j == info.taskId then Up else Staged
  {
    hide IsRun, Inv, Launches, FlexLaunches;
    StartOfRun(w);
    var e, w1;
    e, w1, info := Launch([w], [], w, "node1");
    var w2 := Start([w] + [w1], [] + [e], w1, info, Healthy);
    w' := Report([w] + [w1] + [w2], [] + [e] + [ExecutorLaunch(info, true, Healthy)], w2, info.taskId, Running);
    ws := [w] + [w1] + [w2] + [w'];
    es := [] + [e] + [ExecutorLaunch(info, true, Healthy)] + [Deliver(info.taskId)];
  }

  lemma OneMonIsUp(w: World, info: TaskInfo)
    requires Inv(w) && w.sched.c == OneMon(info) && info.taskType == MON && info.token == 0 && info in LaunchesOf(w)
    requires ExecOf(w.execs, info.taskId) == Up && w.stuck == {}
    ensures IsInitialMon(BookOf(w), info.taskId) && !Silent(w, info.taskId)
    ensures WaitingOf(TasksOf(w)) == {} && !Blocked(w)
    ensures NextMove(w.sched.c, false) == Go(OSD, 0)
  {
    hide Counted, DisksSound, ExchangeSound, Launches, Identity.Book, Logged;
    LoggedWhenSound(w);
    LaunchedIsKnown(w.sched.c, LaunchesOf(w), info);
  }

  /** From the very beginning the bootstrap can be completed. */
  lemma BootstrapIsReachable(w: World)
    requires Initial(w)
    ensures exists ws: seq<World>, es: seq<Event> ::
              IsRun(ws, es) && ws[0] == w && ws[|es|].sched.c.phase == WAITING_REQUEST
  {
    hide Inv, Enabled, Apply;
    StartOfRun(w);
    BootstrapCanStart([w], [], 0);
    var ws: seq<World>, es: seq<Event> :| IsPath(ws, es) && ws[0] == w && ws[|es|].sched.c.phase == WAITING_REQUEST;
    assert IsRun(ws, es);
  }

  // ---------------------------------------------------------------- a failure that is not counted

  /** The cluster of a running initial MON and an OSD that waits for its id. */
  function OneWaiting(mon: TaskInfo, info: TaskInfo): Cluster {
    Informed(WithNewTask(OneMon(mon), info), info.taskId, WAITING_OSDID)
  }

  /** Six events bring up mon0 and an OSD that waits for its id, the registration being under way. */
  lemma WaitingRun(w: World) returns (ws: seq<World>, es: seq<Event>, w': World, mon: TaskInfo, info: TaskInfo)
    requires Initial(w)
    ensures RunTo(ws, es, w') && |es| == 6 && ws[0] == w
    ensures w'.sched.c == OneWaiting(mon, info) && w'.stuck == {} && FlexLaunchesOf(w') == 0 && w'.taken == multiset{}
    ensures mon in LaunchesOf(w') && mon.taskType == MON && mon.token == 0
    ensures info in LaunchesOf(w') && info.taskType == OSD && info.taskId != mon.taskId
    ensures ReportsOf(w'.reports, info.taskId) == []
    ensures forall j :: ExecOf(w'.execs, j)
                        == if j == mon.taskId then Up else if j == info.taskId then AwaitingId else Staged
  {
    hide Initial, Inv, Launches, FlexLaunches, Enabled, Apply, Silent, IsInitialMon, Informed;
    var w3, e, w4;
    ws, es, w3, mon := MonRun(w);
    OneMonIsUp(w3, mon);
    e, w4, info := Launch(ws, es, w3, "node2");
    ws, es := ws + [w4], es + [e];
    var w5 := Start(ws, es, w4, info, Healthy);
    ws, es := ws + [w5], es + [ExecutorLaunch(info, true, Healthy)];
    w' := Report(ws, es, w5, info.taskId, Starting);
    ws, es := ws + [w'], es + [Deliver(info.taskId)];
  }

  /** Eight events: mon0 comes up, an OSD is launched, its executor waits for an id, ends, and the failure is reported.
      The staging counter keeps the OSD, the table does not, and the bootstrap cannot be completed any more. */
  lemma LateFailureRun(w: World) returns (ws: seq<World>, es: seq<Event>, w': World, k: string)
    requires Initial(w)
    ensures IsRun(ws, es) && |es| == 8 && ws[0] == w && ws[8] == w'
    ensures w'.stuck == {k} && FlexLaunchesOf(w') == 0
    ensures w'.sched.c.osd.staging == 1 && StagingOf(TasksOf(w'), OSD) == {}
    ensures !CanComplete(w')
  {
    hide Initial, Inv, Launches, FlexLaunches, Enabled, Apply;
    var w6, mon, info;
    ws, es, w6, mon, info := WaitingRun(w);
    k := info.taskId;
    var w7 := Die(ws, es, w6, info);
    ws, es := ws + [w7], es + [ExecutorDies(info)];
    w' := Report(ws, es, w7, k, Failed);
    ws, es := ws + [w'], es + [Deliver(k)];
    BlockedCannotComplete(w');
  }

  lemma BlockedCannotComplete(w: World)
    requires Inv(w) && Blocked(w) && FlexLaunchesOf(w) == 0
    ensures !CanComplete(w)
  {
    hide Inv, FlexLaunches, Enabled, Apply, Blocked;
    forall vs: seq<World>, ds: seq<Event> | IsPath(vs, ds) && vs[0] == w
      ensures vs[|ds|].sched.c.phase != WAITING_REQUEST
    {
      BlockedForever(vs, ds, |ds|);
    }
  }

  // ---------------------------------------------------------------- a container that never shows up

  /** mon0 answers the registration of an OSD, and the scheduler gets the id. */
  lemma IdComes(ws0: seq<World>, es0: seq<Event>, w: World, m: string)
    returns (ws: seq<World>, es: seq<Event>, w': World)
    requires RunTo(ws0, es0, w) && IsInitialMon(BookOf(w), m) && UnderWay(w, m) > 0 && ExecOf(w.execs, m) == Up
    ensures RunTo(ws, es, w') && |es| == |es0| + 2 && ws[0] == ws0[0]
    ensures TasksOf(w') == TasksOf(w) && w'.sched.calls == w.sched.calls && w'.stuck == w.stuck
    ensures |w'.sched.c.pendingIds| > 0
    ensures forall j :: ExecOf(w'.execs, j) == ExecOf(w.execs, j) && ReportsOf(w'.reports, j) == ReportsOf(w.reports, j)
  {
    hide Initial, Apply, Inv, Launches, Sends, MayBeInitialMon, IsInitialMon;
    MonIsKnown(w, m);
    var mon := KnownIsLaunched(w, m);
    var ask := ExecutorMessage(mon, RegistrationTo(mon), Healthy, 0);
    AnswerEffect(w, mon);
    Extend(ws0, es0, w, ask);
    var w1 := Apply(w, ask);
    var found := SomeInitialMon(TasksOf(w1));
    var answer := IdArrives(Reply(mon.executorId, 0), found);
    ReplyArrives(w1, m, answer);
    Extend(ws0 + [w1], es0 + [ask], w1, answer);
    w' := Apply(w1, answer);
    ws, es := ws0 + [w1] + [w'], es0 + [ask] + [answer];
  }

  lemma ReplyArrives(w: World, m: string, e: Event)
    requires Inv(w) && IsInitialMon(BookOf(w), m) && e.IdArrives? && Enabled(w, e)
    ensures var w' := Apply(w, e);
            && TasksOf(w') == TasksOf(w) && w'.sched.calls == w.sched.calls && w'.stuck == w.stuck
            && w'.execs == w.execs && w'.reports == w.reports
            && w'.sched.c.pendingIds == w.sched.c.pendingIds + [e.reply.osdId]
  {
    hide SchedulerSound, Linked, Directed, Supplied, IdsConserved, Launches, Sends, MayBeInitialMon;
    ReplyCounts(w, m, e.reply, e.mon);
    ArrivalEffect(w, e.reply, e.mon);
  }

  /** The next callback gives the only waiting OSD a pending id. */
  lemma IdGoes(ws0: seq<World>, es0: seq<Event>, w: World, k: string)
    returns (ws: seq<World>, es: seq<Event>, w': World)
    requires RunTo(ws0, es0, w) && WaitingOf(TasksOf(w)) == {k} && |w.sched.c.pendingIds| > 0
    ensures RunTo(ws, es, w') && |es| == |es0| + 1 && ws[0] == ws0[0]
    ensures k in TasksOf(w') && TasksOf(w')[k] == TasksOf(w)[k].(currentStatus := STARTING)
    ensures LaunchesOf(w') == LaunchesOf(w) && FlexLaunchesOf(w') == FlexLaunchesOf(w)
    ensures w'.execs == w.execs && w'.reports == w.reports && w'.stuck == w.stuck
  {
    hide Initial, Enabled, Apply, Inv, Launches, FlexLaunches, ListsWaiting;
    OnlyOne(TasksOf(w), k);
    EmptyBatch(w, [k]);
    SomeAssigned(w, [k], 1);
    var e := Offers([k], [], []);
    Extend(ws0, es0, w, e);
    w' := Apply(w, e);
    ws, es := ws0 + [w'], es0 + [e];
  }

  lemma OnlyOne(tasks: Tasks, k: string)
    requires WaitingOf(tasks) == {k}
    ensures ListsWaiting(tasks, [k])
  {
  }

  /** The id reaches its OSD, whose container docker never lists. */
  lemma NeverUp(ws: seq<World>, es: seq<Event>, w: World, k: string) returns (e: Event, w': World)
    requires RunTo(ws, es, w) && k in TasksOf(w) && TasksOf(w)[k].taskType == OSD
    requires TasksOf(w)[k].currentStatus == STARTING && ExecOf(w.execs, k) == AwaitingId
    ensures RunTo(ws + [w'], es + [e], w')
    ensures w'.sched == w.sched && w'.stuck == w.stuck && ExecOf(w'.execs, k) == Hung
    ensures LostTask(w', k) && forall j :: j != k ==> ExecOf(w'.execs, j) == ExecOf(w.execs, j)
  {
    hide Initial, Enabled, Apply, Inv, Launches, Sends, AllServed, InFlightTo;
    ServedThroughout(ws, es, |es|);
    StartingIsQuiet(w, k);
    var info := KnownIsLaunched(w, k);
    var env := IdInFlight(w, k, info);
    e := ExecutorMessage(info, env, Missing, 0);
    HangEffect(w, info, env);
    w' := Apply(w, e);
    Extend(ws, es, w, e);
  }

  lemma HangEffect(w: World, info: TaskInfo, env: Envelope)
    requires info in LaunchesOf(w) && InFlightTo(w, info, env) && env.message.LaunchOsd?
    requires ExecOf(w.execs, info.taskId) == AwaitingId
    ensures var e := ExecutorMessage(info, env, Missing, 0);
            && Enabled(w, e)
            && Apply(w, e) == Reported(w, info.taskId, Hung, []).(taken := w.taken + multiset{env})
  {
    MessageRoundTrip(env.message);
  }

  /** Ten events: an OSD gets its id, and docker never lists its container. No failure was reported and every process
      lives, but the bootstrap cannot be completed any more. */
  lemma HungRun(w: World) returns (ws: seq<World>, es: seq<Event>, w': World, k: string)
    requires Initial(w)
    ensures IsRun(ws, es) && |es| == 10 && ws[0] == w && ws[10] == w'
    ensures w'.stuck == {} && FlexLaunchesOf(w') == 0 && forall j :: ExecOf(w'.execs, j) != Gone
    ensures k in TasksOf(w') && TasksOf(w')[k].currentStatus == STARTING && ExecOf(w'.execs, k) == Hung
    ensures !CanComplete(w')
  {
    hide Initial, Inv, Launches, FlexLaunches, Enabled, Apply, LostTask, UnderWay, IsInitialMon, OneWaiting;
    var w6, mon, info, w8, w9, e;
    ws, es, w6, mon, info := WaitingRun(w);
    k := info.taskId;
    TheWaitingOne(mon, info);
    MonRegistrations(w6, mon.taskId, mon);
    ws, es, w8 := IdComes(ws, es, w6, mon.taskId);
    ws, es, w9 := IdGoes(ws, es, w8, k);
    e, w' := NeverUp(ws, es, w9, k);
    ws, es := ws + [w'], es + [e];
    BlockedCannotComplete(w');
  }

  lemma TheWaitingOne(mon: TaskInfo, info: TaskInfo)
    requires mon.taskType == MON && info.taskType == OSD && info.taskId != mon.taskId
    ensures var tasks := OneWaiting(mon, info).tasks;
            OfType(tasks, OSD) == WaitingOf(tasks) == {info.taskId} && tasks[info.taskId].taskType == OSD
  {
  }

  // ---------------------------------------------------------------- a failed initial MON that is asked for an id

  /** The cluster whose only task is a failed initial MON. */
  function FailedMon(info: TaskInfo): Cluster {
    NewCluster().(tasks := map[info.taskId := MonRecord(info, FAILED)], mon := Counts(0, 0, 1))
  }

  /** The cluster after another MON came up. */
  function SecondMon(info: TaskInfo, other: TaskInfo): Cluster {
    NewCluster().(tasks := map[info.taskId := MonRecord(info, FAILED), other.taskId := MonRecord(other, RUNNING)],
                  phase := BOOTSTRAP_OSD, mon := Counts(1, 0, 2))
  }

  /** mon0 fails its start test. */
  lemma FailedMonStart(w: World) returns (ws: seq<World>, es: seq<Event>, w': World, mon: TaskInfo)
    requires Initial(w)
    ensures RunTo(ws, es, w') && |es| == 3 && ws[0] == w && w'.taken == multiset{}
    ensures mon in LaunchesOf(w') && mon.taskType == MON && mon.token == 0
    ensures Stands(w', FailedMon(mon), {"node1"}, {}) && ExecOf(w'.execs, mon.taskId) == Stopped
  {
    hide IsRun, Inv, Launches, FlexLaunches;
    StartOfRun(w);
    var e, w1;
    e, w1, mon := Launch([w], [], w, "node1");
    ws, es := [w] + [w1], [] + [e];
    var w2 := Start(ws, es, w1, mon, Unwell);
    ws, es := ws + [w2], es + [ExecutorLaunch(mon, true, Unwell)];
    w' := Report(ws, es, w2, mon.taskId, Failed);
    ws, es := ws + [w'], es + [Deliver(mon.taskId)];
  }

  /** Another MON comes up. */
  lemma SecondMonStart(ws0: seq<World>, es0: seq<Event>, w: World, mon: TaskInfo)
    returns (ws: seq<World>, es: seq<Event>, w': World, other: TaskInfo)
    requires RunTo(ws0, es0, w) && Stands(w, FailedMon(mon), {"node1"}, {}) && mon in LaunchesOf(w)
    requires ExecOf(w.execs, mon.taskId) == Stopped && w.taken == multiset{}
    ensures RunTo(ws, es, w') && |es| == |es0| + 3 && ws[0] == ws0[0] && w'.taken == multiset{}
    ensures Stands(w', SecondMon(mon, other), {"node1", "node2"}, {}) && mon in LaunchesOf(w')
    ensures other.taskId != mon.taskId && other.taskType == MON && ExecOf(w'.execs, mon.taskId) == Stopped
  {
    hide Initial, Enabled, Apply, Inv, Launches, FlexLaunches;
    var e, w1;
    e, w1, other := Launch(ws0, es0, w, "node2");
    ws, es := ws0 + [w1], es0 + [e];
    var w2 := Start(ws, es, w1, other, Healthy);
    ws, es := ws + [w2], es + [ExecutorLaunch(other, true, Healthy)];
    w' := Report(ws, es, w2, other.taskId, Running);
    ws, es := ws + [w'], es + [Deliver(other.taskId)];
    assert w'.sched.c == SecondMon(mon, other);
  }

  /** mon0 fails its start test, another MON comes up, an OSD is launched: its registration is under way to mon0, whose
      record is FAILED and whose process lives. */
  lemma FailedMonRun(w: World) returns (ws: seq<World>, es: seq<Event>, w': World, m: string)
    requires Initial(w)
    ensures IsRun(ws, es) && |es| == 7 && ws[0] == w && ws[7] == w'
    ensures IsInitialMon(BookOf(w'), m) && m in TasksOf(w') && TasksOf(w')[m].currentStatus == FAILED
    ensures ExecOf(w'.execs, m) == Stopped && UnderWay(w', m) == 1
  {
    hide Initial, Inv, Launches, FlexLaunches, Enabled, Apply, UnderWay, IsInitialMon;
    var w3, mon, w6, other, e, osd;
    ws, es, w3, mon := FailedMonStart(w);
    ws, es, w6, other := SecondMonStart(ws, es, w3, mon);
    m := mon.taskId;
    e, w', osd := Launch(ws, es, w6, "node3");
    ws, es := ws + [w'], es + [e];
    assert OfType(TasksOf(w'), OSD) == {osd.taskId};
    MonRegistrations(w', m, mon);
  }

  lemma MonRegistrations(w: World, m: string, info: TaskInfo)
    requires Inv(w) && info in LaunchesOf(w) && info.taskType == MON && info.token == 0 && info.taskId == m
    requires |OfType(TasksOf(w), OSD)| == 1 && w.taken == multiset{}
    ensures IsInitialMon(BookOf(w), m) && UnderWay(w, m) == 1
  {
    hide Counted, DisksSound, ExchangeSound, Launches, Identity.Book, Logged, UnderWay;
    LoggedWhenSound(w);
    LaunchedIsKnown(w.sched.c, LaunchesOf(w), info);
    UnderWayIs(w, m);
  }

  // ---------------------------------------------------------------- a lost initial MON

  /** An offer with the role and without the resources. */
  const POOR_OFFER := Offer("offer", "node1", "slave", true, false, HostSpec([], [], 0))

  /** The very first offer lacks the resources: it decides, and there is no initial MON. */
  lemma LostMonRun(w: World) returns (ws: seq<World>, es: seq<Event>)
    requires Initial(w)
    ensures IsRun(ws, es) && |es| == 1 && ws[0] == w && DecidesAt(ws, es, 0, 0) && UndecidedBefore(ws, es, 0, 0)
    ensures es[0].offers == [POOR_OFFER] && forall m :: !IsInitialMon(BookOf(ws[1]), m)
  {
    hide Inv, Launches, Enabled, Apply, LoopAt, Stands;
    StartOfRun(w);
    var mon := SomeInitialMon(TasksOf(w));
    var ch := Choice(mon, mon, 0);
    PoorRound(w, ch);
    var e := Offers([], [POOR_OFFER], [ch]);
    SingleOffer(w, POOR_OFFER, ch);
    ws, es := [w] + [Apply(w, e)], [] + [e];
    Extend([w], [], w, e);
    PoorOfferDecides(w, ch);
    FirstDeciderSettles(ws, es, 0, 0, 1);
  }

  lemma PoorRound(w: World, ch: Choice)
    requires Initial(w) && ch.configMon == ch.registerMon && MayBeInitialMon(TasksOf(w), ch.configMon)
    ensures ChoiceFits(Progress(w.sched, false), POOR_OFFER, w.sched.c.phase, ch)
  {
    hide MayBeInitialMon, OfferStep;
    QuietRound(Progress(w.sched, false), POOR_OFFER, w.sched.c.phase, ch);
  }

  lemma PoorOfferDecides(w: World, ch: Choice)
    requires Initial(w)
    ensures LoopAt(w, Offers([], [POOR_OFFER], [ch]), 0).s == w.sched && Decides(w.sched, POOR_OFFER)
  {
    assert HandleWaiting(w.sched, []) == w.sched;
  }
}
