/** When the bootstrap can still be completed: exactly if nothing is lost and there are, or will be, enough ids. */
module Recovery {
  import opened Types
  import opened Wire
  import opened HostConfigs
  import opened StateMachines
  import opened Schedulers
  import opened Effects
  import opened CephExecutors
  import opened Protocol
  import opened Counters
  import opened Identity
  import opened Messages
  import opened Supply
  import opened Disks
  import opened Assignments
  import opened Invariants
  import opened Runs
  import opened Evolution
  import opened Safety
  import opened Outcomes
  import opened Conservation
  import opened Deadlocks
  import opened InitialMons
  import opened HostSetups

  // ---------------------------------------------------------------- the potential

  /** What a task still costs on its way to RUNNING. */
  function Cost(st: Status, e: Exec, q: seq<Update>): nat {
    match st
    case STAGING =>
      if e == Hung then 210
      else if q == [] then 9
      else if q[0] == Failed then 200
      else if q[0] == Starting then 8
      else 2
    case WAITING_OSDID => 6
    case STARTING => if q == [] then 4 else 2
    case _ => 0
  }

  function CostOf(w: World, k: string): nat {
    if k in TasksOf(w) then Cost(TasksOf(w)[k].currentStatus, ExecOf(w.execs, k), ReportsOf(w.reports, k)) else 0
  }

  function Total(w: World, infos: seq<TaskInfo>): nat {
    if infos == [] then 0 else Total(w, infos[..|infos| - 1]) + CostOf(w, infos[|infos| - 1].taskId)
  }

  /** The free places. */
  function Places(c: Cluster): int {
    (1 - c.mon.running - c.mon.staging) + (3 - c.osd.running - c.osd.staging) + (1 - c.rgw.running - c.rgw.staging)
  }

  /** The free places, the messages and replies under way, and the costs of the tasks. */
  ghost function Potential(w: World, m: string): int
    requires m in BookOf(w)
  {
    100 * Places(w.sched.c) + 2 * UnderWay(w, m) + |w.replies| + Total(w, LaunchesOf(w))
  }

  /** No task costs more than before. */
  ghost predicate NoneDearer(w: World, w': World, infos: seq<TaskInfo>) {
    forall i :: 0 <= i < |infos| ==> CostOf(w', infos[i].taskId) <= CostOf(w, infos[i].taskId)
  }

  lemma {:induction false} TotalNotMore(w: World, w': World, infos: seq<TaskInfo>)
    requires NoneDearer(w, w', infos)
    ensures Total(w', infos) <= Total(w, infos)
  {
    hide CostOf;
    if infos != [] {
      TotalNotMore(w, w', infos[..|infos| - 1]);
    }
  }

  /** If one task costs `d` less and none more, so do all together. */
  lemma {:induction false} TotalDrops(w: World, w': World, infos: seq<TaskInfo>, n: nat, d: nat)
    requires NoneDearer(w, w', infos) && n < |infos|
    requires CostOf(w', infos[n].taskId) + d <= CostOf(w, infos[n].taskId)
    ensures Total(w', infos) + d <= Total(w, infos)
  {
    hide CostOf;
    if n < |infos| - 1 {
      TotalDrops(w, w', infos[..|infos| - 1], n, d);
    } else {
      TotalNotMore(w, w', infos[..|infos| - 1]);
    }
  }

  // ---------------------------------------------------------------- friendly worlds

  /** There is no shortage of ids: the initial MON will still give some, or there are enough for three OSDs. */
  ghost predicate Fed(w: World, m: string) {
    !Silent(w, m) || Ids(w) >= 3
  }

  /** mon0 was launched and there is no shortage of ids, no flex-up was launched, nothing is lost, and whoever should
      have an id was sent one. */
  ghost predicate Friendly(w: World, m: string) {
    && Inv(w) && AllServed(TasksOf(w), Sends(w.sched.calls))
    && IsInitialMon(BookOf(w), m) && FlexLaunchesOf(w) == 0 && !Blocked(w) && Fed(w, m)
  }

  lemma PotentialIsNatural(w: World, m: string)
    requires Friendly(w, m)
    ensures m in BookOf(w) && Potential(w, m) >= 0
  {
    hide Counted, Logged, DisksSound, Linked, Directed, IdsConserved, Blocked, AllServed, Total;
    assert SuppliedBy(BookOf(w)[m], |OfType(TasksOf(w), OSD)|, ChannelsOf(w), ExecOf(w.execs, m));
  }

  /** The registrations under way are those of the OSDs launched that were not taken out of the channel. */
  lemma UnderWayIs(w: World, m: string)
    requires Inv(w) && IsInitialMon(BookOf(w), m)
    ensures UnderWay(w, m) == |OfType(TasksOf(w), OSD)| - w.taken[RegistrationTo(BookOf(w)[m])]
  {
    hide SchedulerSound, Linked, Directed, IdsConserved;
    assert SuppliedBy(BookOf(w)[m], |OfType(TasksOf(w), OSD)|, ChannelsOf(w), ExecOf(w.execs, m));
  }

  /** An event that launches nothing, loses nothing and keeps the supply of ids stays in the friendly worlds. */
  lemma StaysFriendly(w: World, e: Event, m: string)
    requires Friendly(w, m) && Enabled(w, e)
    requires LaunchesOf(Apply(w, e)) == LaunchesOf(w) && FlexLaunchesOf(Apply(w, e)) == 0
    requires !Blocked(Apply(w, e)) && Fed(Apply(w, e), m)
    ensures Friendly(Apply(w, e), m)
  {
    hide Inv, Apply, Enabled, Blocked, Fed, AllServed, RecordsStep, AllJustified, Launches, FlexLaunches;
    StepKeepsInv(w, e);
    EventSteps(w, e);
  }

  /** The tasks other than `k` are as they were, for the scheduler, the executors and the channels. */
  ghost predicate OnlyMoves(w: World, w': World, k: string) {
    && TasksOf(w').Keys == TasksOf(w).Keys
    && forall j :: j != k ==>
         && (j in TasksOf(w) ==> TasksOf(w')[j] == TasksOf(w)[j])
         && ExecOf(w'.execs, j) == ExecOf(w.execs, j) && ReportsOf(w'.reports, j) == ReportsOf(w.reports, j)
  }

  lemma OnlyMovesLosesNothing(w: World, w': World, k: string)
    requires OnlyMoves(w, w', k) && !Blocked(w) && w'.stuck == w.stuck && !LostTask(w', k)
    ensures !Blocked(w')
  {
    forall j ensures !LostTask(w', j) {
      assert !LostTask(w, j);
    }
  }

  /** The potential drops by what the one task that moves gets cheaper. */
  lemma OnlyMovesCosts(w: World, w': World, k: string, d: nat)
    requires Inv(w) && OnlyMoves(w, w', k) && LaunchesOf(w') == LaunchesOf(w) && k in TasksOf(w)
    requires CostOf(w', k) + d <= CostOf(w, k)
    ensures Total(w', LaunchesOf(w')) + d <= Total(w, LaunchesOf(w))
  {
    hide Counted, TokensIncrease, AllConfigured, AllEntered, DisksSound, ExchangeSound, Cost, Launches, Identity.Book,
         Total;
    var infos := LaunchesOf(w);
    assert Recorded(w.sched.c, k, BookOf(w)[k]);
    BookedIsLaunched(infos, k);
    var n :| 0 <= n < |infos| && infos[n] == BookOf(w)[k];
    forall i | 0 <= i < |infos| ensures CostOf(w', infos[i].taskId) <= CostOf(w, infos[i].taskId) {
      if infos[i].taskId != k {
        assert CostOf(w', infos[i].taskId) == CostOf(w, infos[i].taskId);
      }
    }
    TotalDrops(w, w', infos, n, d);
  }

  /** An event that moves one task on, without losing it, makes the tasks cheaper by what that task gets cheaper. */
  lemma MovesOn(w: World, e: Event, m: string, k: string, d: nat)
    requires Friendly(w, m) && Enabled(w, e) && k in TasksOf(w)
    requires var w' := Apply(w, e);
             && w'.sched.calls == w.sched.calls && w'.stuck == w.stuck && OnlyMoves(w, w', k)
             && (k == m && Silent(w', m) ==> Silent(w, m)) && Ids(w') >= Ids(w)
             && !LostTask(w', k) && CostOf(w', k) + d <= CostOf(w, k)
    ensures Friendly(Apply(w, e), m)
    ensures Total(Apply(w, e), LaunchesOf(Apply(w, e))) + d <= Total(w, LaunchesOf(w))
  {
    hide Inv, AllServed, Blocked, LostTask, CostOf, Enabled, Apply, Ids;
    OnlyMovesLosesNothing(w, Apply(w, e), k);
    StaysFriendly(w, e, m);
    OnlyMovesCosts(w, Apply(w, e), k, d);
  }

  /** An executor that reaches a new state and reports moves its own task only. */
  lemma ReportedMoves(w: World, w': World, k: string, x: Exec, updates: seq<Update>)
    requires w'.sched == w.sched && k in TasksOf(w)
    requires w'.execs == w.execs[k := x] && w'.reports == w.reports[k := ReportsOf(w.reports, k) + updates]
    ensures OnlyMoves(w, w', k)
    ensures ExecOf(w'.execs, k) == x && ReportsOf(w'.reports, k) == ReportsOf(w.reports, k) + updates
    ensures |w'.replies| >= |w.replies| ==> Ids(w') >= Ids(w)
  {
  }

  // ---------------------------------------------------------------- emptying the channels

  lemma AnswerEffect(w: World, info: TaskInfo)
    requires info in LaunchesOf(w) && InFlightTo(w, info, RegistrationTo(info))
    requires TakesMessages(ExecOf(w.execs, info.taskId))
    ensures var e := ExecutorMessage(info, RegistrationTo(info), Healthy, 0);
            && Enabled(w, e)
            && Apply(w, e) == Reported(w, info.taskId, ExecOf(w.execs, info.taskId), [])
                              .(taken := w.taken + multiset{RegistrationTo(info)},
                                replies := w.replies + multiset{Reply(info.executorId, 0)})
  {
    MessageRoundTrip(RegisterOsd);
  }

  lemma SameCost(w: World, w': World, k: string)
    requires k in TasksOf(w) && TasksOf(w') == TasksOf(w)
    requires ExecOf(w'.execs, k) == ExecOf(w.execs, k) && ReportsOf(w'.reports, k) == ReportsOf(w.reports, k)
    ensures CostOf(w', k) == CostOf(w, k) && LostTask(w', k) == LostTask(w, k)
  {
  }

  /** The initial MON answers a registration. */
  lemma AnswerStep(w: World, m: string) returns (e: Event)
    requires Friendly(w, m) && UnderWay(w, m) > 0 && TakesMessages(ExecOf(w.execs, m))
    ensures Enabled(w, e) && Friendly(Apply(w, e), m) && Potential(Apply(w, e), m) < Potential(w, m)
  {
    hide Inv, AllServed, Blocked, Launches, Sends, FlexLaunches, Enabled, Apply, ExecOf, ReportsOf, CostOf, LostTask,
         Ids;
    MonIsKnown(w, m);
    var info := KnownIsLaunched(w, m);
    e := ExecutorMessage(info, RegistrationTo(info), Healthy, 0);
    AnswerEffect(w, info);
    var w' := Apply(w, e);
    ReportedMoves(w, w', m, ExecOf(w.execs, m), []);
    var q := ReportsOf(w.reports, m);
    assert q + [] == q;
    SameCost(w, w', m);
    NotLost(w, m);
    MovesOn(w, e, m, m, 0);
  }

  lemma MonIsKnown(w: World, m: string)
    requires Inv(w) && IsInitialMon(BookOf(w), m)
    ensures m in TasksOf(w) && TasksOf(w)[m].taskType == MON
  {
    hide Counted, DisksSound, ExchangeSound;
    assert Recorded(w.sched.c, m, BookOf(w)[m]);
  }

  /** Replies come from the initial MON, so they count. */
  lemma ReplyCounts(w: World, m: string, reply: Reply, mon: TaskState)
    requires Inv(w) && IsInitialMon(BookOf(w), m) && reply in w.replies && MayBeInitialMon(TasksOf(w), mon)
    ensures mon.executorId == reply.executorId
  {
    hide Counted, DisksSound, Linked, Directed, IdsConserved, TokensIncrease, AllEntered, AllConfigured, Booked,
         MayBeInitialMon;
    BookedWhenLogged(w.sched.c, LaunchesOf(w));
    InitialMonIdentity(w.sched.c, BookOf(w), m, mon);
    assert SuppliedBy(BookOf(w)[m], |OfType(TasksOf(w), OSD)|, ChannelsOf(w), ExecOf(w.execs, m));
  }

  lemma ReplyEffect(w: World, m: string, reply: Reply, mon: TaskState)
    requires Enabled(w, IdArrives(reply, mon)) && Inv(w) && IsInitialMon(BookOf(w), m)
    ensures var w' := Apply(w, IdArrives(reply, mon));
            && TasksOf(w') == TasksOf(w) && w'.sched.calls == w.sched.calls && w'.stuck == w.stuck
            && Places(w'.sched.c) == Places(w.sched.c) && w'.execs == w.execs && w'.reports == w.reports
            && w'.taken == w.taken && |w'.replies| < |w.replies| && Ids(w') == Ids(w)
  {
    hide SchedulerSound, Linked, Directed, Supplied, IdsConserved, Launches, Sends, MayBeInitialMon, RunningOf,
         StartingOf;
    ReplyCounts(w, m, reply, mon);
    ArrivalEffect(w, reply, mon);
  }

  /** A reply reaches the scheduler. */
  lemma ReplyStep(w: World, m: string) returns (e: Event)
    requires Friendly(w, m) && w.replies != multiset{}
    ensures Enabled(w, e) && Friendly(Apply(w, e), m) && Potential(Apply(w, e), m) < Potential(w, m)
  {
    hide Inv, AllServed, Blocked, Launches, Sends, MayBeInitialMon, Apply, CostOf, LostTask, Ids, IsInitialMon,
         ReportsOf, ExecOf;
    var reply :| reply in w.replies;
    var mon := SomeInitialMon(TasksOf(w));
    e := IdArrives(reply, mon);
    ReplyEffect(w, m, reply, mon);
    MonIsKnown(w, m);
    SameCost(w, Apply(w, e), m);
    NotLost(w, m);
    MovesOn(w, e, m, m, 0);
  }

  // ---------------------------------------------------------------- moving a task on

  /** A task on its way to RUNNING that can be moved on: it has a report to deliver. */
  lemma ReportStep(w: World, m: string, k: string) returns (e: Event)
    requires Friendly(w, m) && k in TasksOf(w)
    requires InStaging(TasksOf(w)[k].currentStatus) && ReportsOf(w.reports, k) != []
    ensures Enabled(w, e) && Friendly(Apply(w, e), m) && Potential(Apply(w, e), m) < Potential(w, m)
  {
    hide SchedulerSound, Directed, Supplied, IdsConserved, AllServed, Blocked, Launches, Sends, Apply, Informed,
         FlexLaunches, Ids;
    NotLost(w, k);
    e := Deliver(k);
    assert LinkedTask(TasksOf(w), w.execs, w.reports, k);
    var to := DeliverEffect(w, k);
    InformedEffect(w.sched.c, k, to);
    var w' := Apply(w, e);
    assert OnlyMoves(w, w', k);
    assert !LostTask(w', k) && w'.stuck == w.stuck;
    ReportIds(w, w', k, to);
    MovesOn(w, e, m, k, if to == FAILED then 200 else 2);
    ReportSlots(w.sched.c, k, to);
  }

  /** A report that is not the failure of a starting or running OSD costs no id. */
  lemma ReportIds(w: World, w': World, k: string, to: Status)
    requires k in TasksOf(w) && Legal(TasksOf(w)[k].taskType, TasksOf(w)[k].currentStatus, to)
    requires TasksOf(w') == TasksOf(w)[k := TasksOf(w)[k].(currentStatus := to)]
    requires w'.sched.c.pendingIds == w.sched.c.pendingIds && w'.replies == w.replies
    requires to == WAITING_OSDID || to == RUNNING || (to == FAILED && TasksOf(w)[k].currentStatus == STAGING)
    ensures Ids(w') >= Ids(w)
  {
    hide RunningOf, StartingOf;
    var r := TasksOf(w)[k].(currentStatus := to);
    RunningUpdate(TasksOf(w), k, r, OSD);
    StartingUpdate(TasksOf(w), k, r);
  }

  lemma StartingUpdate(tasks: Tasks, k: string, r: TaskState)
    requires k in tasks && r.taskType == tasks[k].taskType && r.currentStatus != STARTING
    ensures |StartingOf(tasks[k := r])|
            == |StartingOf(tasks)| - Tally(tasks[k].taskType == OSD && tasks[k].currentStatus == STARTING)
  {
    assert StartingOf(tasks[k := r]) == StartingOf(tasks) - {k};
  }

  lemma NotLost(w: World, k: string)
    requires !Blocked(w)
    ensures !LostTask(w, k) && w.stuck == {}
  {
  }

  lemma ReportSlots(c: Cluster, k: string, to: Status)
    requires k in c.tasks && Legal(c.tasks[k].taskType, c.tasks[k].currentStatus, to)
    requires to == WAITING_OSDID || to == RUNNING || (to == FAILED && c.tasks[k].currentStatus == STAGING)
    ensures Places(Informed(c, k, to)) <= Places(c) + if to == FAILED then 1 else 0
  {
  }

  lemma StartEffect(w: World, info: TaskInfo)
    requires info in LaunchesOf(w) && ExecOf(w.execs, info.taskId) == Staged
    ensures var e := ExecutorLaunch(info, true, Healthy);
            && Enabled(w, e)
            && Apply(w, e) == if info.taskType == OSD then Reported(w, info.taskId, AwaitingId, [Starting])
                              else Reported(w, info.taskId, Up, [Running])
  {
    TaskDataRoundTrip(info.initial, info.taskType);
  }

  /** A new task reaches its executor, which starts it. */
  lemma StartStep(w: World, m: string, k: string) returns (e: Event)
    requires Friendly(w, m) && k in TasksOf(w) && ExecOf(w.execs, k) == Staged
    ensures Enabled(w, e) && Friendly(Apply(w, e), m) && Potential(Apply(w, e), m) < Potential(w, m)
  {
    hide Inv, AllServed, Blocked, Launches, Sends, FlexLaunches, Enabled, Apply, ExecOf, ReportsOf, Ids;
    StagedIsNew(w, k);
    var info := KnownIsLaunched(w, k);
    e := ExecutorLaunch(info, true, Healthy);
    StartEffect(w, info);
    if info.taskType == OSD {
      ReportedMoves(w, Apply(w, e), k, AwaitingId, [Starting]);
    } else {
      ReportedMoves(w, Apply(w, e), k, Up, [Running]);
    }
    MovesOn(w, e, m, k, 1);
  }

  /** A task whose executor hangs in its launch can fail, which frees its place. */
  lemma DieStep(w: World, m: string, k: string) returns (e: Event)
    requires Friendly(w, m) && k in TasksOf(w) && ExecOf(w.execs, k) == Hung
    requires TasksOf(w)[k].currentStatus == STAGING && ReportsOf(w.reports, k) == []
    ensures Enabled(w, e) && Friendly(Apply(w, e), m) && Potential(Apply(w, e), m) < Potential(w, m)
  {
    hide Inv, AllServed, Blocked, Launches, Sends, FlexLaunches, ExecOf, ReportsOf, Ids;
    var info := KnownIsLaunched(w, k);
    e := ExecutorDies(info);
    ReportedMoves(w, Apply(w, e), k, Gone, [Failed]);
    MovesOn(w, e, m, k, 10);
  }

  lemma KnownIsLaunched(w: World, k: string) returns (info: TaskInfo)
    requires Inv(w) && k in TasksOf(w)
    ensures info in LaunchesOf(w) && info.taskId == k && info.taskType == TasksOf(w)[k].taskType
    ensures info.executorId == TasksOf(w)[k].executorId && info.slaveId == TasksOf(w)[k].slaveId
    ensures k in BookOf(w) && BookOf(w)[k] == info
  {
    hide Counted, DisksSound, ExchangeSound, Launches, Identity.Book;
    info := BookOf(w)[k];
    assert Recorded(w.sched.c, k, info);
    BookedIsLaunched(LaunchesOf(w), k);
  }

  /** The id that was sent to a starting OSD is still in the channel. */
  lemma IdInFlight(w: World, k: string, info: TaskInfo) returns (env: Envelope)
    requires Inv(w) && AllServed(TasksOf(w), Sends(w.sched.calls)) && k in TasksOf(w) && k in BookOf(w)
    requires TasksOf(w)[k].taskType == OSD && TasksOf(w)[k].currentStatus == STARTING
    requires ExecOf(w.execs, k) == AwaitingId
    requires info == BookOf(w)[k] && info.executorId == TasksOf(w)[k].executorId
    ensures InFlightTo(w, info, env) && env.message.LaunchOsd?
  {
    hide Counted, DisksSound, Linked, Supplied, IdsConserved, TokensIncrease, AllConfigured, AllEntered, Sends,
         Launches,
         Identity.Book;
    var sent := Sends(w.sched.calls);
    var n := TargetSentAt(sent, info.executorId);
    env := sent[n];
    assert Targeted(TasksOf(w), w.execs, w.taken, sent[n]) && Addressed(BookOf(w), sent[n]);
    var j :| j in BookOf(w) && BookOf(w)[j].executorId == env.executorId && BookOf(w)[j].slaveId == env.slaveId;
    assert Recorded(w.sched.c, j, BookOf(w)[j]);
    SameExecutorSameTask(w.sched.c, BookOf(w), j, k);
    assert env in multiset(sent);
  }

  lemma IdEffect(w: World, info: TaskInfo, env: Envelope)
    requires info in LaunchesOf(w) && InFlightTo(w, info, env) && env.message.LaunchOsd?
    requires ExecOf(w.execs, info.taskId) == AwaitingId
    ensures var e := ExecutorMessage(info, env, Healthy, 0);
            && Enabled(w, e)
            && Apply(w, e) == Reported(w, info.taskId, Up, [Running]).(taken := w.taken + multiset{env})
  {
    MessageRoundTrip(env.message);
  }

  /** The id reaches its OSD, which starts. */
  lemma IdStep(w: World, m: string, k: string) returns (e: Event)
    requires Friendly(w, m) && k in TasksOf(w) && TasksOf(w)[k].taskType == OSD
    requires TasksOf(w)[k].currentStatus == STARTING && ExecOf(w.execs, k) == AwaitingId
    ensures Enabled(w, e) && Friendly(Apply(w, e), m) && Potential(Apply(w, e), m) < Potential(w, m)
  {
    hide Inv, AllServed, Blocked, Launches, Sends, FlexLaunches, Enabled, Apply, ExecOf, ReportsOf, InFlightTo, Ids;
    StartingIsQuiet(w, k);
    var info := KnownIsLaunched(w, k);
    var env := IdInFlight(w, k, info);
    e := ExecutorMessage(info, env, Healthy, 0);
    IdEffect(w, info, env);
    ReportedMoves(w, Apply(w, e), k, Up, [Running]);
    MovesOn(w, e, m, k, 2);
  }

  // ---------------------------------------------------------------- assigning ids

  lemma ListOf(all: set<string>) returns (ids: seq<string>)
    ensures multiset(ids) == multiset(all)
  {
    ids := [];
    var rest := all;
    while rest != {}
      invariant rest <= all && multiset(ids) == multiset(all - rest)
      decreases rest
    {
      var x :| x in rest;
      assert all - (rest - {x}) == (all - rest) + {x};
      rest := rest - {x};
      ids := ids + [x];
    }
    assert all - rest == all;
  }

  /** The waiting tasks can be scanned in some order. */
  lemma SomeScan(tasks: Tasks) returns (ids: seq<string>)
    ensures ListsWaiting(tasks, ids)
  {
    ids := ListOf(WaitingOf(tasks));
    forall i | 0 <= i < |ids| ensures ids[i] in tasks {
      assert ids[i] in multiset(ids);
    }
  }

  lemma EmptyBatch(w: World, ids: seq<string>)
    requires ListsWaiting(TasksOf(w), ids)
    ensures Enabled(w, Offers(ids, [], []))
    ensures Apply(w, Offers(ids, [], [])) == w.(sched := HandleWaiting(w.sched, ids))
  {
  }

  /** As many waiting OSDs as there are ids become STARTING, with the counters and the log as they were. */
  lemma SomeAssigned(w: World, ids: seq<string>, n: nat)
    requires Inv(w) && ListsWaiting(TasksOf(w), ids) && n == Min(|ids|, |w.sched.c.pendingIds|)
    ensures var s' := HandleWaiting(w.sched, ids);
            && n <= |ids| && StartedFirst(TasksOf(w), s'.c.tasks, ids, n)
            && s'.c == w.sched.c.(tasks := s'.c.tasks, pendingIds := s'.c.pendingIds)
            && |s'.c.pendingIds| == |w.sched.c.pendingIds| - n
            && Launches(s'.calls) == LaunchesOf(w) && FlexLaunches(s'.calls) == FlexLaunchesOf(w)
  {
    hide Inv, Launches, Sends, StartedFirst, AssignFirst, FlexLaunches;
    WaitingListed(TasksOf(w), ids);
    WaitingOnce(TasksOf(w), ids);
    AssignFirstExact(w.sched, ids, n);
    AssignFirstKeeps(w.sched, ids, n);
  }

  /** What is started from WAITING_OSDID costs less and is not lost. */
  lemma StartedIsCheaper(w: World, w': World, ids: seq<string>, n: nat, k: string)
    requires Inv(w) && ListsWaiting(TasksOf(w), ids) && n <= |ids| && StartedFirst(TasksOf(w), TasksOf(w'), ids, n)
    requires w'.execs == w.execs && w'.reports == w.reports && !LostTask(w, k)
    ensures !LostTask(w', k)
    ensures CostOf(w', k) <= CostOf(w, k) && (k in ids[..n] ==> CostOf(w', k) + 2 <= CostOf(w, k))
  {
    hide SchedulerSound, Directed, Supplied, IdsConserved;
    WaitingListed(TasksOf(w), ids);
    assert LinkedTask(TasksOf(w), w.execs, w.reports, k);
  }

  lemma StartedSameTypes(tasks: Tasks, tasks': Tasks, ids: seq<string>, n: nat)
    requires n <= |ids| && StartedFirst(tasks, tasks', ids, n)
    ensures OfType(tasks', OSD) == OfType(tasks, OSD)
  {
  }

  lemma StartedSet(tasks: Tasks, tasks': Tasks, first: set<string>)
    requires tasks'.Keys == tasks.Keys && forall k :: k in first ==> k in tasks && IsWaiting(tasks[k])
    requires forall k :: k in tasks ==>
               tasks'[k] == if k in first then tasks[k].(currentStatus := STARTING) else tasks[k]
    ensures RunningOf(tasks', OSD) == RunningOf(tasks, OSD) && |StartingOf(tasks')| == |StartingOf(tasks)| + |first|
  {
    assert StartingOf(tasks') == StartingOf(tasks) + first && StartingOf(tasks) !! first;
  }

  lemma StartedCounts(tasks: Tasks, tasks': Tasks, ids: seq<string>, n: nat)
    requires n <= |ids| && Distinct(ids) && StartedFirst(tasks, tasks', ids, n)
    requires forall i :: 0 <= i < |ids| ==> ids[i] in tasks && IsWaiting(tasks[ids[i]])
    ensures RunningOf(tasks', OSD) == RunningOf(tasks, OSD) && |StartingOf(tasks')| == |StartingOf(tasks)| + n
  {
    hide RunningOf, StartingOf, IsWaiting;
    var first := set i | 0 <= i < n :: ids[i];
    PrefixSize(ids, n);
    StartedSet(tasks, tasks', first);
  }

  /** Every id that is spent makes one more OSD start. */
  lemma AssignedIds(w: World, w': World, ids: seq<string>, n: nat)
    requires ListsWaiting(TasksOf(w), ids) && n <= |ids| && StartedFirst(TasksOf(w), TasksOf(w'), ids, n)
    requires |w'.sched.c.pendingIds| == |w.sched.c.pendingIds| - n && w'.replies == w.replies
    ensures Ids(w') == Ids(w)
  {
    hide RunningOf, StartingOf, StartedFirst;
    WaitingListed(TasksOf(w), ids);
    WaitingOnce(TasksOf(w), ids);
    StartedCounts(TasksOf(w), TasksOf(w'), ids, n);
  }

  /** With ids pending, the next callback starts a waiting OSD. */
  lemma AssignStep(w: World, m: string) returns (e: Event)
    requires Friendly(w, m) && w.sched.c.pendingIds != [] && WaitingOf(TasksOf(w)) != {}
    ensures Enabled(w, e) && Friendly(Apply(w, e), m) && Potential(Apply(w, e), m) < Potential(w, m)
  {
    hide Inv, AllServed, Launches, FlexLaunches, StartedFirst, ListsWaiting, Enabled, Apply, LostTask, CostOf,
         UnderWay, WaitingOf, Ids;
    var ids := SomeScan(TasksOf(w));
    e := Offers(ids, [], []);
    EmptyBatch(w, ids);
    var n := Min(|ids|, |w.sched.c.pendingIds|);
    SomeAssigned(w, ids, n);
    var w' := Apply(w, e);
    forall k
      ensures !LostTask(w', k) && CostOf(w', k) <= CostOf(w, k)
      ensures k in ids[..n] ==> CostOf(w', k) + 2 <= CostOf(w, k)
    {
      NotLost(w, k);
      StartedIsCheaper(w, w', ids, n, k);
    }
    AssignedIds(w, w', ids, n);
    StaysFriendly(w, e, m);
    ScanIsNotEmpty(TasksOf(w), ids);
    assert ids[0] == ids[..n][0];
    var info := KnownIsLaunched(w, ids[0]);
    var i :| 0 <= i < |LaunchesOf(w)| && LaunchesOf(w)[i] == info;
    TotalDrops(w, w', LaunchesOf(w), i, 2);
    UnderWayIs(w, m);
    UnderWayIs(w', m);
    StartedSameTypes(TasksOf(w), TasksOf(w'), ids, n);
  }

  lemma ScanIsNotEmpty(tasks: Tasks, ids: seq<string>)
    requires ListsWaiting(tasks, ids) && WaitingOf(tasks) != {}
    ensures ids != [] && ids[0] in tasks
  {
    WaitingListed(tasks, ids);
  }

  // ---------------------------------------------------------------- launching a task

  /** An offer with everything, from a host without disks. */
  function PlainOffer(hostname: string): Offer {
    Offer("offer", hostname, "slave", true, true, HostSpec([], [], 0))
  }

  lemma SingleOffer(w: World, o: Offer, ch: Choice)
    requires WaitingOf(TasksOf(w)) == {} && ChoiceFits(Progress(w.sched, false), o, w.sched.c.phase, ch)
    ensures Enabled(w, Offers([], [o], [ch]))
    ensures Apply(w, Offers([], [o], [ch]))
            == w.(sched := OfferStep(Progress(w.sched, false), o, w.sched.c.phase, ch).s)
  {
    hide ChoiceFits, OfferStep;
    assert [o][..0] == [] && [ch][..0] == [];
    assert HandleWaiting(w.sched, []) == w.sched;
  }

  /** The answers of getInitialMon exist, before and after the launch, which does not depend on the latter. */
  lemma FittingChoice(p: Progress, o: Offer, phase: Phase) returns (ch: Choice)
    requires phase == p.s.c.phase && LaunchIn(p, o, phase, Choice(TaskState("", "", MON, "", "", UNKNOWN),
                                     TaskState("", "", MON, "", "", UNKNOWN), 0)).Some?
    ensures ChoiceFits(p, o, phase, ch) && LaunchIn(p, o, phase, ch).Some?
  {
    hide OfferStep, MayBeInitialMon, NewTask, TaskIdText, ExecutorIdText, Top;
    var before := SomeInitialMon(p.s.c.tasks);
    var first := Choice(before, before, 0);
    var after := SomeInitialMon(OfferStep(p, o, phase, first).s.c.tasks);
    ch := Choice(before, after, 0);
    LaunchedTable(p, o, phase, first);
    LaunchedTable(p, o, phase, ch);
  }

  lemma LaunchedTable(p: Progress, o: Offer, phase: Phase, ch: Choice)
    requires LaunchIn(p, o, phase, ch).Some? && phase == p.s.c.phase
    ensures OfferStep(p, o, phase, ch).s.c == WithNewTask(p.s.c, LaunchIn(p, o, phase, ch).value)
  {
    hide OfferStep, LaunchIn, Launches, Sends, FlexLaunches;
    LaunchRound(p, o, phase, ch);
  }

  /** What a callback with one plain offer does when there is room for a task. */
  ghost predicate LaunchesOne(w: World, w': World, info: TaskInfo, t: TaskType) {
    && w' == w.(sched := w'.sched) && info.taskType == t && info.taskId !in TasksOf(w)
    && w'.sched.c == WithNewTask(w.sched.c, info)
    && LaunchesOf(w') == LaunchesOf(w) + [info] && FlexLaunchesOf(w') == FlexLaunchesOf(w)
    && info.token == Of(w.sched.c, t).index
  }

  lemma LaunchOne(w: World, hostname: string) returns (e: Event, info: TaskInfo)
    requires Inv(w) && hostname !in w.sched.hosts && WaitingOf(TasksOf(w)) == {}
    requires NextMove(w.sched.c, false).Go? && w.sched.c.phase != WAITING_REQUEST
    ensures Enabled(w, e) && LaunchesOne(w, Apply(w, e), info, NextMove(w.sched.c, false).taskType)
    ensures info.hostname == hostname && Apply(w, e).sched.hosts.Keys == w.sched.hosts.Keys + {hostname}
  {
    hide ExchangeSound, DisksSound, Counted, OfferStep, Launches, Sends, FlexLaunches, LaunchIn, ChoiceFits, Enabled,
         Apply;
    var p, o, phase := Progress(w.sched, false), PlainOffer(hostname), w.sched.c.phase;
    var none := TaskState("", "", MON, "", "", UNKNOWN);
    LaunchesExactlyWhen(p, o, phase, Choice(none, none, 0));
    var ch := FittingChoice(p, o, phase);
    e := Offers([], [o], [ch]);
    SingleOffer(w, o, ch);
    info := LaunchIn(p, o, phase, ch).value;
    LaunchRound(p, o, phase, ch);
    BookedWhenLogged(w.sched.c, LaunchesOf(w));
    LaunchToken(w, info);
    TaskIdIsFresh(w.sched.c, BookOf(w), info);
    RoundAddsHost(p, o, phase, ch);
  }

  lemma LaunchToken(w: World, info: TaskInfo)
    requires NextMove(w.sched.c, false) == Go(info.taskType, info.token)
    ensures info.token == Of(w.sched.c, info.taskType).index
  {
  }

  lemma {:induction false} LongerThanAll(names: set<string>) returns (longer: string)
    ensures forall x :: x in names ==> |x| < |longer|
  {
    if names == {} {
      longer := "";
    } else {
      var x :| x in names;
      var rest := LongerThanAll(names - {x});
      longer := if |x| < |rest| then rest else x + "x";
    }
  }

  lemma FreshHost(hosts: map<string, Host>) returns (hostname: string)
    ensures hostname !in hosts
  {
    hostname := LongerThanAll(hosts.Keys);
  }

  lemma {:induction false} TotalSame(w: World, w': World, infos: seq<TaskInfo>)
    requires forall i :: 0 <= i < |infos| ==> CostOf(w', infos[i].taskId) == CostOf(w, infos[i].taskId)
    ensures Total(w', infos) == Total(w, infos)
  {
    hide CostOf;
    if infos != [] {
      TotalSame(w, w', infos[..|infos| - 1]);
    }
  }

  /** A new task is staged at its executor, and costs 9. */
  lemma NewTaskIsStaged(w: World, w': World, info: TaskInfo, t: TaskType)
    requires Inv(w) && LaunchesOne(w, w', info, t) && !Blocked(w)
    ensures !Blocked(w') && CostOf(w', info.taskId) == 9 && Ids(w') == Ids(w)
    ensures forall k :: k != info.taskId ==> CostOf(w', k) == CostOf(w, k)
  {
    hide SchedulerSound, Directed, Supplied, IdsConserved, Launches, FlexLaunches;
    assert LinkedTask(TasksOf(w), w.execs, w.reports, info.taskId);
    assert TasksOf(w') == TasksOf(w)[info.taskId := RecordFor(info)];
    assert RunningOf(TasksOf(w'), OSD) == RunningOf(TasksOf(w), OSD);
    assert StartingOf(TasksOf(w')) == StartingOf(TasksOf(w));
    forall k ensures !LostTask(w', k) {
      assert !LostTask(w, k);
    }
  }

  lemma NewTotal(w: World, w': World, info: TaskInfo, t: TaskType)
    requires Inv(w) && LaunchesOne(w, w', info, t) && CostOf(w', info.taskId) == 9
    requires forall k :: k != info.taskId ==> CostOf(w', k) == CostOf(w, k)
    ensures Total(w', LaunchesOf(w')) == Total(w, LaunchesOf(w)) + 9
  {
    hide Counted, TokensIncrease, AllConfigured, DisksSound, ExchangeSound, CostOf, Launches, Identity.Book;
    var infos := LaunchesOf(w);
    forall i | 0 <= i < |infos| ensures CostOf(w', infos[i].taskId) == CostOf(w, infos[i].taskId) {
      assert infos[i].taskId in BookOf(w);
    }
    TotalSame(w, w', infos);
    assert (infos + [info])[..|infos + [info]| - 1] == infos;
  }

  /** The initial MON and the registrations after a launch. */
  lemma MonAfterLaunch(w: World, w': World, info: TaskInfo, t: TaskType, m: string)
    requires Inv(w) && Inv(w') && LaunchesOne(w, w', info, t) && IsInitialMon(BookOf(w), m)
    ensures IsInitialMon(BookOf(w'), m) && UnderWay(w', m) == UnderWay(w, m) + if t == OSD then 1 else 0
  {
    hide Inv, Launches, FlexLaunches, Identity.Book, UnderWay, Of;
    LogGrows(LaunchesOf(w), info);
    MonIsKnown(w, m);
    UnderWayIs(w, m);
    UnderWayIs(w', m);
    OsdsAfterLaunch(w.sched.c, info);
    assert TasksOf(w') == TasksOf(w)[info.taskId := RecordFor(info)];
  }

  /** With nothing on its way, the next task is launched. */
  lemma LaunchStep(w: World, m: string) returns (e: Event)
    requires Friendly(w, m) && w.sched.c.phase != WAITING_REQUEST && WaitingOf(TasksOf(w)) == {}
    requires forall t :: StagingOf(TasksOf(w), t) == {}
    ensures Enabled(w, e) && Friendly(Apply(w, e), m) && Potential(Apply(w, e), m) < Potential(w, m)
  {
    hide Inv, AllServed, Launches, FlexLaunches, Enabled, Apply, Blocked, CostOf, UnderWay, WaitingOf, RecordsStep,
         AllJustified, Ids;
    RoomForOne(w);
    var hostname := FreshHost(w.sched.hosts);
    var info;
    e, info := LaunchOne(w, hostname);
    var w', t := Apply(w, e), NextMove(w.sched.c, false).taskType;
    StepKeepsInv(w, e);
    EventSteps(w, e);
    NewTaskIsStaged(w, w', info, t);
    NewTotal(w, w', info, t);
    MonAfterLaunch(w, w', info, t, m);
    PlacesAfterLaunch(w.sched.c, info);
  }

  lemma PlacesAfterLaunch(c: Cluster, info: TaskInfo)
    ensures Places(WithNewTask(c, info)) == Places(c) - 1
  {
  }

  lemma RoomForOne(w: World)
    requires Inv(w) && !Blocked(w) && w.sched.c.phase != WAITING_REQUEST
    requires forall t :: StagingOf(TasksOf(w), t) == {}
    ensures NextMove(w.sched.c, false).Go?
  {
    hide Logged, DisksSound, ExchangeSound, LostTask;
    forall t ensures Of(w.sched.c, t).staging == 0 {
      assert CountedType(TasksOf(w), w.stuck, t, Of(w.sched.c, t));
      assert StagingOf(TasksOf(w), t) == {} && StuckOf(TasksOf(w), w.stuck, t) == {};
    }
    assert Of(w.sched.c, MON).staging == Of(w.sched.c, OSD).staging == Of(w.sched.c, RADOSGW).staging == 0;
  }

  // ---------------------------------------------------------------- completing the bootstrap

  /** A task on its way that does not wait for an id can be moved on. */
  lemma TaskStep(w: World, m: string, k: string) returns (e: Event)
    requires Friendly(w, m) && k in TasksOf(w)
    requires TasksOf(w)[k].currentStatus == STAGING || TasksOf(w)[k].currentStatus == STARTING
    ensures Enabled(w, e) && Friendly(Apply(w, e), m) && Potential(Apply(w, e), m) < Potential(w, m)
  {
    hide SchedulerSound, Directed, Supplied, IdsConserved, AllServed, Blocked, Launches, Sends, FlexLaunches, Enabled,
         Apply, Potential, Ids;
    NotLost(w, k);
    assert LinkedTask(TasksOf(w), w.execs, w.reports, k);
    if ReportsOf(w.reports, k) != [] {
      e := ReportStep(w, m, k);
    } else if ExecOf(w.execs, k) == Hung {
      e := DieStep(w, m, k);
    } else if TasksOf(w)[k].currentStatus == STAGING {
      e := StartStep(w, m, k);
    } else {
      e := IdStep(w, m, k);
    }
  }

  /** If nothing else can be done for the waiting OSDs, there is an id for one. */
  lemma IdForWaiting(w: World, m: string)
    requires Friendly(w, m) && w.replies == multiset{} && WaitingOf(TasksOf(w)) != {}
    requires TakesMessages(ExecOf(w.execs, m)) ==> UnderWay(w, m) == 0
    requires forall k :: k in TasksOf(w) ==>
               TasksOf(w)[k].currentStatus != STAGING && TasksOf(w)[k].currentStatus != STARTING
    ensures w.sched.c.pendingIds != []
  {
    hide Inv, AllServed, Blocked, Ids, WaitingOf, UnderWay, IsInitialMon, Launches, Sends, FlexLaunches, ExecOf;
    if Silent(w, m) {
      SilentButFed(w, m);
    } else {
      MonIsKnown(w, m);
      NotStaged(w, m);
      DrainedHasIds(w, m);
    }
  }

  lemma NotStaged(w: World, m: string)
    requires Inv(w) && m in TasksOf(w) && TasksOf(w)[m].taskType == MON && TasksOf(w)[m].currentStatus != STAGING
    ensures ExecOf(w.execs, m) != Staged && ExecOf(w.execs, m) != AwaitingId
  {
    hide SchedulerSound, Directed, Supplied, IdsConserved;
    assert LinkedTask(TasksOf(w), w.execs, w.reports, m);
  }

  lemma DrainedHasIds(w: World, m: string)
    requires Inv(w) && IsInitialMon(BookOf(w), m) && TakesMessages(ExecOf(w.execs, m))
    requires w.replies == multiset{} && UnderWay(w, m) == 0 && WaitingOf(TasksOf(w)) != {}
    ensures w.sched.c.pendingIds != []
  {
    hide Counted, Bounded, TokensIncrease, AllEntered, AllConfigured, DisksSound, Linked, Directed, Supplied,
         IdsConserved, Booked, Launches, Sends, FlexLaunches, WaitingOf;
    EnoughIds(w.sched.c, BookOf(w), ChannelsOf(w), w.execs, m);
  }

  lemma SilentButFed(w: World, m: string)
    requires Inv(w) && Ids(w) >= 3 && w.replies == multiset{} && WaitingOf(TasksOf(w)) != {} && FlexLaunchesOf(w) == 0
    requires forall k :: k in TasksOf(w) ==> TasksOf(w)[k].currentStatus != STARTING
    ensures w.sched.c.pendingIds != []
  {
    hide Logged, DisksSound, ExchangeSound, FlexLaunches;
    var tasks := TasksOf(w);
    assert StartingOf(tasks) == {};
    assert CountedType(tasks, w.stuck, OSD, Of(w.sched.c, OSD));
    var k :| k in WaitingOf(tasks);
    assert k in StagingOf(tasks, OSD);
  }

  /** In a friendly world that is not complete, some event leads closer. */
  lemma FriendlyStep(w: World, m: string) returns (e: Event)
    requires Friendly(w, m) && w.sched.c.phase != WAITING_REQUEST
    ensures Enabled(w, e) && Friendly(Apply(w, e), m) && Potential(Apply(w, e), m) < Potential(w, m)
  {
    hide Inv, AllServed, Blocked, Fed, Enabled, Apply, Potential, WaitingOf, TakesMessages;
    PotentialIsNatural(w, m);
    NothingUnderWay(w, m);
    if TakesMessages(ExecOf(w.execs, m)) && UnderWay(w, m) != 0 {
      e := AnswerStep(w, m);
    } else if w.replies != multiset{} {
      e := ReplyStep(w, m);
    } else if k :| k in TasksOf(w)
                   && (TasksOf(w)[k].currentStatus == STAGING || TasksOf(w)[k].currentStatus == STARTING) {
      e := TaskStep(w, m, k);
    } else if WaitingOf(TasksOf(w)) != {} {
      IdForWaiting(w, m);
      e := AssignStep(w, m);
    } else {
      NothingStaging(w);
      e := LaunchStep(w, m);
    }
  }

  lemma StagingWaits(w: World, t: TaskType, k: string)
    requires Inv(w) && k in StagingOf(TasksOf(w), t)
    requires TasksOf(w)[k].currentStatus != STAGING && TasksOf(w)[k].currentStatus != STARTING
    ensures k in WaitingOf(TasksOf(w))
  {
    hide SchedulerSound, Directed, Supplied, IdsConserved;
    assert LinkedTask(TasksOf(w), w.execs, w.reports, k);
  }

  lemma NothingStaging(w: World)
    requires Inv(w) && WaitingOf(TasksOf(w)) == {}
    requires forall k :: k in TasksOf(w) ==>
               TasksOf(w)[k].currentStatus != STAGING && TasksOf(w)[k].currentStatus != STARTING
    ensures forall t :: StagingOf(TasksOf(w), t) == {}
  {
    hide Inv, WaitingOf;
    forall t ensures StagingOf(TasksOf(w), t) == {} {
      if k :| k in StagingOf(TasksOf(w), t) {
        StagingWaits(w, t, k);
      }
    }
  }

  lemma NothingUnderWay(w: World, m: string)
    requires Inv(w) && IsInitialMon(BookOf(w), m)
    ensures UnderWay(w, m) >= 0
  {
    hide SchedulerSound, Linked, Directed, IdsConserved;
    assert SuppliedBy(BookOf(w)[m], |OfType(TasksOf(w), OSD)|, ChannelsOf(w), ExecOf(w.execs, m));
  }

  /** Some continuation gets to WAITING_REQUEST. */
  ghost predicate CanComplete(w: World) {
    exists ws: seq<World>, es: seq<Event> :: IsPath(ws, es) && ws[0] == w && ws[|es|].sched.c.phase == WAITING_REQUEST
  }

  lemma CompleteNow(w: World)
    requires w.sched.c.phase == WAITING_REQUEST
    ensures CanComplete(w)
  {
    var es: seq<Event> := [];
    assert IsPath([w], es) && [w][|es|] == w;
  }

  lemma LongerPath(w: World, e: Event, ws: seq<World>, es: seq<Event>)
    requires Enabled(w, e) && IsPath(ws, es) && ws[0] == Apply(w, e)
    ensures IsPath([w] + ws, [e] + es)
  {
    hide Enabled, Apply;
    var ws', es' := [w] + ws, [e] + es;
    forall i | 0 <= i < |es'| ensures Enabled(ws'[i], es'[i]) && ws'[i + 1] == Apply(ws'[i], es'[i]) {
      if i > 0 {
        var j := i - 1;
        assert ws'[i] == ws[j] && es'[i] == es[j] && ws'[i + 1] == ws[j + 1];
        assert Enabled(ws[j], es[j]) && ws[j + 1] == Apply(ws[j], es[j]);
      }
    }
  }

  lemma CompleteAfter(w: World, e: Event)
    requires Enabled(w, e) && CanComplete(Apply(w, e))
    ensures CanComplete(w)
  {
    hide Enabled, Apply;
    var ws: seq<World>, es: seq<Event> :|
      IsPath(ws, es) && ws[0] == Apply(w, e) && ws[|es|].sched.c.phase == WAITING_REQUEST;
    LongerPath(w, e, ws, es);
    assert ([w] + ws)[0] == w && ([w] + ws)[|[e] + es|] == ws[|es|];
  }

  lemma {:induction false} FriendlyCompletes(w: World, m: string)
    requires Friendly(w, m)
    ensures CanComplete(w)
    decreases PotentialOf(w, m)
  {
    hide Friendly, Enabled, Apply, CanComplete, Potential;
    PotentialIsNatural(w, m);
    if w.sched.c.phase == WAITING_REQUEST {
      CompleteNow(w);
    } else {
      var e := FriendlyStep(w, m);
      PotentialIsNatural(Apply(w, e), m);
      FriendlyCompletes(Apply(w, e), m);
      CompleteAfter(w, e);
    }
  }

  ghost function PotentialOf(w: World, m: string): nat {
    if m in BookOf(w) && Potential(w, m) >= 0 then Potential(w, m) else 0
  }

  /** The bootstrap of a run in which mon0 was launched can still be completed, whatever happened so far, if and only if
      no place is taken for ever and there is no shortage of ids: mon0 will still take messages, or the OSDs that run or
      start and the ids pending and under way make three. */
  lemma BootstrapCanCompleteIff(ws: seq<World>, es: seq<Event>, i: nat, m: string)
    requires IsRun(ws, es) && i < |ws| && IsInitialMon(BookOf(ws[i]), m) && FlexLaunchesOf(ws[i]) == 0
    ensures CanComplete(ws[i]) <==> !Blocked(ws[i]) && (!Silent(ws[i], m) || Ids(ws[i]) >= 3)
  {
    hide IsRun, Inv, Blocked, Silent, Ids, AllServed, Enabled, Apply, IsInitialMon;
    RunsAreSound(ws, es, i);
    ServedThroughout(ws, es, i);
    if !Blocked(ws[i]) && (!Silent(ws[i], m) || Ids(ws[i]) >= 3) {
      FriendlyCompletes(ws[i], m);
    } else {
      forall vs: seq<World>, ds: seq<Event> | IsPath(vs, ds) && vs[0] == ws[i]
        ensures vs[|ds|].sched.c.phase != WAITING_REQUEST
      {
        if Blocked(ws[i]) {
          BlockedForever(vs, ds, |ds|);
        } else {
          StarvedForever(vs, ds, |ds|, m);
        }
      }
    }
  }

  /** Before any MON token is spent the bootstrap can always be completed. */
  lemma BootstrapCanStart(ws: seq<World>, es: seq<Event>, i: nat)
    requires IsRun(ws, es) && i < |ws| && ws[i].sched.c.mon.index == 0
    ensures CanComplete(ws[i])
  {
    hide IsRun, Inv, Blocked, AllServed, Enabled, Apply, IsInitialMon, CanComplete, Launches, FlexLaunches, Fed;
    var w := ws[i];
    RunsAreSound(ws, es, i);
    ServedThroughout(ws, es, i);
    NothingYet(w);
    var hostname := FreshHost(w.sched.hosts);
    var e, info := LaunchOne(w, hostname);
    StepKeepsInv(w, e);
    EventSteps(w, e);
    NewTaskIsStaged(w, Apply(w, e), info, MON);
    LaunchedMonIsBooked(Apply(w, e), info);
    NewMonIsNotSilent(w, Apply(w, e), info);
    FriendlyCompletes(Apply(w, e), info.taskId);
    CompleteAfter(w, e);
  }

  lemma NothingYet(w: World)
    requires Inv(w) && w.sched.c.mon.index == 0
    ensures WaitingOf(TasksOf(w)) == {} && !Blocked(w) && FlexLaunchesOf(w) == 0
    ensures w.sched.c.phase == BOOTSTRAP_MON && NextMove(w.sched.c, false) == Go(MON, 0)
  {
    hide ExchangeSound, DisksSound, Launches, FlexLaunches;
    NoTokenNoMon(w);
    NoLaunchNoFlexUp(w);
    assert Identity.Book([]) == map[];
  }

  lemma NewMonIsNotSilent(w: World, w': World, info: TaskInfo)
    requires Inv(w) && LaunchesOne(w, w', info, MON)
    ensures Fed(w', info.taskId)
  {
    hide SchedulerSound, Directed, Supplied, IdsConserved;
    assert LinkedTask(TasksOf(w), w.execs, w.reports, info.taskId);
  }

  lemma NoLaunchNoFlexUp(w: World)
    requires LaunchesOf(w) == []
    ensures FlexLaunchesOf(w) == 0
  {
    NoneNoFlexUp(w.sched.calls);
  }

  lemma {:induction false} NoneNoFlexUp(calls: seq<Call>)
    requires Launches(calls) == []
    ensures FlexLaunches(calls) == 0
  {
    if calls != [] {
      NoneNoFlexUp(calls[..|calls| - 1]);
    }
  }
}
