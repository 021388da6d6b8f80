/** Every event of the protocol keeps the invariant, so it holds throughout every run. */
module Runs {
  import opened Text
  import opened Types
  import opened Wire
  import opened StateMachines
  import opened Schedulers
  import opened Effects
  import opened CephExecutors
  import opened Protocol
  import opened Counters
  import opened Identity
  import opened Messages
  import opened Supply
  import opened Invariants
  import opened Disks
  import FlexUp

  // ---------------------------------------------------------------- executors

  /** A launched task is in the table, with the type and the executor it was launched with. */
  lemma LaunchedIsKnown(c: Cluster, infos: seq<TaskInfo>, info: TaskInfo)
    requires Logged(c, infos) && info in infos
    ensures info.taskId in c.tasks && info.taskId in Identity.Book(infos) && Identity.Book(infos)[info.taskId] == info
    ensures c.tasks[info.taskId].taskType == info.taskType && c.tasks[info.taskId].executorId == info.executorId
  {
    hide Identity.Book, TokensIncrease, AllConfigured;
    var i :| 0 <= i < |infos| && infos[i] == info;
    assert infos[i].taskId in Identity.Book(infos);
    assert Recorded(c, info.taskId, info);
  }

  lemma ReportedLinked(tasks: Tasks, execs: Execs, reports: Reports, k: string, e: Exec, updates: seq<Update>)
    requires Linked(tasks, execs, reports) && k in tasks
    requires Consistent(tasks[k].taskType, tasks[k].currentStatus, e, ReportsOf(reports, k) + updates)
    ensures Linked(tasks, execs[k := e], reports[k := ReportsOf(reports, k) + updates])
  {
    hide Consistent;
    var execs', reports' := execs[k := e], reports[k := ReportsOf(reports, k) + updates];
    forall j ensures LinkedTask(tasks, execs', reports', j) {
      assert LinkedTask(tasks, execs, reports, j);
    }
  }

  /** What launchTask of an executor reports fits the record of a task that is new to it. */
  lemma LaunchReportFits(tasks: Tasks, execs: Execs, reports: Reports, info: TaskInfo, copied: bool,
                         container: Container)
    requires Linked(tasks, execs, reports) && info.taskId in tasks && tasks[info.taskId].taskType == info.taskType
    requires ExecOf(execs, info.taskId) == Staged
    ensures tasks[info.taskId].currentStatus == STAGING
    ensures var answer := OnLaunch(TaskData(info.initial, info.taskType), copied, container);
            && answer.Some?
            && Consistent(info.taskType, STAGING, answer.value.0, ReportsOf(reports, info.taskId) + answer.value.1)
  {
    assert LinkedTask(tasks, execs, reports, info.taskId);
    TaskDataRoundTrip(info.initial, info.taskType);
  }

  lemma ExecutorLaunchKeepsInv(w: World, info: TaskInfo, copied: bool, container: Container)
    requires Inv(w) && Enabled(w, ExecutorLaunch(info, copied, container))
    ensures Inv(Apply(w, ExecutorLaunch(info, copied, container)))
  {
    hide SchedulerSound, Logged, Linked, Directed, Supplied, OnLaunch, Consistent;
    var c, k, book := w.sched.c, info.taskId, BookOf(w);
    LoggedWhenSound(w);
    LaunchedIsKnown(c, Launches(w.sched.calls), info);
    LaunchReportFits(c.tasks, w.execs, w.reports, info, copied, container);
    var answer := OnLaunch(TaskData(info.initial, info.taskType), copied, container).value;
    ReportedLinked(c.tasks, w.execs, w.reports, k, answer.0, answer.1);
    MoveKeepsDirected(c.tasks, book, w.execs, w.taken, Sends(w.sched.calls), k, answer.0);
    ExecutorKeepsSupply(c, book, ChannelsOf(w), w.execs, k, answer.0);
    SchedulerSame(w, Apply(w, ExecutorLaunch(info, copied, container)));
  }

  lemma LoggedWhenSound(w: World)
    requires SchedulerSound(w)
    ensures Logged(w.sched.c, Launches(w.sched.calls))
  {
  }

  lemma SchedulerSame(w: World, w': World)
    requires SchedulerSound(w) && w'.sched == w.sched && w'.stuck == w.stuck
    requires w'.queue == w.queue && w'.accepted == w.accepted
    ensures SchedulerSound(w')
  {
  }

  /** A failure can be reported at any time after everything else. */
  lemma FailureFits(t: TaskType, st: Status, e: Exec, q: seq<Update>)
    requires Consistent(t, st, e, q) && e != Stopped && e != Gone
    ensures Consistent(t, st, Gone, q + [Failed])
  {
  }

  lemma ExecutorDiesKeepsInv(w: World, info: TaskInfo)
    requires Inv(w) && Enabled(w, ExecutorDies(info))
    ensures Inv(Apply(w, ExecutorDies(info)))
  {
    hide SchedulerSound, Logged, Directed, Supplied, Consistent;
    var c, k, book := w.sched.c, info.taskId, BookOf(w);
    LoggedWhenSound(w);
    LaunchedIsKnown(c, Launches(w.sched.calls), info);
    assert LinkedTask(c.tasks, w.execs, w.reports, k);
    FailureFits(c.tasks[k].taskType, c.tasks[k].currentStatus, ExecOf(w.execs, k), ReportsOf(w.reports, k));
    ReportedLinked(c.tasks, w.execs, w.reports, k, Gone, [Failed]);
    MoveKeepsDirected(c.tasks, book, w.execs, w.taken, Sends(w.sched.calls), k, Gone);
    ExecutorKeepsSupply(c, book, ChannelsOf(w), w.execs, k, Gone);
    SchedulerSame(w, Apply(w, ExecutorDies(info)));
  }

  /** A process can end without a report at any time. */
  lemma SilenceFits(t: TaskType, st: Status, e: Exec, q: seq<Update>)
    requires Consistent(t, st, e, q) && e != Gone
    ensures Consistent(t, st, Gone, q + [])
  {
    assert q + [] == q;
  }

  lemma ExecutorVanishesKeepsInv(w: World, info: TaskInfo)
    requires Inv(w) && Enabled(w, ExecutorVanishes(info))
    ensures Inv(Apply(w, ExecutorVanishes(info)))
  {
    hide SchedulerSound, Logged, Directed, Supplied, Consistent;
    var c, k, book := w.sched.c, info.taskId, BookOf(w);
    LoggedWhenSound(w);
    LaunchedIsKnown(c, Launches(w.sched.calls), info);
    assert LinkedTask(c.tasks, w.execs, w.reports, k);
    SilenceFits(c.tasks[k].taskType, c.tasks[k].currentStatus, ExecOf(w.execs, k), ReportsOf(w.reports, k));
    ReportedLinked(c.tasks, w.execs, w.reports, k, Gone, []);
    MoveKeepsDirected(c.tasks, book, w.execs, w.taken, Sends(w.sched.calls), k, Gone);
    ExecutorKeepsSupply(c, book, ChannelsOf(w), w.execs, k, Gone);
    SchedulerSame(w, Apply(w, ExecutorVanishes(info)));
  }

  lemma MessageDroppedKeepsInv(w: World, info: TaskInfo, env: Envelope)
    requires Inv(w) && Enabled(w, MessageDropped(info, env))
    ensures Inv(Apply(w, MessageDropped(info, env)))
  {
    hide SchedulerSound, Logged, Linked, Directed, Supplied, Booked;
    var c, book := w.sched.c, BookOf(w);
    LoggedWhenSound(w);
    BookedWhenLogged(c, Launches(w.sched.calls));
    LaunchedIsKnown(c, Launches(w.sched.calls), info);
    forall k | k in c.tasks && c.tasks[k].executorId == env.executorId ensures k == info.taskId {
      SameExecutorSameTask(c, book, k, info.taskId);
    }
    TakeKeepsDirected(c.tasks, book, w.execs, w.taken, Sends(w.sched.calls), env);
    DropKeepsSupply(c, book, ChannelsOf(w), w.execs, env, info);
    SchedulerSame(w, Apply(w, MessageDropped(info, env)));
  }

  /** A registration makes its executor ask for an id and changes nothing else. */
  lemma RegisterKeepsInv(w: World, info: TaskInfo, env: Envelope, container: Container, osdId: int)
    requires Inv(w) && Enabled(w, ExecutorMessage(info, env, container, osdId)) && env.message == RegisterOsd
    ensures Inv(Apply(w, ExecutorMessage(info, env, container, osdId)))
  {
    hide SchedulerSound, Logged, Directed, Supplied, Consistent, ReadOrder, MessageText;
    var c, k, book := w.sched.c, info.taskId, BookOf(w);
    var e, q := ExecOf(w.execs, k), ReportsOf(w.reports, k);
    LoggedWhenSound(w);
    LaunchedIsKnown(c, Launches(w.sched.calls), info);
    MessageRoundTrip(env.message);
    assert LinkedTask(c.tasks, w.execs, w.reports, k) && q + [] == q;
    ReportedLinked(c.tasks, w.execs, w.reports, k, e, []);
    StayKeepsDirected(c.tasks, book, w.execs, w.taken, Sends(w.sched.calls), k);
    TakeKeepsDirected(c.tasks, book, w.execs[k := e], w.taken, Sends(w.sched.calls), env);
    RegisterKeepsSupply(c, book, ChannelsOf(w), w.execs, env, Reply(info.executorId, osdId));
    var w' := Apply(w, ExecutorMessage(info, env, container, osdId));
    ExecutorKeepsSupply(c, book, ChannelsOf(w'), w.execs, k, e);
    SchedulerSame(w, w');
  }

  lemma StayKeepsDirected(tasks: Tasks, book: Messages.Book, execs: Execs, taken: multiset<Envelope>,
          sent: seq<Envelope>, k: string)
    requires Directed(tasks, book, execs, taken, sent)
    ensures Directed(tasks, book, execs[k := ExecOf(execs, k)], taken, sent)
  {
    forall i | 0 <= i < |sent| ensures Targeted(tasks, execs[k := ExecOf(execs, k)], taken, sent[i]) {
      assert Targeted(tasks, execs, taken, sent[i]);
    }
  }

  /** The id reaches an OSD that waits for it and whose record is STARTING already. */
  lemma LaunchKeepsInv(w: World, info: TaskInfo, env: Envelope, container: Container, osdId: int)
    requires Inv(w) && Enabled(w, ExecutorMessage(info, env, container, osdId)) && env.message.LaunchOsd?
    ensures Inv(Apply(w, ExecutorMessage(info, env, container, osdId)))
  {
    hide SchedulerSound, Logged, Directed, Supplied, IdsConserved, ReadOrder, MessageText, Booked, Launches, Sends,
         Identity.Book;
    var c, k, book := w.sched.c, info.taskId, BookOf(w);
    LoggedWhenSound(w);
    BookedWhenLogged(c, Launches(w.sched.calls));
    LaunchedIsKnown(c, Launches(w.sched.calls), info);
    MessageRoundTrip(env.message);
    LaunchMeetsWaitingExecutor(c.tasks, book, w.execs, w.taken, Sends(w.sched.calls), k, env);
    assert LinkedTask(c.tasks, w.execs, w.reports, k);
    var w' := Apply(w, ExecutorMessage(info, env, container, osdId));
    var e, update := AfterStart(container).0, AfterStart(container).1;
    assert w' == Reported(w, k, e, update).(taken := w.taken + multiset{env});
    ReportedLinked(c.tasks, w.execs, w.reports, k, e, update);
    DeliveryKeepsDirected(c.tasks, book, w.execs, w.taken, Sends(w.sched.calls), c, k, env, e);
    LaunchTakenKeepsSupply(c, book, ChannelsOf(w), w.execs, env);
    ExecutorKeepsSupply(c, book, ChannelsOf(w'), w.execs, k, e);
    SchedulerSame(w, w');
  }

  // ---------------------------------------------------------------- flex-up requests

  lemma PostKeepsInv(w: World, body: Option<FlexUp.Request>)
    requires Inv(w)
    ensures Inv(Apply(w, Post(body)))
  {
    hide Counted, Bounded, Logged, DisksSound, Linked, Directed, Supplied;
    if body.Some? && FlexUp.Sendable(body.value) {
      FlexUp.InstancesAppend(w.queue, body.value);
    }
  }

  lemma ReceiveKeepsInv(w: World)
    requires Inv(w) && Enabled(w, Receive)
    ensures Inv(Apply(w, Receive))
  {
    hide Counted, Bounded, Logged, DisksSound, Linked, Directed, Supplied;
    FlexUp.MessageMovesInstances(w.sched.requests, w.queue[0]);
  }

  // ---------------------------------------------------------------- all events

  /** Whatever happens next, the invariant is kept. */
  lemma StepKeepsInv(w: World, e: Event)
    requires Inv(w) && Enabled(w, e)
    ensures Inv(Apply(w, e))
  {
    hide Inv;
    match e {
      case Offers(waiting, offers, choices) => OffersKeepInv(w, waiting, offers, choices);
      case Deliver(k) => DeliverKeepsInv(w, k);
      case DiskReport(message) => DiskReportKeepsInv(w, message);
      case OtherReport(_) => assert Apply(w, e) == w;
      case IdArrives(reply, mon) => ArrivalKeepsInv(w, reply, mon);
      case ExecutorLaunch(info, copied, container) => ExecutorLaunchKeepsInv(w, info, copied, container);
      case ExecutorMessage(info, env, container, osdId) =>
        match env.message {
          case RegisterOsd => RegisterKeepsInv(w, info, env, container, osdId);
          case LaunchOsd(_) => LaunchKeepsInv(w, info, env, container, osdId);
        }
      case ExecutorDies(info) => ExecutorDiesKeepsInv(w, info);
      case ExecutorVanishes(info) => ExecutorVanishesKeepsInv(w, info);
      case MessageDropped(info, env) => MessageDroppedKeepsInv(w, info, env);
      case Post(body) => PostKeepsInv(w, body);
      case Receive => ReceiveKeepsInv(w);
    }
  }

  /** The invariant holds in every world of every run. */
  lemma {:induction false} RunsAreSound(ws: seq<World>, es: seq<Event>, i: nat)
    requires IsRun(ws, es) && i < |ws|
    ensures Inv(ws[i])
  {
    hide Inv, Enabled, Apply, Initial;
    if i == 0 {
      InitialIsSound(ws[0]);
    } else {
      RunsAreSound(ws, es, i - 1);
      assert Enabled(ws[i - 1], es[i - 1]) && ws[i - 1 + 1] == Apply(ws[i - 1], es[i - 1]);
      StepKeepsInv(ws[i - 1], es[i - 1]);
    }
  }
}
