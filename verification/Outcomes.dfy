/** What an executor of a run does with a launch, with an id, and with a registration, told without its functions. */
module Outcomes {
  import opened Text
  import opened Types
  import opened Wire
  import opened StateMachines
  import opened Schedulers
  import opened Effects
  import opened CephExecutors
  import opened Protocol
  import opened Counters
  import opened Identity
  import opened Messages
  import opened Supply
  import opened Disks
  import opened Invariants
  import opened Runs
  import opened Evolution
  import opened Safety

  /** The executor of the task, and its reports under way. */
  predicate At(w: World, k: string, e: Exec, reports: seq<Update>) {
    ExecOf(w.execs, k) == e && ReportsOf(w.reports, k) == reports
  }

  /** A container that was started comes to one of three ends. */
  predicate Started(w: World, k: string, container: Container) {
    match container
    case Healthy => At(w, k, Up, [Running])
    case Unwell => At(w, k, Stopped, [Failed])
    case Missing => At(w, k, Hung, [])
  }

  /** Only this executor and its reports change. */
  ghost predicate OnlyExecutor(w: World, w': World, k: string) {
    && w' == w.(execs := w'.execs, reports := w'.reports, taken := w'.taken, replies := w'.replies)
    && forall j :: j != k ==> At(w', j, ExecOf(w.execs, j), ReportsOf(w.reports, j))
  }

  lemma StagedIsNew(w: World, k: string)
    requires Inv(w) && k in TasksOf(w) && ExecOf(w.execs, k) == Staged
    ensures TasksOf(w)[k].currentStatus == STAGING && ReportsOf(w.reports, k) == []
  {
    hide SchedulerSound, Directed, Supplied, IdsConserved;
    assert LinkedTask(TasksOf(w), w.execs, w.reports, k);
  }

  lemma StartingIsQuiet(w: World, k: string)
    requires Inv(w) && k in TasksOf(w) && TasksOf(w)[k].currentStatus == STARTING && ExecOf(w.execs, k) == AwaitingId
    ensures ReportsOf(w.reports, k) == [] && TasksOf(w)[k].taskType == OSD
  {
    hide SchedulerSound, Directed, Supplied, IdsConserved;
    assert LinkedTask(TasksOf(w), w.execs, w.reports, k);
  }

  lemma LaunchedTask(w: World, info: TaskInfo)
    requires Inv(w) && info in LaunchesOf(w)
    ensures info.taskId in TasksOf(w) && TasksOf(w)[info.taskId].taskType == info.taskType
  {
    hide Inv, Launches;
    LoggedInInv(w);
    LaunchedIsKnown(w.sched.c, LaunchesOf(w), info);
  }

  lemma LoggedInInv(w: World)
    requires Inv(w)
    ensures Logged(w.sched.c, LaunchesOf(w))
  {
    hide ExchangeSound, Counted, DisksSound, Logged;
  }

  /** A launch whose set-up fails is reported failed; else an OSD reports that it starts and waits for its id, and any
      other task starts its container. */
  lemma LaunchOutcome(ws: seq<World>, es: seq<Event>, i: nat)
    requires IsRun(ws, es) && i < |es| && es[i].ExecutorLaunch?
    ensures var k, w' := es[i].info.taskId, ws[i + 1];
            && OnlyExecutor(ws[i], w', k) && w'.taken == ws[i].taken && w'.replies == ws[i].replies
            && if !es[i].copied then At(w', k, Stopped, [Failed])
               else if es[i].info.taskType == OSD then At(w', k, AwaitingId, [Starting])
               else Started(w', k, es[i].container)
  {
    hide Initial, Inv, Stepped, Launches;
    hide TaskData, OnLaunch, At, Started;
    RunStep(ws, es, i);
    LaunchedTask(ws[i], es[i].info);
    StagedIsNew(ws[i], es[i].info.taskId);
    LaunchReported(ws[i], ws[i + 1], es[i].info, es[i].copied, es[i].container);
  }

  lemma LaunchReported(w: World, w': World, info: TaskInfo, copied: bool, container: Container)
    requires ExecOf(w.execs, info.taskId) == Staged && ReportsOf(w.reports, info.taskId) == []
    requires var answer := OnLaunch(TaskData(info.initial, info.taskType), copied, container);
             w' == if answer == None then w else Reported(w, info.taskId, answer.value.0, answer.value.1)
    ensures var k := info.taskId;
            && OnlyExecutor(w, w', k) && w'.taken == w.taken && w'.replies == w.replies
            && if !copied then At(w', k, Stopped, [Failed])
               else if info.taskType == OSD then At(w', k, AwaitingId, [Starting])
               else Started(w', k, container)
  {
    hide TaskData, ReadTaskData;
    TaskDataRoundTrip(info.initial, info.taskType);
    assert [] + [Failed] == [Failed] && [] + [Starting] == [Starting] && [] + [Running] == [Running];
  }

  lemma ExpectingIsQuiet(w: World, info: TaskInfo, env: Envelope)
    requires Inv(w) && info in LaunchesOf(w) && InFlightTo(w, info, env) && env.message.LaunchOsd?
    requires TakesMessages(ExecOf(w.execs, info.taskId))
    ensures At(w, info.taskId, AwaitingId, []) && ReportsOf(w.reports, info.taskId) == [] && info.taskType == OSD
  {
    hide Counted, Bounded, DisksSound, Linked, Supplied, IdsConserved, Directed, Booked, Launches, Sends, Identity.Book;
    var c, k := w.sched.c, info.taskId;
    LoggedWhenSound(w);
    BookedWhenLogged(c, LaunchesOf(w));
    LaunchedIsKnown(c, LaunchesOf(w), info);
    LaunchMeetsWaitingExecutor(c.tasks, BookOf(w), w.execs, w.taken, Sends(w.sched.calls), k, env);
    StartingIsQuiet(w, k);
  }

  /** An id that is delivered finds an OSD that waits for it, and starts its container. */
  lemma IdOutcome(ws: seq<World>, es: seq<Event>, i: nat)
    requires IsRun(ws, es) && i < |es| && es[i].ExecutorMessage? && es[i].envelope.message.LaunchOsd?
    ensures var k, w' := es[i].info.taskId, ws[i + 1];
            && es[i].info.taskType == OSD && At(ws[i], k, AwaitingId, []) && Started(w', k, es[i].container)
            && OnlyExecutor(ws[i], w', k) && w'.replies == ws[i].replies
            && w'.taken == ws[i].taken + multiset{es[i].envelope}
  {
    hide Initial, Inv, Stepped, Launches, Sends, MessageText, OnMessage, At, Started;
    RunStep(ws, es, i);
    ExpectingIsQuiet(ws[i], es[i].info, es[i].envelope);
    MessageReported(ws[i], ws[i + 1], es[i]);
  }

  /** What an executor makes of a message, the world changing accordingly. */
  lemma MessageReported(w: World, w': World, e: Event)
    requires e.ExecutorMessage?
    requires var r := OnMessage(ExecOf(w.execs, e.info.taskId), MessageText(e.envelope.message), e.container);
             w' == Reported(w, e.info.taskId, r.0, r.1)
                   .(taken := w.taken + multiset{e.envelope},
                     replies := if r.2 then w.replies + multiset{Reply(e.info.executorId, e.osdId)} else w.replies)
    ensures OnlyExecutor(w, w', e.info.taskId)
    ensures e.envelope.message.LaunchOsd? && ReportsOf(w.reports, e.info.taskId) == [] ==>
              Started(w', e.info.taskId, e.container) && w'.replies == w.replies
    ensures e.envelope.message == RegisterOsd ==>
              At(w', e.info.taskId, ExecOf(w.execs, e.info.taskId), ReportsOf(w.reports, e.info.taskId))
              && w'.replies == w.replies + multiset{Reply(e.info.executorId, e.osdId)}
  {
    hide MessageText, ReadOrder;
    MessageRoundTrip(e.envelope.message);
    var q := ReportsOf(w.reports, e.info.taskId);
    assert q + [] == q;
    assert [] + [Failed] == [Failed] && [] + [Running] == [Running];
  }

  /** A registration is answered with what `ceph osd create` prints, and changes nothing at the executor. */
  lemma RegistrationOutcome(ws: seq<World>, es: seq<Event>, i: nat)
    requires IsRun(ws, es) && i < |es| && es[i].ExecutorMessage? && es[i].envelope.message == RegisterOsd
    ensures var k, w' := es[i].info.taskId, ws[i + 1];
            && At(w', k, ExecOf(ws[i].execs, k), ReportsOf(ws[i].reports, k)) && OnlyExecutor(ws[i], w', k)
            && w'.replies == ws[i].replies + multiset{Reply(es[i].info.executorId, es[i].osdId)}
            && w'.taken == ws[i].taken + multiset{es[i].envelope}
  {
    hide Initial, Inv, Stepped, Launches, Sends, MessageText, OnMessage, At;
    RunStep(ws, es, i);
    MessageReported(ws[i], ws[i + 1], es[i]);
  }

  /** An id that reaches the scheduler becomes pending exactly if getInitialMon answers with its sender. */
  lemma ReplyOutcome(ws: seq<World>, es: seq<Event>, i: nat)
    requires IsRun(ws, es) && i < |es| && es[i].IdArrives?
    ensures var w, w', id := ws[i], ws[i + 1], es[i].reply.osdId;
            var more := if es[i].mon.executorId == es[i].reply.executorId then [id] else [];
            && MayBeInitialMon(TasksOf(w), es[i].mon)
            && w'.sched == w.sched.(c := w.sched.c.(pendingIds := w.sched.c.pendingIds + more))
            && w'.replies == w.replies - multiset{es[i].reply} && w'.received == w.received + more
            && w'.execs == w.execs && w'.reports == w.reports
  {
    hide Initial, Stepped, SchedulerSound, Linked, Directed, Supplied, IdsConserved, MayBeInitialMon;
    RunStep(ws, es, i);
    ArrivalEffect(ws[i], es[i].reply, es[i].mon);
    assert ws[i].received + [] == ws[i].received;
    assert ws[i].sched.c.pendingIds + [] == ws[i].sched.c.pendingIds;
  }
}
