/** The scheduler, its executors, the channels between them and the flex-up queue, as one transition system.
    Callbacks are atomic; status updates of a task arrive in order and once; messages arrive in any order. */
module Protocol {
  import opened Text
  import opened Types
  import opened Wire
  import opened StateMachines
  import opened Schedulers
  import opened Effects
  import opened CephExecutors
  import FlexUp

  /** An OSD id on its way to the scheduler. */
  datatype Reply = Reply(executorId: string, osdId: int)

  datatype World = World(
    sched: Sched,
    execs: map<string, Exec>,            // by task id; a task without an entry has not reached its executor
    reports: map<string, seq<Update>>,   // by task id; status updates under way, oldest first
    taken: multiset<Envelope>,           // messages to executors that left the channel
    dropped: multiset<Envelope>,         // those of them that found their executor gone
    replies: multiset<Reply>,            // messages to the scheduler under way
    queue: seq<FlexUp.Request>,
    accepted: int,                       // history: OSD instances in all accepted requests
    received: seq<int>,                  // history: OSD ids the scheduler accepted
    stuck: set<string>)                  // history: tasks that failed while WAITING_OSDID or STARTING

  function ExecOf(execs: map<string, Exec>, k: string): Exec {
    if k in execs then execs[k] else Staged
  }

  function ReportsOf(reports: map<string, seq<Update>>, k: string): seq<Update> {
    if k in reports then reports[k] else []
  }

  ghost predicate Initial(w: World) {
    && w.sched.c == NewCluster() && w.sched.hosts == map[] && w.sched.requests == [] && w.sched.calls == []
    && w.sched.fallback.pendingOsd == w.sched.fallback.pendingJnl == []
    && w.execs == map[] && w.reports == map[]
    && w.taken == w.dropped == multiset{} && w.replies == multiset{}
    && w.queue == [] && w.accepted == 0 && w.received == [] && w.stuck == {}
  }

  datatype Event =
    /** resourceOffers, with the scan order of the waiting tasks and the environment's choices for each offer. */
    | Offers(waiting: seq<string>, offers: seq<Offer>, choices: seq<Choice>)
    /** statusUpdate of the scheduler for the oldest report of a Ceph task. */
    | Deliver(taskId: string)
    /** statusUpdate of the scheduler for a finished task, with any message at all. */
    | DiskReport(message: Option<string>)
    /** statusUpdate with a state the scheduler ignores. */
    | OtherReport(taskId: string)
    /** frameworkMessage of the scheduler, with the answer of getInitialMon. */
    | IdArrives(reply: Reply, mon: TaskState)
    /** launchTask of an executor. */
    | ExecutorLaunch(info: TaskInfo, copied: bool, container: Container)
    /** frameworkMessage of an executor; `osdId` is what `ceph osd create` would print. */
    | ExecutorMessage(info: TaskInfo, envelope: Envelope, container: Container, osdId: int)
    /** The process of an executor ends, at any time, and its task is reported failed. */
    | ExecutorDies(info: TaskInfo)
    /** The process ends without such a report: the task was reported failed before, or is reported killed or lost. */
    | ExecutorVanishes(info: TaskInfo)
    | MessageDropped(info: TaskInfo, envelope: Envelope)
    /** A request reaches the REST server. */
    | Post(body: Option<FlexUp.Request>)
    /** The event loop takes the oldest request from the queue. */
    | Receive

  /** The envelope is still in the channel and addressed to the executor of the task. */
  predicate InFlightTo(w: World, info: TaskInfo, env: Envelope) {
    && multiset(Sends(w.sched.calls))[env] > w.taken[env]
    && env.executorId == info.executorId && env.slaveId == info.slaveId
  }

  /** The executor has received its task, and its process is there and not caught in a callback. */
  predicate TakesMessages(e: Exec) {
    e == AwaitingId || e == Up || e == Stopped
  }

  ghost predicate Enabled(w: World, e: Event) {
    match e
    case Offers(waiting, offers, choices) =>
      && ListsWaiting(w.sched.c.tasks, waiting) && |choices| == |offers|
      && var s1 := HandleWaiting(w.sched, waiting);
         ChoicesFit(Progress(s1, false), offers, choices, s1.c.phase)
    case Deliver(k) => ReportsOf(w.reports, k) != []
    case DiskReport(message) => ReadDiskNews(message) != Undefined
    case OtherReport(_) => true
    case IdArrives(reply, mon) => reply in w.replies && MayBeInitialMon(w.sched.c.tasks, mon)
    case ExecutorLaunch(info, _, _) => info in Launches(w.sched.calls) && ExecOf(w.execs, info.taskId) == Staged
    case ExecutorMessage(info, env, _, osdId) =>
      && info in Launches(w.sched.calls) && InFlightTo(w, info, env) && IsInt32(osdId)
      && TakesMessages(ExecOf(w.execs, info.taskId))
    case ExecutorDies(info) =>
      && info in Launches(w.sched.calls)
      && ExecOf(w.execs, info.taskId) != Stopped && ExecOf(w.execs, info.taskId) != Gone
    case ExecutorVanishes(info) => info in Launches(w.sched.calls) && ExecOf(w.execs, info.taskId) != Gone
    case MessageDropped(info, env) =>
      info in Launches(w.sched.calls) && InFlightTo(w, info, env) && ExecOf(w.execs, info.taskId) == Gone
    case Post(_) => true
    case Receive => w.queue != []
  }

  /** An executor reached a new state and sent status updates. */
  function Reported(w: World, k: string, e: Exec, updates: seq<Update>): World {
    w.(execs := w.execs[k := e], reports := w.reports[k := ReportsOf(w.reports, k) + updates])
  }

  /** The tasks that a failure report leaves in the staging count. */
  function StuckAfter(w: World, k: string, u: Update): set<string> {
    if u == Failed && k in w.sched.c.tasks &&
       (w.sched.c.tasks[k].currentStatus == WAITING_OSDID || w.sched.c.tasks[k].currentStatus == STARTING)
    then w.stuck + {k} else w.stuck
  }

  function Apply(w: World, e: Event): World
    requires Enabled(w, e)
  {
    match e
    case Offers(waiting, offers, choices) => w.(sched := ResourceOffers(w.sched, waiting, offers, choices))
    case Deliver(k) =>
      var q := ReportsOf(w.reports, k);
      w.(sched := StatusUpdate(w.sched, k, q[0]), reports := w.reports[k := q[1..]], stuck := StuckAfter(w, k, q[0]))
    case DiskReport(message) => w.(sched := StatusUpdate(w.sched, "", Finished(message)))
    case OtherReport(k) => w.(sched := StatusUpdate(w.sched, k, Other))
    case IdArrives(reply, mon) =>
      w.(sched := FrameworkMessage(w.sched, reply.executorId, IntText(reply.osdId), mon),
         replies := w.replies - multiset{reply},
         received := if mon.executorId == reply.executorId then w.received + [reply.osdId] else w.received)
    case ExecutorLaunch(info, copied, container) =>
      (match OnLaunch(TaskData(info.initial, info.taskType), copied, container)
       case None => w
       case Some(r) => Reported(w, info.taskId, r.0, r.1))
    case ExecutorMessage(info, env, container, osdId) =>
      var r := OnMessage(ExecOf(w.execs, info.taskId), MessageText(env.message), container);
      Reported(w, info.taskId, r.0, r.1)
      .(taken := w.taken + multiset{env},
        replies := if r.2 then w.replies + multiset{Reply(info.executorId, osdId)} else w.replies)
    case ExecutorDies(info) => Reported(w, info.taskId, Gone, [Failed])
    case ExecutorVanishes(info) => Reported(w, info.taskId, Gone, [])
    case MessageDropped(info, env) =>
      w.(taken := w.taken + multiset{env}, dropped := w.dropped + multiset{env})
    case Post(body) =>
      if body.Some? && FlexUp.Sendable(body.value)
      then w.(queue := w.queue + [body.value], accepted := w.accepted + FlexUp.OsdShare(body.value))
      else w
    case Receive =>
      w.(sched := w.sched.(requests := FlexUp.AfterMessage(w.sched.requests, w.queue[0])), queue := w.queue[1..])
  }

  /** The worlds between consecutive events. */
  ghost predicate IsPath(ws: seq<World>, es: seq<Event>) {
    && |ws| == |es| + 1
    && forall i :: 0 <= i < |es| ==> Enabled(ws[i], es[i]) && ws[i + 1] == Apply(ws[i], es[i])
  }

  /** A run is a path from an initial world. */
  ghost predicate IsRun(ws: seq<World>, es: seq<Event>) {
    IsPath(ws, es) && Initial(ws[0])
  }
}
