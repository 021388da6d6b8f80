/** The callbacks of the scheduler as functions on its state (src/scheduler/CephSchedulerAgent.hpp). */
module Schedulers {
  import opened Text
  import opened Types
  import opened Wire
  import opened HostConfigs
  import opened DiskExecutors
  import opened StateMachines
  import FlexUp

  /** The scheduler: its state machine, its host entries, the flex-up requests, and every driver call it has made. */
  datatype Sched = Sched(c: Cluster, hosts: map<string, Host>, fallback: Host, requests: seq<int>, calls: seq<Call>)

  function Say(s: Sched, call: Call): Sched {
    s.(calls := s.calls + [call])
  }

  function HostOf(s: Sched, hostname: string): Host {
    if hostname in s.hosts then s.hosts[hostname] else s.fallback
  }

  function WithHost(s: Sched, hostname: string, h: Host): Sched {
    if hostname in s.hosts then s.(hosts := s.hosts[hostname := h]) else s.(fallback := h)
  }

  // ---------------------------------------------------------------- handleWaitingOSDTasks

  function LaunchEnvelope(r: TaskState, osdId: int): Envelope {
    Envelope(r.executorId, r.slaveId, LaunchOsd(osdId))
  }

  /** The last pending id goes to a task, which is then STARTING. */
  function AssignOne(s: Sched, taskId: string): Sched
    requires taskId in s.c.tasks && s.c.pendingIds != []
  {
    var ids := s.c.pendingIds;
    var last := |ids| - 1;
    Say(s, SendMessage(LaunchEnvelope(s.c.tasks[taskId], ids[last])))
    .(c := SetStatus(s.c.(pendingIds := ids[..last]), taskId, STARTING))
  }

  function AssignFirst(s: Sched, ids: seq<string>, n: nat): (s': Sched)
    requires n <= |ids| && n <= |s.c.pendingIds|
    requires AllKnown(s.c.tasks, ids)
    ensures s'.c.tasks.Keys == s.c.tasks.Keys
    ensures |s'.c.pendingIds| == |s.c.pendingIds| - n
  {
    if n == 0 then s
    else AssignOne(AssignFirst(s, ids, n - 1), ids[n - 1])
  }

  function Min(a: nat, b: nat): nat {
    if a < b then a else b
  }

  /** `ids` are the waiting tasks in the order of the scan. */
  function HandleWaiting(s: Sched, ids: seq<string>): Sched
    requires AllKnown(s.c.tasks, ids)
  {
    AssignFirst(s, ids, Min(|ids|, |s.c.pendingIds|))
  }

  // ---------------------------------------------------------------- resourceOffers

  /** What the environment decides for one offer: the two answers of getInitialMon and the clock. */
  datatype Choice = Choice(configMon: TaskState, registerMon: TaskState, now: int)

  /** The scheduler and the flag isInitialMonNode, which is set once per callback and never cleared. */
  datatype Progress = Progress(s: Sched, initial: bool)

  function TryDisk(s: Sched, o: Offer): Sched {
    var h := HostOf(s, o.hostname);
    if h.preparing || !HasPending(h) || !o.enough then s
    else
      WithHost(Say(s, LaunchDisk(o.id, o.hostname, DiskLabels(h.pendingOsd, h.pendingJnl, h.original.jnlparts))),
               o.hostname, h.(preparing := true, done := false))
  }

  /** The pool after addHostConfig served a task; only OSDs get partitions. */
  function Served(h: Host, t: TaskType): Host {
    if t == OSD then h.(osdParts := Popped(h.osdParts), jnlParts := Popped(h.jnlParts)) else h
  }

  function InfoFor(h: Host, o: Offer, t: TaskType, token: int, initial: bool, ch: Choice): TaskInfo {
    TaskInfo(TaskIdText(t, token, o.hostname, o.slaveId), ExecutorIdText(t, token, ch.now),
             t, token, o.hostname, o.slaveId, ch.now, initial,
             if t == OSD then Top(h.osdParts) else "", if t == OSD then Top(h.jnlParts) else "",
             if initial then None else Some(ch.configMon.hostName))
  }

  function RecordFor(info: TaskInfo): TaskState {
    TaskState(info.taskId, info.executorId, info.taskType, info.hostname, info.slaveId, STAGING)
  }

  /** launchNode, addStagingTask and the registration message for an OSD. */
  function Launched(s: Sched, o: Offer, t: TaskType, token: int, initial: bool, ch: Choice): Sched {
    var h := HostOf(s, o.hostname);
    var info := InfoFor(h, o, t, token, initial, ch);
    var s1 := Say(WithHost(s, o.hostname, Served(h, t)), LaunchTask(o.id, info, s.c.phase));
    var s2 := s1.(c := AddStagingTask(s1.c, RecordFor(info)));
    if !initial && t == OSD
    then Say(s2, SendMessage(Envelope(ch.registerMon.executorId, ch.registerMon.slaveId, RegisterOsd)))
    else s2
  }

  function Decline(s: Sched, o: Offer): Sched {
    Say(s, DeclineOffer(o.id, None))
  }

  /** An accepted move: `phase` is the phase at the start of the callback. */
  function Proceed(s: Sched, o: Offer, t: TaskType, token: int, phase: Phase, initial: bool, ch: Choice): Progress {
    var initial' := initial || (t == MON && token == 0);
    if !o.enough then Progress(Decline(s, o), initial)
    else if phase == WAITING_REQUEST && s.requests == [] then
      Progress(Decline(s.(c := s.c.(osd := s.c.osd.(index := s.c.osd.index - 1))), o), initial)
    else
      var s1 := if phase == WAITING_REQUEST then s.(requests := FlexUp.AfterTake(s.requests)) else s;
      Progress(Launched(s1, o, t, token, initial', ch), initial')
  }

  /** The host entry is created and a disk task tried, before any move is decided. */
  function Prepared(s: Sched, o: Offer): Sched {
    TryDisk(s.(hosts := AddHost(s.hosts, o.hostname, o.spec)), o)
  }

  /** One round of the offer loop. */
  function OfferStep(p: Progress, o: Offer, phase: Phase, ch: Choice): Progress {
    if !o.hasRole then Progress(Say(p.s, DeclineOffer(o.id, Some(86400))), p.initial)
    else
      var s1 := Prepared(p.s, o);
      var move := NextMove(s1.c, HostOf(s1, o.hostname).preparing);
      var s2 := s1.(c := AfterMove(s1.c, move));
      match move
      case Stay => Progress(Decline(s2, o), p.initial)
      case Go(t, token) => Proceed(s2, o, t, token, phase, p.initial, ch)
  }

  function OfferSteps(p: Progress, offers: seq<Offer>, choices: seq<Choice>, phase: Phase): Progress
    requires |choices| == |offers|
  {
    if offers == [] then p
    else
      var n := |offers| - 1;
      OfferStep(OfferSteps(p, offers[..n], choices[..n], phase), offers[n], phase, choices[n])
  }

  /** The choices made for an offer are possible: each answer of getInitialMon suits the task table it was asked of. */
  ghost predicate ChoiceFits(p: Progress, o: Offer, phase: Phase, ch: Choice) {
    && MayBeInitialMon(p.s.c.tasks, ch.configMon)
    && MayBeInitialMon(OfferStep(p, o, phase, ch).s.c.tasks, ch.registerMon)
  }

  ghost predicate ChoicesFit(p: Progress, offers: seq<Offer>, choices: seq<Choice>, phase: Phase)
    requires |choices| == |offers|
  {
    forall i :: 0 <= i < |offers| ==>
      ChoiceFits(OfferSteps(p, offers[..i], choices[..i], phase), offers[i], phase, choices[i])
  }

  /** The whole callback: waiting tasks first, then the offers one by one. */
  function ResourceOffers(s: Sched, waiting: seq<string>, offers: seq<Offer>, choices: seq<Choice>): Sched
    requires AllKnown(s.c.tasks, waiting)
    requires |choices| == |offers|
  {
    var s1 := HandleWaiting(s, waiting);
    OfferSteps(Progress(s1, false), offers, choices, s1.c.phase).s
  }

  // ---------------------------------------------------------------- statusUpdate and frameworkMessage

  /** A status update from an executor; Finished carries the optional message of a disk task. */
  datatype Update = Starting | Running | Failed | Finished(message: Option<string>) | Other

  /** The effect of a DISK_READY report: the failed devices it names are parsed into a variable that shadows the one
      passed on, so the pool is always filled as if nothing had failed. */
  function DiskReady(s: Sched, hostname: string): Sched {
    var h := HostOf(s, hostname);
    WithHost(s, hostname, UpdateDiskPartition(h, [], h.original.jnlparts).(preparing := false, done := true))
  }

  function StatusUpdate(s: Sched, taskId: string, u: Update): Sched {
    match u
    case Running => s.(c := SetStatusAndMove(s.c, taskId, RUNNING))
    case Starting => s.(c := SetStatus(s.c, taskId, WAITING_OSDID))
    case Failed => s.(c := SetStatusAndMove(s.c, taskId, FAILED))
    case Finished(message) =>
      (match ReadDiskNews(message)
       case Ready(hostname, _) => DiskReady(s, hostname)
       case _ => s)
    case Other => s
  }

  /** A message from an executor counts only if `mon`, the answer of getInitialMon, names that executor. */
  function FrameworkMessage(s: Sched, executorId: string, data: string, mon: TaskState): Sched {
    if mon.executorId != executorId then s
    else
      match ParseInt(data)
      case None => s
      case Some(id) => s.(c := s.c.(pendingIds := s.c.pendingIds + [id]))
  }
}
