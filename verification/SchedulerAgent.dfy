/** The scheduler as objects that are updated in place (src/scheduler/CephSchedulerAgent.hpp). Every method is tied to
    the function of module Schedulers that the properties of runs are about. */
module SchedulerAgents {
  import opened Text
  import opened Types
  import opened Wire
  import opened HostConfigs
  import opened DiskExecutors
  import opened StateMachines
  import opened Schedulers
  import FlexUp

  /** The driver, as the log of the calls made on it. */
  class SchedulerDriver {
    var calls: seq<Call>

    constructor ()
      ensures calls == []
    {
      calls := [];
    }

    method Record(call: Call)
      modifies this
      ensures calls == old(calls) + [call]
    {
      calls := calls + [call];
    }
  }

  class CephSchedulerAgent {
    const stateMachine: StateMachine
    const eventLoop: FlexUp.EventLoop

    ghost predicate Valid()
      reads stateMachine, stateMachine.hostConfigMap.Values, stateMachine.defaultHostConfig
    {
      stateMachine.Valid() && stateMachine.defaultHostConfig.Valid()
    }

    ghost function View(driver: SchedulerDriver): Sched
      reads stateMachine, stateMachine.hostConfigMap.Values, stateMachine.defaultHostConfig, eventLoop, driver
    {
      Sched(stateMachine.View(), stateMachine.Hosts(), stateMachine.defaultHostConfig.View(),
            eventLoop.pendingOSD, driver.calls)
    }

    /** The entries of the hosts. */
    ghost function Entries(): set<HostConfig>
      reads stateMachine
    {
      stateMachine.hostConfigMap.Values + {stateMachine.defaultHostConfig}
    }

    constructor (spec: HostSpec)
      ensures Valid() && fresh(stateMachine) && fresh(eventLoop) && fresh(Entries())
      ensures stateMachine.hostConfigMap == map[] && stateMachine.View() == NewCluster() && eventLoop.pendingOSD == []
    {
      stateMachine := new StateMachine(spec);
      eventLoop := new FlexUp.EventLoop();
    }

    /** What the view shows of the fields. */
    lemma ViewFields(driver: SchedulerDriver)
      ensures View(driver).c.tasks == stateMachine.taskMap && View(driver).c.pendingIds == stateMachine.pendingOSDID
      ensures View(driver).c.phase == stateMachine.currentPhase
    {
    }

    /** One round of the assignment loop: the last pending id goes to the task. */
    method AssignTo(driver: SchedulerDriver, taskState: TaskState)
      requires Valid() && taskState.taskId in stateMachine.taskMap && stateMachine.pendingOSDID != []
      requires var r := stateMachine.taskMap[taskState.taskId];
               r.executorId == taskState.executorId && r.slaveId == taskState.slaveId
      modifies stateMachine, driver
      ensures Kept()
      ensures View(driver) == AssignOne(old(View(driver)), taskState.taskId)
    {
      hide View, SetStatus;
      ViewFields(driver);
      var id := PopPendingId(driver);
      Tell(driver, SendMessage(Envelope(taskState.executorId, taskState.slaveId, LaunchOsd(id))));
      ViewFields(driver);
      SetStarting(driver, taskState.taskId);
    }

    /** The last pending id is taken. */
    method PopPendingId(driver: SchedulerDriver) returns (id: int)
      requires Valid() && stateMachine.pendingOSDID != []
      modifies stateMachine
      ensures Kept() && id == old(stateMachine.pendingOSDID[|stateMachine.pendingOSDID| - 1])
      ensures var s, ids := old(View(driver)), old(View(driver)).c.pendingIds;
              ids != [] && View(driver) == s.(c := s.c.(pendingIds := ids[..|ids| - 1]))
    {
      var last := |stateMachine.pendingOSDID| - 1;
      id := stateMachine.pendingOSDID[last];
      stateMachine.pendingOSDID := stateMachine.pendingOSDID[..last];
    }

    /** The four status changes. */
    method SetRunning(driver: SchedulerDriver, taskId: string)
      requires Valid()
      modifies stateMachine
      ensures Kept()
      ensures View(driver) == old(View(driver)).(c := SetStatusAndMove(old(View(driver)).c, taskId, RUNNING))
    {
      hide SetStatusAndMove;
      stateMachine.UpdateTaskToRunning(taskId);
    }

    method SetFailed(driver: SchedulerDriver, taskId: string)
      requires Valid()
      modifies stateMachine
      ensures Kept()
      ensures View(driver) == old(View(driver)).(c := SetStatusAndMove(old(View(driver)).c, taskId, FAILED))
    {
      hide SetStatusAndMove;
      stateMachine.UpdateTaskToFailed(taskId);
    }

    method SetWaiting(driver: SchedulerDriver, taskId: string)
      requires Valid()
      modifies stateMachine
      ensures Kept()
      ensures View(driver) == old(View(driver)).(c := SetStatus(old(View(driver)).c, taskId, WAITING_OSDID))
    {
      hide SetStatus;
      stateMachine.UpdateTaskToWaitingOSDID(taskId);
    }

    method SetStarting(driver: SchedulerDriver, taskId: string)
      requires Valid()
      modifies stateMachine
      ensures Kept()
      ensures View(driver) == old(View(driver)).(c := SetStatus(old(View(driver)).c, taskId, STARTING))
    {
      hide SetStatus;
      stateMachine.UpdateTaskToStarting(taskId);
    }

    method HandleWaitingOSDTasks(driver: SchedulerDriver) returns (ghost ids: seq<string>)
      requires Valid()
      modifies stateMachine, driver
      ensures Kept()
      ensures ListsWaiting(old(stateMachine.taskMap), ids)
      ensures View(driver) == HandleWaiting(old(View(driver)), ids)
    {
      hide HandleWaiting;
      var tasks;
      tasks, ids := stateMachine.GetWaitingOSDTask();
      ListedIsKnown(stateMachine.taskMap, ids);
      AssignLoop(driver, tasks, ids);
    }

    /** The loop of handleWaitingOSDTasks over the waiting tasks; `ids` are their ids. */
    method AssignLoop(driver: SchedulerDriver, tasks: seq<TaskState>, ghost ids: seq<string>)
      requires Valid() && |tasks| == |ids| && AllKnown(stateMachine.taskMap, ids)
      requires forall i :: 0 <= i < |ids| ==> tasks[i] == stateMachine.taskMap[ids[i]] && tasks[i].taskId == ids[i]
      modifies stateMachine, driver
      ensures Kept()
      ensures AllKnown(old(View(driver)).c.tasks, ids) && View(driver) == HandleWaiting(old(View(driver)), ids)
    {
      hide View, Valid, AssignOne;
      ghost var s0 := View(driver);
      ViewFields(driver);
      var i := 0;
      while i < |tasks|
        invariant 0 <= i <= |tasks| && i <= |s0.c.pendingIds|
        invariant Kept()
        invariant View(driver) == AssignFirst(s0, ids, i)
      {
        ViewFields(driver);
        if stateMachine.pendingOSDID == [] {
          return;
        }
        AssignKeepsAddresses(s0, ids, i);
        AssignTo(driver, tasks[i]);
        i := i + 1;
      }
    }

    /** The table of hosts is the same set of entries. */
    twostate predicate Kept()
      reads stateMachine, stateMachine.hostConfigMap.Values, stateMachine.defaultHostConfig
    {
      Valid() && stateMachine.HostsKept(old(stateMachine.hostConfigMap), old(stateMachine.defaultHostConfig))
    }

    /** A call on the driver. */
    method Tell(driver: SchedulerDriver, call: Call)
      requires Valid()
      modifies driver
      ensures Kept() && View(driver) == Say(old(View(driver)), call)
    {
      driver.Record(call);
    }

    /** One of the two label loops of tryLaunchDiskTask. */
    static method LabelEach(key: string, devs: seq<string>) returns (labels: seq<Label>)
      ensures labels == Valued(key, devs)
    {
      labels := [];
      for i := 0 to |devs|
        invariant labels == Valued(key, devs[..i])
      {
        assert devs[..i + 1][..i] == devs[..i];
        labels := labels + [Label(key, devs[i])];
      }
      assert devs[..|devs|] == devs;
    }

    /** The entry that getConfig finds for a host. */
    ghost function Entry(hostname: string): HostConfig
      reads stateMachine
    {
      if hostname in stateMachine.hostConfigMap then stateMachine.hostConfigMap[hostname]
      else stateMachine.defaultHostConfig
    }

    /** At most the entry of one host changed, and all are still valid. */
    twostate predicate OnlyEntry(hostname: string)
      reads stateMachine, Entries()
    {
      && Kept()
      && stateMachine.Hosts() == (if hostname in stateMachine.hostConfigMap
                                  then old(stateMachine.Hosts())[hostname := Entry(hostname).View()]
                                  else old(stateMachine.Hosts()))
      && (hostname in stateMachine.hostConfigMap ==>
            stateMachine.defaultHostConfig.View() == old(stateMachine.defaultHostConfig.View()))
    }

    method SetFlags(hostname: string)
      requires Valid()
      modifies Entries()
      ensures OnlyEntry(hostname)
      ensures Entry(hostname).View() == old(Entry(hostname).View()).(preparing := true, done := false)
    {
      hide Keyed;
      var hostconfig := stateMachine.GetConfig(hostname);
      hostconfig.SetDiskPreparationOnGoing();
    }

    /** The preparation flags of a host, set by tryLaunchDiskTask. */
    method StartPreparing(driver: SchedulerDriver, hostname: string)
      requires Valid()
      modifies Entries()
      ensures Kept()
      ensures var s := old(View(driver));
              View(driver) == WithHost(s, hostname, HostOf(s, hostname).(preparing := true, done := false))
    {
      hide Valid;
      SetFlags(hostname);
    }

    /** tryLaunchDiskTask. */
    method TryLaunchDiskTask(driver: SchedulerDriver, offer: Offer)
      requires Valid()
      modifies driver, Entries()
      ensures Kept()
      ensures View(driver) == TryDisk(old(View(driver)), offer)
    {
      hide View, Valid, DiskLabels, WithHost, HasPending;
      var wanted := DiskTaskWanted(driver, offer);
      if wanted {
        var labels := PendingLabels(driver, offer.hostname);
        Tell(driver, LaunchDisk(offer.id, offer.hostname, labels));
        StartPreparing(driver, offer.hostname);
      }
    }

    /** The three tests of tryLaunchDiskTask. */
    method DiskTaskWanted(driver: SchedulerDriver, offer: Offer) returns (wanted: bool)
      requires Valid()
      ensures var h := HostOf(View(driver), offer.hostname);
              wanted <==> !h.preparing && HasPending(h) && offer.enough
    {
      var hostconfig := stateMachine.GetConfig(offer.hostname);
      if hostconfig.isPreparingDiskFlag {
        return false;
      }
      if hostconfig.pendingOSDDevs == [] && hostconfig.pendingJNLDevs == [] {
        return false;
      }
      wanted := offer.enough;
    }

    /** The labels of the disk task for a host. */
    method PendingLabels(driver: SchedulerDriver, hostname: string) returns (labels: seq<Label>)
      requires Valid()
      ensures var h := HostOf(View(driver), hostname);
              labels == DiskLabels(h.pendingOsd, h.pendingJnl, h.original.jnlparts)
    {
      hide Valued;
      var hostconfig := stateMachine.GetConfig(hostname);
      var osdLabels := LabelEach(OSD_DEVS_KEY, hostconfig.pendingOSDDevs);
      var jnlLabels := LabelEach(JNL_DEVS_KEY, hostconfig.pendingJNLDevs);
      labels := osdLabels + jnlLabels + [Label(JNL_PARTITION_COUNT_KEY, IntText(hostconfig.jnlPartsCount))];
    }

    /** The two pops of addHostConfig. */
    static method PopIfOsd(taskType: TaskType, hostconfig: HostConfig) returns (osd: string, jnl: string)
      modifies hostconfig
      ensures var h := old(hostconfig.View());
              && osd == (if taskType == OSD then Top(h.osdParts) else "")
              && jnl == (if taskType == OSD then Top(h.jnlParts) else "")
              && hostconfig.View() == Served(h, taskType)
      ensures hostconfig.jnlPartsCount == old(hostconfig.jnlPartsCount)
      ensures hostconfig.originalConfig == old(hostconfig.originalConfig)
    {
      osd, jnl := "", "";
      if taskType == OSD {
        osd := hostconfig.PopOSDPartition();
        jnl := hostconfig.PopJournalPartition();
      }
    }

    method PopFor(taskType: TaskType, hostname: string) returns (osd: string, jnl: string)
      requires Valid()
      modifies Entries()
      ensures OnlyEntry(hostname)
      ensures var h := old(Entry(hostname).View());
              && osd == (if taskType == OSD then Top(h.osdParts) else "")
              && jnl == (if taskType == OSD then Top(h.jnlParts) else "")
              && Entry(hostname).View() == Served(h, taskType)
    {
      hide Keyed, Top, Served;
      var hostconfig := stateMachine.GetConfig(hostname);
      osd, jnl := PopIfOsd(taskType, hostconfig);
    }

    /** The partitions that addHostConfig takes out of the pool for an OSD. */
    method TakePartitions(driver: SchedulerDriver, taskType: TaskType, hostname: string)
      returns (osd: string, jnl: string)
      requires Valid()
      modifies Entries()
      ensures Kept()
      ensures var s, h := old(View(driver)), HostOf(old(View(driver)), hostname);
              && osd == (if taskType == OSD then Top(h.osdParts) else "")
              && jnl == (if taskType == OSD then Top(h.jnlParts) else "")
              && View(driver) == WithHost(s, hostname, Served(h, taskType))
    {
      hide Valid, Served, Top;
      osd, jnl := PopFor(taskType, hostname);
    }

    /** launchNode; `now` is the clock. */
    method LaunchNode(driver: SchedulerDriver, offer: Offer, taskType: TaskType, token: int, initial: bool, now: int)
      returns (taskId: string, executorId: string, ghost configMon: TaskState)
      requires Valid()
      modifies driver, Entries()
      ensures Kept()
      ensures MayBeInitialMon(stateMachine.taskMap, configMon)
      ensures taskId == TaskIdText(taskType, token, offer.hostname, offer.slaveId)
      ensures executorId == ExecutorIdText(taskType, token, now)
      ensures var s, h := old(View(driver)), HostOf(old(View(driver)), offer.hostname);
              var info := InfoFor(h, offer, taskType, token, initial, Choice(configMon, configMon, now));
              View(driver) ==
              Say(WithHost(s, offer.hostname, Served(h, taskType)), LaunchTask(offer.id, info, s.c.phase))
    {
      hide View, Valid, TaskIdText, ExecutorIdText, MayBeInitialMon, Served, WithHost;
      ViewFields(driver);
      executorId := ExecutorIdText(taskType, token, now);
      var initialMon := stateMachine.GetInitialMon();
      configMon := initialMon;
      var configHost := if initial then None else Some(initialMon.hostName);
      var osdDisk, jnlDisk := TakePartitions(driver, taskType, offer.hostname);
      taskId := TaskIdText(taskType, token, offer.hostname, offer.slaveId);
      var info := TaskInfo(taskId, executorId, taskType, token, offer.hostname, offer.slaveId, now, initial,
                           osdDisk, jnlDisk, configHost);
      Tell(driver, LaunchTask(offer.id, info, stateMachine.currentPhase));
    }

    /** The end of an accepted round: the launch, its record, and the registration of an OSD. */
    method LaunchAndRegister(driver: SchedulerDriver, offer: Offer, taskType: TaskType, token: int, initial: bool,
            now: int)
      returns (ghost ch: Choice)
      requires Valid()
      modifies stateMachine, driver, Entries()
      ensures Kept()
      ensures View(driver) == Launched(old(View(driver)), offer, taskType, token, initial, ch)
      ensures MayBeInitialMon(old(stateMachine.taskMap), ch.configMon)
      ensures MayBeInitialMon(stateMachine.taskMap, ch.registerMon)
    {
      hide View, Valid, TaskIdText, ExecutorIdText, MayBeInitialMon, Served, AddStagingTask, WithHost, HostOf;
      var taskId, executorId;
      ghost var configMon;
      taskId, executorId, configMon := LaunchNode(driver, offer, taskType, token, initial, now);
      Stage(driver, TaskState(taskId, executorId, taskType, offer.hostname, offer.slaveId, STAGING));
      var registerMon := stateMachine.GetInitialMon();
      ch := Choice(configMon, registerMon, now);
      if !initial && taskType == OSD {
        Tell(driver, SendMessage(Envelope(registerMon.executorId, registerMon.slaveId, RegisterOsd)));
      }
    }

    /** addStagingTask. */
    method Stage(driver: SchedulerDriver, r: TaskState)
      requires Valid() && r.currentStatus == STAGING
      modifies stateMachine
      ensures Kept()
      ensures View(driver) == old(View(driver)).(c := AddStagingTask(old(View(driver)).c, r))
    {
      hide AddStagingTask;
      stateMachine.AddStaging(r.taskId, r.executorId, r.taskType, r.hostName, r.slaveId);
    }

    /** addConfig for the host of an offer. */
    method MeetHost(driver: SchedulerDriver, offer: Offer)
      requires Valid()
      modifies stateMachine
      ensures Valid() && stateMachine.defaultHostConfig == old(stateMachine.defaultHostConfig)
      ensures fresh(Entries() - old(Entries()))
      ensures View(driver) == old(View(driver)).(hosts := AddHost(old(View(driver)).hosts, offer.hostname, offer.spec))
    {
      stateMachine.AddConfig(offer.hostname, offer.spec);
    }

    /** nextMove for the host of an offer. */
    method Decide(driver: SchedulerDriver, hostname: string) returns (accept: bool, taskType: TaskType, token: int)
      requires Valid()
      modifies stateMachine
      ensures Kept()
      ensures var s := old(View(driver));
              var m := NextMove(s.c, HostOf(s, hostname).preparing);
              && (if accept then m == Go(taskType, token) else m == Stay)
              && View(driver) == s.(c := AfterMove(s.c, m))
    {
      hide NextMove, AfterMove;
      accept, taskType, token := stateMachine.DecideMove(hostname);
    }

    /** fetchPendingRESTfulRequest. */
    method FetchPendingRESTfulRequest(driver: SchedulerDriver) returns (found: bool)
      requires Valid()
      modifies eventLoop
      ensures Kept() && found == (old(View(driver)).requests != [])
      ensures View(driver) == if found then old(View(driver)).(requests := FlexUp.AfterTake(old(View(driver)).requests))
                              else old(View(driver))
    {
      found := eventLoop.FetchPending();
    }

    method GiveTokenBack(driver: SchedulerDriver)
      requires Valid()
      modifies stateMachine
      ensures Kept()
      ensures View(driver) == old(View(driver)).(c := old(View(driver)).c.(osd := old(View(driver)).c.osd.(
                                index := old(View(driver)).c.osd.index - 1)))
      ensures stateMachine.taskMap == old(stateMachine.taskMap)
    {
      stateMachine.DecreaseOSDIndex();
    }

    /** A round after nextMove accepted. */
    method ProceedWith(driver: SchedulerDriver, offer: Offer, taskType: TaskType, token: int, phase: Phase,
            flag: bool, now: int)
      returns (initial: bool, ghost ch: Choice)
      requires Valid()
      modifies stateMachine, eventLoop, driver, Entries()
      ensures Kept()
      ensures Progress(View(driver), initial) == Proceed(old(View(driver)), offer, taskType, token, phase, flag, ch)
      ensures MayBeInitialMon(old(stateMachine.taskMap), ch.configMon)
      ensures MayBeInitialMon(stateMachine.taskMap, ch.registerMon)
    {
      hide View, Valid, Launched, MayBeInitialMon, FlexUp.AfterTake;
      initial := flag;
      ghost var mon := SomeInitialMon(stateMachine.taskMap);
      ch := Choice(mon, mon, now);
      if !offer.enough {
        Tell(driver, DeclineOffer(offer.id, None));
        return;
      }
      if phase == WAITING_REQUEST {
        var accept := FetchPendingRESTfulRequest(driver);
        if !accept {
          GiveTokenBack(driver);
          Tell(driver, DeclineOffer(offer.id, None));
          return;
        }
      }
      if taskType == MON && token == 0 {
        initial := true;
      }
      ch := LaunchAndRegister(driver, offer, taskType, token, initial, now);
    }

    /** One round of the offer loop. */
    method OfferRound(driver: SchedulerDriver, offer: Offer, phase: Phase, flag: bool, now: int)
      returns (initial: bool, ghost ch: Choice)
      requires Valid()
      modifies stateMachine, eventLoop, driver, Entries()
      ensures Valid() && fresh(Entries() - old(Entries()))
      ensures Progress(View(driver), initial) == OfferStep(Progress(old(View(driver)), flag), offer, phase, ch)
      ensures ChoiceFits(Progress(old(View(driver)), flag), offer, phase, ch)
    {
      hide MayBeInitialMon, TryDisk, NextMove, AfterMove, Proceed, AddHost;
      initial := flag;
      ghost var mon := SomeInitialMon(stateMachine.taskMap);
      ch := Choice(mon, mon, now);
      if !offer.hasRole {
        Tell(driver, DeclineOffer(offer.id, Some(86400)));
        return;
      }
      MeetHost(driver, offer);
      TryLaunchDiskTask(driver, offer);
      assert View(driver) == Prepared(old(View(driver)), offer);
      var accept, taskType, token := Decide(driver, offer.hostname);
      DecidingKeepsTasks(old(View(driver)), offer, if accept then Go(taskType, token) else Stay);
      if !accept {
        Tell(driver, DeclineOffer(offer.id, None));
        return;
      }
      initial, ch := ProceedWith(driver, offer, taskType, token, phase, flag, now);
    }

    /** The offer loop; `clock` tells the time at every offer. */
    method OfferLoop(driver: SchedulerDriver, offers: seq<Offer>, clock: seq<int>) returns (ghost choices: seq<Choice>)
      requires Valid() && |clock| == |offers|
      modifies stateMachine, eventLoop, driver, Entries()
      ensures Valid() && fresh(Entries() - old(Entries())) && |choices| == |offers|
      ensures var s := old(View(driver));
              && View(driver) == OfferSteps(Progress(s, false), offers, choices, s.c.phase).s
              && ChoicesFit(Progress(s, false), offers, choices, s.c.phase)
    {
      hide View, Valid, OfferStep, ChoiceFits, OfferSteps, ChoicesFit;
      ghost var p0 := Progress(View(driver), false);
      ViewFields(driver);
      var isInitialMonNode := false;
      var currentPhase := stateMachine.currentPhase;
      choices := [];
      assert offers[..0] == [];
      NoOfferYet(p0, currentPhase);
      for i := 0 to |offers|
        invariant Valid() && fresh(Entries() - old(Entries())) && |choices| == i
        invariant Progress(View(driver), isInitialMonNode) == OfferSteps(p0, offers[..i], choices, currentPhase)
        invariant ChoicesFit(p0, offers[..i], choices, currentPhase)
      {
        ghost var ch;
        isInitialMonNode, ch := OfferRound(driver, offers[i], currentPhase, isInitialMonNode, clock[i]);
        OneMoreOffer(p0, offers, choices, ch, currentPhase, i);
        choices := choices + [ch];
      }
      assert offers[..|offers|] == offers;
    }

    /** resourceOffers. */
    method OnResourceOffers(driver: SchedulerDriver, offers: seq<Offer>, clock: seq<int>)
      returns (ghost waiting: seq<string>, ghost choices: seq<Choice>)
      requires Valid() && |clock| == |offers|
      modifies stateMachine, eventLoop, driver, Entries()
      ensures Valid() && fresh(Entries() - old(Entries())) && |choices| == |offers|
      ensures ListsWaiting(old(stateMachine.taskMap), waiting)
      ensures View(driver) == ResourceOffers(old(View(driver)), waiting, offers, choices)
      ensures var s1 := HandleWaiting(old(View(driver)), waiting);
              ChoicesFit(Progress(s1, false), offers, choices, s1.c.phase)
    {
      hide OfferSteps, ChoicesFit, HandleWaiting;
      waiting := HandleWaitingOSDTasks(driver);
      choices := OfferLoop(driver, offers, clock);
    }

    /** The end of a disk preparation; `devs` are the devices passed on as failed. */
    method DiskDone(driver: SchedulerDriver, hostname: string, devs: seq<string>)
      requires Valid()
      modifies Entries()
      ensures Kept()
      ensures var s, h := old(View(driver)), HostOf(old(View(driver)), hostname);
              View(driver) == WithHost(s, hostname,
                UpdateDiskPartition(h, devs, h.original.jnlparts).(preparing := false, done := true))
    {
      hide Valid, UpdateDiskPartition;
      FinishEntry(hostname, devs);
    }

    method FinishEntry(hostname: string, devs: seq<string>)
      requires Valid()
      modifies Entries()
      ensures OnlyEntry(hostname)
      ensures var h := old(Entry(hostname).View());
              Entry(hostname).View() ==
              UpdateDiskPartition(h, devs, h.original.jnlparts).(preparing := false, done := true)
    {
      hide UpdateDiskPartition, Keyed;
      var hostconfig := stateMachine.GetConfig(hostname);
      Finish(hostconfig, devs);
    }

    static method Finish(hostconfig: HostConfig, devs: seq<string>)
      requires hostconfig.Valid()
      modifies hostconfig
      ensures hostconfig.Valid()
      ensures var h := old(hostconfig.View());
              hostconfig.View() == UpdateDiskPartition(h, devs, h.original.jnlparts).(preparing := false, done := true)
    {
      hostconfig.UpdatePartitions(devs, hostconfig.jnlPartsCount);
      hostconfig.SetDiskPreparationDone();
    }

    /** statusUpdate of a finished task. The failed devices are read into a variable of the inner block, so the list
        passed on is always empty. False is a read past a token list or a conversion error. */
    method TaskFinished(driver: SchedulerDriver, message: Option<string>) returns (defined: bool)
      requires Valid()
      modifies Entries()
      ensures Kept() && (defined <==> ReadDiskNews(message) != Undefined)
      ensures View(driver) == if defined then Schedulers.StatusUpdate(old(View(driver)), "", Finished(message))
                              else old(View(driver))
    {
      hide View, Valid, Explode, ParseInt, UpdateDiskPartition, WithHost, HostOf;
      if message == None {
        return true;
      }
      var tokens := ExplodeText(message.value, '.');
      if |tokens| == 0 || ParseInt(tokens[0]) == None {
        return false;
      }
      if ParseInt(tokens[0]).value == DISK_READY {
        if |tokens| < 2 {
          return false;
        }
        var failedDevs := ExplodeText(tokens[1], ':');
        if |failedDevs| < 2 {
          return false;
        }
        var devs := [];
        if "-" != failedDevs[1] {
          var devs := ExplodeText(failedDevs[1], ',');
        }
        DiskDone(driver, failedDevs[0], devs);
      }
      defined := true;
    }

    /** statusUpdate. */
    method OnStatusUpdate(driver: SchedulerDriver, taskId: string, u: Update) returns (defined: bool)
      requires Valid()
      modifies stateMachine, Entries()
      ensures Kept() && (defined <==> !(u.Finished? && ReadDiskNews(u.message) == Undefined))
      ensures View(driver) == if defined then Schedulers.StatusUpdate(old(View(driver)), taskId, u)
                              else old(View(driver))
    {
      hide View, Valid, SetStatus, SetStatusAndMove, ReadDiskNews, DiskReady;
      defined := true;
      match u {
        case Running => SetRunning(driver, taskId);
        case Starting => SetWaiting(driver, taskId);
        case Failed => SetFailed(driver, taskId);
        case Finished(message) => defined := TaskFinished(driver, message);
        case Other =>
      }
    }

    /** frameworkMessage. False is the conversion error of a message from the initial MON that is no integer. */
    method OnFrameworkMessage(driver: SchedulerDriver, executorId: string, data: string)
      returns (defined: bool, ghost mon: TaskState)
      requires Valid()
      modifies stateMachine
      ensures Kept() && MayBeInitialMon(stateMachine.taskMap, mon)
      ensures defined <==> mon.executorId != executorId || ParseInt(data).Some?
      ensures View(driver) == Schedulers.FrameworkMessage(old(View(driver)), executorId, data, mon)
    {
      hide MayBeInitialMon, ParseInt;
      var initialMon := stateMachine.GetInitialMon();
      mon, defined := initialMon, true;
      if initialMon.executorId == executorId {
        if ParseInt(data) == None {
          return false, initialMon;
        }
        stateMachine.AddPendingOSDID(ParseInt(data).value);
      }
    }
  }

  lemma NoOfferYet(p: Progress, phase: Phase)
    ensures OfferSteps(p, [], [], phase) == p && ChoicesFit(p, [], [], phase)
  {
  }

  lemma OneMoreOffer(p: Progress, offers: seq<Offer>, choices: seq<Choice>, ch: Choice, phase: Phase, i: nat)
    requires |choices| == i < |offers| && ChoicesFit(p, offers[..i], choices, phase)
    requires ChoiceFits(OfferSteps(p, offers[..i], choices, phase), offers[i], phase, ch)
    ensures OfferSteps(p, offers[..i + 1], choices + [ch], phase)
            == OfferStep(OfferSteps(p, offers[..i], choices, phase), offers[i], phase, ch)
    ensures ChoicesFit(p, offers[..i + 1], choices + [ch], phase)
  {
    hide OfferStep, ChoiceFits;
    assert offers[..i + 1][..i] == offers[..i] && (choices + [ch])[..i] == choices;
    forall j | 0 <= j < i + 1
      ensures ChoiceFits(OfferSteps(p, offers[..i + 1][..j], (choices + [ch])[..j], phase), offers[..i + 1][j], phase,
                         (choices + [ch])[j])
    {
      assert offers[..i + 1][..j] == offers[..j] && (j < i ==> offers[..i][..j] == offers[..j]);
      assert (choices + [ch])[..j] == choices[..j];
    }
  }

  lemma DecidingKeepsTasks(s: Sched, o: Offer, m: Move)
    ensures Prepared(s, o).c == s.c && AfterMove(s.c, m).tasks == s.c.tasks
  {
  }

  lemma ListedIsKnown(tasks: map<string, TaskState>, ids: seq<string>)
    requires ListsWaiting(tasks, ids)
    ensures AllKnown(tasks, ids)
  {
  }

  /** Assigning ids changes no address. */
  lemma {:induction false} AssignKeepsAddresses(s: Sched, ids: seq<string>, n: nat)
    requires n <= |ids| && n <= |s.c.pendingIds|
    requires AllKnown(s.c.tasks, ids)
    ensures var tasks := AssignFirst(s, ids, n).c.tasks;
            forall k :: k in s.c.tasks ==>
              k in tasks && tasks[k].executorId == s.c.tasks[k].executorId && tasks[k].slaveId == s.c.tasks[k].slaveId
  {
    hide AssignOne;
    if n > 0 {
      AssignKeepsAddresses(s, ids, n - 1);
      OneKeepsAddresses(AssignFirst(s, ids, n - 1), ids[n - 1]);
    }
  }

  lemma OneKeepsAddresses(s: Sched, k: string)
    requires k in s.c.tasks && s.c.pendingIds != []
    ensures var tasks := AssignOne(s, k).c.tasks;
            forall j :: j in s.c.tasks ==>
              j in tasks && tasks[j].executorId == s.c.tasks[j].executorId && tasks[j].slaveId == s.c.tasks[j].slaveId
  {
  }
}
