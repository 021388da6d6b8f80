/** The phase and counter machine of the scheduler (src/state/StateMachine.cpp). */
module StateMachines {
  import opened Types
  import opened Wire
  import opened HostConfigs

  /** The running and staging counters and the next token of one task type. */
  datatype Counts = Counts(running: int, staging: int, index: int)

  /** The value of a StateMachine object, without its host entries. */
  datatype Cluster = Cluster(
    tasks: map<string, TaskState>, pendingIds: seq<int>, phase: Phase, mon: Counts, osd: Counts, rgw: Counts)

  function NewCluster(): Cluster {
    Cluster(map[], [], BOOTSTRAP_MON, Counts(0, 0, 0), Counts(0, 0, 0), Counts(0, 0, 0))
  }

  function Of(c: Cluster, t: TaskType): Counts {
    match t case MON => c.mon case OSD => c.osd case RADOSGW => c.rgw
  }

  function With(c: Cluster, t: TaskType, n: Counts): Cluster {
    match t case MON => c.(mon := n) case OSD => c.(osd := n) case RADOSGW => c.(rgw := n)
  }

  function PhaseOf(c: Cluster): Phase {
    if c.mon.running < 1 then BOOTSTRAP_MON
    else if c.osd.running < 3 then BOOTSTRAP_OSD
    else if c.rgw.running < 1 then BOOTSTRAP_RADOSGW
    else WAITING_REQUEST
  }

  function AddStagingTask(c: Cluster, r: TaskState): Cluster {
    With(c.(tasks := c.tasks[r.taskId := r.(currentStatus := STAGING)]),
         r.taskType, Of(c, r.taskType).(staging := Of(c, r.taskType).staging + 1))
  }

  /** updateCounters: a failure lowers the staging counter only if the task was still STAGING. */
  function Recount(n: Counts, from: Status, to: Status): Counts {
    if (from == STAGING || from == STARTING) && to == RUNNING
    then n.(running := n.running + 1, staging := n.staging - 1)
    else if from == STAGING && to == FAILED then n.(staging := n.staging - 1)
    else if from == RUNNING && to == FAILED then n.(running := n.running - 1)
    else n
  }

  /** The counters and the record of a known task after a status change; an unknown task changes nothing. */
  function SetStatus(c: Cluster, taskId: string, to: Status): Cluster {
    if taskId !in c.tasks then c
    else
      var r := c.tasks[taskId];
      With(c, r.taskType, Recount(Of(c, r.taskType), r.currentStatus, to))
      .(tasks := c.tasks[taskId := r.(currentStatus := to)])
  }

  /** A status change after which the phase is computed anew. */
  function SetStatusAndMove(c: Cluster, taskId: string, to: Status): Cluster {
    if taskId !in c.tasks then c
    else
      var c' := SetStatus(c, taskId, to);
      c'.(phase := PhaseOf(c'))
  }

  datatype Move = Stay | Go(taskType: TaskType, token: int)

  /** The decision of nextMove for a host, `preparing` being its disk flag. */
  function NextMove(c: Cluster, preparing: bool): Move {
    if preparing then Stay
    else
      match c.phase
      case RECONCILING_TASKS | BOOTSTRAP_MON =>
        if c.mon.staging < 1 && c.mon.staging + c.mon.running < 1 then Go(MON, c.mon.index) else Stay
      case BOOTSTRAP_OSD =>
        if c.osd.staging < 3 && c.osd.staging + c.osd.running < 3 then Go(OSD, c.osd.index) else Stay
      case BOOTSTRAP_RADOSGW =>
        if c.rgw.staging < 1 then Go(RADOSGW, c.rgw.index) else Stay
      case WAITING_REQUEST => Go(OSD, c.osd.index)
  }

  /** The machine after the decision: the token is spent. */
  function AfterMove(c: Cluster, m: Move): Cluster {
    match m
    case Stay => c
    case Go(t, _) => With(c, t, Of(c, t).(index := Of(c, t).index + 1))
  }

  /** What getInitialMon may return, the iteration order of the task table being unspecified: a record whose id starts
      with the prefix if there is one, else the record visited last, else an empty one. */
  ghost predicate MayBeInitialMon(tasks: map<string, TaskState>, r: TaskState) {
    if exists k :: k in tasks && INITIAL_MON_PREFIX <= tasks[k].taskId then
      exists k :: k in tasks && INITIAL_MON_PREFIX <= tasks[k].taskId && r == tasks[k]
    else if tasks != map[] then
      exists k :: k in tasks && r == tasks[k]
    else
      r.taskId == r.executorId == r.hostName == r.slaveId == ""
  }

  /** getInitialMon always has an answer. */
  lemma SomeInitialMon(tasks: map<string, TaskState>) returns (r: TaskState)
    ensures MayBeInitialMon(tasks, r)
  {
    if k :| k in tasks && INITIAL_MON_PREFIX <= tasks[k].taskId {
      r := tasks[k];
    } else if k :| k in tasks {
      r := tasks[k];
    } else {
      r := TaskState("", "", MON, "", "", UNKNOWN);
    }
  }

  predicate IsWaiting(r: TaskState) {
    r.taskType == OSD && r.currentStatus == WAITING_OSDID
  }

  /** The OSD tasks that wait for an OSD id. */
  ghost function WaitingOf(tasks: map<string, TaskState>): set<string> {
    set k | k in tasks && IsWaiting(tasks[k])
  }

  /** The ids of the waiting tasks, each once, in some order. */
  ghost predicate ListsWaiting(tasks: map<string, TaskState>, ids: seq<string>) {
    AllKnown(tasks, ids) && multiset(ids) == multiset(WaitingOf(tasks))
  }

  predicate AllKnown(tasks: map<string, TaskState>, ids: seq<string>) {
    forall i :: 0 <= i < |ids| ==> ids[i] in tasks
  }

  lemma WaitingListed(tasks: map<string, TaskState>, ids: seq<string>)
    requires ListsWaiting(tasks, ids)
    ensures |ids| == |WaitingOf(tasks)|
    ensures forall i :: 0 <= i < |ids| ==> IsWaiting(tasks[ids[i]])
  {
    assert |multiset(ids)| == |ids|;
    forall i | 0 <= i < |ids| ensures ids[i] in WaitingOf(tasks) {
      assert ids[i] in multiset(ids);
    }
  }

  ghost predicate Keyed(tasks: map<string, TaskState>) {
    forall k :: k in tasks ==> tasks[k].taskId == k
  }

  function AddHost(hosts: map<string, Host>, hostname: string, spec: HostSpec): map<string, Host> {
    if hostname in hosts then hosts else hosts[hostname := NewHost(spec)]
  }

  class StateMachine {
    var taskMap: map<string, TaskState>
    var hostConfigMap: map<string, HostConfig>
    var defaultHostConfig: HostConfig
    var pendingOSDID: seq<int>
    var currentPhase: Phase
    var monRunningNum: int
    var monStagingNum: int
    var monIndex: int
    var osdRunningNum: int
    var osdStagingNum: int
    var osdIndex: int
    var radosgwRunningNum: int
    var radosgwStagingNum: int
    var radosgwIndex: int

    ghost function View(): Cluster
      reads this
    {
      Cluster(taskMap, pendingOSDID, currentPhase,
              Counts(monRunningNum, monStagingNum, monIndex),
              Counts(osdRunningNum, osdStagingNum, osdIndex),
              Counts(radosgwRunningNum, radosgwStagingNum, radosgwIndex))
    }

    ghost function Hosts(): map<string, Host>
      reads this, hostConfigMap.Values
    {
      map h | h in hostConfigMap :: hostConfigMap[h].View()
    }

    /** The host entries are separate objects. */
    ghost predicate Valid()
      reads this, hostConfigMap.Values, defaultHostConfig
    {
      && Keyed(taskMap)
      && (forall h :: h in hostConfigMap ==> hostConfigMap[h] != defaultHostConfig && hostConfigMap[h].Valid())
      && (forall h, k :: h in hostConfigMap && k in hostConfigMap && h != k ==> hostConfigMap[h] != hostConfigMap[k])
    }

    constructor (spec: HostSpec)
      ensures Valid() && fresh(defaultHostConfig) && defaultHostConfig.Valid() && hostConfigMap == map[]
      ensures View() == NewCluster()
      ensures defaultHostConfig.View() == NewHost(spec).(pendingOsd := [], pendingJnl := [])
    {
      taskMap, hostConfigMap, pendingOSDID, currentPhase := map[], map[], [], BOOTSTRAP_MON;
      monRunningNum, monStagingNum, monIndex := 0, 0, 0;
      osdRunningNum, osdStagingNum, osdIndex := 0, 0, 0;
      radosgwRunningNum, radosgwStagingNum, radosgwIndex := 0, 0, 0;
      defaultHostConfig := new HostConfig.Fallback(spec);
    }

    ghost predicate HostsKept(map0: map<string, HostConfig>, fallback0: HostConfig)
      reads this
    {
      hostConfigMap == map0 && defaultHostConfig == fallback0
    }

    method AddStaging(taskId: string, executorId: string, taskType: TaskType, hostname: string, slaveId: string)
      requires Valid()
      modifies this
      ensures Valid() && HostsKept(old(hostConfigMap), old(defaultHostConfig))
      ensures View() == AddStagingTask(old(View()), TaskState(taskId, executorId, taskType, hostname, slaveId, STAGING))
    {
      match taskType {
        case MON => monStagingNum := monStagingNum + 1;
        case OSD => osdStagingNum := osdStagingNum + 1;
        case RADOSGW => radosgwStagingNum := radosgwStagingNum + 1;
      }
      taskMap := taskMap[taskId := TaskState(taskId, executorId, taskType, hostname, slaveId, STAGING)];
    }

    method UpdateCounters(taskType: TaskType, oldStatus: Status, newStatus: Status)
      modifies this`monRunningNum, this`monStagingNum, this`osdRunningNum, this`osdStagingNum,
               this`radosgwRunningNum, this`radosgwStagingNum
      ensures View() == With(old(View()), taskType, Recount(Of(old(View()), taskType), oldStatus, newStatus))
    {
      if (oldStatus == STAGING || oldStatus == STARTING) && newStatus == RUNNING {
        match taskType {
          case MON => monRunningNum, monStagingNum := monRunningNum + 1, monStagingNum - 1;
          case OSD => osdRunningNum, osdStagingNum := osdRunningNum + 1, osdStagingNum - 1;
          case RADOSGW => radosgwRunningNum, radosgwStagingNum := radosgwRunningNum + 1, radosgwStagingNum - 1;
        }
      }
      if oldStatus == STAGING && newStatus == FAILED {
        match taskType {
          case MON => monStagingNum := monStagingNum - 1;
          case OSD => osdStagingNum := osdStagingNum - 1;
          case RADOSGW => radosgwStagingNum := radosgwStagingNum - 1;
        }
      }
      if oldStatus == RUNNING && newStatus == FAILED {
        match taskType {
          case MON => monRunningNum := monRunningNum - 1;
          case OSD => osdRunningNum := osdRunningNum - 1;
          case RADOSGW => radosgwRunningNum := radosgwRunningNum - 1;
        }
      }
    }

    method MoveState()
      modifies this`currentPhase
      ensures View() == old(View()).(phase := PhaseOf(old(View())))
    {
      if monRunningNum < 1 {
        currentPhase := BOOTSTRAP_MON;
      } else if osdRunningNum < 3 {
        currentPhase := BOOTSTRAP_OSD;
      } else if radosgwRunningNum < 1 {
        currentPhase := BOOTSTRAP_RADOSGW;
      } else {
        currentPhase := WAITING_REQUEST;
      }
    }

    method DecreaseOSDIndex()
      modifies this`osdIndex
      ensures View() == old(View()).(osd := old(View()).osd.(index := old(View()).osd.index - 1))
    {
      osdIndex := osdIndex - 1;
    }

    method UpdateTaskToRunning(taskId: string)
      requires Valid()
      modifies this
      ensures Valid() && HostsKept(old(hostConfigMap), old(defaultHostConfig))
      ensures View() == SetStatusAndMove(old(View()), taskId, RUNNING)
    {
      if taskId in taskMap {
        var taskState := taskMap[taskId];
        UpdateCounters(taskState.taskType, taskState.currentStatus, RUNNING);
        taskMap := taskMap[taskId := taskState.(currentStatus := RUNNING)];
        MoveState();
      }
    }

    method UpdateTaskToWaitingOSDID(taskId: string)
      requires Valid()
      modifies this
      ensures Valid() && HostsKept(old(hostConfigMap), old(defaultHostConfig))
      ensures View() == SetStatus(old(View()), taskId, WAITING_OSDID)
    {
      if taskId in taskMap {
        var taskState := taskMap[taskId];
        UpdateCounters(taskState.taskType, taskState.currentStatus, WAITING_OSDID);
        taskMap := taskMap[taskId := taskState.(currentStatus := WAITING_OSDID)];
      }
    }

    method UpdateTaskToStarting(taskId: string)
      requires Valid()
      modifies this
      ensures Valid() && HostsKept(old(hostConfigMap), old(defaultHostConfig))
      ensures View() == SetStatus(old(View()), taskId, STARTING)
    {
      if taskId in taskMap {
        var taskState := taskMap[taskId];
        UpdateCounters(taskState.taskType, taskState.currentStatus, STARTING);
        taskMap := taskMap[taskId := taskState.(currentStatus := STARTING)];
      }
    }

    method UpdateTaskToFailed(taskId: string)
      requires Valid()
      modifies this
      ensures Valid() && HostsKept(old(hostConfigMap), old(defaultHostConfig))
      ensures View() == SetStatusAndMove(old(View()), taskId, FAILED)
    {
      if taskId in taskMap {
        var taskState := taskMap[taskId];
        UpdateCounters(taskState.taskType, taskState.currentStatus, FAILED);
        taskMap := taskMap[taskId := taskState.(currentStatus := FAILED)];
        MoveState();
      }
    }

    /** nextMove; the type and the token mean nothing when the move is refused. */
    method DecideMove(hostname: string) returns (accept: bool, taskType: TaskType, token: int)
      requires Valid()
      modifies this`monIndex, this`osdIndex, this`radosgwIndex
      ensures var preparing := if hostname in hostConfigMap then hostConfigMap[hostname].isPreparingDiskFlag
                               else defaultHostConfig.isPreparingDiskFlag;
              var m := NextMove(old(View()), preparing);
              && (if accept then m == Go(taskType, token) else m == Stay)
              && View() == AfterMove(old(View()), m)
    {
      accept, taskType, token := false, MON, 0;
      var hostconfig := GetConfig(hostname);
      if hostconfig.isPreparingDiskFlag {
        return;
      }
      match currentPhase {
        case RECONCILING_TASKS | BOOTSTRAP_MON =>
          taskType := MON;
          if monStagingNum < 1 && monStagingNum + monRunningNum < 1 {
            accept, token, monIndex := true, monIndex, monIndex + 1;
          }
        case BOOTSTRAP_OSD =>
          taskType := OSD;
          if osdStagingNum < 3 && osdStagingNum + osdRunningNum < 3 {
            accept, token, osdIndex := true, osdIndex, osdIndex + 1;
          }
        case BOOTSTRAP_RADOSGW =>
          taskType := RADOSGW;
          if radosgwStagingNum < 1 {
            accept, token, radosgwIndex := true, radosgwIndex, radosgwIndex + 1;
          }
        case WAITING_REQUEST =>
          accept, taskType, token, osdIndex := true, OSD, osdIndex, osdIndex + 1;
      }
    }

    /** addConfig; `spec` is the configuration found for the host. A known host is reloaded, which does nothing. */
    method AddConfig(hostname: string, spec: HostSpec)
      requires Valid()
      modifies this`hostConfigMap
      ensures Valid() && hostname in hostConfigMap
      ensures Hosts() == AddHost(old(Hosts()), hostname, spec)
      ensures old(hostConfigMap.Values) <= hostConfigMap.Values
      ensures fresh(hostConfigMap.Values - old(hostConfigMap.Values))
    {
      if hostname !in hostConfigMap {
        var hc := new HostConfig.ForHost(spec);
        ghost var before := hostConfigMap;
        hostConfigMap := hostConfigMap[hostname := hc];
        assert forall h :: h in before ==> h in hostConfigMap && hostConfigMap[h] == before[h];
        assert Hosts() == AddHost(old(Hosts()), hostname, spec);
      }
    }

    method GetConfig(hostname: string) returns (hc: HostConfig)
      ensures hc == if hostname in hostConfigMap then hostConfigMap[hostname] else defaultHostConfig
    {
      if hostname in hostConfigMap {
        return hostConfigMap[hostname];
      }
      hc := defaultHostConfig;
    }

    method GetInitialMon() returns (taskState: TaskState)
      ensures MayBeInitialMon(taskMap, taskState)
    {
      taskState := TaskState("", "", MON, "", "", UNKNOWN);
      var toVisit := taskMap.Keys;
      while toVisit != {}
        invariant toVisit <= taskMap.Keys
        invariant forall k :: k in taskMap && k !in toVisit ==> !(INITIAL_MON_PREFIX <= taskMap[k].taskId)
        invariant if toVisit == taskMap.Keys then taskState == TaskState("", "", MON, "", "", UNKNOWN)
                  else exists k :: k in taskMap && taskState == taskMap[k]
        decreases toVisit
      {
        var it :| it in toVisit;
        toVisit := toVisit - {it};
        taskState := taskMap[it];
        assert it in taskMap && taskState == taskMap[it];
        if INITIAL_MON_PREFIX <= taskState.taskId {
          return;
        }
      }
    }

    method GetWaitingOSDTask() returns (vc: seq<TaskState>, ghost ids: seq<string>)
      requires Valid()
      ensures ListsWaiting(taskMap, ids)
      ensures |vc| == |ids| && forall i :: 0 <= i < |ids| ==> vc[i] == taskMap[ids[i]] && vc[i].taskId == ids[i]
    {
      vc, ids := [], [];
      var toVisit := taskMap.Keys;
      while toVisit != {}
        invariant toVisit <= taskMap.Keys
        invariant multiset(ids) == multiset(set k | k in taskMap && k !in toVisit && IsWaiting(taskMap[k]))
        invariant |vc| == |ids| && forall i :: 0 <= i < |ids| ==>
                    ids[i] in taskMap && vc[i] == taskMap[ids[i]] && vc[i].taskId == ids[i]
        decreases toVisit
      {
        var it :| it in toVisit;
        ghost var seen := set k | k in taskMap && k !in toVisit && IsWaiting(taskMap[k]);
        toVisit := toVisit - {it};
        ghost var seen' := set k | k in taskMap && k !in toVisit && IsWaiting(taskMap[k]);
        assert seen' == if IsWaiting(taskMap[it]) then seen + {it} else seen;
        if taskMap[it].taskType == OSD && taskMap[it].currentStatus == WAITING_OSDID {
          vc, ids := vc + [taskMap[it]], ids + [it];
        }
      }
      assert WaitingOf(taskMap) == set k | k in taskMap && k !in toVisit && IsWaiting(taskMap[k]);
    }

    method AddPendingOSDID(osdID: int)
      modifies this`pendingOSDID
      ensures View() == old(View()).(pendingIds := old(View()).pendingIds + [osdID])
    {
      pendingOSDID := pendingOSDID + [osdID];
    }
  }
}
