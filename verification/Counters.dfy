/** The counters as censuses of the task table, the phase as a function of them, and the population bounds. */
module Counters {
  import opened Types
  import opened StateMachines
  import opened Schedulers
  import opened Effects

  type Tasks = map<string, TaskState>

  ghost function OfType(tasks: Tasks, t: TaskType): set<string> {
    set k | k in tasks && tasks[k].taskType == t
  }

  ghost function RunningOf(tasks: Tasks, t: TaskType): set<string> {
    set k | k in tasks && tasks[k].taskType == t && tasks[k].currentStatus == RUNNING
  }

  predicate InStaging(st: Status) {
    st == STAGING || st == WAITING_OSDID || st == STARTING
  }

  ghost function StagingOf(tasks: Tasks, t: TaskType): set<string> {
    set k | k in tasks && tasks[k].taskType == t && InStaging(tasks[k].currentStatus)
  }

  /** The failed tasks whose failure was not counted. */
  ghost function StuckOf(tasks: Tasks, stuck: set<string>, t: TaskType): set<string> {
    set k | k in stuck && k in tasks && tasks[k].taskType == t
  }

  ghost predicate CountedType(tasks: Tasks, stuck: set<string>, t: TaskType, n: Counts) {
    && n.running == |RunningOf(tasks, t)|
    && n.staging == |StagingOf(tasks, t)| + |StuckOf(tasks, stuck, t)|
  }

  /** Every running counter is the number of RUNNING records of its type, and every staging counter the number of
      records on the way there plus the tasks stuck in it; only OSDs get stuck. */
  ghost predicate Census(c: Cluster, stuck: set<string>) {
    && (forall t :: CountedType(c.tasks, stuck, t, Of(c, t)))
    && (forall k :: k in stuck ==> k in c.tasks && c.tasks[k].taskType == OSD && c.tasks[k].currentStatus == FAILED)
  }

  /** The counters count, and the phase follows from them. */
  ghost predicate Counted(c: Cluster, stuck: set<string>) {
    Census(c, stuck) && c.phase == PhaseOf(c)
  }

  function Tally(b: bool): nat {
    if b then 1 else 0
  }

  lemma RunningUpdate(tasks: Tasks, k: string, r: TaskState, t: TaskType)
    ensures |RunningOf(tasks[k := r], t)| ==
            |RunningOf(tasks, t)| - Tally(k in tasks && tasks[k].taskType == t && tasks[k].currentStatus == RUNNING)
            + Tally(r.taskType == t && r.currentStatus == RUNNING)
  {
    assert RunningOf(tasks[k := r], t) ==
           if r.taskType == t && r.currentStatus == RUNNING then RunningOf(tasks, t) + {k}
           else RunningOf(tasks, t) - {k};
  }

  lemma StagingUpdate(tasks: Tasks, k: string, r: TaskState, t: TaskType)
    ensures |StagingOf(tasks[k := r], t)| ==
            |StagingOf(tasks, t)| - Tally(k in tasks && tasks[k].taskType == t && InStaging(tasks[k].currentStatus))
            + Tally(r.taskType == t && InStaging(r.currentStatus))
  {
    assert StagingOf(tasks[k := r], t) ==
           if r.taskType == t && InStaging(r.currentStatus) then StagingOf(tasks, t) + {k}
           else StagingOf(tasks, t) - {k};
  }

  lemma OfTypeUpdate(tasks: Tasks, k: string, r: TaskState, t: TaskType)
    ensures OfType(tasks[k := r], t) == if r.taskType == t then OfType(tasks, t) + {k} else OfType(tasks, t) - {k}
  {
  }

  lemma StuckSame(tasks: Tasks, stuck: set<string>, k: string, r: TaskState, t: TaskType)
    requires k !in stuck
    ensures StuckOf(tasks[k := r], stuck, t) == StuckOf(tasks, stuck, t)
  {
  }

  lemma StuckJoined(tasks: Tasks, stuck: set<string>, k: string, r: TaskState, t: TaskType)
    requires k !in stuck
    ensures |StuckOf(tasks[k := r], stuck + {k}, t)| == |StuckOf(tasks, stuck, t)| + Tally(r.taskType == t)
  {
    var joined := if r.taskType == t then {k} else {};
    assert StuckOf(tasks[k := r], stuck + {k}, t) == StuckOf(tasks, stuck, t) + joined;
    assert k !in StuckOf(tasks, stuck, t);
  }

  /** The censuses depend on the records, the counters and the phase only. */
  lemma CountedSame(c: Cluster, c': Cluster, stuck: set<string>)
    requires Counted(c, stuck) && c' == c.(pendingIds := c'.pendingIds)
    ensures Counted(c', stuck)
  {
    forall t ensures CountedType(c'.tasks, stuck, t, Of(c', t)) {
      assert CountedType(c.tasks, stuck, t, Of(c, t));
    }
  }

  // ---------------------------------------------------------------- status changes

  /** The status changes that the protocol brings about. */
  predicate Legal(t: TaskType, from: Status, to: Status) {
    match to
    case RUNNING => from == STARTING || (t != OSD && from == STAGING)
    case WAITING_OSDID => t == OSD && from == STAGING
    case STARTING => t == OSD && from == WAITING_OSDID
    case FAILED => from == RUNNING || from == STAGING || (t == OSD && (from == WAITING_OSDID || from == STARTING))
    case _ => false
  }

  function StuckWith(stuck: set<string>, k: string, from: Status, to: Status): set<string> {
    if to == FAILED && (from == WAITING_OSDID || from == STARTING) then stuck + {k} else stuck
  }

  lemma CountedAfterChange(tasks: Tasks, stuck: set<string>, k: string, to: Status, t: TaskType, n: Counts)
    requires k in tasks && Legal(tasks[k].taskType, tasks[k].currentStatus, to) && k !in stuck
    requires CountedType(tasks, stuck, t, n)
    ensures var r := tasks[k];
            CountedType(tasks[k := r.(currentStatus := to)], StuckWith(stuck, k, r.currentStatus, to), t,
                        if r.taskType == t then Recount(n, r.currentStatus, to) else n)
  {
    hide RunningOf, StagingOf, StuckOf;
    var r := tasks[k].(currentStatus := to);
    RunningUpdate(tasks, k, r, t);
    StagingUpdate(tasks, k, r, t);
    StuckSame(tasks, stuck, k, r, t);
    StuckJoined(tasks, stuck, k, r, t);
  }

  lemma SetStatusEffect(c: Cluster, k: string, to: Status)
    requires k in c.tasks
    ensures var c' := SetStatus(c, k, to);
            var r := c.tasks[k];
            && c'.tasks == c.tasks[k := r.(currentStatus := to)]
            && c'.phase == c.phase && c'.pendingIds == c.pendingIds
            && (forall t :: Of(c', t) == if t == r.taskType then Recount(Of(c, t), r.currentStatus, to) else Of(c, t))
  {
  }

  /** A legal change keeps the censuses; a failure the counters miss joins the stuck tasks. */
  lemma ChangeCensus(c: Cluster, stuck: set<string>, k: string, to: Status)
    requires Census(c, stuck) && k in c.tasks && Legal(c.tasks[k].taskType, c.tasks[k].currentStatus, to)
    ensures Census(SetStatus(c, k, to), StuckWith(stuck, k, c.tasks[k].currentStatus, to))
  {
    var c' := SetStatus(c, k, to);
    var stuck' := StuckWith(stuck, k, c.tasks[k].currentStatus, to);
    SetStatusEffect(c, k, to);
    forall t ensures CountedType(c'.tasks, stuck', t, Of(c', t)) {
      assert CountedType(c.tasks, stuck, t, Of(c, t));
      CountedAfterChange(c.tasks, stuck, k, to, t, Of(c, t));
    }
  }

  lemma CensusIgnoresPhase(c: Cluster, stuck: set<string>, phase: Phase)
    requires Census(c, stuck)
    ensures Census(c.(phase := phase), stuck)
  {
    var c' := c.(phase := phase);
    forall t ensures CountedType(c'.tasks, stuck, t, Of(c', t)) {
      assert CountedType(c.tasks, stuck, t, Of(c, t));
    }
  }

  /** Reports that move the phase. */
  lemma MovingChangeCounts(c: Cluster, stuck: set<string>, k: string, to: Status)
    requires Counted(c, stuck) && k in c.tasks && Legal(c.tasks[k].taskType, c.tasks[k].currentStatus, to)
    ensures Counted(SetStatusAndMove(c, k, to), StuckWith(stuck, k, c.tasks[k].currentStatus, to))
  {
    var c' := SetStatus(c, k, to);
    ChangeCensus(c, stuck, k, to);
    CensusIgnoresPhase(c', StuckWith(stuck, k, c.tasks[k].currentStatus, to), PhaseOf(c'));
  }

  /** Changes that leave the running counters alone leave the phase alone. */
  lemma WaitingChangeCounts(c: Cluster, stuck: set<string>, k: string, to: Status)
    requires Counted(c, stuck) && k in c.tasks && Legal(c.tasks[k].taskType, c.tasks[k].currentStatus, to)
    requires to == WAITING_OSDID || to == STARTING
    ensures Counted(SetStatus(c, k, to), stuck)
  {
    ChangeCensus(c, stuck, k, to);
  }

  // ---------------------------------------------------------------- rounds of the offer loop

  lemma CountedAfterLaunch(tasks: Tasks, stuck: set<string>, k: string, r: TaskState, t: TaskType, n: Counts)
    requires k !in tasks && k !in stuck && r.currentStatus == STAGING
    requires CountedType(tasks, stuck, t, n)
    ensures CountedType(tasks[k := r], stuck, t, if r.taskType == t then n.(staging := n.staging + 1) else n)
  {
    hide RunningOf, StagingOf, StuckOf;
    RunningUpdate(tasks, k, r, t);
    StagingUpdate(tasks, k, r, t);
    StuckSame(tasks, stuck, k, r, t);
  }

  lemma LaunchCounts(c: Cluster, stuck: set<string>, info: TaskInfo)
    requires Counted(c, stuck) && info.taskId !in c.tasks
    ensures Counted(WithNewTask(c, info), stuck)
  {
    var c' := WithNewTask(c, info);
    var k := info.taskId;
    forall t ensures CountedType(c'.tasks, stuck, t, Of(c', t)) {
      assert CountedType(c.tasks, stuck, t, Of(c, t));
      CountedAfterLaunch(c.tasks, stuck, k, RecordFor(info), t, Of(c, t));
    }
  }

  lemma QuietCounts(s: Sched, s': Sched, stuck: set<string>)
    requires Counted(s.c, stuck) && Quiet(s, s')
    ensures Counted(s'.c, stuck)
  {
    forall t ensures CountedType(s'.c.tasks, stuck, t, Of(s'.c, t)) {
      assert CountedType(s.c.tasks, stuck, t, Of(s.c, t));
    }
    assert Of(s'.c, MON).running == Of(s.c, MON).running && Of(s'.c, OSD).running == Of(s.c, OSD).running
        && Of(s'.c, RADOSGW).running == Of(s.c, RADOSGW).running;
  }

  // ---------------------------------------------------------------- population

  /** At most one MON and one gateway are staging or running, and at most three OSDs beyond the flex-up launches. */
  ghost predicate Bounded(c: Cluster, flexUps: nat) {
    && c.mon.staging + c.mon.running <= 1
    && c.rgw.staging + c.rgw.running <= 1
    && c.osd.staging + c.osd.running <= 3 + flexUps
  }

  lemma NoCounterNegative(c: Cluster, stuck: set<string>, t: TaskType)
    requires Counted(c, stuck)
    ensures Of(c, t).running >= 0 && Of(c, t).staging >= 0
  {
    assert CountedType(c.tasks, stuck, t, Of(c, t));
  }

  lemma ChangeBounds(c: Cluster, k: string, to: Status, flexUps: nat)
    requires Bounded(c, flexUps) && k in c.tasks
    ensures Bounded(SetStatus(c, k, to), flexUps) && Bounded(SetStatusAndMove(c, k, to), flexUps)
  {
  }

  lemma QuietBounds(s: Sched, s': Sched)
    requires Bounded(s.c, FlexLaunches(s.calls)) && Quiet(s, s')
    ensures Bounded(s'.c, FlexLaunches(s'.calls))
  {
    assert Of(s'.c, MON) == s'.c.mon && Of(s'.c, OSD) == s'.c.osd && Of(s'.c, RADOSGW) == s'.c.rgw;
    assert Of(s.c, MON) == s.c.mon && Of(s.c, OSD) == s.c.osd && Of(s.c, RADOSGW) == s.c.rgw;
  }

  /** Although nextMove tests only the staging counter of the gateways, the phase sees to the bound. */
  lemma LaunchBounds(s: Sched, s': Sched, info: TaskInfo, ch: Choice, stuck: set<string>)
    requires Bounded(s.c, FlexLaunches(s.calls)) && Counted(s.c, stuck) && NewTask(s, s', info, ch)
    ensures Bounded(s'.c, FlexLaunches(s'.calls))
  {
    NoCounterNegative(s.c, stuck, MON);
    NoCounterNegative(s.c, stuck, RADOSGW);
  }

  /** The MON that a launch of any other type presupposes. */
  lemma LaunchNeedsCluster(c: Cluster, stuck: set<string>, t: TaskType, token: int)
    requires Counted(c, stuck) && NextMove(c, false) == Go(t, token)
    ensures t == MON ==> RunningOf(c.tasks, MON) == {}
    ensures t != MON ==> RunningOf(c.tasks, MON) != {}
    ensures t == RADOSGW ==> |RunningOf(c.tasks, OSD)| >= 3 && RunningOf(c.tasks, RADOSGW) == {}
  {
    assert CountedType(c.tasks, stuck, MON, Of(c, MON));
    assert CountedType(c.tasks, stuck, OSD, Of(c, OSD));
    assert CountedType(c.tasks, stuck, RADOSGW, Of(c, RADOSGW));
  }

  /** Before any flex-up launch, the cluster that waits for requests is exactly one MON, three OSDs and one gateway,
      with nothing staging and nothing stuck. */
  lemma BootstrapComplete(c: Cluster, stuck: set<string>)
    requires Counted(c, stuck) && Bounded(c, 0) && c.phase == WAITING_REQUEST
    ensures |RunningOf(c.tasks, MON)| == 1 && |RunningOf(c.tasks, OSD)| == 3 && |RunningOf(c.tasks, RADOSGW)| == 1
    ensures forall t :: StagingOf(c.tasks, t) == {} && StuckOf(c.tasks, stuck, t) == {}
  {
    forall t ensures StagingOf(c.tasks, t) == {} && StuckOf(c.tasks, stuck, t) == {} {
      assert CountedType(c.tasks, stuck, t, Of(c, t));
    }
    assert CountedType(c.tasks, stuck, MON, Of(c, MON));
    assert CountedType(c.tasks, stuck, OSD, Of(c, OSD));
    assert CountedType(c.tasks, stuck, RADOSGW, Of(c, RADOSGW));
  }

  /** One OSD failure that the counters miss, and without flex-ups there are never three OSDs to go on with. */
  lemma StuckBlocksBootstrap(c: Cluster, stuck: set<string>)
    requires Counted(c, stuck) && Bounded(c, 0) && stuck != {}
    ensures c.phase == BOOTSTRAP_MON || c.phase == BOOTSTRAP_OSD
  {
    assert CountedType(c.tasks, stuck, OSD, Of(c, OSD));
    var k :| k in stuck;
    assert k in StuckOf(c.tasks, stuck, OSD);
  }
}
