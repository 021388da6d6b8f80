/** What one round of the offer loop changes, as far as the cluster state and the log can tell. */
module Effects {
  import opened Text
  import opened Types
  import opened Wire
  import opened DiskExecutors
  import opened StateMachines
  import opened Schedulers
  import FlexUp

  // ---------------------------------------------------------------- reading the log

  /** The messages sent to executors. */
  function Sends(calls: seq<Call>): seq<Envelope> {
    if calls == [] then []
    else
      var rest := Sends(calls[..|calls| - 1]);
      var last := calls[|calls| - 1];
      if last.SendMessage? then rest + [last.envelope] else rest
  }

  /** The Ceph tasks launched. */
  function Launches(calls: seq<Call>): seq<TaskInfo> {
    if calls == [] then []
    else
      var rest := Launches(calls[..|calls| - 1]);
      var last := calls[|calls| - 1];
      if last.LaunchTask? then rest + [last.info] else rest
  }

  function FlexShare(call: Call): nat {
    if call.LaunchTask? && call.info.taskType == OSD && call.during == WAITING_REQUEST then 1 else 0
  }

  /** The number of OSD tasks launched on behalf of flex-up requests. */
  function FlexLaunches(calls: seq<Call>): nat {
    if calls == [] then 0 else FlexLaunches(calls[..|calls| - 1]) + FlexShare(calls[|calls| - 1])
  }

  lemma LogAppend(calls: seq<Call>, call: Call)
    ensures Sends(calls + [call]) == Sends(calls) + if call.SendMessage? then [call.envelope] else []
    ensures Launches(calls + [call]) == Launches(calls) + if call.LaunchTask? then [call.info] else []
    ensures FlexLaunches(calls + [call]) == FlexLaunches(calls) + FlexShare(call)
  {
    assert (calls + [call])[..|calls + [call]| - 1] == calls;
  }

  // ---------------------------------------------------------------- the two kinds of rounds

  /** No task was launched: at most a token was spent or a disk task started. */
  ghost predicate Quiet(s: Sched, s': Sched) {
    && s'.c == s.c.(mon := s'.c.mon, osd := s'.c.osd, rgw := s'.c.rgw)
    && (forall t :: Of(s'.c, t) == Of(s.c, t).(index := Of(s'.c, t).index) && Of(s'.c, t).index >= Of(s.c, t).index)
    && s'.requests == s.requests
    && Sends(s'.calls) == Sends(s.calls) && Launches(s'.calls) == Launches(s.calls)
    && FlexLaunches(s'.calls) == FlexLaunches(s.calls)
  }

  /** The registration messages that the launch of a task causes. */
  function Registration(info: TaskInfo, ch: Choice): seq<Envelope> {
    if !info.initial && info.taskType == OSD
    then [Envelope(ch.registerMon.executorId, ch.registerMon.slaveId, RegisterOsd)]
    else []
  }

  /** The cluster with one more staging task, whose token is spent. */
  function WithNewTask(c: Cluster, info: TaskInfo): Cluster {
    var n := Of(c, info.taskType);
    With(c, info.taskType, n.(staging := n.staging + 1, index := n.index + 1))
    .(tasks := c.tasks[info.taskId := RecordFor(info)])
  }

  lemma MoveThenStage(c: Cluster, info: TaskInfo)
    ensures AddStagingTask(AfterMove(c, Go(info.taskType, info.token)), RecordFor(info)) == WithNewTask(c, info)
  {
  }

  /** A task was launched and recorded. */
  ghost predicate NewTask(s: Sched, s': Sched, info: TaskInfo, ch: Choice) {
    && NextMove(s.c, false) == Go(info.taskType, info.token) && WellNamed(info)
    && s'.c == WithNewTask(s.c, info)
    && Launches(s'.calls) == Launches(s.calls) + [info]
    && Sends(s'.calls) == Sends(s.calls) + Registration(info, ch)
    && (if s.c.phase == WAITING_REQUEST
        then s.requests != [] && s'.requests == FlexUp.AfterTake(s.requests)
             && FlexLaunches(s'.calls) == FlexLaunches(s.calls) + 1
        else s'.requests == s.requests && FlexLaunches(s'.calls) == FlexLaunches(s.calls))
    && info.configHost == if info.initial then None else Some(ch.configMon.hostName)
  }

  /** The task a round launches, if any. */
  function LaunchIn(p: Progress, o: Offer, phase: Phase, ch: Choice): Option<TaskInfo> {
    var s1 := Prepared(p.s, o);
    if !o.hasRole || !o.enough then None
    else
      match NextMove(s1.c, HostOf(s1, o.hostname).preparing)
      case Stay => None
      case Go(t, token) =>
        if phase == WAITING_REQUEST && p.s.requests == [] then None
        else Some(InfoFor(HostOf(s1, o.hostname), o, t, token, p.initial || (t == MON && token == 0), ch))
  }

  lemma PreparedKeeps(s: Sched, o: Offer)
    ensures var s1 := Prepared(s, o);
            && s1.c == s.c && s1.requests == s.requests && o.hostname in s1.hosts
            && Sends(s1.calls) == Sends(s.calls) && Launches(s1.calls) == Launches(s.calls)
            && FlexLaunches(s1.calls) == FlexLaunches(s.calls)
  {
    var h := HostOf(s.(hosts := AddHost(s.hosts, o.hostname, o.spec)), o.hostname);
    LogAppend(s.calls, LaunchDisk(o.id, o.hostname, DiskLabels(h.pendingOsd, h.pendingJnl, h.original.jnlparts)));
  }

  lemma LaunchedCalls(s: Sched, o: Offer, t: TaskType, token: int, initial: bool, ch: Choice)
    ensures var s' := Launched(s, o, t, token, initial, ch);
            var info := InfoFor(HostOf(s, o.hostname), o, t, token, initial, ch);
            var calls := s.calls + [LaunchTask(o.id, info, s.c.phase)];
            s'.calls ==
            if !initial && t == OSD
            then calls + [SendMessage(Envelope(ch.registerMon.executorId, ch.registerMon.slaveId, RegisterOsd))]
            else calls
  {
  }

  lemma LaunchedEffect(s: Sched, o: Offer, t: TaskType, token: int, initial: bool, ch: Choice)
    ensures var s' := Launched(s, o, t, token, initial, ch);
            var info := InfoFor(HostOf(s, o.hostname), o, t, token, initial, ch);
            && s'.c == AddStagingTask(s.c, RecordFor(info)) && s'.requests == s.requests
            && Launches(s'.calls) == Launches(s.calls) + [info]
            && Sends(s'.calls) == Sends(s.calls) + Registration(info, ch)
            && FlexLaunches(s'.calls) == FlexLaunches(s.calls) + FlexShare(LaunchTask(o.id, info, s.c.phase))
  {
    var info := InfoFor(HostOf(s, o.hostname), o, t, token, initial, ch);
    var call := LaunchTask(o.id, info, s.c.phase);
    LogAppend(s.calls, call);
    LogAppend(s.calls + [call],
              SendMessage(Envelope(ch.registerMon.executorId, ch.registerMon.slaveId, RegisterOsd)));
  }

  lemma DeclineEffect(s: Sched, id: string, refuse: Option<int>)
    ensures var s' := Say(s, DeclineOffer(id, refuse));
            && Sends(s'.calls) == Sends(s.calls) && Launches(s'.calls) == Launches(s.calls)
            && FlexLaunches(s'.calls) == FlexLaunches(s.calls)
  {
    LogAppend(s.calls, DeclineOffer(id, refuse));
  }

  ghost predicate SameLog(s: Sched, s': Sched) {
    && Sends(s'.calls) == Sends(s.calls) && Launches(s'.calls) == Launches(s.calls)
    && FlexLaunches(s'.calls) == FlexLaunches(s.calls) && s'.requests == s.requests
  }

  /** A move that was accepted and then declined. */
  lemma QuietProceed(s: Sched, s1: Sched, o: Offer, m: Move, phase: Phase, initial: bool, ch: Choice)
    requires m.Go? && s1.c == AfterMove(s.c, m) && SameLog(s, s1)
    requires !o.enough || (phase == WAITING_REQUEST && s1.requests == [])
    requires phase == WAITING_REQUEST ==> m.taskType == OSD
    ensures Quiet(s, Proceed(s1, o, m.taskType, m.token, phase, initial, ch).s)
    ensures Proceed(s1, o, m.taskType, m.token, phase, initial, ch).initial == initial
  {
    DeclineEffect(s1, o.id, None);
  }

  lemma QuietRound(p: Progress, o: Offer, phase: Phase, ch: Choice)
    requires LaunchIn(p, o, phase, ch) == None && phase == p.s.c.phase
    ensures Quiet(p.s, OfferStep(p, o, phase, ch).s)
    ensures OfferStep(p, o, phase, ch).initial == p.initial
  {
    if !o.hasRole {
      DeclineEffect(p.s, o.id, Some(86400));
    } else {
      PreparedKeeps(p.s, o);
      var s1 := Prepared(p.s, o);
      var m := NextMove(s1.c, HostOf(s1, o.hostname).preparing);
      if m.Stay? {
        DeclineEffect(s1, o.id, None);
      } else {
        QuietProceed(p.s, s1.(c := AfterMove(s1.c, m)), o, m, phase, p.initial, ch);
      }
    }
  }

  /** A move that was accepted and carried out. */
  lemma LaunchProceed(s: Sched, s1: Sched, o: Offer, m: Move, initial: bool, ch: Choice)
    requires m == NextMove(s.c, false) && m.Go? && s1.c == AfterMove(s.c, m) && SameLog(s, s1)
    requires o.enough && (s.c.phase == WAITING_REQUEST ==> s1.requests != [])
    ensures var p' := Proceed(s1, o, m.taskType, m.token, s.c.phase, initial, ch);
            var info := InfoFor(HostOf(s1, o.hostname), o, m.taskType, m.token, p'.initial, ch);
            && p'.initial == (initial || (m.taskType == MON && m.token == 0))
            && NewTask(s, p'.s, info, ch)
  {
    hide Launched, Sends, Launches, FlexLaunches, TaskIdText, ExecutorIdText, AddStagingTask;
    var s2 := if s.c.phase == WAITING_REQUEST then s1.(requests := FlexUp.AfterTake(s1.requests)) else s1;
    var initial' := initial || (m.taskType == MON && m.token == 0);
    var info := InfoFor(HostOf(s2, o.hostname), o, m.taskType, m.token, initial', ch);
    LaunchedEffect(s2, o, m.taskType, m.token, initial', ch);
    MoveThenStage(s.c, info);
  }

  lemma LaunchRound(p: Progress, o: Offer, phase: Phase, ch: Choice)
    requires LaunchIn(p, o, phase, ch).Some? && phase == p.s.c.phase
    ensures NewTask(p.s, OfferStep(p, o, phase, ch).s, LaunchIn(p, o, phase, ch).value, ch)
    ensures var info := LaunchIn(p, o, phase, ch).value;
            && OfferStep(p, o, phase, ch).initial == info.initial
            && info.initial == (p.initial || (info.taskType == MON && info.token == 0))
            && info.hostname == o.hostname && info.slaveId == o.slaveId
  {
    PreparedKeeps(p.s, o);
    var s1 := Prepared(p.s, o);
    var m := NextMove(s1.c, HostOf(s1, o.hostname).preparing);
    LaunchProceed(p.s, s1.(c := AfterMove(s1.c, m)), o, m, p.initial, ch);
  }

  /** One assignment of an OSD id. */
  lemma AssignEffect(s: Sched, k: string)
    requires k in s.c.tasks && s.c.pendingIds != [] && IsWaiting(s.c.tasks[k])
    ensures var s' := AssignOne(s, k);
            var last := |s.c.pendingIds| - 1;
            && s'.c == s.c.(pendingIds := s.c.pendingIds[..last],
                            tasks := s.c.tasks[k := s.c.tasks[k].(currentStatus := STARTING)])
            && s'.hosts == s.hosts && s'.fallback == s.fallback && s'.requests == s.requests
            && Launches(s'.calls) == Launches(s.calls) && FlexLaunches(s'.calls) == FlexLaunches(s.calls)
            && Sends(s'.calls) == Sends(s.calls) + [LaunchEnvelope(s.c.tasks[k], s.c.pendingIds[last])]
  {
    LogAppend(s.calls, SendMessage(LaunchEnvelope(s.c.tasks[k], s.c.pendingIds[|s.c.pendingIds| - 1])));
  }
}
