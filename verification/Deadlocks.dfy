/** Which worlds can never complete the bootstrap. */
module Deadlocks {
  import opened Types
  import opened Wire
  import opened StateMachines
  import opened Schedulers
  import opened Effects
  import opened CephExecutors
  import opened Protocol
  import opened Counters
  import opened Identity
  import opened Messages
  import opened Supply
  import opened Disks
  import opened Invariants
  import opened Runs
  import opened Evolution
  import opened Safety
  import opened Conservation

  /** A task on its way that will never run and whose failure, if it is ever reported, will not be counted: no report is
      to come that could free its place. */
  predicate Lost(r: TaskState, e: Exec, q: seq<Update>) {
    match r.currentStatus
    case STAGING => e == Gone && (q == [] || q[0] == Starting)
    case WAITING_OSDID => e == Gone
    case STARTING => (e == Gone || e == Stopped || e == Hung) && (q == [] || q[0] == Failed)
    case _ => false
  }

  predicate LostTask(w: World, k: string) {
    k in TasksOf(w) && Lost(TasksOf(w)[k], ExecOf(w.execs, k), ReportsOf(w.reports, k))
  }

  /** A place is taken for ever: by a lost task, or by a failure that was not counted. */
  ghost predicate Blocked(w: World) {
    w.stuck != {} || exists k :: LostTask(w, k)
  }

  /** Without flex-ups, a place that is taken for ever keeps the cluster incomplete. */
  lemma BlockedIsIncomplete(w: World)
    requires Inv(w) && Blocked(w) && FlexLaunchesOf(w) == 0
    ensures w.sched.c.phase != WAITING_REQUEST
  {
    hide Logged, DisksSound, ExchangeSound, Launches, FlexLaunches;
    var c := w.sched.c;
    if w.stuck != {} {
      StuckBlocksBootstrap(c, w.stuck);
    } else {
      var k :| LostTask(w, k);
      assert k in StagingOf(c.tasks, c.tasks[k].taskType);
      assert CountedType(c.tasks, w.stuck, MON, c.mon) && CountedType(c.tasks, w.stuck, OSD, c.osd)
          && CountedType(c.tasks, w.stuck, RADOSGW, c.rgw) by {
        assert Of(c, MON) == c.mon && Of(c, OSD) == c.osd && Of(c, RADOSGW) == c.rgw;
      }
    }
  }

  // ---------------------------------------------------------------- lost tasks stay lost

  /** The executor of a lost task: nothing it does brings the task back. */
  lemma LostStaysLost(w: World, e: Event, k: string)
    requires Inv(w) && Enabled(w, e) && LostTask(w, k)
    ensures LostTask(Apply(w, e), k) || k in Apply(w, e).stuck
  {
    hide Inv, LostTask, Apply, Enabled;
    match e {
      case Offers(waiting, offers, choices) => OffersKeepLost(w, e, k);
      case Deliver(j) => DeliverKeepsLost(w, j, k);
      case _ => OtherKeepsLost(w, e, k);
    }
  }

  lemma OffersKeepLost(w: World, e: Event, k: string)
    requires Inv(w) && Enabled(w, e) && e.Offers? && LostTask(w, k)
    ensures LostTask(Apply(w, e), k)
  {
    hide Inv, AllJustified, AllServed, ResourceOffers;
    assert LinkedHere(w, k) by { LinkedInInv(w, k); }
    OffersMove(w, e.waiting, e.offers, e.choices);
    assert Advanced(TasksOf(w)[k], TasksOf(Apply(w, e))[k]);
  }

  ghost predicate LinkedHere(w: World, k: string) {
    LinkedTask(TasksOf(w), w.execs, w.reports, k)
  }

  lemma LinkedInInv(w: World, k: string)
    requires Inv(w)
    ensures LinkedHere(w, k)
  {
    hide SchedulerSound, Directed, Supplied, IdsConserved;
  }

  lemma DeliverKeepsLost(w: World, j: string, k: string)
    requires Inv(w) && Enabled(w, Deliver(j)) && LostTask(w, k)
    ensures LostTask(Apply(w, Deliver(j)), k) || k in Apply(w, Deliver(j)).stuck
  {
    hide SchedulerSound, Directed, Supplied, IdsConserved, Apply, Informed;
    assert LinkedHere(w, k) && LinkedHere(w, j) by { LinkedInInv(w, k); LinkedInInv(w, j); }
    var to := DeliverEffect(w, j);
    InformedEffect(w.sched.c, j, to);
  }

  lemma OtherKeepsLost(w: World, e: Event, k: string)
    requires Inv(w) && Enabled(w, e) && !e.Offers? && !e.Deliver? && LostTask(w, k)
    ensures LostTask(Apply(w, e), k)
  {
    hide Inv, Apply, Enabled;
    assert LinkedHere(w, k) by { LinkedInInv(w, k); }
    OthersLeaveCluster(w, e);
    OthersKeepGone(w, e, k);
  }

  /** What the other events do to an executor that has reached its end, or that failed to start what it was told to. */
  lemma OthersKeepGone(w: World, e: Event, k: string)
    requires Inv(w) && Enabled(w, e) && !e.Offers? && !e.Deliver? && LostTask(w, k)
    ensures var w' := Apply(w, e);
            || (ReportsOf(w'.reports, k) == ReportsOf(w.reports, k)
                && (ExecOf(w'.execs, k) == ExecOf(w.execs, k) || ExecOf(w'.execs, k) == Gone))
            || (ExecOf(w.execs, k) == Hung && ExecOf(w'.execs, k) == Gone
                && ReportsOf(w'.reports, k) == ReportsOf(w.reports, k) + [Failed])
  {
    hide SchedulerSound, Linked, Supplied, IdsConserved, Directed, StatusUpdate, FrameworkMessage, OnLaunch,
         ReadOrder, Booked, MessageText;
    if e.ExecutorMessage? {
      MessageRoundTrip(e.envelope.message);
      if e.info.taskId == k && e.envelope.message.LaunchOsd? {
        LoggedWhenSound(w);
        LaunchedIsKnown(w.sched.c, LaunchesOf(w), e.info);
        LaunchMeetsWaitingExecutor(TasksOf(w), BookOf(w), w.execs, w.taken, Sends(w.sched.calls), k, e.envelope);
      }
    }
    var q := ReportsOf(w.reports, k);
    assert q + [] == q;
  }

  // ---------------------------------------------------------------- paths

  /** Paths keep the invariant. */
  lemma {:induction false} PathIsSound(ws: seq<World>, es: seq<Event>, i: nat)
    requires IsPath(ws, es) && i < |ws| && Inv(ws[0])
    ensures Inv(ws[i])
  {
    hide Inv, Enabled, Apply;
    if i > 0 {
      PathIsSound(ws, es, i - 1);
      assert Enabled(ws[i - 1], es[i - 1]) && ws[i - 1 + 1] == Apply(ws[i - 1], es[i - 1]);
      StepKeepsInv(ws[i - 1], es[i - 1]);
    }
  }

  lemma BlockedStep(w: World, e: Event)
    requires Inv(w) && Enabled(w, e) && Blocked(w) && FlexLaunchesOf(w) == 0
    ensures Blocked(Apply(w, e)) && FlexLaunchesOf(Apply(w, e)) == 0
  {
    hide Inv, Enabled, Apply, LostTask, RecordsStep, AllJustified, AllServed, FlexLaunches;
    BlockedIsIncomplete(w);
    EventSteps(w, e);
    if w.stuck == {} {
      var k :| LostTask(w, k);
      LostStaysLost(w, e, k);
    }
  }

  /** From a blocked world without flex-ups no path leads to WAITING_REQUEST. */
  lemma {:induction false} BlockedForever(ws: seq<World>, es: seq<Event>, i: nat)
    requires IsPath(ws, es) && i < |ws| && Inv(ws[0]) && Blocked(ws[0]) && FlexLaunchesOf(ws[0]) == 0
    ensures Blocked(ws[i]) && FlexLaunchesOf(ws[i]) == 0 && ws[i].sched.c.phase != WAITING_REQUEST
  {
    hide Inv, Enabled, Apply, Blocked;
    PathIsSound(ws, es, i);
    if i > 0 {
      BlockedForever(ws, es, i - 1);
      PathIsSound(ws, es, i - 1);
      assert Enabled(ws[i - 1], es[i - 1]) && ws[i - 1 + 1] == Apply(ws[i - 1], es[i - 1]);
      BlockedStep(ws[i - 1], es[i - 1]);
    }
    BlockedIsIncomplete(ws[i]);
  }

  // ---------------------------------------------------------------- too few ids

  ghost function StartingOf(tasks: Tasks): set<string> {
    set k | k in tasks && tasks[k].taskType == OSD && tasks[k].currentStatus == STARTING
  }

  /** The OSDs that run or start, and the ids for more. */
  ghost function Ids(w: World): nat {
    |w.sched.c.pendingIds| + |w.replies| + |RunningOf(TasksOf(w), OSD)| + |StartingOf(TasksOf(w))|
  }

  /** The OSDs that failed after an id was sent to them. */
  ghost function FailedReceivers(tasks: Tasks, sent: seq<Envelope>): set<string> {
    set k | k in ReceiversOf(tasks, Targets(sent)) && tasks[k].currentStatus == FAILED
  }

  lemma ReceiverStatus(tasks: Tasks, execs: Execs, taken: multiset<Envelope>, sent: seq<Envelope>, k: string)
    requires forall i :: 0 <= i < |sent| ==> Targeted(tasks, execs, taken, sent[i])
    requires k in tasks && tasks[k].executorId in Targets(sent)
    ensures tasks[k].currentStatus != STAGING && tasks[k].currentStatus != WAITING_OSDID
  {
    hide Targets;
    var n := TargetSentAt(sent, tasks[k].executorId);
    assert Targeted(tasks, execs, taken, sent[n]);
  }

  lemma KnownStatus(w: World, k: string)
    requires Inv(w) && k in TasksOf(w)
    ensures TasksOf(w)[k].currentStatus != FINISHED && TasksOf(w)[k].currentStatus != UNKNOWN
  {
    hide Inv;
    LinkedInInv(w, k);
  }

  /** Receivers of an id run, start, or have failed. */
  lemma ReceiversSplit(w: World)
    requires Inv(w) && AllServed(TasksOf(w), Sends(w.sched.calls))
    ensures var tasks, sent := TasksOf(w), Sends(w.sched.calls);
            |ReceiversOf(tasks, Targets(sent))|
            == |RunningOf(tasks, OSD)| + |StartingOf(tasks)| + |FailedReceivers(tasks, sent)|
  {
    hide SchedulerSound, Linked, Supplied, IdsConserved, Sends, Targets;
    var tasks, sent := TasksOf(w), Sends(w.sched.calls);
    var running, starting, failed := RunningOf(tasks, OSD), StartingOf(tasks), FailedReceivers(tasks, sent);
    forall k | k in ReceiversOf(tasks, Targets(sent)) ensures k in running + starting + failed {
      ReceiverStatus(tasks, w.execs, w.taken, sent, k);
      KnownStatus(w, k);
    }
    assert ReceiversOf(tasks, Targets(sent)) == running + starting + failed;
    assert running !! starting && (running + starting) !! failed;
  }

  /** The ids account for themselves: those produced, less those of failed OSDs. */
  lemma IdsAccount(w: World)
    requires Inv(w) && AllServed(TasksOf(w), Sends(w.sched.calls))
    ensures Ids(w) == IdsFromMon(w) - |FailedReceivers(TasksOf(w), Sends(w.sched.calls))|
  {
    hide Counted, DisksSound, Linked, Supplied, AllServed, Sends, Launches, RunningOf, StartingOf, FailedReceivers,
         ReceiversOf, Targets, SentIds, Booked, TokensIncrease, AllEntered, AllConfigured, Directed;
    ReceiversSplit(w);
    ReceiversCount(w.sched.c, BookOf(w), w.execs, w.taken, Sends(w.sched.calls));
    assert |multiset(w.received)| == |w.received|;
    assert |multiset(w.sched.c.pendingIds) + multiset(IdsSent(w))| == |w.sched.c.pendingIds| + |IdsSent(w)|;
  }

  lemma FailedStayFailed(tasks: Tasks, tasks': Tasks, sent: seq<Envelope>, sent': seq<Envelope>)
    requires RecordsStep(tasks, tasks') && Targets(sent) <= Targets(sent')
    ensures |FailedReceivers(tasks, sent)| <= |FailedReceivers(tasks', sent')|
  {
    hide Targets;
    var before, after := FailedReceivers(tasks, sent), FailedReceivers(tasks', sent');
    assert before <= after;
    assert after == before + (after - before);
  }

  /** With a silent initial MON there are never more ids. */
  lemma IdsNeverGrow(w: World, e: Event, m: string)
    requires Inv(w) && Enabled(w, e) && AllServed(TasksOf(w), Sends(w.sched.calls))
    requires IsInitialMon(BookOf(w), m) && Silent(w, m)
    ensures Ids(Apply(w, e)) <= Ids(w) && Silent(Apply(w, e), m)
    ensures AllServed(TasksOf(Apply(w, e)), Sends(Apply(w, e).sched.calls)) && IsInitialMon(BookOf(Apply(w, e)), m)
  {
    hide Inv, Enabled, Apply, AllServed, RecordsStep, Ids, FailedReceivers, Sends, Launches, Identity.Book, Silent;
    StepKeepsInv(w, e);
    EventSteps(w, e);
    SilenceStep(w, e, m);
    IdsAccount(w);
    IdsAccount(Apply(w, e));
    FailedStayFailed(TasksOf(w), TasksOf(Apply(w, e)), Sends(w.sched.calls), Sends(Apply(w, e).sched.calls));
    BookGrows(w, Apply(w, e), m);
  }

  /** From a world whose initial MON is silent and that has ids for fewer than three OSDs, no path leads to
      WAITING_REQUEST. */
  lemma {:induction false} StarvedForever(ws: seq<World>, es: seq<Event>, i: nat, m: string)
    requires IsPath(ws, es) && i < |ws| && Inv(ws[0]) && AllServed(TasksOf(ws[0]), Sends(ws[0].sched.calls))
    requires IsInitialMon(BookOf(ws[0]), m) && Silent(ws[0], m) && Ids(ws[0]) < 3
    ensures AllServed(TasksOf(ws[i]), Sends(ws[i].sched.calls)) && IsInitialMon(BookOf(ws[i]), m)
    ensures Silent(ws[i], m) && Ids(ws[i]) < 3 && ws[i].sched.c.phase != WAITING_REQUEST
  {
    hide Inv, Enabled, Apply, AllServed, Ids, IsInitialMon, Silent, Launches, Sends;
    PathIsSound(ws, es, i);
    if i > 0 {
      StarvedForever(ws, es, i - 1, m);
      PathIsSound(ws, es, i - 1);
      assert Enabled(ws[i - 1], es[i - 1]) && ws[i - 1 + 1] == Apply(ws[i - 1], es[i - 1]);
      IdsNeverGrow(ws[i - 1], es[i - 1], m);
    }
    FewIdsAreIncomplete(ws[i]);
  }

  lemma FewIdsAreIncomplete(w: World)
    requires Inv(w) && Ids(w) < 3
    ensures w.sched.c.phase != WAITING_REQUEST
  {
    hide Logged, DisksSound, ExchangeSound, Launches, FlexLaunches;
    assert CountedType(TasksOf(w), w.stuck, OSD, Of(w.sched.c, OSD));
  }
}
