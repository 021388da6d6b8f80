/** What is conserved over whole runs: OSD ids, flex-up instances, and disk partitions. */
module Conservation {
  import opened Text
  import opened Types
  import opened Wire
  import opened HostConfigs
  import opened StateMachines
  import opened Schedulers
  import opened Effects
  import opened CephExecutors
  import opened Protocol
  import opened Counters
  import opened Identity
  import opened Messages
  import opened Supply
  import opened Disks
  import opened Assignments
  import opened Invariants
  import opened Runs
  import opened Evolution
  import opened Safety
  import FlexUp

  // ---------------------------------------------------------------- OSD ids

  /** The registrations still on their way to the initial MON. */
  function UnderWay(w: World, m: string): int
    requires m in BookOf(w)
  {
    var reg := RegistrationTo(BookOf(w)[m]);
    var sent: int := multiset(Sends(w.sched.calls))[reg];
    sent - w.taken[reg]
  }

  function IdsSent(w: World): seq<int> {
    SentIds(Sends(w.sched.calls))
  }

  /** Registrations under way, replies under way and pending ids add up to the OSD tasks launched less the ids sent to
      them, if and only if no registration was lost; and none is lost while the process of the initial MON lives. */
  lemma SupplyIsConserved(ws: seq<World>, es: seq<Event>, i: nat, m: string)
    requires IsRun(ws, es) && i < |ws| && IsInitialMon(BookOf(ws[i]), m)
    ensures UnderWay(ws[i], m) >= 0
    ensures UnderWay(ws[i], m) + |ws[i].replies| + |ws[i].sched.c.pendingIds|
            == CountType(LaunchesOf(ws[i]), OSD) - |IdsSent(ws[i])|
            <==> ws[i].dropped[RegistrationTo(BookOf(ws[i])[m])] == 0
    ensures ExecOf(ws[i].execs, m) != Gone ==> ws[i].dropped[RegistrationTo(BookOf(ws[i])[m])] == 0
  {
    hide IsRun, Counted, DisksSound, Linked, Directed, Supplied, Booked, TokensIncrease, AllEntered, AllConfigured,
         IdsConserved, IsInitialMon, Launches, Sends;
    RunsAreSound(ws, es, i);
    var c := ws[i].sched.c;
    SupplyAccount(c, BookOf(ws[i]), ChannelsOf(ws[i]), ws[i].execs, m);
    assert CountType(LaunchesOf(ws[i]), OSD) == |OfType(c.tasks, OSD)|;
  }

  /** The channels to and from the initial MON are empty. */
  ghost predicate Drained(w: World, m: string) {
    IsInitialMon(BookOf(w), m) && ExecOf(w.execs, m) != Gone && w.replies == multiset{} && UnderWay(w, m) == 0
  }

  /** With drained channels there is an id for every waiting OSD. */
  lemma DrainedChannelsSuffice(ws: seq<World>, es: seq<Event>, i: nat, m: string)
    requires IsRun(ws, es) && i < |ws| && Drained(ws[i], m)
    ensures |WaitingOf(TasksOf(ws[i]))| <= |ws[i].sched.c.pendingIds|
  {
    hide IsRun, Counted, DisksSound, Linked, Directed, Supplied, TokensIncrease, AllEntered, AllConfigured,
         IdsConserved;
    hide IsInitialMon, Launches, Sends, Booked;
    RunsAreSound(ws, es, i);
    BookedWhenLogged(ws[i].sched.c, LaunchesOf(ws[i]));
    EnoughIds(ws[i].sched.c, BookOf(ws[i]), ChannelsOf(ws[i]), ws[i].execs, m);
  }

  /** So the next callback of offers, even an empty batch, leaves no OSD waiting. */
  lemma DrainedChannelsServeAll(ws: seq<World>, es: seq<Event>, i: nat, m: string)
    requires IsRun(ws, es) && i < |es| && Drained(ws[i], m) && es[i].Offers?
    ensures WaitingOf(TasksOf(ws[i + 1])) == {}
  {
    hide Initial, Inv, Drained, AllJustified, AllServed, Stepped, AssignFirst, OfferSteps;
    DrainedChannelsSuffice(ws, es, i, m);
    RunStep(ws, es, i);
    var waiting := es[i].waiting;
    OffersHalves(ws[i], waiting, es[i].offers, es[i].choices);
    HandleWaitingExact(ws[i].sched, waiting);
    NoNewWaiting(HandleWaiting(ws[i].sched, waiting).c.tasks, TasksOf(ws[i + 1]));
  }

  lemma NoNewWaiting(tasks: Tasks, tasks': Tasks)
    requires AllAdvanced(tasks, tasks')
    ensures WaitingOf(tasks') <= WaitingOf(tasks)
  {
  }

  /** Every id the initial MON delivered is pending or was sent; if the delivered ids are different, so are those sent,
      and none of them is still pending. */
  lemma IdsAreConserved(ws: seq<World>, es: seq<Event>, i: nat)
    requires IsRun(ws, es) && i < |ws|
    ensures multiset(ws[i].received) == multiset(ws[i].sched.c.pendingIds) + multiset(IdsSent(ws[i]))
    ensures Distinct(ws[i].received) ==>
              Distinct(IdsSent(ws[i])) && forall x :: x in ws[i].sched.c.pendingIds ==> x !in IdsSent(ws[i])
  {
    hide IsRun, SchedulerSound, Linked, Directed, Supplied, SentIds;
    RunsAreSound(ws, es, i);
    if Distinct(ws[i].received) {
      IdsSentOnce(ws[i].received, ws[i].sched.c.pendingIds, Sends(ws[i].sched.calls));
    }
  }

  /** The ids delivered by the MON and those on their way. */
  function IdsFromMon(w: World): nat {
    |w.received| + |w.replies|
  }

  lemma OthersAskForNoId(w: World, e: Event)
    requires Enabled(w, e) && !e.IdArrives? && !e.ExecutorMessage?
    ensures Apply(w, e).received == w.received && Apply(w, e).replies == w.replies
  {
    hide ResourceOffers, StatusUpdate, ReadDiskNews, OnLaunch;
  }

  /** Registrations go to the executor of the initial MON only. */
  lemma RegistrationsNeedInitialMon(w: World, m: string, info: TaskInfo, env: Envelope)
    requires Inv(w) && IsInitialMon(BookOf(w), m) && info in LaunchesOf(w) && InFlightTo(w, info, env)
    requires env.message == RegisterOsd
    ensures info.taskId == m
  {
    hide Counted, DisksSound, Linked, Directed, IdsConserved, TokensIncrease, AllConfigured, Identity.Book, Launches,
         Sends;
    var sent := Sends(w.sched.calls);
    assert SuppliedBy(BookOf(w)[m], |OfType(TasksOf(w), OSD)|, ChannelsOf(w), ExecOf(w.execs, m));
    assert env in sent;
    assert env == RegistrationTo(BookOf(w)[m]);
    LaunchedIsKnown(w.sched.c, LaunchesOf(w), info);
    assert WellNamed(BookOf(w)[m]) && WellNamed(BookOf(w)[info.taskId]);
    ExecutorIdsSeparate(BookOf(w)[m], info);
  }

  /** The executor of the initial MON will take no further message: it is caught in its launch, or its process is
      gone. */
  predicate Silent(w: World, m: string) {
    ExecOf(w.execs, m) == Hung || ExecOf(w.execs, m) == Gone
  }

  lemma SilenceStep(w: World, e: Event, m: string)
    requires Inv(w) && Enabled(w, e) && IsInitialMon(BookOf(w), m) && Silent(w, m)
    ensures Silent(Apply(w, e), m) && IdsFromMon(Apply(w, e)) <= IdsFromMon(w)
  {
    hide Inv, ResourceOffers, StatusUpdate, FrameworkMessage, ReadOrder, MessageText, IsInitialMon, ReadDiskNews;
    if e.ExecutorMessage? {
      MessageRoundTrip(e.envelope.message);
      if e.envelope.message == RegisterOsd {
        RegistrationsNeedInitialMon(w, m, e.info, e.envelope);
      }
    } else if !e.IdArrives? {
      OthersAskForNoId(w, e);
    }
  }

  /** Once the executor of the initial MON hangs or is gone, no further id is ever produced: all that will ever be sent
      is bounded by the ids delivered or under way by then. */
  lemma {:induction false} SilentMonSuppliesNothing(ws: seq<World>, es: seq<Event>, i: nat, j: nat, m: string)
    requires IsRun(ws, es) && i <= j < |ws| && IsInitialMon(BookOf(ws[i]), m) && Silent(ws[i], m)
    ensures Silent(ws[j], m) && IdsFromMon(ws[j]) <= IdsFromMon(ws[i])
    ensures |IdsSent(ws[j])| <= IdsFromMon(ws[i])
  {
    hide Initial, Inv, Enabled, Apply, Stepped, SentIds, Silent;
    if i < j {
      SilentMonSuppliesNothing(ws, es, i, j - 1, m);
      RunStep(ws, es, j - 1);
      BookStays(ws, es, i, j - 1, m);
      SilenceStep(ws[j - 1], es[j - 1], m);
    }
    IdsAreConserved(ws, es, j);
    assert |multiset(ws[j].received)| == |ws[j].received|;
    assert |multiset(ws[j].sched.c.pendingIds) + multiset(IdsSent(ws[j]))|
        == |ws[j].sched.c.pendingIds| + |IdsSent(ws[j])|;
  }

  /** An initial MON whose task failed but whose process lives still answers: its executor takes the registration, and
      the scheduler accepts the id it sends. */
  lemma FailedMonStillSupplies(w: World, m: string, osdId: int, container: Container, mon: TaskState)
    requires Inv(w) && IsInitialMon(BookOf(w), m) && ExecOf(w.execs, m) == Stopped
    requires UnderWay(w, m) > 0 && IsInt32(osdId) && MayBeInitialMon(TasksOf(w), mon)
    ensures var info := BookOf(w)[m];
            var asked := ExecutorMessage(info, RegistrationTo(info), container, osdId);
            && Enabled(w, asked)
            && var w1, arrival := Apply(w, asked), IdArrives(Reply(info.executorId, osdId), mon);
               && Enabled(w1, arrival)
               && Apply(w1, arrival).sched.c.pendingIds == w.sched.c.pendingIds + [osdId]
  {
    hide SchedulerSound, Linked, Directed, Supplied, IdsConserved, Booked, ReadOrder, MessageText, Launches, Sends,
         MayBeInitialMon;
    var info := BookOf(w)[m];
    LoggedWhenSound(w);
    BookedWhenLogged(w.sched.c, LaunchesOf(w));
    BookedIsLaunched(LaunchesOf(w), m);
    InitialMonIdentity(w.sched.c, BookOf(w), m, mon);
    MessageRoundTrip(RegisterOsd);
    var w1 := Apply(w, ExecutorMessage(info, RegistrationTo(info), container, osdId));
    ArrivalEffect(w1, Reply(info.executorId, osdId), mon);
  }

  lemma InitialMonIdentity(c: Cluster, book: Messages.Book, m: string, mon: TaskState)
    requires Booked(c, book) && IsInitialMon(book, m) && MayBeInitialMon(c.tasks, mon)
    ensures book[m].taskId == m && mon.executorId == book[m].executorId
  {
    InitialMonAnswer(c, book, m, mon);
    assert Recorded(c, m, book[m]);
  }

  // ---------------------------------------------------------------- flex-up instances

  /** The OSD instances in the accepted requests among the first `n` events. */
  function Posted(es: seq<Event>, n: nat): int
    requires n <= |es|
  {
    if n == 0 then 0
    else
      Posted(es, n - 1) +
      match es[n - 1]
      case Post(Some(r)) => if FlexUp.Sendable(r) then FlexUp.OsdShare(r) else 0
      case _ => 0
  }

  lemma OnlyPostsAccept(w: World, e: Event)
    requires Enabled(w, e)
    ensures Apply(w, e).accepted == w.accepted +
            match e
            case Post(Some(r)) => if FlexUp.Sendable(r) then FlexUp.OsdShare(r) else 0
            case _ => 0
  {
    hide ResourceOffers, StatusUpdate, FrameworkMessage, OnLaunch, OnMessage;
  }

  lemma {:induction false} AcceptedIsPosted(ws: seq<World>, es: seq<Event>, i: nat)
    requires IsRun(ws, es) && i < |ws|
    ensures ws[i].accepted == Posted(es, i)
  {
    hide Enabled, Apply;
    if i > 0 {
      AcceptedIsPosted(ws, es, i - 1);
      assert Enabled(ws[i - 1], es[i - 1]) && ws[i - 1 + 1] == Apply(ws[i - 1], es[i - 1]);
      OnlyPostsAccept(ws[i - 1], es[i - 1]);
    }
  }

  /** Every OSD instance of every accepted request is in the message queue, in the scheduler's list, or was launched,
      and the list has no empty entries. */
  lemma FlexUpsAreConserved(ws: seq<World>, es: seq<Event>, i: nat)
    requires IsRun(ws, es) && i < |ws|
    ensures Posted(es, i) == FlexUp.OsdInstances(ws[i].queue) + FlexUp.Sum(ws[i].sched.requests) + FlexLaunchesOf(ws[i])
    ensures FlexUp.AllPositive(ws[i].sched.requests)
  {
    hide IsRun, Counted, Logged, DisksSound, ExchangeSound, Bounded, FlexLaunches;
    RunsAreSound(ws, es, i);
    AcceptedIsPosted(ws, es, i);
  }

  /** The instances, of whatever profile, in the accepted requests among the first `n` events. */
  function Accepted(es: seq<Event>, n: nat): int
    requires n <= |es|
  {
    if n == 0 then 0
    else
      Accepted(es, n - 1) +
      match es[n - 1]
      case Post(Some(r)) => if FlexUp.Sendable(r) then r.instances else 0
      case _ => 0
  }

  /** Event number `j` takes a request for MONs out of the queue. */
  predicate TakesMonRequest(ws: seq<World>, es: seq<Event>, j: int) {
    0 <= j < |es| && j < |ws| && es[j] == Receive && ws[j].queue != [] && ws[j].queue[0].profile != "osd"
  }

  /** The instances in the requests for MONs that were taken out of the queue by the first `n` events. */
  function Dropped(ws: seq<World>, es: seq<Event>, n: nat): int
    requires n <= |es| && n <= |ws|
  {
    if n == 0 then 0
    else Dropped(ws, es, n - 1) + if TakesMonRequest(ws, es, n - 1) then ws[n - 1].queue[0].instances else 0
  }

  /** What an event does to the instances in the queue. */
  lemma QueueStep(w: World, e: Event)
    requires Enabled(w, e)
    ensures FlexUp.Instances(Apply(w, e).queue) - FlexUp.OsdInstances(Apply(w, e).queue)
            == FlexUp.Instances(w.queue) - FlexUp.OsdInstances(w.queue)
               + match e
                 case Post(Some(r)) => if FlexUp.Sendable(r) then r.instances - FlexUp.OsdShare(r) else 0
                 case Receive => -(w.queue[0].instances - FlexUp.OsdShare(w.queue[0]))
                 case _ => 0
  {
    hide ResourceOffers, StatusUpdate, FrameworkMessage, OnLaunch, OnMessage;
    match e {
      case Post(Some(r)) =>
        FlexUp.InstancesAppend(w.queue, r);
        FlexUp.AllInstancesAppend(w.queue, r);
      case _ =>
    }
  }

  lemma {:induction false} MonInstances(ws: seq<World>, es: seq<Event>, i: nat)
    requires IsRun(ws, es) && i < |ws|
    ensures Accepted(es, i) - Posted(es, i)
            == FlexUp.Instances(ws[i].queue) - FlexUp.OsdInstances(ws[i].queue) + Dropped(ws, es, i)
  {
    hide Enabled, Apply, FlexUp.Instances, FlexUp.OsdInstances;
    if i == 0 {
      assert FlexUp.Instances([]) == FlexUp.OsdInstances([]) by { EmptyQueue(); }
    } else {
      MonInstances(ws, es, i - 1);
      assert Enabled(ws[i - 1], es[i - 1]) && ws[i - 1 + 1] == Apply(ws[i - 1], es[i - 1]);
      QueueStep(ws[i - 1], es[i - 1]);
      if es[i - 1] == Receive {
        QueueNotEmpty(ws[i - 1]);
      }
    }
  }

  lemma EmptyQueue()
    ensures FlexUp.Instances([]) == FlexUp.OsdInstances([]) == 0
  {
  }

  lemma QueueNotEmpty(w: World)
    requires Enabled(w, Receive)
    ensures w.queue != []
  {
  }

  lemma {:induction false} DroppedExactlyIfTaken(ws: seq<World>, es: seq<Event>, i: nat)
    requires IsRun(ws, es) && i < |ws|
    ensures Dropped(ws, es, i) >= 0
    ensures Dropped(ws, es, i) == 0 <==> !exists j :: j < i && TakesMonRequest(ws, es, j)
  {
    hide Enabled, Apply, Inv;
    if i > 0 {
      DroppedExactlyIfTaken(ws, es, i - 1);
      RunsAreSound(ws, es, i - 1);
      QueueIsAcceptable(ws[i - 1]);
    }
  }

  lemma QueueIsAcceptable(w: World)
    requires Inv(w)
    ensures forall i :: 0 <= i < |w.queue| ==> FlexUp.Acceptable(w.queue[i])
  {
  }

  /** All instances of all requests that were answered with success are in the queue, in the list, or launched, if and
      only if no request for MONs was taken out of the queue: those are dropped. */
  lemma AcceptedAreServedUnlessForMons(ws: seq<World>, es: seq<Event>, i: nat)
    requires IsRun(ws, es) && i < |ws|
    ensures Accepted(es, i) == FlexUp.Instances(ws[i].queue) + FlexUp.Sum(ws[i].sched.requests) + FlexLaunchesOf(ws[i])
                               + Dropped(ws, es, i)
    ensures Accepted(es, i) == FlexUp.Instances(ws[i].queue) + FlexUp.Sum(ws[i].sched.requests) + FlexLaunchesOf(ws[i])
            <==> !exists j :: j < i && TakesMonRequest(ws, es, j)
  {
    hide IsRun, TakesMonRequest;
    FlexUpsAreConserved(ws, es, i);
    MonInstances(ws, es, i);
    DroppedExactlyIfTaken(ws, es, i);
  }

  /** A request for two MONs: accepted, and gone when it is received. */
  lemma MonRequestExample(w: World)
    requires Initial(w)
    ensures var r := FlexUp.Request(2, "mon", 31);
            var w1 := Apply(w, Post(Some(r)));
            && FlexUp.Sendable(r) && w1.queue == [r] && Enabled(w1, Receive)
            && Apply(w1, Receive).queue == [] && Apply(w1, Receive).sched.requests == []
  {
    hide Inv;
    assert "mon" != "osd";
  }

  // ---------------------------------------------------------------- disks

  /** A host that prepares its disks or has raw devices has never been given a Ceph task, and no host is given a second
      disk task. */
  lemma TasksAwaitDisks(ws: seq<World>, es: seq<Event>, i: nat, hostname: string)
    requires IsRun(ws, es) && i < |ws|
    ensures var u := UsageOf(ws[i].sched.calls, hostname);
            && u.disks <= 1
            && (u.tasks > 0 ==> hostname in ws[i].sched.hosts
                                && !ws[i].sched.hosts[hostname].preparing && !HasPending(ws[i].sched.hosts[hostname]))
  {
    hide IsRun, Counted, Logged, Demanded, Bounded, ExchangeSound, PoolBalanced, UsageOf;
    RunsAreSound(ws, es, i);
    assert HostSound(ws[i].sched.hosts, ws[i].sched.calls, hostname);
  }

  /** The partitions that a task was given. */
  function Handed(info: TaskInfo): seq<string> {
    NonEmpty(info.osdDisk) + NonEmpty(info.jnlDisk)
  }

  function HandedOn(infos: seq<TaskInfo>, hostname: string): seq<string> {
    if infos == [] then []
    else
      var last := infos[|infos| - 1];
      HandedOn(infos[..|infos| - 1], hostname) + if last.hostname == hostname then Handed(last) else []
  }

  lemma {:induction false} UsageIsHandedOn(calls: seq<Call>, hostname: string)
    ensures var u := UsageOf(calls, hostname);
            multiset(HandedOn(Launches(calls), hostname)) == multiset(u.osd) + multiset(u.jnl)
  {
    NothingUsed(hostname);
    hide UsageOf, HandedOn, Launches, Use, Handed;
    if calls != [] {
      var rest, last := calls[..|calls| - 1], calls[|calls| - 1];
      UsageIsHandedOn(rest, hostname);
      UseHands(UsageOf(rest, hostname), last, hostname);
      assert calls == rest + [last];
      LogAppend(rest, last);
      UsageAppend(rest, last, hostname);
      if last.LaunchTask? {
        HandedAppend(Launches(rest), last.info, hostname);
      } else {
        assert Launches(rest) + [] == Launches(rest);
      }
    }
  }

  lemma NothingUsed(hostname: string)
    ensures UsageOf([], hostname) == Usage([], [], 0, 0) && HandedOn(Launches([]), hostname) == []
  {
  }

  lemma UseHands(u: Usage, call: Call, hostname: string)
    ensures var u' := Use(u, call, hostname);
            multiset(u'.osd) + multiset(u'.jnl) == multiset(u.osd) + multiset(u.jnl) +
            if call.LaunchTask? && call.info.hostname == hostname then multiset(Handed(call.info)) else multiset{}
  {
  }

  lemma HandedAppend(infos: seq<TaskInfo>, info: TaskInfo, hostname: string)
    ensures multiset(HandedOn(infos + [info], hostname)) == multiset(HandedOn(infos, hostname)) +
            if info.hostname == hostname then multiset(Handed(info)) else multiset{}
  {
    assert (infos + [info])[..|infos|] == infos;
  }

  lemma {:induction false} HandedOnce(infos: seq<TaskInfo>, hostname: string, n: nat, x: string)
    requires n < |infos| && infos[n].hostname == hostname && x in Handed(infos[n])
    ensures multiset(HandedOn(infos, hostname))[x] >= 1
  {
    if n < |infos| - 1 {
      HandedOnce(infos[..|infos| - 1], hostname, n, x);
    } else {
      assert x in multiset(Handed(infos[n]));
    }
  }

  lemma {:induction false} HandedTwice(infos: seq<TaskInfo>, hostname: string, m: nat, n: nat, x: string)
    requires m < n < |infos| && infos[m].hostname == infos[n].hostname == hostname
    requires x in Handed(infos[m]) && x in Handed(infos[n])
    ensures multiset(HandedOn(infos, hostname))[x] >= 2
  {
    var rest := infos[..|infos| - 1];
    if n < |infos| - 1 {
      HandedTwice(rest, hostname, m, n, x);
    } else {
      HandedOnce(rest, hostname, m, x);
      assert x in multiset(Handed(infos[n]));
    }
  }

  /** On a host with clean device names no partition is ever handed to two tasks, and none that was handed out is still
      in the pool, even if disk reports are repeated. */
  lemma PartitionsGoToOneTask(ws: seq<World>, es: seq<Event>, i: nat, m: nat, n: nat, x: string)
    requires IsRun(ws, es) && i < |ws| && m < n < |LaunchesOf(ws[i])|
    requires LaunchesOf(ws[i])[m].hostname == LaunchesOf(ws[i])[n].hostname
    requires var h := LaunchesOf(ws[i])[m].hostname; h in ws[i].sched.hosts && Clean(ws[i].sched.hosts[h].original)
    requires x in Handed(LaunchesOf(ws[i])[m])
    ensures x !in Handed(LaunchesOf(ws[i])[n])
    ensures var h := ws[i].sched.hosts[LaunchesOf(ws[i])[m].hostname]; x !in h.osdParts + h.jnlParts
  {
    hide IsRun, Counted, Logged, Demanded, Bounded, ExchangeSound, HostOk, UsageOf, Launches, Handed, Clean;
    RunsAreSound(ws, es, i);
    var infos, hostname := LaunchesOf(ws[i]), LaunchesOf(ws[i])[m].hostname;
    var u := UsageOf(ws[i].sched.calls, hostname);
    assert HostSound(ws[i].sched.hosts, ws[i].sched.calls, hostname);
    PartitionsAreLinear(ws[i].sched.hosts[hostname], u);
    UsageIsHandedOn(ws[i].sched.calls, hostname);
    DistinctCounts(u.osd + u.jnl);
    assert multiset(u.osd + u.jnl) == multiset(HandedOn(infos, hostname));
    HandedOnce(infos, hostname, m, x);
    assert x in multiset(u.osd + u.jnl);
    if x in Handed(infos[n]) {
      HandedTwice(infos, hostname, m, n, x);
    }
  }

  /** Once a host is prepared, the partitions of its devices are exactly those in the pool and those handed out. */
  lemma PartitionsAreConserved(ws: seq<World>, es: seq<Event>, i: nat, hostname: string)
    requires IsRun(ws, es) && i < |ws| && hostname in ws[i].sched.hosts && !HasPending(ws[i].sched.hosts[hostname])
    ensures var h := ws[i].sched.hosts[hostname];
            multiset(h.osdParts) + multiset(h.jnlParts) + multiset(HandedOn(LaunchesOf(ws[i]), hostname))
            == multiset(Partitions(h.original.osddevs, [], 1))
               + multiset(Partitions(h.original.jnldevs, [], h.original.jnlparts))
  {
    hide IsRun, Counted, Logged, Demanded, Bounded, ExchangeSound, UsageOf, Launches, HandedOn, Partitions, HostOk;
    RunsAreSound(ws, es, i);
    assert HostSound(ws[i].sched.hosts, ws[i].sched.calls, hostname);
    UnpreparedBalances(ws[i].sched.hosts[hostname], UsageOf(ws[i].sched.calls, hostname));
    UsageIsHandedOn(ws[i].sched.calls, hostname);
  }
}
