/** Flex-up requests over whole runs: they are served in the order of their arrival, and can all be served. */
module Service {
  import opened Text
  import opened Types
  import opened Wire
  import opened StateMachines
  import opened Schedulers
  import opened Effects
  import opened CephExecutors
  import opened Protocol
  import opened Counters
  import opened Identity
  import opened Disks
  import opened Assignments
  import opened Invariants
  import opened Runs
  import opened Evolution
  import opened Safety
  import opened InitialMons
  import opened Decisions
  import opened HostSetups
  import opened Recovery
  import FlexUp

  // ---------------------------------------------------------------- first come, first served

  /** A list of requests after `n` instances were taken, always from its first entry. */
  function Without(list: seq<int>, n: int): seq<int> {
    if n <= 0 || list == [] then list
    else if n < list[0] then [list[0] - n] + list[1..]
    else Without(list[1..], n - list[0])
  }

  lemma {:induction false} WithoutAppend(list: seq<int>, n: int, x: int)
    requires FlexUp.AllPositive(list) && n <= FlexUp.Sum(list)
    ensures Without(list + [x], n) == Without(list, n) + [x]
  {
    if n > 0 && list != [] {
      assert (list + [x])[1..] == list[1..] + [x];
      if n >= list[0] {
        WithoutAppend(list[1..], n - list[0], x);
      }
    }
  }

  lemma {:induction false} WithoutSum(list: seq<int>, n: nat)
    requires FlexUp.AllPositive(list) && n <= FlexUp.Sum(list)
    ensures FlexUp.AllPositive(Without(list, n)) && FlexUp.Sum(Without(list, n)) == FlexUp.Sum(list) - n
  {
    if n > 0 && list != [] {
      if n >= list[0] {
        WithoutSum(list[1..], n - list[0]);
      } else {
        assert ([list[0] - n] + list[1..])[1..] == list[1..];
      }
    }
  }

  lemma {:induction false} WithoutNext(list: seq<int>, n: nat)
    requires FlexUp.AllPositive(list) && n < FlexUp.Sum(list)
    ensures Without(list, n) != [] && Without(list, n + 1) == FlexUp.AfterTake(Without(list, n))
  {
    if n == 0 {
      if list[0] == 1 {
        assert Without(list[1..], 0) == list[1..];
      }
    } else if n < list[0] {
      assert ([list[0] - n] + list[1..])[1..] == list[1..];
      if n + 1 == list[0] {
        assert Without(list[1..], 0) == list[1..];
      }
    } else {
      WithoutNext(list[1..], n - list[0]);
    }
  }

  /** The scheduler's list is what was listed, less the instances launched. */
  ghost predicate InTurn(s: Sched, listed: seq<int>) {
    && FlexUp.AllPositive(listed) && FlexLaunches(s.calls) <= FlexUp.Sum(listed)
    && s.requests == Without(listed, FlexLaunches(s.calls))
  }

  lemma RoundInTurn(p: Progress, o: Offer, phase: Phase, ch: Choice, listed: seq<int>)
    requires InTurn(p.s, listed) && phase == p.s.c.phase
    ensures InTurn(OfferStep(p, o, phase, ch).s, listed)
  {
    hide OfferStep, LaunchIn, Launches, Sends, FlexLaunches;
    if LaunchIn(p, o, phase, ch) == None {
      QuietRound(p, o, phase, ch);
    } else {
      LaunchRound(p, o, phase, ch);
      WithoutSum(listed, FlexLaunches(p.s.calls));
      if phase == WAITING_REQUEST {
        NonEmptySum(p.s.requests);
        WithoutNext(listed, FlexLaunches(p.s.calls));
      }
    }
  }

  lemma NonEmptySum(list: seq<int>)
    requires FlexUp.AllPositive(list) && list != []
    ensures FlexUp.Sum(list) > 0
  {
    ListedSum(list[1..]);
  }

  lemma {:induction false} LoopInTurn(w: World, e: Event, n: nat, listed: seq<int>)
    requires Inv(w) && Enabled(w, e) && e.Offers? && n <= |e.offers| && InTurn(w.sched, listed)
    ensures AllKnown(TasksOf(w), e.waiting) && |e.offers| == |e.choices|
    ensures InTurn(LoopAt(w, e, n).s, listed)
  {
    hide Inv, Enabled, LoopAt, OfferStep, FlagSound, ChoiceFits, InTurn;
    if n == 0 {
      LoopBegins(w, e);
      AssignedInTurn(w, e, listed);
    } else {
      LoopInTurn(w, e, n - 1, listed);
      LoopIsSound(w, e, n - 1);
      LoopStep(w, e, n - 1);
      var p := LoopAt(w, e, n - 1);
      RoundInTurn(p, e.offers[n - 1], p.s.c.phase, e.choices[n - 1], listed);
    }
  }

  lemma AssignedInTurn(w: World, e: Event, listed: seq<int>)
    requires Enabled(w, e) && e.Offers? && InTurn(w.sched, listed)
    ensures AllKnown(TasksOf(w), e.waiting) && InTurn(HandleWaiting(w.sched, e.waiting), listed)
  {
    hide HandleWaiting, FlexLaunches, Launches;
    HandleWaitingKeeps(w.sched, e.waiting);
  }

  /** The other events leave the list and the log alone. */
  lemma OthersLeaveList(w: World, e: Event)
    requires Inv(w) && Enabled(w, e) && !e.Offers? && !e.Receive?
    ensures Apply(w, e).sched.requests == w.sched.requests && Apply(w, e).sched.calls == w.sched.calls
  {
    hide Inv, ResourceOffers, StatusUpdate, FrameworkMessage, OnLaunch, OnMessage, IntText, Launches, MayBeInitialMon,
         InFlightTo, ReadDiskNews;
    match e {
      case Deliver(k) => UpdateLeavesList(w.sched, k, ReportsOf(w.reports, k)[0]);
      case DiskReport(message) => UpdateLeavesList(w.sched, "", Finished(message));
      case OtherReport(k) => UpdateLeavesList(w.sched, k, Other);
      case IdArrives(reply, mon) => ReplyLeavesList(w.sched, reply.executorId, IntText(reply.osdId), mon);
      case _ =>
    }
  }

  lemma UpdateLeavesList(s: Sched, k: string, u: Update)
    ensures StatusUpdate(s, k, u).requests == s.requests && StatusUpdate(s, k, u).calls == s.calls
  {
    hide SetStatus, SetStatusAndMove, ReadDiskNews;
  }

  lemma ReplyLeavesList(s: Sched, executorId: string, data: string, mon: TaskState)
    ensures var s' := FrameworkMessage(s, executorId, data, mon);
            s'.requests == s.requests && s'.calls == s.calls
  {
    hide ParseInt;
  }

  /** The OSD instances that an event adds to the scheduler's list. */
  function Received(w: World, e: Event): seq<int> {
    if e.Receive? && w.queue != [] && w.queue[0].profile == "osd" then [w.queue[0].instances] else []
  }

  /** The OSD instances in the requests received by the first `n` events, oldest first. */
  function Listed(ws: seq<World>, es: seq<Event>, n: nat): seq<int>
    requires n <= |es| && n <= |ws|
  {
    if n == 0 then [] else Listed(ws, es, n - 1) + Received(ws[n - 1], es[n - 1])
  }

  lemma ReceivedInTurn(w: World, listed: seq<int>)
    requires Inv(w) && Enabled(w, Receive) && InTurn(w.sched, listed)
    ensures InTurn(Apply(w, Receive).sched, listed + Received(w, Receive))
  {
    hide Counted, Logged, DisksSound, ExchangeSound, Bounded, FlexLaunches;
    var r := w.queue[0];
    FlexUp.SumAppend(listed, r.instances);
    WithoutAppend(listed, FlexLaunches(w.sched.calls), r.instances);
    assert listed + [] == listed;
  }

  lemma StepInTurn(w: World, e: Event, listed: seq<int>)
    requires Inv(w) && Enabled(w, e) && InTurn(w.sched, listed)
    ensures InTurn(Apply(w, e).sched, listed + Received(w, e))
  {
    hide Inv, Enabled, Apply, InTurn, LoopAt;
    assert listed + [] == listed;
    match e {
      case Offers(_, batch, _) =>
        LoopInTurn(w, e, |batch|, listed);
        LoopEnds(w, e);
      case Receive => ReceivedInTurn(w, listed);
      case _ =>
        OthersLeaveList(w, e);
        SameInTurn(w.sched, Apply(w, e).sched, listed);
    }
  }

  lemma SameInTurn(s: Sched, s': Sched, listed: seq<int>)
    requires InTurn(s, listed) && s'.requests == s.requests && s'.calls == s.calls
    ensures InTurn(s', listed)
  {
  }

  /** In every run the scheduler serves requests in the order in which it received them: its list is the list of all
      OSD requests received so far, less one instance, from the front, for every OSD it launched in WAITING_REQUEST. */
  lemma {:induction false} FirstComeFirstServed(ws: seq<World>, es: seq<Event>, i: nat)
    requires IsRun(ws, es) && i < |ws|
    ensures InTurn(ws[i].sched, Listed(ws, es, i))
    ensures ws[i].sched.requests == Without(Listed(ws, es, i), FlexLaunchesOf(ws[i]))
  {
    hide Inv, Enabled, Apply, Stepped, FlexLaunches, Received;
    if i == 0 {
      EmptyInTurn(ws[0].sched);
    } else {
      FirstComeFirstServed(ws, es, i - 1);
      RunStep(ws, es, i - 1);
      StepInTurn(ws[i - 1], es[i - 1], Listed(ws, es, i - 1));
    }
  }

  lemma EmptyInTurn(s: Sched)
    requires s.requests == [] && s.calls == []
    ensures InTurn(s, [])
  {
  }

  // ---------------------------------------------------------------- all can be served

  /** The messages in the queue and the instances in the queue and in the list. */
  function Outstanding(w: World): int {
    |w.queue| + FlexUp.OsdInstances(w.queue) + FlexUp.Sum(w.sched.requests)
  }

  lemma {:induction false} InstancesAreNatural(queue: seq<FlexUp.Request>)
    requires forall i :: 0 <= i < |queue| ==> FlexUp.Acceptable(queue[i])
    ensures FlexUp.OsdInstances(queue) >= 0
  {
    if queue != [] {
      InstancesAreNatural(queue[1..]);
    }
  }

  lemma OutstandingIsNatural(w: World)
    requires Inv(w)
    ensures Outstanding(w) >= 0 && (Outstanding(w) == 0 <==> w.queue == [] && w.sched.requests == [])
  {
    hide Counted, Logged, DisksSound, ExchangeSound, Bounded, FlexUp.Acceptable;
    InstancesAreNatural(w.queue);
    ListedSum(w.sched.requests);
  }

  lemma ReceiveStep(w: World)
    requires Inv(w) && w.queue != []
    ensures Enabled(w, Receive) && Apply(w, Receive).sched.c == w.sched.c
    ensures Outstanding(Apply(w, Receive)) == Outstanding(w) - 1
  {
    hide Counted, Logged, DisksSound, ExchangeSound, Bounded;
    FlexUp.MessageMovesInstances(w.sched.requests, w.queue[0]);
  }

  lemma OneOffer(w: World, ids: seq<string>, o: Offer, ch: Choice)
    requires ListsWaiting(TasksOf(w), ids)
    requires ChoiceFits(Progress(HandleWaiting(w.sched, ids), false), o, HandleWaiting(w.sched, ids).c.phase, ch)
    ensures Enabled(w, Offers(ids, [o], [ch]))
  {
    hide ChoiceFits, HandleWaiting, OfferStep;
    assert [o][..0] == [] && [ch][..0] == [];
  }

  /** After the assignments of a callback, an offer with everything from a new host without disks gets a task. */
  lemma ServingOffer(w: World, ids: seq<string>) returns (o: Offer, ch: Choice)
    requires Inv(w) && w.sched.c.phase == WAITING_REQUEST && w.sched.requests != [] && ListsWaiting(TasksOf(w), ids)
    ensures Enabled(w, Offers(ids, [o], [ch])) && Usable(HandleWaiting(w.sched, ids).hosts, o)
  {
    hide Inv, HandleWaiting, ListsWaiting, OfferStep, LaunchIn, ChoiceFits, Enabled, LoopAt, FlagSound;
    var e := Offers(ids, [], []);
    EmptyBatch(w, ids);
    LoopBegins(w, e);
    LoopIsSound(w, e, 0);
    var s := HandleWaiting(w.sched, ids);
    HostsAreSound(w.(sched := s));
    var hostname := FreshHost(s.hosts);
    o := PlainOffer(hostname);
    var none := TaskState("", "", MON, "", "", UNKNOWN);
    LaunchesExactlyWhen(Progress(s, false), o, WAITING_REQUEST, Choice(none, none, 0));
    UsableIsNotPending(s.hosts, o);
    ch := FittingChoice(Progress(s, false), o, WAITING_REQUEST);
    OneOffer(w, ids, o, ch);
  }

  lemma ServeStep(w: World) returns (e: Event)
    requires Inv(w) && w.sched.c.phase == WAITING_REQUEST && w.sched.requests != []
    ensures Enabled(w, e) && e.Offers? && Apply(w, e).sched.c.phase == WAITING_REQUEST
    ensures Outstanding(Apply(w, e)) == Outstanding(w) - 1
  {
    hide Inv, HandleWaiting, ListsWaiting, Enabled, LoopAt, Usable, FlexUp.Sum, FlexUp.OsdInstances;
    var ids := SomeScan(TasksOf(w));
    var o, ch := ServingOffer(w, ids);
    e := Offers(ids, [o], [ch]);
    LoopBegins(w, e);
    LoopServes(w, e, 1);
    LoopEnds(w, e);
    assert UsableOffers(w, e, 1) == UsableOffers(w, e, 0) + 1;
    ListIsPositive(w);
    NonEmptySum(w.sched.requests);
  }

  /** Some continuation serves every flex-up accepted so far: an OSD was launched for every instance. */
  ghost predicate CanServeAll(w: World) {
    exists ws: seq<World>, es: seq<Event> ::
      IsPath(ws, es) && ws[0] == w && ws[|es|].queue == [] && ws[|es|].sched.requests == []
      && FlexLaunchesOf(ws[|es|]) == w.accepted && ws[|es|].sched.c.phase == WAITING_REQUEST
  }

  lemma ServedNow(w: World)
    requires Inv(w) && w.queue == [] && w.sched.requests == [] && w.sched.c.phase == WAITING_REQUEST
    ensures CanServeAll(w)
  {
    hide Counted, Logged, DisksSound, ExchangeSound, Bounded, FlexLaunches;
    var es: seq<Event> := [];
    assert IsPath([w], es) && [w][|es|] == w;
  }

  lemma ServedAfter(w: World, e: Event)
    requires Enabled(w, e) && CanServeAll(Apply(w, e)) && Apply(w, e).accepted == w.accepted
    ensures CanServeAll(w)
  {
    hide Enabled, Apply, FlexLaunches;
    var ws: seq<World>, es: seq<Event> :|
      IsPath(ws, es) && ws[0] == Apply(w, e) && ws[|es|].queue == [] && ws[|es|].sched.requests == []
      && FlexLaunchesOf(ws[|es|]) == Apply(w, e).accepted && ws[|es|].sched.c.phase == WAITING_REQUEST;
    LongerPath(w, e, ws, es);
    assert ([w] + ws)[0] == w && ([w] + ws)[|[e] + es|] == ws[|es|];
  }

  lemma OnlyPostsCount(w: World, e: Event)
    requires Enabled(w, e) && (e.Offers? || e.Receive?)
    ensures Apply(w, e).accepted == w.accepted
  {
    hide ResourceOffers;
  }

  lemma {:induction false} ServesAll(w: World)
    requires Inv(w) && w.sched.c.phase == WAITING_REQUEST
    ensures CanServeAll(w)
    decreases if Outstanding(w) >= 0 then Outstanding(w) else 0
  {
    hide Inv, Enabled, Apply, Outstanding, CanServeAll;
    OutstandingIsNatural(w);
    if Outstanding(w) == 0 {
      ServedNow(w);
    } else {
      var e := Receive;
      if w.queue != [] {
        ReceiveStep(w);
      } else {
        e := ServeStep(w);
      }
      StepKeepsInv(w, e);
      OutstandingIsNatural(Apply(w, e));
      ServesAll(Apply(w, e));
      OnlyPostsCount(w, e);
      ServedAfter(w, e);
    }
  }

  /** From every world of every run in WAITING_REQUEST all accepted flex-ups can be served. */
  lemma FlexUpsCanBeServed(ws: seq<World>, es: seq<Event>, i: nat)
    requires IsRun(ws, es) && i < |ws| && ws[i].sched.c.phase == WAITING_REQUEST
    ensures CanServeAll(ws[i])
  {
    hide IsRun, Inv, CanServeAll;
    RunsAreSound(ws, es, i);
    ServesAll(ws[i]);
  }
}
