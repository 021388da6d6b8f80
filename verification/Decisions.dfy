/** What the scheduler decides, told from the task records and the host entries: the phase, which offers are used, for
    what, and how many flex-up instances a callback serves. */
module Decisions {
  import opened Text
  import opened Types
  import opened HostConfigs
  import opened StateMachines
  import opened Schedulers
  import opened Effects
  import opened Protocol
  import opened Counters
  import opened Identity
  import opened Disks
  import opened Assignments
  import opened Invariants
  import opened Runs
  import opened Evolution
  import opened Safety
  import opened InitialMons
  import FlexUp

  // ---------------------------------------------------------------- the phase

  /** A MON, three OSDs and a gateway run. */
  ghost predicate Complete(tasks: Tasks) {
    RunningOf(tasks, MON) != {} && |RunningOf(tasks, OSD)| >= 3 && RunningOf(tasks, RADOSGW) != {}
  }

  lemma PhaseByRecords(c: Cluster, stuck: set<string>)
    requires Counted(c, stuck)
    ensures c.phase == BOOTSTRAP_MON <==> RunningOf(c.tasks, MON) == {}
    ensures c.phase == BOOTSTRAP_OSD <==> RunningOf(c.tasks, MON) != {} && |RunningOf(c.tasks, OSD)| < 3
    ensures c.phase == BOOTSTRAP_RADOSGW <==>
              RunningOf(c.tasks, MON) != {} && |RunningOf(c.tasks, OSD)| >= 3 && RunningOf(c.tasks, RADOSGW) == {}
    ensures c.phase == WAITING_REQUEST <==> Complete(c.tasks)
  {
    assert CountedType(c.tasks, stuck, MON, Of(c, MON)) && CountedType(c.tasks, stuck, OSD, Of(c, OSD))
        && CountedType(c.tasks, stuck, RADOSGW, Of(c, RADOSGW));
  }

  /** In every world of every run, failures and flex-ups included, the phase tells exactly what runs. */
  lemma PhaseTellsWhatRuns(ws: seq<World>, es: seq<Event>, i: nat)
    requires IsRun(ws, es) && i < |ws|
    ensures var c := ws[i].sched.c;
            && (c.phase == BOOTSTRAP_MON <==> RunningOf(c.tasks, MON) == {})
            && (c.phase == BOOTSTRAP_OSD <==> RunningOf(c.tasks, MON) != {} && |RunningOf(c.tasks, OSD)| < 3)
            && (c.phase == BOOTSTRAP_RADOSGW <==>
                RunningOf(c.tasks, MON) != {} && |RunningOf(c.tasks, OSD)| >= 3 && RunningOf(c.tasks, RADOSGW) == {})
            && (c.phase == WAITING_REQUEST <==>
                RunningOf(c.tasks, MON) != {} && |RunningOf(c.tasks, OSD)| >= 3 && RunningOf(c.tasks, RADOSGW) != {})
  {
    hide IsRun, Counted, Logged, DisksSound, ExchangeSound;
    RunsAreSound(ws, es, i);
    PhaseByRecords(ws[i].sched.c, ws[i].stuck);
  }

  // ---------------------------------------------------------------- what is due

  /** A task of the type is due, by the records: a MON if none runs or is on its way; with a running MON an OSD if fewer
      than three run, are on their way or failed uncounted, or if the cluster is complete; with a running MON and three
      running OSDs a gateway if none runs or is on its way. */
  ghost predicate Due(tasks: Tasks, stuck: set<string>, t: TaskType) {
    match t
    case MON => RunningOf(tasks, MON) == {} && StagingOf(tasks, MON) == {}
    case OSD =>
      RunningOf(tasks, MON) != {}
      && (|RunningOf(tasks, OSD)| + |StagingOf(tasks, OSD)| + |stuck| < 3 || Complete(tasks))
    case RADOSGW =>
      && RunningOf(tasks, MON) != {} && |RunningOf(tasks, OSD)| >= 3
      && RunningOf(tasks, RADOSGW) == {} && StagingOf(tasks, RADOSGW) == {}
  }

  lemma OnlyOsdsStuck(c: Cluster, stuck: set<string>)
    requires Counted(c, stuck)
    ensures StuckOf(c.tasks, stuck, OSD) == stuck
    ensures StuckOf(c.tasks, stuck, MON) == StuckOf(c.tasks, stuck, RADOSGW) == {}
  {
  }

  /** The decision of nextMove is what is due, with the next token. */
  lemma DueIsDecided(c: Cluster, stuck: set<string>, t: TaskType)
    requires Counted(c, stuck)
    ensures Due(c.tasks, stuck, t) <==> NextMove(c, false) == Go(t, Of(c, t).index)
    ensures NextMove(c, false).Go? ==> NextMove(c, false).token == Of(c, NextMove(c, false).taskType).index
  {
    PhaseByRecords(c, stuck);
    OnlyOsdsStuck(c, stuck);
    hide PhaseOf;
    assert CountedType(c.tasks, stuck, MON, Of(c, MON)) && CountedType(c.tasks, stuck, OSD, Of(c, OSD))
        && CountedType(c.tasks, stuck, RADOSGW, Of(c, RADOSGW));
  }

  /** The offer can carry a task: role, resources, and a host whose devices, if it has any, are partitioned. */
  predicate Usable(hosts: map<string, Host>, o: Offer) {
    && o.hasRole && o.enough
    && if o.hostname in hosts then !HasPending(hosts[o.hostname]) else o.spec.osddevs == o.spec.jnldevs == []
  }

  /** A task of the type is due, and if the cluster is complete, a flex-up asks for it. */
  ghost predicate Wanted(s: Sched, stuck: set<string>, t: TaskType) {
    Due(s.c.tasks, stuck, t) && (Complete(s.c.tasks) ==> s.requests != [])
  }

  /** Exactly one task was launched, of this type and token, on the offer's host. */
  predicate LaunchesFor(infos: seq<TaskInfo>, infos': seq<TaskInfo>, o: Offer, t: TaskType, token: int) {
    && |infos'| == |infos| + 1 && infos'[..|infos|] == infos
    && var info := infos'[|infos|];
       info.taskType == t && info.token == token && info.hostname == o.hostname && info.slaveId == o.slaveId
  }

  lemma UsableIsNotPending(hosts: map<string, Host>, o: Offer)
    ensures Usable(hosts, o) <==> o.hasRole && o.enough && !HasPending(AddHost(hosts, o.hostname, o.spec)[o.hostname])
  {
  }

  /** A round launches exactly what is wanted, if the offer can carry it. */
  lemma RoundLaunches(w: World, p: Progress, o: Offer, ch: Choice, t: TaskType)
    requires w.sched == p.s && Inv(w)
    ensures var infos, infos' := Launches(p.s.calls), Launches(OfferStep(p, o, p.s.c.phase, ch).s.calls);
            && (Usable(p.s.hosts, o) && Wanted(p.s, w.stuck, t) <==>
                LaunchesFor(infos, infos', o, t, Of(p.s.c, t).index))
            && (infos' == infos <==> !(Usable(p.s.hosts, o) && exists u :: Wanted(p.s, w.stuck, u)))
  {
    hide ExchangeSound, DisksSound, Logged, OfferStep, Launches, Sends, FlexLaunches, LaunchIn, NextMove, Due, Complete,
         Usable, Counted;
    var phase := p.s.c.phase;
    LaunchesExactlyWhen(p, o, phase, ch);
    UsableIsNotPending(p.s.hosts, o);
    PhaseByRecords(p.s.c, w.stuck);
    forall u ensures Due(p.s.c.tasks, w.stuck, u) <==> NextMove(p.s.c, false) == Go(u, Of(p.s.c, u).index) {
      DueIsDecided(p.s.c, w.stuck, u);
    }
    DueIsDecided(p.s.c, w.stuck, t);
    if LaunchIn(p, o, phase, ch) == None {
      QuietRound(p, o, phase, ch);
    } else {
      LaunchRound(p, o, phase, ch);
      assert Wanted(p.s, w.stuck, NextMove(p.s.c, false).taskType);
    }
  }

  /** A round spends the token of a type exactly on a launch, or on an offer that has the role but lacks the resources,
      from a host that is not preparing disks. */
  lemma RoundSpends(w: World, p: Progress, o: Offer, ch: Choice, t: TaskType)
    requires w.sched == p.s && Inv(w)
    ensures var spent := (Usable(p.s.hosts, o) && Wanted(p.s, w.stuck, t))
                         || (o.hasRole && !o.enough && !InPreparation(p.s.hosts, o.hostname)
                             && Due(p.s.c.tasks, w.stuck, t));
            Of(OfferStep(p, o, p.s.c.phase, ch).s.c, t).index == Of(p.s.c, t).index + if spent then 1 else 0
  {
    hide ExchangeSound, DisksSound, Logged, OfferStep, Launches, Sends, FlexLaunches, LaunchIn, NextMove, Due, Complete,
         Usable, Counted;
    var phase := p.s.c.phase;
    TokensSpentExactlyWhen(p, o, phase, ch, t);
    LaunchesExactlyWhen(p, o, phase, ch);
    UsableIsNotPending(p.s.hosts, o);
    PhaseByRecords(p.s.c, w.stuck);
    DueIsDecided(p.s.c, w.stuck, t);
    if LaunchIn(p, o, phase, ch).Some? {
      LaunchRound(p, o, phase, ch);
    }
  }

  predicate InPreparation(hosts: map<string, Host>, hostname: string) {
    hostname in hosts && hosts[hostname].preparing
  }

  // ---------------------------------------------------------------- the offers of a run

  /** In every callback of every run, offer number `n` is used for a task of a type exactly if it can carry one and such
      a task is wanted at that point; the task takes the next token, which is spent otherwise only on an offer with the
      role that lacks the resources. */
  lemma OffersAreUsedExactlyWhen(ws: seq<World>, es: seq<Event>, i: nat, n: nat, t: TaskType)
    requires IsRun(ws, es) && i < |es| && es[i].Offers? && n < |es[i].offers|
    ensures AllKnown(TasksOf(ws[i]), es[i].waiting) && |es[i].offers| == |es[i].choices|
    ensures var s, s', o := LoopAt(ws[i], es[i], n).s, LoopAt(ws[i], es[i], n + 1).s, es[i].offers[n];
            var used, token := Usable(s.hosts, o) && Wanted(s, ws[i].stuck, t), Of(s.c, t).index;
            var lost := o.hasRole && !o.enough && !InPreparation(s.hosts, o.hostname) && Due(s.c.tasks, ws[i].stuck, t);
            && (used <==> LaunchesFor(Launches(s.calls), Launches(s'.calls), o, t, token))
            && (Launches(s'.calls) == Launches(s.calls) <==>
                !(Usable(s.hosts, o) && exists u :: Wanted(s, ws[i].stuck, u)))
            && Of(s'.c, t).index == token + if used || lost then 1 else 0
  {
    hide Initial, Inv, LoopAt, Enabled, Apply, Stepped, OfferStep, Launches, Due, Complete, Wanted, Usable, FlagSound,
         ChoiceFits, LaunchesFor;
    RunStep(ws, es, i);
    LoopIsSound(ws[i], es[i], n);
    LoopStep(ws[i], es[i], n);
    var p := LoopAt(ws[i], es[i], n);
    RoundLaunches(ws[i].(sched := p.s), p, es[i].offers[n], es[i].choices[n], t);
    RoundSpends(ws[i].(sched := p.s), p, es[i].offers[n], es[i].choices[n], t);
  }

  // ---------------------------------------------------------------- flex-ups

  /** How many of the first `n` offers of a batch can carry a task when it is their turn. */
  ghost function UsableOffers(w: World, e: Event, n: nat): nat
    requires e.Offers? && AllKnown(TasksOf(w), e.waiting) && n <= |e.offers| == |e.choices|
  {
    if n == 0 then 0
    else UsableOffers(w, e, n - 1) + if Usable(LoopAt(w, e, n - 1).s.hosts, e.offers[n - 1]) then 1 else 0
  }

  lemma {:induction false} ListedSum(requests: seq<int>)
    requires FlexUp.AllPositive(requests)
    ensures FlexUp.Sum(requests) >= |requests|
  {
    if requests != [] {
      ListedSum(requests[1..]);
    }
  }

  /** A round in WAITING_REQUEST takes one instance from the list and launches one OSD, if the offer can carry it and
      the list is not empty. */
  lemma RoundServes(w: World, p: Progress, o: Offer, ch: Choice)
    requires w.sched == p.s && Inv(w) && p.s.c.phase == WAITING_REQUEST
    ensures var s' := OfferStep(p, o, WAITING_REQUEST, ch).s;
            var served := if Usable(p.s.hosts, o) && p.s.requests != [] then 1 else 0;
            && |Launches(s'.calls)| == |Launches(p.s.calls)| + served
            && FlexUp.Sum(s'.requests) == FlexUp.Sum(p.s.requests) - served
  {
    hide ExchangeSound, DisksSound, Logged, OfferStep, Launches, Sends, FlexLaunches, LaunchIn, Usable, Counted,
         FlexUp.Sum;
    LaunchesExactlyWhen(p, o, WAITING_REQUEST, ch);
    UsableIsNotPending(p.s.hosts, o);
    if LaunchIn(p, o, WAITING_REQUEST, ch) == None {
      QuietRound(p, o, WAITING_REQUEST, ch);
    } else {
      LaunchRound(p, o, WAITING_REQUEST, ch);
      FlexUp.TakeOne(p.s.requests);
    }
  }

  lemma {:induction false} LoopServes(w: World, e: Event, n: nat)
    requires Inv(w) && Enabled(w, e) && e.Offers? && n <= |e.offers| && w.sched.c.phase == WAITING_REQUEST
    ensures AllKnown(TasksOf(w), e.waiting) && |e.offers| == |e.choices| && FlexUp.Sum(w.sched.requests) >= 0
    ensures var s := LoopAt(w, e, n).s;
            var served := Min(UsableOffers(w, e, n), FlexUp.Sum(w.sched.requests));
            && s.c.phase == WAITING_REQUEST && |Launches(s.calls)| == |LaunchesOf(w)| + served
            && FlexUp.Sum(s.requests) == FlexUp.Sum(w.sched.requests) - served
  {
    hide Inv, Enabled, LoopAt, OfferStep, FlagSound, ChoiceFits, Launches, Usable, FlexUp.Sum, FlexUp.AllPositive;
    EnabledOffers(w, e);
    ListIsPositive(w);
    ListedSum(w.sched.requests);
    if n == 0 {
      LoopBegins(w, e);
    } else {
      LoopServes(w, e, n - 1);
      LoopIsSound(w, e, n - 1);
      LoopStep(w, e, n - 1);
      LoopIsSound(w, e, n);
      var p := LoopAt(w, e, n - 1);
      RoundServes(w.(sched := p.s), p, e.offers[n - 1], e.choices[n - 1]);
      ListIsPositive(w.(sched := p.s));
      ListedSum(p.s.requests);
      SumOfNone();
    }
  }

  lemma SumOfNone()
    ensures FlexUp.Sum([]) == 0
  {
  }

  lemma ListIsPositive(w: World)
    requires Inv(w)
    ensures FlexUp.AllPositive(w.sched.requests)
  {
    hide Counted, Logged, DisksSound, ExchangeSound, Bounded;
  }

  lemma LoopBegins(w: World, e: Event)
    requires Enabled(w, e) && e.Offers?
    ensures AllKnown(TasksOf(w), e.waiting) && |e.offers| == |e.choices|
    ensures var s := LoopAt(w, e, 0).s;
            && s == HandleWaiting(w.sched, e.waiting) && s.c.phase == w.sched.c.phase
            && Launches(s.calls) == LaunchesOf(w) && s.requests == w.sched.requests
  {
    hide HandleWaiting, Launches;
    HandleWaitingKeeps(w.sched, e.waiting);
  }

  /** A callback in WAITING_REQUEST serves as many listed instances as it has offers that can carry a task, until none
      is listed: one OSD each. */
  lemma CallbacksServeFlexUps(ws: seq<World>, es: seq<Event>, i: nat)
    requires IsRun(ws, es) && i < |es| && es[i].Offers? && ws[i].sched.c.phase == WAITING_REQUEST
    ensures AllKnown(TasksOf(ws[i]), es[i].waiting) && |es[i].offers| == |es[i].choices|
    ensures FlexUp.Sum(ws[i].sched.requests) >= 0
    ensures var served := Min(UsableOffers(ws[i], es[i], |es[i].offers|), FlexUp.Sum(ws[i].sched.requests));
            && |LaunchesOf(ws[i + 1])| == |LaunchesOf(ws[i])| + served
            && FlexUp.Sum(ws[i + 1].sched.requests) == FlexUp.Sum(ws[i].sched.requests) - served
  {
    hide Initial, Inv, Enabled, Apply, LoopAt, Stepped, Launches, FlexUp.Sum, UsableOffers;
    RunStep(ws, es, i);
    LoopServes(ws[i], es[i], |es[i].offers|);
    LoopEnds(ws[i], es[i]);
  }
}
