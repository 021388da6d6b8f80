/** Which offer decides whether there will ever be an initial MON. */
module InitialMons {
  import opened Text
  import opened Types
  import opened HostConfigs
  import opened StateMachines
  import opened Schedulers
  import opened Effects
  import opened Protocol
  import opened Counters
  import opened Identity
  import opened Messages
  import opened Supply
  import opened Disks
  import opened Assignments
  import opened Invariants
  import opened Runs
  import opened Evolution
  import opened Safety

  // ---------------------------------------------------------------- one round

  /** The offer has the role and its host is not preparing disks, nor about to: it gets a token. */
  predicate Decides(s: Sched, o: Offer) {
    var h := AddHost(s.hosts, o.hostname, o.spec)[o.hostname];
    o.hasRole && !h.preparing && (o.enough ==> !HasPending(h))
  }

  const NO_MON := Counts(0, 0, 0)

  /** Before any MON token is spent, an offer takes the first one if and only if it decides, and mon0 is launched on it
      if and only if it then has the resources. */
  lemma FirstTokenDecides(p: Progress, o: Offer, phase: Phase, ch: Choice)
    requires DisksSound(p.s.hosts, p.s.calls) && p.s.c.mon == NO_MON && phase == p.s.c.phase == BOOTSTRAP_MON
    ensures var c', launches, launches' :=
              OfferStep(p, o, phase, ch).s.c, Launches(p.s.calls), Launches(OfferStep(p, o, phase, ch).s.calls);
            && c'.mon.index == (if Decides(p.s, o) then 1 else 0)
            && (!Decides(p.s, o) ==> c'.mon == NO_MON)
            && (if Decides(p.s, o) && o.enough
                then |launches'| == |launches| + 1 && launches <= launches'
                     && launches'[|launches|].taskType == MON && launches'[|launches|].token == 0
                else launches' == launches)
  {
    assert HostSound(p.s.hosts, p.s.calls, o.hostname);
    hide DisksSound, Launches, Sends, OfferStep, LaunchIn;
    TokensSpentExactlyWhen(p, o, phase, ch, MON);
    LaunchesExactlyWhen(p, o, phase, ch);
    if LaunchIn(p, o, phase, ch) == None {
      QuietRound(p, o, phase, ch);
      var n := Of(OfferStep(p, o, phase, ch).s.c, MON);
      assert n == Of(p.s.c, MON).(index := n.index);
    } else {
      LaunchRound(p, o, phase, ch);
    }
  }

  /** Without a MON token spent, no MON was ever there. */
  lemma NoTokenNoMon(w: World)
    requires Inv(w) && w.sched.c.mon.index == 0
    ensures w.sched.c.mon == NO_MON && w.sched.c.phase == BOOTSTRAP_MON && LaunchesOf(w) == []
  {
    hide ExchangeSound, DisksSound, Launches;
    assert Identity.Book([]) == map[];
    assert RunningOf(TasksOf(w), MON) == {} && StagingOf(TasksOf(w), MON) == {};
    assert StuckOf(TasksOf(w), w.stuck, MON) == {};
    assert CountedType(TasksOf(w), w.stuck, MON, Of(w.sched.c, MON));
  }

  // ---------------------------------------------------------------- one batch

  /** The offer loop before offer number `n`. */
  function LoopAt(w: World, e: Event, n: nat): Progress
    requires e.Offers? && AllKnown(TasksOf(w), e.waiting) && n <= |e.offers| == |e.choices|
  {
    var s1 := HandleWaiting(w.sched, e.waiting);
    OfferSteps(Progress(s1, false), e.offers[..n], e.choices[..n], s1.c.phase)
  }

  lemma EnabledOffers(w: World, e: Event)
    requires Enabled(w, e) && e.Offers?
    ensures AllKnown(TasksOf(w), e.waiting) && |e.offers| == |e.choices|
  {
  }

  lemma LoopEnds(w: World, e: Event)
    requires Enabled(w, e) && e.Offers?
    ensures AllKnown(TasksOf(w), e.waiting) && |e.offers| == |e.choices|
    ensures LoopAt(w, e, |e.offers|).s == Apply(w, e).sched
  {
    assert e.offers[..|e.offers|] == e.offers && e.choices[..|e.choices|] == e.choices;
  }

  lemma FitsAt(p: Progress, offers: seq<Offer>, choices: seq<Choice>, phase: Phase, n: nat)
    requires |choices| == |offers| && n <= |offers| && ChoicesFit(p, offers, choices, phase)
    ensures ChoicesFit(p, offers[..n], choices[..n], phase)
  {
    hide ChoiceFits, OfferSteps;
    forall i | 0 <= i < n
      ensures ChoiceFits(OfferSteps(p, offers[..n][..i], choices[..n][..i], phase),
                         offers[..n][i], phase, choices[..n][i])
    {
      assert offers[..n][..i] == offers[..i] && choices[..n][..i] == choices[..i];
    }
  }

  /** The invariant holds in the middle of the loop. */
  lemma LoopIsSound(w: World, e: Event, n: nat)
    requires Inv(w) && Enabled(w, e) && e.Offers? && n <= |e.offers|
    ensures AllKnown(TasksOf(w), e.waiting) && |e.offers| == |e.choices|
    ensures var p := LoopAt(w, e, n);
            Inv(w.(sched := p.s)) && FlagSound(p) && p.s.c.phase == HandleWaiting(w.sched, e.waiting).c.phase
  {
    hide Inv, AssignFirst, OfferSteps, ChoicesFit;
    WaitingListed(w.sched.c.tasks, e.waiting);
    WaitingOnce(w.sched.c.tasks, e.waiting);
    assert w.(sched := w.sched) == w;
    AssigningKeepsInv(w, w.sched, e.waiting, Min(|e.waiting|, |w.sched.c.pendingIds|));
    var s1 := HandleWaiting(w.sched, e.waiting);
    FitsAt(Progress(s1, false), e.offers, e.choices, s1.c.phase, n);
    RoundsKeepInv(w.(sched := s1), Progress(s1, false), e.offers[..n], e.choices[..n], s1.c.phase);
  }

  lemma LoopStep(w: World, e: Event, n: nat)
    requires Inv(w) && Enabled(w, e) && e.Offers? && n < |e.offers|
    ensures AllKnown(TasksOf(w), e.waiting) && |e.offers| == |e.choices|
    ensures var p := LoopAt(w, e, n);
            && LoopAt(w, e, n + 1) == OfferStep(p, e.offers[n], p.s.c.phase, e.choices[n])
            && ChoiceFits(p, e.offers[n], p.s.c.phase, e.choices[n])
  {
    hide Inv, OfferStep, HandleWaiting, ChoiceFits;
    LoopIsSound(w, e, n);
    assert e.offers[..n + 1][..n] == e.offers[..n] && e.choices[..n + 1][..n] == e.choices[..n];
  }

  /** From the middle of the loop to its end. */
  lemma {:induction false} LoopMoves(w: World, e: Event, n: nat)
    requires Inv(w) && Enabled(w, e) && e.Offers? && n <= |e.offers|
    ensures AllKnown(TasksOf(w), e.waiting) && |e.offers| == |e.choices|
    ensures Moved(LoopAt(w, e, n).s, Apply(w, e).sched)
    decreases |e.offers| - n
  {
    hide Inv, Moved, Enabled, Apply, LoopAt, FlagSound, ChoiceFits;
    LoopEnds(w, e);
    if n == |e.offers| {
      StillMoved(LoopAt(w, e, n).s);
    } else {
      LoopMoves(w, e, n + 1);
      LoopIsSound(w, e, n);
      LoopStep(w, e, n);
      var p := LoopAt(w, e, n);
      RoundMoves(w.(sched := p.s), p, e.offers[n], p.s.c.phase, e.choices[n]);
      MovedThrough(p.s, LoopAt(w, e, n + 1).s, Apply(w, e).sched);
    }
  }

  /** As long as no offer of the batch decides, no MON token is spent. */
  lemma {:induction false} LoopUndecided(w: World, e: Event, n: nat)
    requires Inv(w) && Enabled(w, e) && e.Offers? && n <= |e.offers| && w.sched.c.mon.index == 0
    requires AllKnown(TasksOf(w), e.waiting) && |e.offers| == |e.choices|
    requires forall r :: 0 <= r < n ==> !Decides(LoopAt(w, e, r).s, e.offers[r])
    ensures LoopAt(w, e, n).s.c.mon.index == 0
  {
    hide Inv, Enabled, Apply, LoopAt, Decides, OfferStep, FlagSound, ChoiceFits;
    if n == 0 {
      LoopStarts(w, e);
    } else {
      LoopUndecided(w, e, n - 1);
      LoopIsSound(w, e, n - 1);
      LoopStep(w, e, n - 1);
      RoundDecides(w, LoopAt(w, e, n - 1), e.offers[n - 1], e.choices[n - 1]);
    }
  }

  lemma LoopStarts(w: World, e: Event)
    requires Enabled(w, e) && e.Offers?
    ensures AllKnown(TasksOf(w), e.waiting) && |e.offers| == |e.choices|
    ensures LoopAt(w, e, 0).s.c.mon.index == w.sched.c.mon.index
  {
    hide HandleWaiting;
    HandleWaitingKeeps(w.sched, e.waiting);
  }

  lemma RoundDecides(w: World, p: Progress, o: Offer, ch: Choice)
    requires Inv(w.(sched := p.s)) && p.s.c.mon.index == 0
    ensures var s' := OfferStep(p, o, p.s.c.phase, ch).s;
            && s'.c.mon.index == (if Decides(p.s, o) then 1 else 0) && Launches(p.s.calls) == []
            && (if Decides(p.s, o) && o.enough
                then |Launches(s'.calls)| == 1
                     && Launches(s'.calls)[0].taskType == MON && Launches(s'.calls)[0].token == 0
                else Launches(s'.calls) == [])
  {
    hide Counted, Logged, DisksSound, ExchangeSound, OfferStep, Decides, Launches;
    NoTokenNoMon(w.(sched := p.s));
    FirstTokenDecides(p, o, p.s.c.phase, ch);
  }

  /** The first offer of a batch that decides settles whether mon0 is there after the batch. */
  lemma BatchDecides(w: World, e: Event, n: nat)
    requires Inv(w) && Enabled(w, e) && Inv(Apply(w, e)) && e.Offers? && n < |e.offers| && w.sched.c.mon.index == 0
    requires AllKnown(TasksOf(w), e.waiting) && |e.offers| == |e.choices|
    requires forall r :: 0 <= r < n ==> !Decides(LoopAt(w, e, r).s, e.offers[r])
    requires Decides(LoopAt(w, e, n).s, e.offers[n])
    ensures Apply(w, e).sched.c.mon.index >= 1
    ensures (exists m :: IsInitialMon(BookOf(Apply(w, e)), m)) <==> e.offers[n].enough
  {
    hide Inv, Enabled, LoopAt, Decides, OfferStep, FlagSound, ChoiceFits, Launches, AllAdvanced, AllServed;
    LoopUndecided(w, e, n);
    LoopIsSound(w, e, n);
    LoopIsSound(w, e, n + 1);
    LoopStep(w, e, n);
    RoundDecides(w, LoopAt(w, e, n), e.offers[n], e.choices[n]);
    LoopMoves(w, e, n + 1);
    var w1 := w.(sched := LoopAt(w, e, n + 1).s);
    if e.offers[n].enough {
      LaunchedMonIsBooked(Apply(w, e), LaunchesOf(w1)[0]);
    } else {
      forall m | IsInitialMon(BookOf(Apply(w, e)), m) ensures IsInitialMon(BookOf(w1), m) {
        NewInBook(w1, Apply(w, e), m);
      }
      assert BookOf(w1) == map[];
    }
  }

  lemma LaunchedMonIsBooked(w: World, info: TaskInfo)
    requires Inv(w) && info in LaunchesOf(w) && info.taskType == MON && info.token == 0
    ensures IsInitialMon(BookOf(w), info.taskId)
  {
    hide ExchangeSound, Logged, Identity.Book, Launches;
    LoggedWhenSound(w);
    LaunchedIsKnown(w.sched.c, LaunchesOf(w), info);
  }

  // ---------------------------------------------------------------- whole runs

  /** In event number `i`, offer number `n` decides. */
  ghost predicate DecidesAt(ws: seq<World>, es: seq<Event>, i: int, n: int) {
    && 0 <= i < |es| && i < |ws| && es[i].Offers? && 0 <= n < |es[i].offers| == |es[i].choices|
    && AllKnown(TasksOf(ws[i]), es[i].waiting) && Decides(LoopAt(ws[i], es[i], n).s, es[i].offers[n])
  }

  /** No offer before offer number `n` of event number `i` decides. */
  ghost predicate UndecidedBefore(ws: seq<World>, es: seq<Event>, i: int, n: int) {
    forall j, r :: j < i || (j == i && r < n) ==> !DecidesAt(ws, es, j, r)
  }

  /** Until an offer decides, there is no MON and no token was spent. */
  lemma {:induction false} UndecidedHasNoMon(ws: seq<World>, es: seq<Event>, i: nat)
    requires IsRun(ws, es) && i < |ws| && UndecidedBefore(ws, es, i, 0)
    ensures ws[i].sched.c.mon == NO_MON && LaunchesOf(ws[i]) == [] && forall m :: !IsInitialMon(BookOf(ws[i]), m)
  {
    hide Initial, Inv, Enabled, Apply, Decides, LoopAt, Stepped, Launches;
    RunsAreSound(ws, es, i);
    if i == 0 {
      InitialHasNoMon(ws[0]);
    } else {
      var before := i - 1;
      assert forall r :: !DecidesAt(ws, es, before, r);
      UndecidedHasNoMon(ws, es, i - 1);
      RunStep(ws, es, i - 1);
      UndecidedStep(ws, es, i - 1);
    }
    NoTokenNoMon(ws[i]);
  }

  lemma InitialHasNoMon(w: World)
    requires Initial(w)
    ensures w.sched.c.mon.index == 0
  {
  }

  lemma UndecidedStep(ws: seq<World>, es: seq<Event>, i: nat)
    requires IsRun(ws, es) && i < |es| && Inv(ws[i]) && Enabled(ws[i], es[i]) && ws[i + 1] == Apply(ws[i], es[i])
    requires ws[i].sched.c.mon.index == 0 && forall r :: !DecidesAt(ws, es, i, r)
    ensures ws[i + 1].sched.c.mon.index == 0
  {
    hide Initial, Inv, Enabled, Apply, Decides, LoopAt, HandleWaiting, OfferSteps;
    var w, e := ws[i], es[i];
    if e.Offers? {
      EnabledOffers(w, e);
      forall r | 0 <= r < |e.offers| ensures !Decides(LoopAt(w, e, r).s, e.offers[r]) {
        assert !DecidesAt(ws, es, i, r);
      }
      LoopUndecided(w, e, |e.offers|);
      LoopEnds(w, e);
    } else if e.Deliver? {
      DeliverKeepsToken(w, e.taskId);
    } else {
      OthersLeaveCluster(w, e);
    }
  }

  lemma DeliverKeepsToken(w: World, k: string)
    requires Inv(w) && Enabled(w, Deliver(k))
    ensures Apply(w, Deliver(k)).sched.c.mon.index == w.sched.c.mon.index
  {
    hide SchedulerSound, Directed, Supplied, IdsConserved, Apply;
    var to := DeliverEffect(w, k);
    InformedEffect(w.sched.c, k, to);
  }

  /** The first deciding offer of a run settles it: mon0 exists in every later world if that offer has the resources,
      and in none otherwise. */
  lemma FirstDeciderSettles(ws: seq<World>, es: seq<Event>, i: nat, n: nat, j: nat)
    requires IsRun(ws, es) && i < j < |ws| && DecidesAt(ws, es, i, n) && UndecidedBefore(ws, es, i, n)
    ensures (exists m :: IsInitialMon(BookOf(ws[j]), m)) <==> es[i].offers[n].enough
  {
    hide Initial, Inv, Enabled, Apply, Decides, LoopAt, Stepped, Launches, IsInitialMon;
    assert UndecidedBefore(ws, es, i, 0);
    UndecidedHasNoMon(ws, es, i);
    RunStep(ws, es, i);
    forall r | 0 <= r < n ensures !Decides(LoopAt(ws[i], es[i], r).s, es[i].offers[r]) {
      assert !DecidesAt(ws, es, i, r);
    }
    BatchDecides(ws[i], es[i], n);
    var settled := ws[i + 1];
    if m :| IsInitialMon(BookOf(settled), m) {
      MonStays(ws, es, i + 1, j, m);
    } else {
      forall m ensures !IsInitialMon(BookOf(ws[j]), m) {
        InitialMonNeverComes(ws, es, i + 1, j, m);
      }
    }
  }

  lemma MonStays(ws: seq<World>, es: seq<Event>, i: nat, j: nat, m: string)
    requires IsRun(ws, es) && i <= j < |ws| && IsInitialMon(BookOf(ws[i]), m)
    ensures IsInitialMon(BookOf(ws[j]), m)
  {
    hide IsRun, Launches, Identity.Book;
    BookStays(ws, es, i, j, m);
  }
}
