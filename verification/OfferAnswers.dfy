/** How a batch of offers is answered. */
module OfferAnswers {
  import opened Text
  import opened Types
  import opened DiskExecutors
  import opened StateMachines
  import opened Schedulers
  import opened Effects
  import FlexUp

  /** How often an offer was used for a Ceph task, for a disk task, and declined. */
  datatype Verdict = Verdict(tasks: nat, disks: nat, declines: nat)

  function Judge(v: Verdict, call: Call, id: string): Verdict {
    match call
    case LaunchTask(offerId, _, _) => if offerId == id then v.(tasks := v.tasks + 1) else v
    case LaunchDisk(offerId, _, _) => if offerId == id then v.(disks := v.disks + 1) else v
    case DeclineOffer(offerId, _) => if offerId == id then v.(declines := v.declines + 1) else v
    case SendMessage(_) => v
  }

  function VerdictOf(calls: seq<Call>, id: string): Verdict {
    if calls == [] then Verdict(0, 0, 0)
    else Judge(VerdictOf(calls[..|calls| - 1], id), calls[|calls| - 1], id)
  }

  lemma VerdictAppend(calls: seq<Call>, call: Call, id: string)
    ensures VerdictOf(calls + [call], id) == Judge(VerdictOf(calls, id), call, id)
  {
    assert (calls + [call])[..|calls + [call]| - 1] == calls;
  }

  /** A Ceph task was launched on the offer, or it was declined; a disk task only together with a decline. */
  predicate Answered(before: Verdict, after: Verdict) {
    || after == before.(tasks := before.tasks + 1)
    || after == before.(declines := before.declines + 1)
    || after == before.(declines := before.declines + 1, disks := before.disks + 1)
  }

  lemma LaunchedAnswers(s: Sched, o: Offer, t: TaskType, token: int, initial: bool, ch: Choice, id: string)
    ensures var v := VerdictOf(s.calls, id);
            VerdictOf(Launched(s, o, t, token, initial, ch).calls, id)
            == if id == o.id then v.(tasks := v.tasks + 1) else v
  {
    var info := InfoFor(HostOf(s, o.hostname), o, t, token, initial, ch);
    LaunchedCalls(s, o, t, token, initial, ch);
    var env := Envelope(ch.registerMon.executorId, ch.registerMon.slaveId, RegisterOsd);
    LaunchThenSendAnswers(s.calls, o.id, info, s.c.phase, env, id);
  }

  lemma LaunchThenSendAnswers(calls: seq<Call>, offerId: string, info: TaskInfo, phase: Phase, env: Envelope,
          id: string)
    ensures var v := VerdictOf(calls, id);
            var v' := if id == offerId then v.(tasks := v.tasks + 1) else v;
            && VerdictOf(calls + [LaunchTask(offerId, info, phase)], id) == v'
            && VerdictOf(calls + [LaunchTask(offerId, info, phase)] + [SendMessage(env)], id) == v'
  {
    VerdictAppend(calls, LaunchTask(offerId, info, phase), id);
    VerdictAppend(calls + [LaunchTask(offerId, info, phase)], SendMessage(env), id);
  }

  lemma PreparedAnswers(s: Sched, o: Offer, id: string)
    ensures var s1 := Prepared(s, o);
            var v := VerdictOf(s.calls, id);
            || VerdictOf(s1.calls, id) == v
            || (id == o.id && VerdictOf(s1.calls, id) == v.(disks := v.disks + 1) && HostOf(s1, o.hostname).preparing)
  {
    var h := HostOf(s.(hosts := AddHost(s.hosts, o.hostname, o.spec)), o.hostname);
    var labels := DiskLabels(h.pendingOsd, h.pendingJnl, h.original.jnlparts);
    VerdictAppend(s.calls, LaunchDisk(o.id, o.hostname, labels), id);
  }

  lemma ProceedAnswers(s: Sched, o: Offer, t: TaskType, token: int, phase: Phase, initial: bool, ch: Choice, id: string)
    ensures var v, v' := VerdictOf(s.calls, id), VerdictOf(Proceed(s, o, t, token, phase, initial, ch).s.calls, id);
            if id == o.id then v' == v.(tasks := v.tasks + 1) || v' == v.(declines := v.declines + 1) else v' == v
  {
    hide VerdictOf, Launched;
    VerdictAppend(s.calls, DeclineOffer(o.id, None), id);
    var s1 := if phase == WAITING_REQUEST && s.requests != [] then s.(requests := FlexUp.AfterTake(s.requests)) else s;
    LaunchedAnswers(s1, o, t, token, initial || (t == MON && token == 0), ch, id);
  }

  /** A round answers its own offer and no other. */
  lemma RoundAnswers(p: Progress, o: Offer, phase: Phase, ch: Choice, id: string)
    ensures var v, v' := VerdictOf(p.s.calls, id), VerdictOf(OfferStep(p, o, phase, ch).s.calls, id);
            if id == o.id then Answered(v, v') else v' == v
  {
    hide VerdictOf, Proceed, Prepared;
    if !o.hasRole {
      VerdictAppend(p.s.calls, DeclineOffer(o.id, Some(86400)), id);
    } else {
      var s1 := Prepared(p.s, o);
      var m := NextMove(s1.c, HostOf(s1, o.hostname).preparing);
      PreparedAnswers(p.s, o, id);
      VerdictAppend(s1.calls, DeclineOffer(o.id, None), id);
      if m.Go? {
        ProceedAnswers(s1.(c := AfterMove(s1.c, m)), o, m.taskType, m.token, phase, p.initial, ch, id);
      }
    }
  }

  /** How many offers of a batch carry an id; Mesos gives every offer an id of its own. */
  function Occurrences(offers: seq<Offer>, id: string): nat {
    if offers == [] then 0
    else Occurrences(offers[..|offers| - 1], id) + if offers[|offers| - 1].id == id then 1 else 0
  }

  /** `n` times either a Ceph task was launched or the offer was declined, and disk tasks came only with declines. */
  predicate AnsweredTimes(before: Verdict, after: Verdict, n: nat) {
    && after.tasks >= before.tasks && after.declines >= before.declines && after.disks >= before.disks
    && (after.tasks - before.tasks) + (after.declines - before.declines) == n
    && after.disks - before.disks <= after.declines - before.declines
  }

  lemma {:induction false} RoundsAnswer(p: Progress, offers: seq<Offer>, choices: seq<Choice>, phase: Phase, id: string)
    requires |choices| == |offers|
    ensures AnsweredTimes(VerdictOf(p.s.calls, id), VerdictOf(OfferSteps(p, offers, choices, phase).s.calls, id),
                          Occurrences(offers, id))
  {
    hide VerdictOf, OfferStep;
    if offers != [] {
      var n := |offers| - 1;
      RoundsAnswer(p, offers[..n], choices[..n], phase, id);
      RoundAnswers(OfferSteps(p, offers[..n], choices[..n], phase), offers[n], phase, choices[n], id);
    }
  }

  lemma {:induction false} AssigningAnswersNothing(s: Sched, ids: seq<string>, n: nat, id: string)
    requires n <= |ids| && n <= |s.c.pendingIds|
    requires AllKnown(s.c.tasks, ids)
    ensures VerdictOf(AssignFirst(s, ids, n).calls, id) == VerdictOf(s.calls, id)
  {
    hide VerdictOf, SetStatus;
    if n > 0 {
      AssigningAnswersNothing(s, ids, n - 1, id);
      var s1 := AssignFirst(s, ids, n - 1);
      VerdictAppend(s1.calls,
        SendMessage(LaunchEnvelope(s1.c.tasks[ids[n - 1]], s1.c.pendingIds[|s1.c.pendingIds| - 1])), id);
    }
  }

  /** In every callback each offer of the batch is answered exactly once, by one Ceph task or by one decline, a disk
      task comes only with a decline, and no other offer is touched. */
  lemma EveryOfferAnswered(s: Sched, waiting: seq<string>, offers: seq<Offer>, choices: seq<Choice>, id: string)
    requires AllKnown(s.c.tasks, waiting) && |choices| == |offers|
    ensures AnsweredTimes(VerdictOf(s.calls, id), VerdictOf(ResourceOffers(s, waiting, offers, choices).calls, id),
                          Occurrences(offers, id))
  {
    hide VerdictOf, AssignFirst, OfferSteps, Occurrences;
    AssigningAnswersNothing(s, waiting, Min(|waiting|, |s.c.pendingIds|), id);
    var s1 := HandleWaiting(s, waiting);
    RoundsAnswer(Progress(s1, false), offers, choices, s1.c.phase, id);
  }
}
