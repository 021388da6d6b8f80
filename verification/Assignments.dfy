/** What handleWaitingOSDTasks achieves, exactly. */
module Assignments {
  import opened Types
  import opened HostConfigs
  import opened StateMachines
  import opened Schedulers
  import opened Effects
  import opened Counters

  /** The first `n` tasks of the scan paired with the pending ids, last id first. */
  function Pairs(tasks: Tasks, ids: seq<string>, pending: seq<int>, n: nat): seq<Envelope>
    requires n <= |ids| && n <= |pending| && AllKnown(tasks, ids)
  {
    if n == 0 then []
    else Pairs(tasks, ids, pending, n - 1) + [LaunchEnvelope(tasks[ids[n - 1]], pending[|pending| - n])]
  }

  /** The table after the first `n` tasks of the scan were started. */
  ghost predicate StartedFirst(tasks: Tasks, tasks': Tasks, ids: seq<string>, n: nat)
    requires n <= |ids|
  {
    && tasks'.Keys == tasks.Keys
    && forall k :: k in tasks ==>
         tasks'[k] == if k in ids[..n] then tasks[k].(currentStatus := STARTING) else tasks[k]
  }

  lemma StartOneMore(tasks: Tasks, tasks1: Tasks, ids: seq<string>, n: nat)
    requires 0 < n <= |ids| && AllKnown(tasks, ids) && StartedFirst(tasks, tasks1, ids, n - 1)
    ensures StartedFirst(tasks, tasks1[ids[n - 1] := tasks1[ids[n - 1]].(currentStatus := STARTING)], ids, n)
  {
    assert ids[..n] == ids[..n - 1] + [ids[n - 1]];
  }

  /** Assigning the first `n` ids pairs them in order, starts exactly those tasks and keeps the other ids. */
  lemma {:induction false} AssignFirstExact(s: Sched, ids: seq<string>, n: nat)
    requires n <= |ids| && n <= |s.c.pendingIds| && AllKnown(s.c.tasks, ids)
    requires Distinct(ids) && forall i :: 0 <= i < |ids| ==> IsWaiting(s.c.tasks[ids[i]])
    ensures var s' := AssignFirst(s, ids, n);
            && s'.c.pendingIds == s.c.pendingIds[..|s.c.pendingIds| - n]
            && StartedFirst(s.c.tasks, s'.c.tasks, ids, n)
            && Sends(s'.calls) == Sends(s.calls) + Pairs(s.c.tasks, ids, s.c.pendingIds, n)
  {
    hide Sends, Launches, AssignOne, StartedFirst;
    if n == 0 {
      NoneStarted(s.c.tasks, ids);
      assert s.c.pendingIds[..|s.c.pendingIds|] == s.c.pendingIds;
    } else {
      var s1, k, pending := AssignFirst(s, ids, n - 1), ids[n - 1], s.c.pendingIds;
      AssignFirstExact(s, ids, n - 1);
      StillWaiting(s.c.tasks, s1.c.tasks, ids, n - 1);
      AssignEffect(s1, k);
      StartOneMore(s.c.tasks, s1.c.tasks, ids, n);
      assert pending[..|pending| - (n - 1)][..|pending| - n] == pending[..|pending| - n];
    }
  }

  /** Assigning changes no counter, launches nothing, and leaves the hosts and the requests alone. */
  lemma {:induction false} AssignFirstKeeps(s: Sched, ids: seq<string>, n: nat)
    requires n <= |ids| && n <= |s.c.pendingIds| && AllKnown(s.c.tasks, ids)
    requires Distinct(ids) && forall i :: 0 <= i < |ids| ==> IsWaiting(s.c.tasks[ids[i]])
    ensures var s' := AssignFirst(s, ids, n);
            && s'.c == s.c.(tasks := s'.c.tasks, pendingIds := s'.c.pendingIds)
            && Launches(s'.calls) == Launches(s.calls) && FlexLaunches(s'.calls) == FlexLaunches(s.calls)
            && s'.hosts == s.hosts && s'.requests == s.requests
  {
    hide Sends, Launches, FlexLaunches, AssignOne, StartedFirst;
    if n > 0 {
      AssignFirstKeeps(s, ids, n - 1);
      AssignFirstExact(s, ids, n - 1);
      StillWaiting(s.c.tasks, AssignFirst(s, ids, n - 1).c.tasks, ids, n - 1);
      AssignEffect(AssignFirst(s, ids, n - 1), ids[n - 1]);
    }
  }

  lemma NoneStarted(tasks: Tasks, ids: seq<string>)
    ensures StartedFirst(tasks, tasks, ids, 0)
  {
  }

  lemma StillWaiting(tasks: Tasks, tasks': Tasks, ids: seq<string>, n: nat)
    requires n < |ids| && Distinct(ids) && AllKnown(tasks, ids) && StartedFirst(tasks, tasks', ids, n)
    ensures ids[n] in tasks' && tasks'[ids[n]] == tasks[ids[n]]
  {
  }

  lemma WaitingAfter(tasks: Tasks, tasks': Tasks, ids: seq<string>, n: nat)
    requires n <= |ids| && ListsWaiting(tasks, ids) && StartedFirst(tasks, tasks', ids, n)
    ensures WaitingOf(tasks') == WaitingOf(tasks) - set i | 0 <= i < n :: ids[i]
  {
    WaitingListed(tasks, ids);
    assert forall i :: 0 <= i < n ==> ids[i] in ids[..n];
  }

  lemma {:induction false} PrefixSize(ids: seq<string>, n: nat)
    requires n <= |ids| && Distinct(ids)
    ensures |set i | 0 <= i < n :: ids[i]| == n
  {
    if n > 0 {
      PrefixSize(ids, n - 1);
      assert (set i | 0 <= i < n :: ids[i]) == (set i | 0 <= i < n - 1 :: ids[i]) + {ids[n - 1]};
    }
  }

  /** Each callback starts as many waiting OSDs as there are ids for, and stops only when one of the two runs out. */
  lemma HandleWaitingExact(s: Sched, ids: seq<string>)
    requires ListsWaiting(s.c.tasks, ids)
    ensures var s' := HandleWaiting(s, ids);
            var n := Min(|WaitingOf(s.c.tasks)|, |s.c.pendingIds|);
            && |WaitingOf(s'.c.tasks)| == |WaitingOf(s.c.tasks)| - n
            && s'.c.pendingIds == s.c.pendingIds[..|s.c.pendingIds| - n]
            && n <= |ids| && Sends(s'.calls) == Sends(s.calls) + Pairs(s.c.tasks, ids, s.c.pendingIds, n)
            && (WaitingOf(s'.c.tasks) == {} || s'.c.pendingIds == [])
  {
    hide Sends, AssignFirst, StartedFirst, Pairs, ListsWaiting, Distinct, IsWaiting;
    WaitingListed(s.c.tasks, ids);
    WaitingOnce(s.c.tasks, ids);
    var n := Min(|ids|, |s.c.pendingIds|);
    AssignFirstExact(s, ids, n);
    WaitingAfter(s.c.tasks, AssignFirst(s, ids, n).c.tasks, ids, n);
    PrefixSize(ids, n);
    PrefixWaits(s.c.tasks, ids, n);
  }

  lemma WaitingOnce(tasks: Tasks, ids: seq<string>)
    requires ListsWaiting(tasks, ids)
    ensures Distinct(ids) && AllKnown(tasks, ids)
  {
    DistinctCounts(ids);
  }

  /** The assignments leave everything else alone. */
  lemma HandleWaitingKeeps(s: Sched, ids: seq<string>)
    requires ListsWaiting(s.c.tasks, ids)
    ensures var s' := HandleWaiting(s, ids);
            && s'.c == s.c.(tasks := s'.c.tasks, pendingIds := s'.c.pendingIds)
            && Launches(s'.calls) == Launches(s.calls) && FlexLaunches(s'.calls) == FlexLaunches(s.calls)
            && s'.hosts == s.hosts && s'.requests == s.requests
  {
    hide Launches, FlexLaunches, AssignFirst;
    WaitingListed(s.c.tasks, ids);
    WaitingOnce(s.c.tasks, ids);
    AssignFirstKeeps(s, ids, Min(|ids|, |s.c.pendingIds|));
  }

  lemma PrefixWaits(tasks: Tasks, ids: seq<string>, n: nat)
    requires ListsWaiting(tasks, ids) && n <= |ids|
    ensures (set i | 0 <= i < n :: ids[i]) <= WaitingOf(tasks)
  {
    WaitingListed(tasks, ids);
  }
}
