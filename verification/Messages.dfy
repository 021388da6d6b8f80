/** The scheduler's records against the executors and the channels: which report meets which record, that every
    waiting OSD gets at most one id, and where the ids are. */
module Messages {
  import opened Types
  import opened Wire
  import opened HostConfigs
  import opened StateMachines
  import opened Schedulers
  import opened Effects
  import opened CephExecutors
  import opened Protocol
  import opened Counters
  import opened Identity

  type Book = map<string, TaskInfo>
  type Execs = map<string, Exec>
  type Reports = map<string, seq<Update>>

  // ---------------------------------------------------------------- records and executors

  /** The record of a task, its executor and its reports under way fit together. */
  predicate Consistent(t: TaskType, st: Status, e: Exec, q: seq<Update>) {
    match st
    case STAGING =>
      || (e == Staged && q == [])
      || (t == OSD && e == AwaitingId && q == [Starting])
      || (t != OSD && e == Up && q == [Running])
      || (e == Stopped && q == [Failed])
      || (t != OSD && e == Hung && q == [])
      || (e == Gone && (q == [] || q == [Failed]))
      || (t == OSD && e == Gone && (q == [Starting] || q == [Starting, Failed]))
      || (t != OSD && e == Gone && (q == [Running] || q == [Running, Failed]))
    case WAITING_OSDID =>
      t == OSD && ((e == AwaitingId && q == []) || (e == Gone && (q == [] || q == [Failed])))
    case STARTING =>
      t == OSD && ((e == AwaitingId && q == []) || (e == Up && q == [Running]) || (e == Stopped && q == [Failed])
                   || (e == Hung && q == [])
                   || (e == Gone && (q == [] || q == [Failed] || q == [Running] || q == [Running, Failed])))
    case RUNNING => (e == Up && q == []) || (e == Gone && (q == [] || q == [Failed]))
    case FAILED => (e == Stopped || e == Gone) && q == []
    case _ => false
  }

  ghost predicate LinkedTask(tasks: Tasks, execs: Execs, reports: Reports, k: string) {
    if k in tasks
    then Consistent(tasks[k].taskType, tasks[k].currentStatus, ExecOf(execs, k), ReportsOf(reports, k))
    else ExecOf(execs, k) == Staged && ReportsOf(reports, k) == []
  }

  ghost predicate Linked(tasks: Tasks, execs: Execs, reports: Reports) {
    forall k :: LinkedTask(tasks, execs, reports, k)
  }

  /** The status a report stands for. */
  function StatusFor(u: Update): Status {
    match u case Starting => WAITING_OSDID case Running => RUNNING case Failed => FAILED case _ => UNKNOWN
  }

  /** Whatever report comes next, the record takes a legal step, and the rest still fits. */
  lemma NextReportIsLegal(t: TaskType, st: Status, e: Exec, q: seq<Update>)
    requires Consistent(t, st, e, q) && q != []
    ensures q[0] == Starting || q[0] == Running || q[0] == Failed
    ensures Legal(t, st, StatusFor(q[0]))
    ensures Consistent(t, StatusFor(q[0]), e, q[1..])
    ensures q[0] == Running && t == OSD ==> st == STARTING
    ensures e != Gone ==> |q| == 1
  {
  }

  // ---------------------------------------------------------------- launch messages

  /** No executor is sent two OSD ids. */
  ghost predicate OneLaunchEach(sent: seq<Envelope>) {
    forall i, j :: 0 <= i < j < |sent| && sent[i].message.LaunchOsd? && sent[j].message.LaunchOsd? ==>
      sent[i].executorId != sent[j].executorId
  }

  /** The task that an id was sent to: past the waiting, and waiting for it exactly until it is delivered or lost. */
  predicate Expecting(r: TaskState, e: Exec, delivered: nat) {
    && r.taskType == OSD && r.currentStatus != STAGING && r.currentStatus != WAITING_OSDID
    && (delivered > 0 ==> e != AwaitingId)
    && (delivered == 0 ==> e == Gone || (r.currentStatus == STARTING && e == AwaitingId))
  }

  ghost predicate Targeted(tasks: Tasks, execs: Execs, taken: multiset<Envelope>, env: Envelope) {
    env.message.LaunchOsd? ==>
      forall k :: k in tasks && tasks[k].executorId == env.executorId ==>
        Expecting(tasks[k], ExecOf(execs, k), taken[env])
  }

  /** The receiver of an id is a launched task. */
  ghost predicate Addressed(book: Book, env: Envelope) {
    env.message.LaunchOsd? ==>
      exists k :: k in book && book[k].executorId == env.executorId && book[k].slaveId == env.slaveId
  }

  ghost predicate Directed(tasks: Tasks, book: Book, execs: Execs, taken: multiset<Envelope>, sent: seq<Envelope>) {
    && OneLaunchEach(sent)
    && (forall i :: 0 <= i < |sent| ==> Targeted(tasks, execs, taken, sent[i]))
    && (forall i :: 0 <= i < |sent| ==> Addressed(book, sent[i]))
  }

  lemma {:induction false} LaunchSentOnce(sent: seq<Envelope>, env: Envelope)
    requires OneLaunchEach(sent) && env.message.LaunchOsd?
    ensures multiset(sent)[env] <= 1
  {
    if sent != [] {
      var rest := sent[..|sent| - 1];
      LaunchSentOnce(rest, env);
      assert sent == rest + [sent[|sent| - 1]];
      if env == sent[|sent| - 1] {
        forall i | 0 <= i < |rest| ensures rest[i] != env {
          assert rest[i] == sent[i];
        }
      }
    }
  }

  /** No id was sent to a task that is still waiting for one. */
  lemma NoneSentYet(tasks: Tasks, execs: Execs, taken: multiset<Envelope>, sent: seq<Envelope>, k: string)
    requires forall i :: 0 <= i < |sent| ==> Targeted(tasks, execs, taken, sent[i])
    requires k in tasks && IsWaiting(tasks[k])
    ensures forall i :: 0 <= i < |sent| && sent[i].message.LaunchOsd? ==> sent[i].executorId != tasks[k].executorId
  {
    forall i | 0 <= i < |sent| && sent[i].message.LaunchOsd? ensures sent[i].executorId != tasks[k].executorId {
      assert Targeted(tasks, execs, taken, sent[i]);
    }
  }

  lemma TargetedAfterAssign(tasks: Tasks, execs: Execs, taken: multiset<Envelope>, env: Envelope, k: string)
    requires Targeted(tasks, execs, taken, env) && k in tasks && IsWaiting(tasks[k])
    ensures Targeted(tasks[k := tasks[k].(currentStatus := STARTING)], execs, taken, env)
  {
  }

  lemma DirectedAppend(tasks: Tasks, book: Book, execs: Execs, taken: multiset<Envelope>, sent: seq<Envelope>,
          env: Envelope)
    requires Directed(tasks, book, execs, taken, sent) && Targeted(tasks, execs, taken, env) && Addressed(book, env)
    requires forall i :: 0 <= i < |sent| && sent[i].message.LaunchOsd? ==> sent[i].executorId != env.executorId
    ensures Directed(tasks, book, execs, taken, sent + [env])
  {
  }

  lemma AssignmentFits(c: Cluster, book: Book, execs: Execs, taken: multiset<Envelope>, k: string, osdId: int)
    requires Booked(c, book)
    requires k in c.tasks && IsWaiting(c.tasks[k]) && (ExecOf(execs, k) == AwaitingId || ExecOf(execs, k) == Gone)
    requires taken[LaunchEnvelope(c.tasks[k], osdId)] == 0
    ensures var env := LaunchEnvelope(c.tasks[k], osdId);
            && Targeted(c.tasks[k := c.tasks[k].(currentStatus := STARTING)], execs, taken, env)
            && Addressed(book, env)
  {
    var env := LaunchEnvelope(c.tasks[k], osdId);
    forall j | j in c.tasks && c.tasks[j].executorId == env.executorId ensures j == k {
      SameExecutorSameTask(c, book, j, k);
    }
    assert Recorded(c, k, book[k]);
  }

  /** An assignment makes its task STARTING and its id the only one ever sent to it. */
  lemma AssignKeepsDirected(c: Cluster, book: Book, execs: Execs, taken: multiset<Envelope>, sent: seq<Envelope>,
                            k: string, osdId: int)
    requires Booked(c, book) && Directed(c.tasks, book, execs, taken, sent) && taken <= multiset(sent)
    requires k in c.tasks && IsWaiting(c.tasks[k]) && (ExecOf(execs, k) == AwaitingId || ExecOf(execs, k) == Gone)
    ensures Directed(c.tasks[k := c.tasks[k].(currentStatus := STARTING)], book, execs, taken,
                     sent + [LaunchEnvelope(c.tasks[k], osdId)])
  {
    var tasks' := c.tasks[k := c.tasks[k].(currentStatus := STARTING)];
    NoneSentYet(c.tasks, execs, taken, sent, k);
    forall i | 0 <= i < |sent| ensures Targeted(tasks', execs, taken, sent[i]) {
      TargetedAfterAssign(c.tasks, execs, taken, sent[i], k);
    }
    assert LaunchEnvelope(c.tasks[k], osdId) !in multiset(sent);
    AssignmentFits(c, book, execs, taken, k, osdId);
    DirectedAppend(tasks', book, execs, taken, sent, LaunchEnvelope(c.tasks[k], osdId));
  }

  /** A new task is not the receiver of any message sent before. */
  lemma NotAddressedYet(c: Cluster, book: Book, info: TaskInfo, env: Envelope)
    requires Booked(c, book) && Addressed(book, env) && env.message.LaunchOsd?
    requires WellNamed(info) && info.token == Of(c, info.taskType).index
    ensures info.executorId != env.executorId
  {
    var k :| k in book && book[k].executorId == env.executorId;
    assert Recorded(c, k, book[k]) && WellNamed(book[k]);
    if info.executorId == env.executorId {
      ExecutorIdsSeparate(info, book[k]);
    }
  }

  lemma AddressedLater(book: Book, k: string, info: TaskInfo, env: Envelope)
    requires Addressed(book, env) && k !in book
    ensures Addressed(book[k := info], env)
  {
    if env.message.LaunchOsd? {
      var j :| j in book && book[j].executorId == env.executorId && book[j].slaveId == env.slaveId;
      assert j in book[k := info] && book[k := info][j] == book[j];
    }
  }

  lemma LaunchKeepsDirected(c: Cluster, book: Book, execs: Execs, taken: multiset<Envelope>, sent: seq<Envelope>,
                            info: TaskInfo, more: seq<Envelope>)
    requires Booked(c, book) && Directed(c.tasks, book, execs, taken, sent)
    requires WellNamed(info) && info.token == Of(c, info.taskType).index
    requires forall i :: 0 <= i < |more| ==> more[i].message == RegisterOsd
    ensures Directed(WithNewTask(c, info).tasks, book[info.taskId := info], execs, taken, sent + more)
  {
    var tasks' := WithNewTask(c, info).tasks;
    assert tasks' == c.tasks[info.taskId := RecordFor(info)];
    TaskIdIsFresh(c, book, info);
    forall i | 0 <= i < |sent| ensures Targeted(tasks', execs, taken, sent[i]) {
      assert Targeted(c.tasks, execs, taken, sent[i]);
      if sent[i].message.LaunchOsd? {
        NotAddressedYet(c, book, info, sent[i]);
      }
    }
    forall i | 0 <= i < |sent| ensures Addressed(book[info.taskId := info], sent[i]) {
      AddressedLater(book, info.taskId, info, sent[i]);
    }
  }

  lemma ReportKeepsDirected(tasks: Tasks, book: Book, execs: Execs, taken: multiset<Envelope>, sent: seq<Envelope>,
                            reports: Reports, k: string)
    requires Directed(tasks, book, execs, taken, sent) && k in tasks && LinkedTask(tasks, execs, reports, k)
    requires ReportsOf(reports, k) != []
    ensures Directed(tasks[k := tasks[k].(currentStatus := StatusFor(ReportsOf(reports, k)[0]))], book, execs, taken,
            sent)
  {
    var q := ReportsOf(reports, k);
    var tasks' := tasks[k := tasks[k].(currentStatus := StatusFor(q[0]))];
    NextReportIsLegal(tasks[k].taskType, tasks[k].currentStatus, ExecOf(execs, k), q);
    forall i | 0 <= i < |sent| ensures Targeted(tasks', execs, taken, sent[i]) {
      assert Targeted(tasks, execs, taken, sent[i]);
    }
  }

  /** An executor that moves on without receiving an id: its launch, or its end. */
  lemma MoveKeepsDirected(tasks: Tasks, book: Book, execs: Execs, taken: multiset<Envelope>, sent: seq<Envelope>,
                          k: string, e: Exec)
    requires Directed(tasks, book, execs, taken, sent)
    requires e == Gone || (k in tasks && tasks[k].currentStatus == STAGING)
    ensures Directed(tasks, book, execs[k := e], taken, sent)
  {
    forall i | 0 <= i < |sent| ensures Targeted(tasks, execs[k := e], taken, sent[i]) {
      assert Targeted(tasks, execs, taken, sent[i]);
    }
  }

  /** Taking a message out of the channel that no waiting executor is to receive. */
  lemma TakeKeepsDirected(tasks: Tasks, book: Book, execs: Execs, taken: multiset<Envelope>, sent: seq<Envelope>,
          env: Envelope)
    requires Directed(tasks, book, execs, taken, sent)
    requires env.message.LaunchOsd? ==>
               forall k :: k in tasks && tasks[k].executorId == env.executorId ==> ExecOf(execs, k) != AwaitingId
    ensures Directed(tasks, book, execs, taken + multiset{env}, sent)
  {
    forall i | 0 <= i < |sent| ensures Targeted(tasks, execs, taken + multiset{env}, sent[i]) {
      assert Targeted(tasks, execs, taken, sent[i]);
    }
  }

  /** An id that reaches a living executor finds its record STARTING and the executor waiting. */
  lemma LaunchMeetsWaitingExecutor(tasks: Tasks, book: Book, execs: Execs, taken: multiset<Envelope>,
                                   sent: seq<Envelope>, k: string, env: Envelope)
    requires Directed(tasks, book, execs, taken, sent) && env.message.LaunchOsd?
    requires multiset(sent)[env] > taken[env] && k in tasks && tasks[k].executorId == env.executorId
    ensures taken[env] == 0 && multiset(sent)[env] == 1
    ensures ExecOf(execs, k) != Gone ==> tasks[k].taskType == OSD && tasks[k].currentStatus == STARTING
                                         && ExecOf(execs, k) == AwaitingId
  {
    LaunchSentOnce(sent, env);
    assert env in sent;
    var i :| 0 <= i < |sent| && sent[i] == env;
    assert Targeted(tasks, execs, taken, sent[i]);
  }

  lemma DeliveryKeepsDirected(tasks: Tasks, book: Book, execs: Execs, taken: multiset<Envelope>, sent: seq<Envelope>,
                              c: Cluster, k: string, env: Envelope, e: Exec)
    requires Directed(tasks, book, execs, taken, sent) && env.message.LaunchOsd? && c.tasks == tasks && Booked(c, book)
    requires multiset(sent)[env] > taken[env] && k in tasks && tasks[k].executorId == env.executorId
    requires ExecOf(execs, k) != Gone && e != AwaitingId
    ensures Directed(tasks, book, execs[k := e], taken + multiset{env}, sent)
  {
    LaunchMeetsWaitingExecutor(tasks, book, execs, taken, sent, k, env);
    var taken' := taken + multiset{env};
    var p :| 0 <= p < |sent| && sent[p] == env;
    forall j | j in tasks && tasks[j].executorId == env.executorId ensures j == k {
      SameExecutorSameTask(c, book, j, k);
    }
    forall i | 0 <= i < |sent| ensures Targeted(tasks, execs[k := e], taken', sent[i]) {
      assert Targeted(tasks, execs, taken, sent[i]);
      assert i != p && sent[i].message.LaunchOsd? ==> sent[i].executorId != sent[p].executorId;
    }
  }

  // ---------------------------------------------------------------- where the OSD ids are

  function SentIds(sent: seq<Envelope>): seq<int> {
    if sent == [] then []
    else
      var rest := SentIds(sent[..|sent| - 1]);
      var m := sent[|sent| - 1].message;
      if m.LaunchOsd? then rest + [m.osdId] else rest
  }

  lemma SentIdsAppend(sent: seq<Envelope>, env: Envelope)
    ensures SentIds(sent + [env]) == SentIds(sent) + if env.message.LaunchOsd? then [env.message.osdId] else []
  {
    assert (sent + [env])[..|sent + [env]| - 1] == sent;
  }

  /** Every id received is still pending or was sent to a task, as often as it was received. */
  ghost predicate IdsConserved(received: seq<int>, pending: seq<int>, sent: seq<Envelope>) {
    multiset(received) == multiset(pending) + multiset(SentIds(sent))
  }

  lemma AssignKeepsIds(received: seq<int>, pending: seq<int>, sent: seq<Envelope>, env: Envelope)
    requires IdsConserved(received, pending, sent) && pending != []
    requires env.message == LaunchOsd(pending[|pending| - 1])
    ensures IdsConserved(received, pending[..|pending| - 1], sent + [env])
  {
    var last := |pending| - 1;
    SentIdsAppend(sent, env);
    assert pending == pending[..last] + [pending[last]];
  }

  lemma {:induction false} RegistrationsKeepIds(received: seq<int>, pending: seq<int>, sent: seq<Envelope>,
          more: seq<Envelope>)
    requires IdsConserved(received, pending, sent) && |more| <= 1
    requires forall i :: 0 <= i < |more| ==> more[i].message == RegisterOsd
    ensures IdsConserved(received, pending, sent + more)
  {
    if more == [] {
      assert sent + more == sent;
    } else {
      assert more == [more[0]];
      SentIdsAppend(sent, more[0]);
    }
  }

  /** Different ids from the MON go to different tasks. */
  lemma IdsSentOnce(received: seq<int>, pending: seq<int>, sent: seq<Envelope>)
    requires IdsConserved(received, pending, sent) && Distinct(received)
    ensures Distinct(SentIds(sent)) && forall x :: x in pending ==> x !in SentIds(sent)
  {
    DistinctCounts(received);
    DistinctCounts(SentIds(sent));
    forall x | x in pending ensures x !in SentIds(sent) {
      assert multiset(received)[x] == multiset(pending)[x] + multiset(SentIds(sent))[x];
      assert x in multiset(pending);
    }
    forall x ensures multiset(SentIds(sent))[x] <= 1 {
      assert multiset(received)[x] == multiset(pending)[x] + multiset(SentIds(sent))[x];
    }
  }
}
