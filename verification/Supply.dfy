/** The supply of OSD ids: one registration per OSD task, answered by the initial MON, spent on a waiting task. */
module Supply {
  import opened Types
  import opened Wire
  import opened StateMachines
  import opened Schedulers
  import opened Effects
  import opened CephExecutors
  import opened Protocol
  import opened Counters
  import opened Identity
  import opened Messages

  /** What is in the channels, and what has passed through them. */
  datatype Channels = Channels(
    sent: seq<Envelope>, taken: multiset<Envelope>, dropped: multiset<Envelope>,
    replies: multiset<Reply>, received: seq<int>)

  function ChannelsOf(w: World): Channels {
    Channels(Sends(w.sched.calls), w.taken, w.dropped, w.replies, w.received)
  }

  function RegistrationTo(info: TaskInfo): Envelope {
    Envelope(info.executorId, info.slaveId, RegisterOsd)
  }

  /** Registrations go only to the given MON, one per OSD task; each is still under way, was lost with a dead MON, is
      answered by a reply under way, or brought an id. */
  ghost predicate SuppliedBy(info: TaskInfo, osds: nat, ch: Channels, e: Exec) {
    var reg := RegistrationTo(info);
    && (forall i :: 0 <= i < |ch.sent| && ch.sent[i].message == RegisterOsd ==> ch.sent[i] == reg)
    && multiset(ch.sent)[reg] == osds
    && ch.taken[reg] == ch.dropped[reg] + |ch.replies| + |ch.received|
    && ch.taken[reg] <= multiset(ch.sent)[reg]
    && (forall r :: r in ch.replies ==> r.executorId == reg.executorId)
    && (ch.dropped[reg] > 0 ==> e == Gone)
  }

  ghost predicate Idle(ch: Channels) {
    ch == Channels([], multiset{}, multiset{}, multiset{}, [])
  }

  ghost predicate Supplied(c: Cluster, book: Book, ch: Channels, execs: Execs) {
    && (c.mon.index == 0 ==> Idle(ch))
    && forall m :: IsInitialMon(book, m) ==> SuppliedBy(book[m], |OfType(c.tasks, OSD)|, ch, ExecOf(execs, m))
  }

  // ---------------------------------------------------------------- what the scheduler does

  lemma LaunchMessageKeepsSupply(info: TaskInfo, osds: nat, ch: Channels, e: Exec, env: Envelope)
    requires SuppliedBy(info, osds, ch, e) && env.message.LaunchOsd?
    ensures SuppliedBy(info, osds, ch.(sent := ch.sent + [env]), e)
  {
  }

  lemma RegistrationKeepsSupply(info: TaskInfo, osds: nat, ch: Channels, e: Exec)
    requires SuppliedBy(info, osds, ch, e)
    ensures SuppliedBy(info, osds + 1, ch.(sent := ch.sent + [RegistrationTo(info)]), e)
  {
  }

  lemma NewTaskSupply(c: Cluster, book: Book, ch: Channels, e: Exec, info: TaskInfo, choice: Choice, m: string)
    requires Booked(c, book) && IsInitialMon(book, m) && m != info.taskId
    requires SuppliedBy(book[m], |OfType(c.tasks, OSD)|, ch, e)
    requires WellNamed(info) && info.token == Of(c, info.taskType).index && !info.initial
    requires MayBeInitialMon(WithNewTask(c, info).tasks, choice.registerMon)
    ensures SuppliedBy(book[m], |OfType(WithNewTask(c, info).tasks, OSD)|,
                       ch.(sent := ch.sent + Registration(info, choice)), e)
  {
    TaskIdIsFresh(c, book, info);
    OsdsAfterLaunch(c, info);
    if info.taskType == OSD {
      RegistrationGoesToInitialMon(c, book, info, choice, m);
      RegistrationKeepsSupply(book[m], |OfType(c.tasks, OSD)|, ch, e);
    } else {
      assert ch.sent + Registration(info, choice) == ch.sent;
    }
  }

  lemma OsdsAfterLaunch(c: Cluster, info: TaskInfo)
    requires info.taskId !in c.tasks
    ensures |OfType(WithNewTask(c, info).tasks, OSD)| == |OfType(c.tasks, OSD)| + if info.taskType == OSD then 1 else 0
  {
    assert WithNewTask(c, info).tasks == c.tasks[info.taskId := RecordFor(info)];
    OfTypeUpdate(c.tasks, info.taskId, RecordFor(info), OSD);
  }

  lemma RegistrationGoesToInitialMon(c: Cluster, book: Book, info: TaskInfo, choice: Choice, m: string)
    requires Booked(c, book) && WellNamed(info) && info.token == Of(c, info.taskType).index
    requires MayBeInitialMon(WithNewTask(c, info).tasks, choice.registerMon)
    requires IsInitialMon(book, m) && m != info.taskId && info.taskType == OSD && !info.initial
    ensures Registration(info, choice) == [RegistrationTo(book[m])]
  {
    var c' := WithNewTask(c, info);
    LaunchKeepsBook(c, book, info);
    InitialMonAnswer(c', book[info.taskId := info], m, choice.registerMon);
    assert Recorded(c', m, book[m]);
  }

  /** A launch registers exactly the OSDs, and the initial MON starts with an empty account. */
  lemma LaunchKeepsSupply(c: Cluster, book: Book, ch: Channels, execs: Execs, info: TaskInfo, choice: Choice)
    requires Booked(c, book) && Supplied(c, book, ch, execs) && (c.mon.index == 0 ==> book == map[])
    requires WellNamed(info) && info.token == Of(c, info.taskType).index >= 0
    requires info.initial <==> info.taskType == MON && info.token == 0
    requires !info.initial ==> c.mon.index >= 1
    requires MayBeInitialMon(WithNewTask(c, info).tasks, choice.registerMon)
    ensures Supplied(WithNewTask(c, info), book[info.taskId := info],
                     ch.(sent := ch.sent + Registration(info, choice)), execs)
  {
    var c' := WithNewTask(c, info);
    var ch' := ch.(sent := ch.sent + Registration(info, choice));
    LaunchIndexes(c, info, MON);
    forall m | IsInitialMon(book[info.taskId := info], m)
      ensures SuppliedBy(book[info.taskId := info][m], |OfType(c'.tasks, OSD)|, ch', ExecOf(execs, m))
    {
      if info.initial {
        assert c.mon.index == 0 && ch' == ch;
        OfTypeUpdate(c.tasks, info.taskId, RecordFor(info), OSD);
        assert OfType(c'.tasks, OSD) == {};
      } else {
        NoLateInitialMon(c, book, info, m);
        NewTaskSupply(c, book, ch, ExecOf(execs, m), info, choice, m);
      }
    }
  }

  lemma AssignKeepsSupply(c: Cluster, book: Book, ch: Channels, execs: Execs, k: string, osdId: int)
    requires Booked(c, book) && Supplied(c, book, ch, execs) && k in c.tasks && c.mon.index >= 1
    ensures var c' := c.(tasks := c.tasks[k := c.tasks[k].(currentStatus := STARTING)]);
            Supplied(c', book, ch.(sent := ch.sent + [LaunchEnvelope(c.tasks[k], osdId)]), execs)
  {
    OfTypeUpdate(c.tasks, k, c.tasks[k].(currentStatus := STARTING), OSD);
    var env := LaunchEnvelope(c.tasks[k], osdId);
    var c' := c.(tasks := c.tasks[k := c.tasks[k].(currentStatus := STARTING)]);
    assert |OfType(c'.tasks, OSD)| == |OfType(c.tasks, OSD)|;
    forall m | IsInitialMon(book, m)
      ensures SuppliedBy(book[m], |OfType(c'.tasks, OSD)|, ch.(sent := ch.sent + [env]), ExecOf(execs, m))
    {
      LaunchMessageKeepsSupply(book[m], |OfType(c.tasks, OSD)|, ch, ExecOf(execs, m), env);
    }
  }

  /** An id counts exactly if it comes from the initial MON. */
  lemma ArrivalKeepsSupply(c: Cluster, book: Book, ch: Channels, execs: Execs, reply: Reply, mon: TaskState)
    requires Booked(c, book) && Supplied(c, book, ch, execs)
    requires reply in ch.replies && MayBeInitialMon(c.tasks, mon)
    ensures Supplied(c, book, ch.(replies := ch.replies - multiset{reply},
                                  received := if mon.executorId == reply.executorId then ch.received + [reply.osdId]
                                              else ch.received), execs)
  {
    hide OfType, MayBeInitialMon;
    forall m | IsInitialMon(book, m) ensures mon.executorId == reply.executorId
        && SuppliedBy(book[m], |OfType(c.tasks, OSD)|,
        ch.(replies := ch.replies - multiset{reply}, received := ch.received + [reply.osdId]), ExecOf(execs, m))
    {
      InitialMonAnswer(c, book, m, mon);
      assert Recorded(c, m, book[m]);
    }
  }

  // ---------------------------------------------------------------- what the executors do

  lemma ExecutorKeepsSupply(c: Cluster, book: Book, ch: Channels, execs: Execs, k: string, e: Exec)
    requires Supplied(c, book, ch, execs) && (ExecOf(execs, k) == Gone ==> e == Gone)
    ensures Supplied(c, book, ch, execs[k := e])
  {
  }

  /** A registration that reaches its executor is answered. */
  lemma RegisterKeepsSupply(c: Cluster, book: Book, ch: Channels, execs: Execs, env: Envelope, reply: Reply)
    requires Supplied(c, book, ch, execs) && env.message == RegisterOsd && multiset(ch.sent)[env] > ch.taken[env]
    requires reply.executorId == env.executorId
    ensures Supplied(c, book, ch.(taken := ch.taken + multiset{env}, replies := ch.replies + multiset{reply}), execs)
  {
    assert env in ch.sent;
  }

  lemma LaunchTakenKeepsSupply(c: Cluster, book: Book, ch: Channels, execs: Execs, env: Envelope)
    requires Supplied(c, book, ch, execs) && env.message.LaunchOsd? && multiset(ch.sent)[env] > ch.taken[env]
    ensures Supplied(c, book, ch.(taken := ch.taken + multiset{env}), execs)
  {
    assert env in ch.sent;
  }

  lemma DropKeepsSupply(c: Cluster, book: Book, ch: Channels, execs: Execs, env: Envelope, info: TaskInfo)
    requires Booked(c, book) && Supplied(c, book, ch, execs) && multiset(ch.sent)[env] > ch.taken[env]
    requires env.executorId == info.executorId && info.taskId in book && book[info.taskId] == info
    requires ExecOf(execs, info.taskId) == Gone
    ensures Supplied(c, book, ch.(taken := ch.taken + multiset{env}, dropped := ch.dropped + multiset{env}), execs)
  {
    assert env in ch.sent;
    forall m | IsInitialMon(book, m) && env == RegistrationTo(book[m]) ensures m == info.taskId {
      assert WellNamed(book[m]) && WellNamed(book[info.taskId]);
      ExecutorIdsSeparate(book[m], info);
    }
  }

  // ---------------------------------------------------------------- the account

  /** While the initial MON has lost nothing, registrations under way, replies under way and pending ids add up to the
      OSD tasks that no id was sent to. */
  lemma SupplyAccount(c: Cluster, book: Book, ch: Channels, execs: Execs, m: string)
    requires Supplied(c, book, ch, execs) && IsInitialMon(book, m) && IdsConserved(ch.received, c.pendingIds, ch.sent)
    ensures var reg := RegistrationTo(book[m]);
            && (multiset(ch.sent)[reg] - ch.taken[reg]) + ch.dropped[reg] + |ch.replies| + |c.pendingIds|
                + |SentIds(ch.sent)|
               == |OfType(c.tasks, OSD)|
            && multiset(ch.sent)[reg] - ch.taken[reg] >= 0
            && (ExecOf(execs, m) != Gone ==> ch.dropped[reg] == 0)
  {
    assert |multiset(ch.received)| == |ch.received|;
    assert |multiset(c.pendingIds) + multiset(SentIds(ch.sent))| == |c.pendingIds| + |SentIds(ch.sent)|;
  }

  /** The executors that were sent an id. */
  function Targets(sent: seq<Envelope>): set<string> {
    if sent == [] then {}
    else
      var rest := Targets(sent[..|sent| - 1]);
      var last := sent[|sent| - 1];
      if last.message.LaunchOsd? then rest + {last.executorId} else rest
  }

  lemma {:induction false} NotATarget(sent: seq<Envelope>, x: string)
    requires forall i :: 0 <= i < |sent| && sent[i].message.LaunchOsd? ==> sent[i].executorId != x
    ensures x !in Targets(sent)
  {
    if sent != [] {
      var rest := sent[..|sent| - 1];
      forall i | 0 <= i < |rest| && rest[i].message.LaunchOsd? ensures rest[i].executorId != x {
        assert rest[i] == sent[i];
      }
      NotATarget(rest, x);
    }
  }

  ghost function ReceiversOf(tasks: Tasks, executors: set<string>): set<string> {
    set k | k in tasks && tasks[k].taskType == OSD && tasks[k].executorId in executors
  }

  lemma OneMoreReceiver(tasks: Tasks, executors: set<string>, x: string, k: string)
    requires k in tasks && tasks[k].taskType == OSD && tasks[k].executorId == x && x !in executors
    requires forall j :: j in tasks && tasks[j].executorId == x ==> j == k
    ensures |ReceiversOf(tasks, executors + {x})| == |ReceiversOf(tasks, executors)| + 1
  {
    assert ReceiversOf(tasks, executors + {x}) == ReceiversOf(tasks, executors) + {k};
  }

  lemma ReceiverExists(c: Cluster, book: Book, execs: Execs, taken: multiset<Envelope>, env: Envelope)
    returns (k: string)
    requires Booked(c, book) && env.message.LaunchOsd?
    requires Targeted(c.tasks, execs, taken, env) && Addressed(book, env)
    ensures k in c.tasks && c.tasks[k].taskType == OSD && c.tasks[k].executorId == env.executorId
    ensures forall j :: j in c.tasks && c.tasks[j].executorId == env.executorId ==> j == k
  {
    k :| k in book && book[k].executorId == env.executorId;
    assert Recorded(c, k, book[k]);
    forall j | j in c.tasks && c.tasks[j].executorId == env.executorId ensures j == k {
      SameExecutorSameTask(c, book, j, k);
    }
  }

  /** As many OSD tasks were sent an id as ids were sent. */
  lemma {:induction false} ReceiversCount(c: Cluster, book: Book, execs: Execs, taken: multiset<Envelope>,
          sent: seq<Envelope>)
    requires Booked(c, book) && Directed(c.tasks, book, execs, taken, sent)
    ensures |ReceiversOf(c.tasks, Targets(sent))| == |SentIds(sent)|
  {
    if sent == [] {
      assert ReceiversOf(c.tasks, {}) == {};
    } else {
      var rest, last := sent[..|sent| - 1], sent[|sent| - 1];
      DirectedPrefix(c.tasks, book, execs, taken, sent);
      ReceiversCount(c, book, execs, taken, rest);
      if last.message.LaunchOsd? {
        NewTarget(sent);
        var k := ReceiverExists(c, book, execs, taken, last);
        OneMoreReceiver(c.tasks, Targets(rest), last.executorId, k);
      }
    }
  }

  lemma DirectedPrefix(tasks: Tasks, book: Book, execs: Execs, taken: multiset<Envelope>, sent: seq<Envelope>)
    requires Directed(tasks, book, execs, taken, sent) && sent != []
    ensures Directed(tasks, book, execs, taken, sent[..|sent| - 1])
    ensures Targeted(tasks, execs, taken, sent[|sent| - 1]) && Addressed(book, sent[|sent| - 1])
  {
    var rest := sent[..|sent| - 1];
    forall i | 0 <= i < |rest| ensures Targeted(tasks, execs, taken, rest[i]) && Addressed(book, rest[i]) {
      assert rest[i] == sent[i];
    }
  }

  lemma NewTarget(sent: seq<Envelope>)
    requires OneLaunchEach(sent) && sent != [] && sent[|sent| - 1].message.LaunchOsd?
    ensures sent[|sent| - 1].executorId !in Targets(sent[..|sent| - 1])
  {
    var rest, x := sent[..|sent| - 1], sent[|sent| - 1].executorId;
    forall i | 0 <= i < |rest| && rest[i].message.LaunchOsd? ensures rest[i].executorId != x {
      assert rest[i] == sent[i];
    }
    NotATarget(rest, x);
  }

  lemma DisjointCounts<T>(a: set<T>, b: set<T>, all: set<T>)
    requires a !! b && a + b <= all
    ensures |a| + |b| <= |all|
  {
    assert |a + b| == |a| + |b|;
    assert all == (a + b) + (all - (a + b));
  }

  /** A task that waits was sent no id. */
  lemma WaitingAreUnserved(c: Cluster, book: Book, execs: Execs, taken: multiset<Envelope>, sent: seq<Envelope>)
    requires Booked(c, book) && Directed(c.tasks, book, execs, taken, sent)
    ensures |WaitingOf(c.tasks)| + |SentIds(sent)| <= |OfType(c.tasks, OSD)|
  {
    ReceiversCount(c, book, execs, taken, sent);
    var served := ReceiversOf(c.tasks, Targets(sent));
    forall k | k in WaitingOf(c.tasks) ensures k !in served {
      NoneSentYet(c.tasks, execs, taken, sent, k);
      NotATarget(sent, c.tasks[k].executorId);
    }
    DisjointCounts(WaitingOf(c.tasks), served, OfType(c.tasks, OSD));
  }

  /** Once the channels are drained, there is an id for every waiting OSD. */
  lemma EnoughIds(c: Cluster, book: Book, ch: Channels, execs: Execs, m: string)
    requires Booked(c, book) && Directed(c.tasks, book, execs, ch.taken, ch.sent)
    requires Supplied(c, book, ch, execs) && IsInitialMon(book, m) && IdsConserved(ch.received, c.pendingIds, ch.sent)
    requires ExecOf(execs, m) != Gone && ch.replies == multiset{}
    requires multiset(ch.sent)[RegistrationTo(book[m])] == ch.taken[RegistrationTo(book[m])]
    ensures |WaitingOf(c.tasks)| <= |c.pendingIds|
  {
    SupplyAccount(c, book, ch, execs, m);
    WaitingAreUnserved(c, book, execs, ch.taken, ch.sent);
  }
}
