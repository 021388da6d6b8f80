/** Task identities: tokens, task ids, executor ids, the initial MON, and the launch log. */
module Identity {
  import opened Text
  import opened Types
  import opened Wire
  import opened StateMachines
  import opened Schedulers
  import opened Effects
  import opened Counters

  /** The launches of a log, by task id. */
  function Book(infos: seq<TaskInfo>): map<string, TaskInfo> {
    if infos == [] then map[]
    else
      var last := infos[|infos| - 1];
      Book(infos[..|infos| - 1])[last.taskId := last]
  }

  function CountType(infos: seq<TaskInfo>, t: TaskType): nat {
    if infos == [] then 0
    else CountType(infos[..|infos| - 1], t) + if infos[|infos| - 1].taskType == t then 1 else 0
  }

  lemma LogGrows(infos: seq<TaskInfo>, info: TaskInfo)
    ensures Book(infos + [info]) == Book(infos)[info.taskId := info]
    ensures forall t :: CountType(infos + [info], t) == CountType(infos, t) + if info.taskType == t then 1 else 0
  {
    assert (infos + [info])[..|infos + [info]| - 1] == infos;
  }

  /** The record of a task is the one its launch left behind, apart from the status, and its token was issued. */
  ghost predicate Recorded(c: Cluster, k: string, info: TaskInfo) {
    && k == info.taskId && k in c.tasks
    && c.tasks[k] == RecordFor(info).(currentStatus := c.tasks[k].currentStatus)
    && 0 <= info.token < Of(c, info.taskType).index
  }

  /** The task table holds the launched tasks, each once, and no two of them share type and token. */
  ghost predicate Booked(c: Cluster, book: map<string, TaskInfo>) {
    && c.tasks.Keys == book.Keys
    && (forall k :: k in book ==> Recorded(c, k, book[k]))
    && (forall k {:trigger WellNamed(book[k])} :: k in book ==> WellNamed(book[k]))
    && (forall j, k :: j in book && k in book && book[j].taskType == book[k].taskType && book[j].token == book[k].token
          ==> j == k)
    && (forall t :: Of(c, t).index >= 0)
  }

  /** A task launched with the next token gets an id that no record has, wherever it runs. */
  lemma TaskIdIsFresh(c: Cluster, book: map<string, TaskInfo>, info: TaskInfo)
    requires Booked(c, book) && WellNamed(info) && info.token == Of(c, info.taskType).index
    ensures info.taskId !in c.tasks
  {
    var k := info.taskId;
    if k in book {
      assert Recorded(c, k, book[k]) && WellNamed(book[k]);
      TasksSeparate(info, book[k]);
    }
  }

  /** Executor ids identify tasks. */
  lemma SameExecutorSameTask(c: Cluster, book: map<string, TaskInfo>, j: string, k: string)
    requires Booked(c, book) && j in book && k in book && c.tasks[j].executorId == c.tasks[k].executorId
    ensures j == k
  {
    assert Recorded(c, j, book[j]) && Recorded(c, k, book[k]) && WellNamed(book[j]) && WellNamed(book[k]);
    ExecutorIdsSeparate(book[j], book[k]);
  }

  lemma StatusKeepsBook(c: Cluster, c': Cluster, book: map<string, TaskInfo>, k: string, to: Status)
    requires Booked(c, book) && k in c.tasks && c'.tasks == c.tasks[k := c.tasks[k].(currentStatus := to)]
    requires forall t :: Of(c', t).index == Of(c, t).index
    ensures Booked(c', book)
  {
    forall j | j in book ensures Recorded(c', j, book[j]) {
      assert Recorded(c, j, book[j]);
    }
  }

  lemma QuietKeepsBook(s: Sched, s': Sched, book: map<string, TaskInfo>)
    requires Booked(s.c, book) && Quiet(s, s')
    ensures Booked(s'.c, book)
  {
    forall j | j in book ensures Recorded(s'.c, j, book[j]) {
      assert Recorded(s.c, j, book[j]);
    }
  }

  lemma LaunchIndexes(c: Cluster, info: TaskInfo, t: TaskType)
    ensures Of(WithNewTask(c, info), t).index == Of(c, t).index + if t == info.taskType then 1 else 0
  {
  }

  lemma LaunchKeepsBook(c: Cluster, book: map<string, TaskInfo>, info: TaskInfo)
    requires Booked(c, book) && WellNamed(info) && info.token == Of(c, info.taskType).index
    ensures Booked(WithNewTask(c, info), book[info.taskId := info])
  {
    var c' := WithNewTask(c, info);
    TaskIdIsFresh(c, book, info);
    forall t ensures Of(c', t).index == Of(c, t).index + if t == info.taskType then 1 else 0 {
      LaunchIndexes(c, info, t);
    }
    forall j | j in book
      ensures Recorded(c', j, book[j]) && !(book[j].taskType == info.taskType && book[j].token == info.token)
    {
      assert Recorded(c, j, book[j]);
    }
  }

  // ---------------------------------------------------------------- the initial MON

  ghost predicate IsInitialMon(book: map<string, TaskInfo>, m: string) {
    m in book && book[m].taskType == MON && book[m].token == 0
  }

  /** Every possible answer of getInitialMon is the record of mon0, if there is one. */
  lemma InitialMonAnswer(c: Cluster, book: map<string, TaskInfo>, m: string, r: TaskState)
    requires Booked(c, book) && IsInitialMon(book, m) && MayBeInitialMon(c.tasks, r)
    ensures r == c.tasks[m]
  {
    assert Recorded(c, m, book[m]) && WellNamed(book[m]);
    InitialMonPrefix(MON, 0, book[m].hostname, book[m].slaveId);
    var k :| k in c.tasks && INITIAL_MON_PREFIX <= c.tasks[k].taskId && r == c.tasks[k];
    assert Recorded(c, k, book[k]) && WellNamed(book[k]);
    InitialMonPrefix(book[k].taskType, book[k].token, book[k].hostname, book[k].slaveId);
  }

  /** mon0 is launched with the first token or never: once a MON token was spent without it, it cannot appear. */
  lemma NoLateInitialMon(c: Cluster, book: map<string, TaskInfo>, info: TaskInfo, m: string)
    requires Booked(c, book) && WellNamed(info) && info.token == Of(c, info.taskType).index
    requires c.mon.index >= 1 && IsInitialMon(book[info.taskId := info], m)
    ensures IsInitialMon(book, m) && m != info.taskId
  {
    TaskIdIsFresh(c, book, info);
  }

  /** A launch of any task but the initial MON comes after a MON token was spent. */
  lemma MonTokenSpent(c: Cluster, book: map<string, TaskInfo>, stuck: set<string>, t: TaskType, token: int)
    requires Booked(c, book) && Counted(c, stuck) && NextMove(c, false) == Go(t, token)
    ensures token == Of(c, t).index >= 0 && (t != MON || token != 0 ==> c.mon.index >= 1)
  {
    assert Of(c, t).index >= 0 && token == Of(c, t).index;
    if t != MON {
      LaunchNeedsCluster(c, stuck, t, token);
      var k :| k in RunningOf(c.tasks, MON);
      assert Recorded(c, k, book[k]);
    }
  }

  // ---------------------------------------------------------------- the launch log

  /** Tokens of a type are launched in increasing order, all below the next one. */
  ghost predicate TokensIncrease(infos: seq<TaskInfo>, c: Cluster) {
    && (forall i :: 0 <= i < |infos| ==> 0 <= infos[i].token < Of(c, infos[i].taskType).index)
    && (forall i, j :: 0 <= i < j < |infos| && infos[i].taskType == infos[j].taskType ==>
        infos[i].token < infos[j].token)
  }

  /** Exactly the initial MON is marked so, and every other task fetches its configuration from the initial MON's host,
      if there is an initial MON. */
  ghost predicate Configured(book: map<string, TaskInfo>, info: TaskInfo) {
    && (info.initial <==> info.taskType == MON && info.token == 0)
    && (info.initial <==> info.configHost == None)
    && (!info.initial ==> forall m :: IsInitialMon(book, m) ==> info.configHost == Some(book[m].hostname))
  }

  ghost predicate AllEntered(infos: seq<TaskInfo>, book: map<string, TaskInfo>) {
    forall i :: 0 <= i < |infos| ==> infos[i].taskId in book && book[infos[i].taskId] == infos[i]
  }

  ghost predicate AllConfigured(infos: seq<TaskInfo>, book: map<string, TaskInfo>) {
    forall i :: 0 <= i < |infos| ==> Configured(book, infos[i])
  }

  ghost predicate Logged(c: Cluster, infos: seq<TaskInfo>) {
    && Booked(c, Book(infos))
    && TokensIncrease(infos, c)
    && AllEntered(infos, Book(infos))
    && AllConfigured(infos, Book(infos))
    && (forall t :: CountType(infos, t) == |OfType(c.tasks, t)|)
    && (c.mon.index == 0 ==> infos == [])
  }

  lemma TaskImpliesMonToken(c: Cluster, infos: seq<TaskInfo>, k: string)
    requires Logged(c, infos) && k in c.tasks
    ensures c.mon.index >= 1 && Recorded(c, k, Book(infos)[k])
  {
    assert Of(c, MON).index >= 0;
  }

  lemma LoggedSame(c: Cluster, c': Cluster, infos: seq<TaskInfo>)
    requires Logged(c, infos) && c' == c.(pendingIds := c'.pendingIds)
    ensures Logged(c', infos)
  {
    forall j | j in Book(infos) ensures Recorded(c', j, Book(infos)[j]) {
      assert Recorded(c, j, Book(infos)[j]);
    }
    forall t ensures Of(c', t) == Of(c, t) && CountType(infos, t) == |OfType(c'.tasks, t)| {
      assert CountType(infos, t) == |OfType(c.tasks, t)|;
    }
  }

  lemma StatusKeepsLog(c: Cluster, c': Cluster, infos: seq<TaskInfo>, k: string, to: Status)
    requires Logged(c, infos) && k in c.tasks && c'.tasks == c.tasks[k := c.tasks[k].(currentStatus := to)]
    requires forall t :: Of(c', t).index == Of(c, t).index
    ensures Logged(c', infos)
  {
    StatusKeepsBook(c, c', Book(infos), k, to);
    forall t ensures CountType(infos, t) == |OfType(c'.tasks, t)| {
      assert CountType(infos, t) == |OfType(c.tasks, t)|;
      OfTypeUpdate(c.tasks, k, c'.tasks[k], t);
    }
    assert Of(c', MON).index == Of(c, MON).index;
  }

  lemma QuietKeepsLog(s: Sched, s': Sched)
    requires Logged(s.c, Launches(s.calls)) && Quiet(s, s')
    ensures Logged(s'.c, Launches(s'.calls))
  {
    var infos := Launches(s.calls);
    QuietKeepsBook(s, s', Book(infos));
    forall t ensures CountType(infos, t) == |OfType(s'.c.tasks, t)| {
      assert CountType(infos, t) == |OfType(s.c.tasks, t)|;
    }
    assert forall i :: 0 <= i < |infos| ==> infos[i].token < Of(s.c, infos[i].taskType).index;
    assert Of(s'.c, MON).index >= Of(s.c, MON).index >= 0;
  }

  lemma QuietKeepsMonToken(s: Sched, s': Sched)
    requires Logged(s.c, Launches(s.calls)) && Quiet(s, s')
    ensures s'.c.mon.index >= s.c.mon.index >= 0
  {
    assert Of(s'.c, MON).index >= Of(s.c, MON).index >= 0;
  }

  lemma ConfiguredLater(c: Cluster, book: map<string, TaskInfo>, info: TaskInfo, older: TaskInfo)
    requires Booked(c, book) && WellNamed(info) && info.token == Of(c, info.taskType).index && c.mon.index >= 1
    requires Configured(book, older)
    ensures Configured(book[info.taskId := info], older)
  {
    forall m | IsInitialMon(book[info.taskId := info], m) ensures IsInitialMon(book, m) && m != info.taskId {
      NoLateInitialMon(c, book, info, m);
    }
  }

  lemma AllConfiguredLater(c: Cluster, infos: seq<TaskInfo>, book: map<string, TaskInfo>, info: TaskInfo)
    requires Booked(c, book) && WellNamed(info) && info.token == Of(c, info.taskType).index
    requires AllConfigured(infos, book) && (infos != [] ==> c.mon.index >= 1)
    requires Configured(book[info.taskId := info], info)
    ensures AllConfigured(infos + [info], book[info.taskId := info])
  {
    forall i | 0 <= i < |infos| ensures Configured(book[info.taskId := info], infos[i]) {
      ConfiguredLater(c, book, info, infos[i]);
    }
  }

  lemma AllEnteredLater(infos: seq<TaskInfo>, book: map<string, TaskInfo>, info: TaskInfo)
    requires AllEntered(infos, book) && info.taskId !in book
    ensures AllEntered(infos + [info], book[info.taskId := info])
  {
  }

  /** The answer of getInitialMon just before a launch names the initial MON of the log after it. */
  lemma NewTaskConfigured(c: Cluster, book: map<string, TaskInfo>, info: TaskInfo, ch: Choice)
    requires Booked(c, book) && WellNamed(info) && info.token == Of(c, info.taskType).index
    requires info.configHost == if info.initial then None else Some(ch.configMon.hostName)
    requires info.initial <==> info.taskType == MON && info.token == 0
    requires MayBeInitialMon(c.tasks, ch.configMon) && (!info.initial ==> c.mon.index >= 1)
    ensures Configured(book[info.taskId := info], info)
  {
    forall m | !info.initial && IsInitialMon(book[info.taskId := info], m)
      ensures info.configHost == Some(book[m].hostname) && m != info.taskId
    {
      NoLateInitialMon(c, book, info, m);
      InitialMonAnswer(c, book, m, ch.configMon);
      assert Recorded(c, m, book[m]);
    }
  }

  lemma TokensAfterLaunch(c: Cluster, infos: seq<TaskInfo>, info: TaskInfo)
    requires TokensIncrease(infos, c) && info.token == Of(c, info.taskType).index >= 0
    ensures TokensIncrease(infos + [info], WithNewTask(c, info))
  {
    forall t ensures Of(WithNewTask(c, info), t).index == Of(c, t).index + if t == info.taskType then 1 else 0 {
      LaunchIndexes(c, info, t);
    }
  }

  lemma CountsAfterLaunch(c: Cluster, infos: seq<TaskInfo>, info: TaskInfo)
    requires forall t :: CountType(infos, t) == |OfType(c.tasks, t)|
    requires info.taskId !in c.tasks
    ensures forall t :: CountType(infos + [info], t) == |OfType(WithNewTask(c, info).tasks, t)|
  {
    LogGrows(infos, info);
    forall t ensures CountType(infos + [info], t) == |OfType(WithNewTask(c, info).tasks, t)| {
      assert CountType(infos, t) == |OfType(c.tasks, t)|;
      OfTypeUpdate(c.tasks, info.taskId, RecordFor(info), t);
    }
  }

  lemma LaunchKeepsLog(c: Cluster, infos: seq<TaskInfo>, stuck: set<string>, info: TaskInfo, ch: Choice)
    requires Counted(c, stuck) && Logged(c, infos) && WellNamed(info)
    requires NextMove(c, false) == Go(info.taskType, info.token)
    requires info.configHost == if info.initial then None else Some(ch.configMon.hostName)
    requires info.initial <==> info.taskType == MON && info.token == 0
    requires MayBeInitialMon(c.tasks, ch.configMon)
    ensures Logged(WithNewTask(c, info), infos + [info])
  {
    var book := Book(infos);
    MonTokenSpent(c, book, stuck, info.taskType, info.token);
    TaskIdIsFresh(c, book, info);
    LogGrows(infos, info);
    LaunchKeepsBook(c, book, info);
    NewTaskConfigured(c, book, info, ch);
    AllConfiguredLater(c, infos, book, info);
    AllEnteredLater(infos, book, info);
    TokensAfterLaunch(c, infos, info);
    CountsAfterLaunch(c, infos, info);
    LaunchIndexes(c, info, MON);
  }

  // ---------------------------------------------------------------- registrations

  /** The number of REGISTER_OSD messages. */
  function Registrations(sent: seq<Envelope>): nat {
    if sent == [] then 0
    else Registrations(sent[..|sent| - 1]) + if sent[|sent| - 1].message == RegisterOsd then 1 else 0
  }

  /** One registration was sent for every OSD launched. */
  predicate Registered(calls: seq<Call>) {
    Registrations(Sends(calls)) == CountType(Launches(calls), OSD)
  }

  lemma RegistrationsAppend(sent: seq<Envelope>, env: Envelope)
    ensures Registrations(sent + [env]) == Registrations(sent) + if env.message == RegisterOsd then 1 else 0
  {
    assert (sent + [env])[..|sent + [env]| - 1] == sent;
  }

  lemma LaunchKeepsRegistered(s: Sched, s': Sched, info: TaskInfo, ch: Choice)
    requires Registered(s.calls) && NewTask(s, s', info, ch)
    requires info.initial <==> info.taskType == MON && info.token == 0
    ensures Registered(s'.calls)
  {
    hide WellNamed, Registrations;
    var sent := Sends(s.calls);
    LogGrows(Launches(s.calls), info);
    if info.taskType == OSD {
      RegistrationsAppend(sent, Registration(info, ch)[0]);
    } else {
      assert sent + Registration(info, ch) == sent;
    }
  }
}
