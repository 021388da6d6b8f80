/** The textual names and messages of the protocol, and what the receiving side reads from them. */
module Wire {
  import opened Text
  import opened Types

  function TypeCode(t: TaskType): nat {
    match t case MON => 0 case OSD => 1 case RADOSGW => 2
  }

  function TypePrefix(t: TaskType): string {
    match t case MON => "mon" case OSD => "osd" case RADOSGW => "radosgw"
  }

  // ---------------------------------------------------------------- task names and ids

  function TaskName(t: TaskType, token: int): string {
    TypePrefix(t) + IntText(token)
  }

  function TaskIdText(t: TaskType, token: int, hostname: string, slaveId: string): string {
    TaskName(t, token) + "." + (hostname + "." + slaveId)
  }

  /** CephExecutor::getContainerName; None is a read of a token that does not exist. */
  function ContainerName(taskId: string): Option<string> {
    var tokens := Explode(taskId, '.');
    if |tokens| == 0 then None else Some(tokens[0])
  }

  const INITIAL_MON_PREFIX := "mon0"

  lemma TaskNameFree(t: TaskType, token: int)
    ensures '.' !in TaskName(t, token)
  {
    DigitsFree(token, '.');
  }

  /** The container of a task is named after its type and token, whatever its host and slave are called. */
  lemma ContainerNameOfTask(t: TaskType, token: int, hostname: string, slaveId: string)
    ensures ContainerName(TaskIdText(t, token, hostname, slaveId)) == Some(TaskName(t, token))
  {
    TaskNameFree(t, token);
    ExplodeFirst(TaskName(t, token), '.', hostname + "." + slaveId);
  }

  lemma TasksSeparate(i: TaskInfo, j: TaskInfo)
    requires WellNamed(i) && WellNamed(j) && i.taskId == j.taskId
    ensures i.taskType == j.taskType && i.token == j.token
  {
    TaskIdsSeparate(i.taskType, i.token, i.hostname, i.slaveId, j.taskType, j.token, j.hostname, j.slaveId);
  }

  /** Task ids separate types and tokens, even for hosts and slaves whose names contain dots. */
  lemma TaskIdsSeparate(t1: TaskType, n1: int, h1: string, s1: string, t2: TaskType, n2: int, h2: string, s2: string)
    requires TaskIdText(t1, n1, h1, s1) == TaskIdText(t2, n2, h2, s2)
    ensures t1 == t2 && n1 == n2
  {
    ContainerNameOfTask(t1, n1, h1, s1);
    ContainerNameOfTask(t2, n2, h2, s2);
    assert TaskName(t1, n1)[0] == TypePrefix(t1)[0] && TaskName(t2, n2)[0] == TypePrefix(t2)[0];
    assert TaskName(t1, n1)[|TypePrefix(t1)|..] == IntText(n1);
    assert TaskName(t2, n2)[|TypePrefix(t2)|..] == IntText(n2);
    IntTextInjective(n1, n2);
  }

  /** The prefix test of getInitialMon holds of the MON with token 0 and of no other task. */
  lemma InitialMonPrefix(t: TaskType, token: int, hostname: string, slaveId: string)
    ensures INITIAL_MON_PREFIX <= TaskIdText(t, token, hostname, slaveId) <==> t == MON && token == 0
  {
    var id := TaskIdText(t, token, hostname, slaveId);
    assert id[0] == TypePrefix(t)[0];
    if t == MON {
      assert id[3] == IntText(token)[0];
      if token == 0 {
        assert id[..4] == "mon0";
      } else {
        assert id[3] != INITIAL_MON_PREFIX[3];
      }
    } else {
      assert id[0] != INITIAL_MON_PREFIX[0];
    }
  }

  // ---------------------------------------------------------------- executor ids

  const EXECUTOR_NAME := "ceph-mesos-executor"

  function ExecutorIdText(t: TaskType, token: int, now: int): string {
    EXECUTOR_NAME + "." + (IntText(TypeCode(t)) + "." + (IntText(token) + "." + IntText(now)))
  }

  /** The type code and token that an executor id carries. */
  function ExecutorKey(executorId: string): (int, int) {
    KeyOfTokens(Explode(executorId, '.'))
  }

  function KeyOfTokens(tokens: seq<string>): (int, int) {
    if |tokens| != 4 || IntValue(tokens[1]) == None || IntValue(tokens[2]) == None then (-1, -1)
    else (IntValue(tokens[1]).value, IntValue(tokens[2]).value)
  }

  /** Executor ids separate types and tokens, whenever they are created. */
  lemma ExecutorKeyOfTask(t: TaskType, token: int, now: int)
    ensures ExecutorKey(ExecutorIdText(t, token, now)) == (TypeCode(t), token)
  {
    hide IntText, Explode, IntValue, TypeCode;
    DigitsFree(TypeCode(t), '.');
    DigitsFree(token, '.');
    DigitsFree(now, '.');
    ExplodeFour(EXECUTOR_NAME, IntText(TypeCode(t)), IntText(token), IntText(now), '.');
    IntTextRoundTrip(TypeCode(t));
    IntTextRoundTrip(token);
  }

  /** The ids of a task spell out its type and token. */
  predicate WellNamed(info: TaskInfo) {
    && info.taskId == TaskIdText(info.taskType, info.token, info.hostname, info.slaveId)
    && info.executorId == ExecutorIdText(info.taskType, info.token, info.now)
  }

  lemma ExecutorIdsSeparate(i: TaskInfo, j: TaskInfo)
    requires WellNamed(i) && WellNamed(j) && i.executorId == j.executorId
    ensures i.taskType == j.taskType && i.token == j.token
  {
    ExecutorKeyOfTask(i.taskType, i.token, i.now);
    ExecutorKeyOfTask(j.taskType, j.token, j.now);
  }

  // ---------------------------------------------------------------- task data

  function TaskData(initial: bool, t: TaskType): string {
    (if initial then "1" else "0") + "." + IntText(TypeCode(t))
  }

  /** What launchTask reads from the task data: whether to skip copying the configuration, and the type code. */
  function ReadTaskData(data: string): Option<(bool, int)> {
    var tokens := Explode(data, '.');
    if |tokens| < 2 || ParseInt(tokens[1]) == None then None
    else Some((tokens[0] == "1", ParseInt(tokens[1]).value))
  }

  lemma TaskDataRoundTrip(initial: bool, t: TaskType)
    ensures ReadTaskData(TaskData(initial, t)) == Some((initial, TypeCode(t)))
  {
    var flag := if initial then "1" else "0";
    DigitsFree(TypeCode(t), '.');
    ExplodeTwo(flag, '.', IntText(TypeCode(t)));
    IntTextRoundTrip(TypeCode(t));
  }

  lemma Respell(a: string, b: string, c: string, d: string)
    ensures a + b + "." + c + "." + d == a + b + "." + (c + "." + d)
  {
  }

  /** The texts of the task ids. */
  lemma TaskIdsSpelled(token: int, hostname: string, slaveId: string)
    ensures TaskIdText(MON, token, hostname, slaveId) == "mon" + IntText(token) + "." + hostname + "." + slaveId
    ensures TaskIdText(OSD, token, hostname, slaveId) == "osd" + IntText(token) + "." + hostname + "." + slaveId
    ensures TaskIdText(RADOSGW, token, hostname, slaveId) == "radosgw" + IntText(token) + "." + hostname + "." + slaveId
  {
    hide IntText;
    Respell("mon", IntText(token), hostname, slaveId);
    Respell("osd", IntText(token), hostname, slaveId);
    Respell("radosgw", IntText(token), hostname, slaveId);
  }

  /** The texts of the executor ids. */
  lemma ExecutorIdsSpelled(t: TaskType, token: int, now: int)
    ensures var code := match t case MON => "0" case OSD => "1" case RADOSGW => "2";
            ExecutorIdText(t, token, now)
            == "ceph-mesos-executor." + (code + "." + (IntText(token) + "." + IntText(now)))
  {
    assert IntText(TypeCode(t)) == match t case MON => "0" case OSD => "1" case RADOSGW => "2";
    hide IntText;
    assert EXECUTOR_NAME + "." == "ceph-mesos-executor.";
  }

  /** The texts of the task data. */
  lemma TaskDataSpelled()
    ensures TaskData(true, MON) == "1.0" && TaskData(false, MON) == "0.0"
    ensures TaskData(false, OSD) == "0.1" && TaskData(false, RADOSGW) == "0.2"
  {
  }

  /** Task data that is a single token, or whose second token is no integer, ends the executor. */
  lemma MalformedTaskData(a: string, b: string)
    requires a != "" && b != "" && Free(a, ".") && Free(b, ".")
    ensures ReadTaskData("") == None && ReadTaskData(a) == None
    ensures ReadTaskData(a + "." + b) == None <==> ParseInt(b) == None
  {
    hide ParseInt;
    ExplodeOnly(a, '.');
    ExplodeTwo(a, '.', b);
  }

  // ---------------------------------------------------------------- messages to executors

  const REGISTER_OSD := 20
  const LAUNCH_OSD := 21

  function RegisterText(): string {
    IntText(REGISTER_OSD)
  }

  function LaunchText(osdId: int): string {
    IntText(LAUNCH_OSD) + "." + IntText(osdId)
  }

  function MessageText(m: Message): string {
    match m case RegisterOsd => RegisterText() case LaunchOsd(osdId) => LaunchText(osdId)
  }

  /** What an executor makes of a message; Crash is the uncaught exception of a malformed one. */
  datatype Order = Register | Launch(osdId: string) | Nothing | Crash

  function ReadOrder(data: string): Order {
    var tokens := Explode(data, '.');
    if |tokens| == 0 || ParseInt(tokens[0]) == None then Crash
    else if ParseInt(tokens[0]).value == REGISTER_OSD then Register
    else if ParseInt(tokens[0]).value == LAUNCH_OSD && |tokens| == 2 then Launch(tokens[1])
    else Nothing
  }

  /** The executor reads the message that the scheduler wrote. */
  lemma MessageRoundTrip(m: Message)
    ensures ReadOrder(MessageText(m)) == match m case RegisterOsd => Register case LaunchOsd(id) => Launch(IntText(id))
  {
    match m {
      case RegisterOsd => RegisterRoundTrip();
      case LaunchOsd(id) => LaunchRoundTrip(id);
    }
  }

  lemma RegisterRoundTrip()
    ensures ReadOrder(RegisterText()) == Register
  {
    DigitsFree(REGISTER_OSD, '.');
    ExplodeOnly(RegisterText(), '.');
    IntTextRoundTrip(REGISTER_OSD);
  }

  lemma LaunchRoundTrip(osdId: int)
    ensures ReadOrder(LaunchText(osdId)) == Launch(IntText(osdId))
  {
    DigitsFree(LAUNCH_OSD, '.');
    DigitsFree(osdId, '.');
    ExplodeTwo(IntText(LAUNCH_OSD), '.', IntText(osdId));
    IntTextRoundTrip(LAUNCH_OSD);
  }

  lemma MessagesSpelled(osdId: int)
    ensures MessageText(RegisterOsd) == "20" && MessageText(LaunchOsd(osdId)) == "21." + IntText(osdId)
  {
  }

  /** A message without an integer code ends the executor; one with another code, or with LAUNCH_OSD and not exactly
      one id, is ignored. */
  lemma MalformedOrders(code: string, id: string, more: string)
    requires code != "" && id != "" && more != "" && Free(code, ".") && Free(id, ".") && Free(more, ".")
    ensures ReadOrder("") == Crash
    ensures ParseInt(code) == None ==> ReadOrder(code) == ReadOrder(code + "." + id) == Crash
    ensures ParseInt(code) == Some(21) ==>
              ReadOrder(code) == Nothing && ReadOrder(code + "." + id) == Launch(id)
              && ReadOrder(code + "." + id + "." + more) == Nothing
    ensures ParseInt(code) != None && ParseInt(code) != Some(20) && ParseInt(code) != Some(21) ==>
              ReadOrder(code) == ReadOrder(code + "." + id) == Nothing
  {
    hide ParseInt, Explode;
    OrderTokens(code, id, more);
  }

  lemma OrderTokens(code: string, id: string, more: string)
    requires code != "" && id != "" && more != "" && Free(code, ".") && Free(id, ".") && Free(more, ".")
    ensures Explode("", '.') == [] && Explode(code, '.') == [code] && Explode(code + "." + id, '.') == [code, id]
    ensures Explode(code + "." + id + "." + more, '.') == [code, id, more]
  {
    assert Explode("", '.') == [];
    hide Explode;
    ExplodeOnly(code, '.');
    ExplodeTwo(code, '.', id);
    assert code + "." + id + "." + more == code + "." + (id + "." + more) by { Reassociate(code, id, more); }
    ExplodeThree(code, id, more, '.');
  }

  lemma Reassociate(a: string, b: string, c: string)
    ensures a + "." + b + "." + c == a + "." + (b + "." + c)
  {
  }

  // ---------------------------------------------------------------- the DISK_READY report

  const DISK_READY := 2

  function Concatenated(names: seq<string>): string {
    if names == [] then "" else Concatenated(names[..|names| - 1]) + names[|names| - 1]
  }

  /** The failed devices as DiskExecutor::prepareReturnValue writes them: a comma after every OSD device, but among
      the journals only after the last. */
  function FailedText(osd: seq<string>, jnl: seq<string>): string {
    var text := Terminated(osd, ',') + if jnl == [] then "" else Concatenated(jnl) + ",";
    if text == "" then "-" else text
  }

  function DiskReadyText(hostname: string, osd: seq<string>, jnl: seq<string>): string {
    IntText(DISK_READY) + "." + (hostname + ":" + FailedText(osd, jnl))
  }

  /** What statusUpdate reads from the message of a finished task. Undefined is a read past the end of a token list
      or an uncaught conversion error. */
  datatype DiskNews = Ignored | Undefined | Ready(hostname: string, failed: seq<string>)

  function ReadDiskNews(message: Option<string>): DiskNews {
    if message == None then Ignored
    else
      var tokens := Explode(message.value, '.');
      if |tokens| == 0 || ParseInt(tokens[0]) == None then Undefined
      else if ParseInt(tokens[0]).value != DISK_READY then Ignored
      else if |tokens| < 2 then Undefined
      else ReadReport(tokens[1])
  }

  function ReadReport(report: string): DiskNews {
    var parts := Explode(report, ':');
    if |parts| < 2 then Undefined
    else Ready(parts[0], if parts[1] == "-" then [] else Explode(parts[1], ','))
  }

  predicate Free(s: string, marks: string) {
    forall c :: c in marks ==> c !in s
  }

  predicate AllFree(names: seq<string>, marks: string) {
    forall i :: 0 <= i < |names| ==> Free(names[i], marks)
  }

  /** A message of a finished task that has no integer code, or DISK_READY without a host and a colon, is a read past
      the end or an uncaught error; any other code is ignored. */
  lemma MalformedReports(code: string, rest: string)
    requires code != "" && rest != "" && Free(code, ".") && Free(rest, ".")
    ensures ReadDiskNews(None) == Ignored && ReadDiskNews(Some("")) == Undefined
    ensures ParseInt(code) == None ==> ReadDiskNews(Some(code)) == ReadDiskNews(Some(code + "." + rest)) == Undefined
    ensures ParseInt(code) == Some(2) ==> ReadDiskNews(Some(code)) == Undefined
    ensures ParseInt(code) == Some(2) && Free(rest, ":") ==> ReadDiskNews(Some(code + "." + rest)) == Undefined
    ensures ParseInt(code) != None && ParseInt(code) != Some(2) ==>
              ReadDiskNews(Some(code)) == ReadDiskNews(Some(code + "." + rest)) == Ignored
  {
    hide ParseInt;
    ExplodeOnly(code, '.');
    ExplodeTwo(code, '.', rest);
    if Free(rest, ":") {
      ExplodeOnly(rest, ':');
    }
  }

  /** The failed list that survives the wire: the journals arrive glued together. */
  function GluedList(osd: seq<string>, jnl: seq<string>): seq<string> {
    osd + if jnl == [] then [] else [Concatenated(jnl)]
  }

  lemma {:induction false} TerminatedFree(names: seq<string>, d: char, c: char)
    requires c != d && forall i :: 0 <= i < |names| ==> c !in names[i]
    ensures c !in Terminated(names, d)
  {
    if names != [] {
      TerminatedFree(names[1..], d, c);
    }
  }

  lemma {:induction false} ConcatenatedFree(names: seq<string>, c: char)
    requires forall i :: 0 <= i < |names| ==> c !in names[i]
    ensures c !in Concatenated(names)
  {
    if names != [] {
      ConcatenatedFree(names[..|names| - 1], c);
    }
  }

  lemma {:induction false} TerminatedAppend(names: seq<string>, last: string, d: char)
    ensures Terminated(names + [last], d) == Terminated(names, d) + last + [d]
  {
    if names == [] {
      assert Terminated([] + [last], d) == last + [d] + Terminated([], d);
    } else {
      TerminatedAppend(names[1..], last, d);
      assert (names + [last])[1..] == names[1..] + [last];
    }
  }

  /** The report is the glued list with every entry terminated, or a dash when nothing failed. */
  lemma FailedTextIsTerminated(osd: seq<string>, jnl: seq<string>)
    ensures FailedText(osd, jnl) ==
            if GluedList(osd, jnl) == [] then "-" else Terminated(GluedList(osd, jnl), ',')
  {
    if jnl == [] {
      assert GluedList(osd, jnl) == osd;
    } else {
      TerminatedAppend(osd, Concatenated(jnl), ',');
    }
  }

  lemma GluedFree(osd: seq<string>, jnl: seq<string>, c: char)
    requires forall i :: 0 <= i < |osd| ==> c !in osd[i]
    requires forall i :: 0 <= i < |jnl| ==> c !in jnl[i]
    ensures forall i :: 0 <= i < |GluedList(osd, jnl)| ==> c !in GluedList(osd, jnl)[i]
  {
    ConcatenatedFree(jnl, c);
  }

  lemma TerminatedEnds(names: seq<string>, d: char)
    requires names != []
    ensures Terminated(names, d) != "" && Terminated(names, d)[|Terminated(names, d)| - 1] == d
  {
    TerminatedAppend(names[..|names| - 1], names[|names| - 1], d);
    assert names[..|names| - 1] + [names[|names| - 1]] == names;
  }

  lemma FailedTextFree(osd: seq<string>, jnl: seq<string>, c: char)
    requires c != ',' && c != '-' && AllFree(osd, [c]) && AllFree(jnl, [c])
    ensures c !in FailedText(osd, jnl)
  {
    FailedTextIsTerminated(osd, jnl);
    GluedFree(osd, jnl, c);
    TerminatedFree(GluedList(osd, jnl), ',', c);
  }

  lemma ReadFailedText(osd: seq<string>, jnl: seq<string>)
    requires AllFree(osd, ",") && AllFree(jnl, ",")
    ensures var text := FailedText(osd, jnl);
            text != "" && (if text == "-" then [] else Explode(text, ',')) == GluedList(osd, jnl)
  {
    FailedTextIsTerminated(osd, jnl);
    if GluedList(osd, jnl) != [] {
      GluedFree(osd, jnl, ',');
      ExplodeTerminated(GluedList(osd, jnl), ',');
      TerminatedEnds(GluedList(osd, jnl), ',');
    }
  }

  /** The report proper ends at the first dot after the message code. */
  lemma ReadUpToDot(hostname: string, osd: seq<string>, jnl: seq<string>)
    ensures var rest := hostname + ":" + FailedText(osd, jnl);
            ReadDiskNews(Some(DiskReadyText(hostname, osd, jnl))) == ReadReport(rest[..IndexOf(rest, '.')])
  {
    var rest := hostname + ":" + FailedText(osd, jnl);
    DigitsFree(DISK_READY, '.');
    ExplodeFirst(IntText(DISK_READY), '.', rest);
    ExplodeHead(rest, '.');
    IntTextRoundTrip(DISK_READY);
  }

  lemma ReadPlainReport(hostname: string, text: string)
    requires ':' !in hostname && ':' !in text && text != ""
    ensures ReadReport(hostname + ":" + text) == Ready(hostname, if text == "-" then [] else Explode(text, ','))
  {
    ExplodeTwo(hostname, ':', text);
  }

  lemma WholeBeforeDot(s: string)
    requires '.' !in s
    ensures s[..IndexOf(s, '.')] == s
  {
  }

  lemma ReadWholeReport(hostname: string, text: string)
    requires Free(hostname, ".:") && Free(text, ".:") && text != ""
    ensures var rest := hostname + ":" + text;
            ReadReport(rest[..IndexOf(rest, '.')])
            == Ready(hostname, if text == "-" then [] else Explode(text, ','))
  {
    WholeBeforeDot(hostname + ":" + text);
    ReadPlainReport(hostname, text);
  }

  /** A report from a host without dots and colons is read as that host and the glued list. */
  lemma DiskReadyDecodes(hostname: string, osd: seq<string>, jnl: seq<string>)
    requires Free(hostname, ".:") && AllFree(osd, ".:,") && AllFree(jnl, ".:,")
    ensures ReadDiskNews(Some(DiskReadyText(hostname, osd, jnl))) == Ready(hostname, GluedList(osd, jnl))
  {
    ReadFailedText(osd, jnl);
    FailedTextFree(osd, jnl, '.');
    FailedTextFree(osd, jnl, ':');
    ReadUpToDot(hostname, osd, jnl);
    ReadWholeReport(hostname, FailedText(osd, jnl));
  }

  /** The failed list itself arrives exactly when at most one journal failed. */
  lemma DiskReadyRoundTrip(hostname: string, osd: seq<string>, jnl: seq<string>)
    requires Free(hostname, ".:") && AllFree(osd, ".:,") && AllFree(jnl, ".:,")
    ensures ReadDiskNews(Some(DiskReadyText(hostname, osd, jnl))) == Ready(hostname, osd + jnl) <==> |jnl| <= 1
  {
    DiskReadyDecodes(hostname, osd, jnl);
    if |jnl| == 1 {
      assert Concatenated(jnl) == Concatenated([]) + jnl[0] == jnl[0];
      assert jnl == [Concatenated(jnl)];
    } else if |jnl| > 1 {
      assert |GluedList(osd, jnl)| != |osd + jnl|;
    }
  }

  /** A report cut inside the host name, or whose host has a colon, names a shorter host. */
  lemma ReadShortHost(report: string, limit: nat)
    requires IndexOf(report, ':') < limit || |report| < limit
    ensures ReadReport(report).Ready? ==> |ReadReport(report).hostname| < limit
  {
    if report != [] {
      ExplodeHead(report, ':');
    }
  }

  lemma DottedHostIsCut(hostname: string, osd: seq<string>, jnl: seq<string>)
    requires '.' in hostname
    ensures var news := ReadDiskNews(Some(DiskReadyText(hostname, osd, jnl)));
            news.Ready? ==> |news.hostname| < |hostname|
  {
    hide FailedText, ReadReport, ReadDiskNews, DiskReadyText;
    var tail := ":" + FailedText(osd, jnl);
    var rest := hostname + ":" + FailedText(osd, jnl);
    assert rest == hostname + tail;
    ReadUpToDot(hostname, osd, jnl);
    IndexOfPrefix(hostname, '.', tail);
    ReadShortHost(rest[..IndexOf(rest, '.')], |hostname|);
  }

  lemma ColonHostIsCut(hostname: string, osd: seq<string>, jnl: seq<string>)
    requires '.' !in hostname && ':' in hostname && '.' !in FailedText(osd, jnl)
    ensures var news := ReadDiskNews(Some(DiskReadyText(hostname, osd, jnl)));
            news.Ready? ==> |news.hostname| < |hostname|
  {
    var tail := ":" + FailedText(osd, jnl);
    var rest := hostname + ":" + FailedText(osd, jnl);
    assert rest == hostname + tail;
    ReadUpToDot(hostname, osd, jnl);
    WholeBeforeDot(rest);
    IndexOfPrefix(hostname, ':', tail);
    ReadShortHost(rest, |hostname|);
  }

  /** The scheduler attributes a report to the host that sent it exactly when the host has no dot and no colon. */
  lemma DiskReadyNeedsPlainHost(hostname: string, osd: seq<string>, jnl: seq<string>)
    requires AllFree(osd, ".:,") && AllFree(jnl, ".:,")
    ensures var news := ReadDiskNews(Some(DiskReadyText(hostname, osd, jnl)));
            news.Ready? && news.hostname == hostname <==> Free(hostname, ".:")
  {
    if '.' in hostname {
      DottedHostIsCut(hostname, osd, jnl);
    } else if ':' in hostname {
      FailedTextFree(osd, jnl, '.');
      ColonHostIsCut(hostname, osd, jnl);
    } else {
      DiskReadyDecodes(hostname, osd, jnl);
    }
  }
}
