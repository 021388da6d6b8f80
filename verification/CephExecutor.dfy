/** The status and message behaviour of the Ceph executor (src/executor/CephExecutor.cpp). Shell and docker
    commands succeed or fail as the environment decides. */
module CephExecutors {
  import opened Text
  import opened Types
  import opened Wire
  import opened Schedulers

  /** Where an executor is: its task not yet received, an OSD waiting for its id, a task reported running, a task that
      the executor itself reported failed while its process lives on, a callback that never returns, or the process
      gone. */
  datatype Exec = Staged | AwaitingId | Up | Stopped | Hung | Gone

  /** What becomes of a container: its daemon answers, it does not, or docker never lists the container at all. */
  datatype Container = Healthy | Unwell | Missing

  /** What an executor that starts a container comes to, and reports. */
  function AfterStart(c: Container): (Exec, seq<Update>) {
    match c case Healthy => (Up, [Running]) case Unwell => (Stopped, [Failed]) case Missing => (Hung, [])
  }

  /** launchTask: `copied` tells whether the directory and the configuration files could be set up. `data` is the task
      data; a type code that is none of the three starts an empty command. */
  function OnLaunch(data: string, copied: bool, container: Container): Option<(Exec, seq<Update>)> {
    match ReadTaskData(data)
    case None => None
    case Some((_, code)) =>
      if !copied then Some((Stopped, [Failed]))
      else if code == TypeCode(OSD) then Some((AwaitingId, [Starting]))
      else Some(AfterStart(container))
  }

  /** frameworkMessage: the new state, the status updates, and whether the output of `ceph osd create` is sent back. */
  function OnMessage(e: Exec, data: string, container: Container): (Exec, seq<Update>, bool) {
    match ReadOrder(data)
    case Register => (e, [], true)
    case Launch(_) => (AfterStart(container).0, AfterStart(container).1, false)
    case _ => (e, [], false)
  }

  /** The container that the answers of `docker ps` and of `ceph mon stat` tell of. */
  function ContainerSeen(answers: seq<bool>, serves: bool): Container {
    if true !in answers then Missing else if serves then Healthy else Unwell
  }

  /** block_until_started, with the answers of `docker ps` so far. The clock is read once and never again, so the
      deadline ends nothing: None is a loop that still polls, however often it has asked. */
  method BlockUntilStarted(now: int, timeout: int, answers: seq<bool>, serves: bool) returns (r: Option<bool>)
    ensures timeout > 0 ==>
              (r == None <==> ContainerSeen(answers, serves) == Missing)
              && (r == Some(true) <==> ContainerSeen(answers, serves) == Healthy)
    ensures timeout <= 0 ==> r == Some(false)
  {
    var current := now;
    var deadline := current + timeout;
    var seen, i := false, 0;
    while current < deadline
      invariant i <= |answers| && true !in answers[..i] && !seen
      decreases |answers| - i
    {
      if i == |answers| {
        return None;
      }
      seen := answers[i];
      i := i + 1;
      if seen {
        break;
      }
    }
    if !seen {
      return Some(false);
    }
    r := Some(serves);
  }

  /** How a callback ends, if it does. */
  datatype Ending = Returned | Crashed | Polling

  class ExecutorDriver {
    var updates: seq<Update>
    var messages: seq<string>

    constructor ()
      ensures updates == [] && messages == []
    {
      updates, messages := [], [];
    }

    method SendStatusUpdate(u: Update)
      modifies this`updates
      ensures updates == old(updates) + [u]
    {
      updates := updates + [u];
    }

    method SendFrameworkMessage(data: string)
      modifies this`messages
      ensures messages == old(messages) + [data]
    {
      messages := messages + [data];
    }
  }

  class CephExecutor {
    var containerName: string
    var myTaskId: string
    var osddisk: string
    var jnldisk: string
    /** The id whose directories hold the mounted disks of an OSD. */
    var mountedFor: string
    ghost var state: Exec

    constructor ()
      ensures state == Staged
    {
      containerName, myTaskId, osddisk, jnldisk, mountedFor := "", "", "", "", "";
      state := Staged;
    }

    /** launchTask of the task `info`. A crash is an uncaught conversion error, after which nothing is sent. */
    method LaunchTask(driver: ExecutorDriver, info: TaskInfo, data: string, hasLabels: bool, dirMade: bool,
                      copiedFiles: bool, now: int, answers: seq<bool>, serves: bool)
      returns (end: Ending)
      requires info.taskId != ""
      modifies this, driver
      ensures end == Crashed <==> ReadTaskData(data) == None
      ensures driver.messages == old(driver.messages)
      ensures end != Crashed ==>
                var skipCopy := ReadTaskData(data).value.0;
                var copied := hasLabels && dirMade && (skipCopy || copiedFiles);
                var r := OnLaunch(data, copied, ContainerSeen(answers, serves)).value;
                && (end == Polling <==> r.0 == Hung)
                && state == r.0 && driver.updates == old(driver.updates) + r.1
                && (hasLabels ==> osddisk == info.osdDisk && jnldisk == info.jnlDisk)
                && (copied ==> myTaskId == info.taskId && ContainerName(info.taskId) == Some(containerName))
      ensures end == Crashed ==> state == old(state) && driver.updates == old(driver.updates)
    {
      hide Explode, ParseInt;
      var tokens := ExplodeText(data, '.');
      if |tokens| < 2 || ParseInt(tokens[1]) == None {
        return Crashed;
      }
      end := Returned;
      var needCopyConfig := tokens[0] != "1";
      var taskType := ParseInt(tokens[1]).value;
      if !hasLabels {
        driver.SendStatusUpdate(Failed);
        state := Stopped;
        return;
      }
      osddisk, jnldisk := info.osdDisk, info.jnlDisk;
      if !dirMade {
        driver.SendStatusUpdate(Failed);
        state := Stopped;
        return;
      }
      if needCopyConfig {
        if !copiedFiles {
          driver.SendStatusUpdate(Failed);
          state := Stopped;
          return;
        }
      }
      var names := ExplodeText(info.taskId, '.');
      ExplodeHead(info.taskId, '.');
      containerName := names[0];
      myTaskId := info.taskId;
      if taskType == TypeCode(OSD) {
        driver.SendStatusUpdate(Starting);
        state := AwaitingId;
        return;
      }
      end := StartContainer(driver, now, 60, answers, serves);
    }

    /** The wait for a container that was started, and the report on it. */
    method StartContainer(driver: ExecutorDriver, now: int, timeout: int, answers: seq<bool>, serves: bool)
      returns (end: Ending)
      requires timeout > 0
      modifies this`state, driver
      ensures var r := AfterStart(ContainerSeen(answers, serves));
              && state == r.0 && driver.updates == old(driver.updates) + r.1 && driver.messages == old(driver.messages)
              && end == if r.0 == Hung then Polling else Returned
    {
      var started := BlockUntilStarted(now, timeout, answers, serves);
      match started {
        case None =>
          state := Hung;
          return Polling;
        case Some(ok) =>
          driver.SendStatusUpdate(if ok then Running else Failed);
          state := if ok then Up else Stopped;
      }
      end := Returned;
    }

    /** frameworkMessage. Mounting never reports a failure, so only the container decides. `created` is the output of
        `ceph osd create`. A crash is an uncaught conversion error. */
    method FrameworkMessage(driver: ExecutorDriver, data: string, created: string, now: int, answers: seq<bool>,
                            serves: bool)
      returns (end: Ending)
      modifies this`state, this`mountedFor, driver
      ensures end == Crashed <==> ReadOrder(data) == Crash
      ensures end == Polling <==> ReadOrder(data).Launch? && ContainerSeen(answers, serves) == Missing
      ensures end != Crashed ==>
                var r := OnMessage(old(state), data, ContainerSeen(answers, serves));
                && state == r.0 && driver.updates == old(driver.updates) + r.1
                && driver.messages == old(driver.messages) + if r.2 then [created] else []
      ensures end == Crashed ==> state == old(state)
      ensures end == Crashed ==> driver.updates == old(driver.updates) && driver.messages == old(driver.messages)
      ensures ReadOrder(data).Launch? ==> mountedFor == ReadOrder(data).osdId
    {
      var tokens := ExplodeText(data, '.');
      if |tokens| == 0 || ParseInt(tokens[0]) == None {
        return Crashed;
      }
      end := Returned;
      var msg := ParseInt(tokens[0]).value;
      if msg == REGISTER_OSD {
        driver.SendFrameworkMessage(created);
      } else if msg == LAUNCH_OSD {
        if |tokens| == 2 {
          mountedFor := tokens[1];
          end := StartContainer(driver, now, 30, answers, serves);
        }
      }
    }
  }
}
