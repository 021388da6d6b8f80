/** The values that the scheduler, the executors and the Mesos driver exchange. */
module Types {
  import opened Text

  datatype TaskType = MON | OSD | RADOSGW

  datatype Status = STAGING | WAITING_OSDID | STARTING | RUNNING | FAILED | FINISHED | UNKNOWN

  datatype Phase = RECONCILING_TASKS | BOOTSTRAP_MON | BOOTSTRAP_OSD | BOOTSTRAP_RADOSGW | WAITING_REQUEST

  /** The part of the merged configuration of a host that concerns its disks. */
  datatype HostSpec = HostSpec(osddevs: seq<string>, jnldevs: seq<string>, jnlparts: int)

  datatype TaskState = TaskState(
    taskId: string, executorId: string, taskType: TaskType,
    hostName: string, slaveId: string, currentStatus: Status)

  /** An offer. `hasRole` and `enough` are the verdicts of the role and resource tests on it, and `spec` is what
      the configuration files say about its host when it arrives. */
  datatype Offer = Offer(id: string, hostname: string, slaveId: string, hasRole: bool, enough: bool, spec: HostSpec)

  datatype Label = Label(key: string, value: string)

  /** What launchNode puts into a Ceph task. The name is given by its type and token; `now` is the timestamp in the
      executor id, and `configHost` the host that the configuration URIs name, if there are any. */
  datatype TaskInfo = TaskInfo(
    taskId: string, executorId: string, taskType: TaskType, token: int, hostname: string, slaveId: string, now: int,
    initial: bool, osdDisk: string, jnlDisk: string, configHost: Option<string>)

  /** The two messages of the scheduler to an executor; Wire.MessageText is what is sent. */
  datatype Message = RegisterOsd | LaunchOsd(osdId: int)

  datatype Envelope = Envelope(executorId: string, slaveId: string, message: Message)

  /** The driver calls of the scheduler. A launch also records the phase it was made in. */
  datatype Call =
    | DeclineOffer(offerId: string, refuseSeconds: Option<int>)
    | LaunchDisk(offerId: string, hostname: string, labels: seq<Label>)
    | LaunchTask(offerId: string, info: TaskInfo, during: Phase)
    | SendMessage(envelope: Envelope)
}
