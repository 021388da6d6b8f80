# Ceph on Mesos: the scheduling protocol

This project models the scheduler of a Mesos framework that starts and grows a Ceph cluster, the executors it talks to,
and the channels between them, and proves what holds over every run of them together.

The scheduler takes a cluster through the phases BOOTSTRAP_MON, BOOTSTRAP_OSD, BOOTSTRAP_RADOSGW and WAITING_REQUEST. It
launches tasks on offers, prepares the raw disks of hosts, hands partitions to OSDs, asks the first MON (`mon0`) for an
OSD id per OSD, and serves flex-up requests that arrive over HTTP.

## How it is built

| files | content |
|---|---|
| `Text`, `Wire`, `Cidr` | tokenizing, decimal texts, every name and message of the protocol, network matching |
| `HostConfig`, `DiskExecutor` | the disk pool of a host; the executor that partitions and formats |
| `StateMachine`, `Scheduler` | the counters, phases and callbacks, as functions on values, and the state machine as an object |
| `SchedulerAgent`, `CephExecutor`, `FlexUp` | the scheduler, the executor, the REST check and the event loop as objects updated in place, tied to those functions |
| `Protocol` | the world (scheduler, executors, channels, queue) and its events: one transition system |
| `Effects`, `Counters`, `Identity`, `Messages`, `Supply`, `Disks`, `OfferAnswers`, `Assignments` | what each kind of step does to one aspect of the state |
| `Invariant`, `Runs`, `Evolution` | the invariant, that every event keeps it, and what a single event may change |
| `Safety`, `Conservation`, `InitialMon` | what holds over whole runs |
| `Decisions`, `HostSetup`, `Outcomes` | what every offer, host entry, disk task and executor of a run comes to, told from records, offers and messages alone |
| `Service` | flex-up requests: in which order they are served, and that they can be |
| `DiskUse` | which partitions the OSDs of a run get, and which hosts never get a task |
| `Deadlocks`, `Recovery` | which worlds can never complete the bootstrap, and that all others can |
| `Departures`, `Witnesses` | where the code departs from its intent, and concrete runs |

The environment: callbacks are atomic; the status updates of one task arrive once and in order, and a failure is its
last one; messages between scheduler and executors are not lost while the executor's process lives, but arrive in any
order; disk reports may carry any text and may be repeated; a container comes up, or comes up without serving, or is never
listed by docker; any executor's process may end at any time, with a failure report or without one (killed, lost). An
executor whose container comes up without serving reports its task failed, but its process lives on and goes on answering
messages. One whose container is never listed polls for ever: it reports nothing and takes no further message.
`getInitialMon` and the scan for waiting tasks iterate over a map, so every order of that iteration is allowed.

## Where the code differs from its intent

* A task that fails while WAITING_OSDID or STARTING stays in the staging counter (src/state/StateMachine.cpp:94).
  `Departures.StagingExactUnlessFailedLate` gives the exact condition, `Witnesses.LateFailureRun` a run of eight events.
* `block_until_started` reads the clock once, so its deadline ends nothing (src/executor/CephExecutor.cpp:242-254,
  `CephExecutors.BlockUntilStarted`). An OSD whose container never appears keeps its STARTING record and its place: a
  failure of its executor would not be counted either (`Witnesses.HungRun`, ten events, every process alive).
* Three things keep the bootstrap from ever being completed: a failure that was not counted; a task that will neither
  run nor fail countably, because its executor ended or polls for ever; and fewer than three ids, counting those in use,
  when `mon0` takes no more messages. Once `mon0` was launched, and as long as no flex-up was, nothing else does
  (`Recovery.BootstrapCanCompleteIff`); before the first MON token is spent nothing does (`Recovery.BootstrapCanStart`).
* A token that was accepted and then declined for lack of resources is not given back
  (src/scheduler/CephSchedulerAgent.hpp:295-299). The first offer that gets a MON token therefore decides for good whether
  there will be a `mon0` (`InitialMons.FirstDeciderSettles`, `Witnesses.LostMonRun`).
* The devices a disk report names as failed are parsed into a variable that shadows the one passed on
  (src/scheduler/CephSchedulerAgent.hpp:231-236): the pool is right exactly when no OSD device failed and no journal
  either, unless journals are to have no partitions (`DiskExecutors.PooledAsWritten`, `Departures.FailedDeviceIsPooled`).
  No host of any run ever records a failed device (`HostSetups.DoneExactlyWhenNamed`).
* Two or more failed journals are glued together on the wire (src/executor/DiskExecutor.cpp:184-190), and a host with a
  dot or a colon in its name is not recognised (`Wire.DiskReadyRoundTrip`, `Wire.DiskReadyNeedsPlainHost`).
* `getInitialMon` still answers with `mon0` after it failed. While its process lives it still supplies ids
  (`Conservation.FailedMonStillSupplies`, `Witnesses.FailedMonRun`); once it polls for ever or is gone, no further id is
  produced (`Conservation.SilentMonSuppliesNothing`, `Deadlocks.StarvedForever`).
* A flex-up request for MONs is answered with success and then dropped (src/httpserver/RestServer.cpp:30,
  src/scheduler/EventLoop.cpp:61-66): all accepted instances are served if and only if there is none
  (`FlexUp.AcceptedIsKeptOnlyForOsds`, `Conservation.AcceptedAreServedUnlessForMons`, `Conservation.MonRequestExample`).
* `matchIPToCIDR` compares whole octets (`Cidr.MatchIsMembershipIffWholeOctets`).
* A disk task without labels is reported failed and then finished all the same (src/executor/DiskExecutor.cpp:58-68),
  and a journal partition count of 0 ends the disk executor with a division by zero (src/executor/DiskExecutor.cpp:130)
  (`DiskExecutors.DiskExecutor.LaunchTask`). No failure of a disk task is heeded: a host whose disk executor ends
  without a DISK_READY report, or whose report is not attributed to it, is left preparing and gets no Ceph task in any
  continuation without a report that names it (`DiskUse.PreparesUntilNamed`).
* An OSD for which its host has no partition left is launched all the same and uses the system disk
  (src/executor/CephExecutor.cpp:366-369): from the OSD on that has as many before it on its host as the host has data
  devices (`DiskUse.DisklessExactlyWhen`).
* An acceptable request of more than 256 bytes is neither queued nor answered, as the queue throws
  (src/scheduler/EventLoop.cpp:36-41, src/httpserver/RestServer.cpp:38) (`FlexUp.MessageQueue.JsonCheck`).

## Model

| member | source | states |
|---|---|---|
| Runs.StepKeepsInv | src/scheduler/CephSchedulerAgent.hpp:193-346 | every event of the composed system keeps the invariant: censuses, bounds, log, disks, channels, ids, requests |
| Runs.RunsAreSound | src/scheduler/CephSchedulerAgent.hpp:193-346 | the invariant holds in every world of every run |
| Safety.RecordsStepLegally | src/state/StateMachine.cpp:157-228 | in every event a record keeps its identity and takes at most one of the steps STAGING, WAITING_OSDID, STARTING, RUNNING or to FAILED; new records are STAGING |
| Safety.RecordsOnlyAdvance | src/state/StateMachine.cpp:157-228 | over any stretch of a run a record is never lost, renamed, or set back |
| Safety.ReportsMeetTheirRecords | src/executor/CephExecutor.cpp:414-483 | every report is a legal step for the record it meets; the RUNNING report of an OSD finds its record STARTING |
| Safety.OneIdPerOsd | src/scheduler/CephSchedulerAgent.hpp:464-498 | an OSD that starts or runs was sent exactly one id, one that stages or waits none, and none ever two |
| Safety.CountersAreACensus | src/state/StateMachine.cpp:41-149 | in every world running counters count RUNNING records, staging counters count the records on their way plus the uncounted failures, none is negative, the phase follows from the running counters, and the populations are bounded |
| Decisions.PhaseTellsWhatRuns | src/state/StateMachine.cpp:136-149 | in every world of every run, flex-ups and failures included: BOOTSTRAP_MON if and only if no MON runs, BOOTSTRAP_OSD if and only if one runs and fewer than three OSDs, BOOTSTRAP_RADOSGW if and only if those run and no gateway, WAITING_REQUEST if and only if all run |
| Decisions.OffersAreUsedExactlyWhen | src/state/StateMachine.cpp:230-281 | in every callback of every run an offer is used for a task of a type if and only if it has role, resources and a host without raw devices, and by the records such a task is due and, once the cluster is complete, a flex-up is listed; the task takes the next token, which is lost otherwise exactly on an offer found wanting |
| Decisions.DueIsDecided | src/state/StateMachine.cpp:230-281 | the decision of nextMove, told from the records: no MON runs or stages; a MON runs and fewer than three OSDs run, stage or failed uncounted, or the cluster is complete; a MON and three OSDs run and no gateway runs or stages |
| Decisions.CallbacksServeFlexUps | src/scheduler/CephSchedulerAgent.hpp:301-310 | a callback in WAITING_REQUEST launches exactly min(usable offers, instances listed) OSDs and takes that many instances from the list |
| Service.FlexUpsCanBeServed | src/scheduler/CephSchedulerAgent.hpp:501-523 | from every world of every run in WAITING_REQUEST some continuation launches an OSD for every instance accepted |
| Service.FirstComeFirstServed | src/scheduler/EventLoop.cpp:57-70 | in every run the list is all OSD requests received so far, oldest first, less one instance from the front per OSD launched in WAITING_REQUEST |
| HostSetups.HostsAreConfigured | src/state/StateMachine.cpp:283-295 | in every run a host has an entry if and only if an offer with the role named it, and its devices are for good those of its configuration at the first such offer |
| HostSetups.DiskTasksAreLabelled | src/scheduler/CephSchedulerAgent.hpp:646-666 | in every run every disk task launched is labelled with the data devices, the journals and the count of its host's configuration |
| HostSetups.CarriedIsRead | src/executor/DiskExecutor.cpp:195-225 | a disk executor reads the count from such labels if it fits in 32 bits |
| HostSetups.OffersAreAnsweredExactly | src/scheduler/CephSchedulerAgent.hpp:270-345 | the driver calls of every offer of every run: refused for 86400 seconds without the role; a labelled disk task and a decline for a raw host, which starts preparing; else the task launched, with a registration for an OSD, or a decline |
| HostSetups.DoneExactlyWhenNamed | src/scheduler/CephSchedulerAgent.hpp:222-239 | in every run a host's preparation is marked done if and only if a report named it, and no host ever records a failed device |
| Outcomes.LaunchOutcome | src/executor/CephExecutor.cpp:572-687 | in every run a launch whose set-up fails is reported failed; an OSD that is set up reports that it starts and waits; any other task reports running, failed or nothing as its container serves, does not, or never appears |
| Outcomes.IdOutcome | src/executor/CephExecutor.cpp:426-473 | in every run an id that is delivered finds an OSD that waits for it, which reports running, failed or nothing in the same way |
| Outcomes.ReplyOutcome | src/scheduler/CephSchedulerAgent.hpp:243-255 | in every run an id that arrives becomes pending if and only if getInitialMon answers with its sender, and nothing else changes |
| Outcomes.RegistrationOutcome | src/executor/CephExecutor.cpp:418-425 | in every run a registration that is delivered is answered with one id and changes nothing at the executor |
| Safety.StuckMeaning | src/state/StateMachine.cpp:94-106 | the uncounted failures are exactly the failures reported of tasks that were WAITING_OSDID or STARTING |
| Safety.LaunchesFindTheirCluster | src/state/StateMachine.cpp:230-281 | every OSD launch happens with a running MON, every gateway launch with a running MON, three running OSDs and no running gateway, every MON launch without a running MON |
| Safety.CompleteWhenWaiting | README.md:5 | in WAITING_REQUEST without flex-up launches exactly 1 MON, 3 OSDs and 1 gateway run and nothing stages |
| Safety.FirstArrivalIsComplete | README.md:5 | the first arrival in WAITING_REQUEST has exactly 1 MON, 3 OSDs and 1 gateway running, in every run |
| Safety.StuckForever | src/state/StateMachine.cpp:94-106 | an uncounted failure before any flex-up keeps the cluster in the first two phases for the rest of the run |
| Safety.PhaseOnlyAdvances | src/state/StateMachine.cpp:136-149 | without failure reports the running counters and the phase never go back |
| Safety.LaunchesAreFresh | src/scheduler/CephSchedulerAgent.hpp:300-331 | tokens of a type are launched in strictly increasing order below the next index; no two launches share a task id or executor id |
| Safety.InitialMonStays | src/state/StateMachine.cpp:308-321 | once mon0 was launched, getInitialMon answers with that task in every later world, for every iteration order |
| Safety.InitialMonNeverComes | src/state/StateMachine.cpp:247-251 | if the first MON token was spent without a launch, there is never an initial MON |
| InitialMons.FirstTokenDecides | src/scheduler/CephSchedulerAgent.hpp:281-315 | before any MON token is spent, an offer takes the first one if and only if it has the role and its host is not preparing disks nor about to, and mon0 is launched if and only if it then has the resources |
| InitialMons.UndecidedHasNoMon | src/state/StateMachine.cpp:245-255 | until an offer of a run decides, no MON token is spent and no MON launched |
| InitialMons.FirstDeciderSettles | src/scheduler/CephSchedulerAgent.hpp:281-315 | in every world after the first deciding offer of a run there is an initial MON if and only if that offer had the resources |
| Safety.LaunchesAreConfigured | src/scheduler/CephSchedulerAgent.hpp:312-343 | the flag isInitialMonNode is set at a launch exactly for MON token 0, other tasks are pointed to the host of mon0, and one REGISTER_OSD is sent per OSD launched |
| Conservation.SupplyIsConserved | src/scheduler/CephSchedulerAgent.hpp:332-343 | once mon0 was launched: registrations under way + replies under way + pending ids = OSDs launched - ids sent, if and only if no registration was lost, and none is lost while mon0's process lives |
| Conservation.DrainedChannelsSuffice | src/scheduler/CephSchedulerAgent.hpp:243-255 | with drained channels there are at least as many pending ids as waiting OSDs |
| Conservation.DrainedChannelsServeAll | src/scheduler/CephSchedulerAgent.hpp:464-498 | then the next callback of offers leaves no OSD waiting |
| Conservation.IdsAreConserved | src/scheduler/CephSchedulerAgent.hpp:464-498 | received ids = pending ids + sent ids as multisets; different ids received means different ids sent |
| Conservation.SilentMonSuppliesNothing | src/state/StateMachine.cpp:308-321 | once mon0's executor polls for ever or is gone, the ids ever sent are bounded by those delivered or under way by then |
| Conservation.FailedMonStillSupplies | src/executor/CephExecutor.cpp:414-425 | a mon0 that reported its task failed still takes a registration, and the scheduler accepts the id it answers with |
| Conservation.FlexUpsAreConserved | src/scheduler/CephSchedulerAgent.hpp:501-523 | OSD instances of all accepted requests = in the queue + in the list + launched in WAITING_REQUEST; every list entry is at least 1 |
| Conservation.AcceptedAreServedUnlessForMons | src/scheduler/EventLoop.cpp:57-70 | instances of all accepted requests = in the queue + in the list + launched + dropped; without the last if and only if no request for MONs was received |
| Conservation.MonRequestExample | src/scheduler/EventLoop.cpp:61-66 | a request for two MONs is accepted, queued, and gone when it is received |
| Conservation.TasksAwaitDisks | src/state/StateMachine.cpp:241-244 | a host that was given a Ceph task is not preparing disks and has no raw device; no host gets two disk tasks |
| Conservation.PartitionsGoToOneTask | src/state/HostConfig.hpp:93-136 | with clean device names no partition is handed to two tasks of a run, and none that was handed out is in the pool, even if disk reports are repeated |
| Conservation.PartitionsAreConserved | src/state/HostConfig.hpp:93-136 | partitions of a prepared host's devices = pool + handed out |
| Departures.StagingExactUnlessFailedLate | src/state/StateMachine.cpp:94-106 | the staging counters are exact if and only if no failure was reported of a task that was WAITING_OSDID or STARTING |
| DiskUse.PartitionsInOrder | src/state/HostConfig.hpp:93-136 | in every run the OSDs of a host get its data and journal partitions one by one from the end of its device lists, and empty names when none is left; other tasks get none |
| DiskUse.OsdsGetTheirNames | src/state/HostConfig.hpp:93-136 | the names themselves: the OSD with n others before it gets partition 1 of the n-th data device from the end, and of the journals the n-th partition from the end, counted journal by journal |
| DiskUse.DisklessExactlyWhen | src/executor/CephExecutor.cpp:366-381 | an OSD has no data partition if and only if at least as many OSDs were launched on its host before it as the host has data devices, and no journal partition likewise, with the count per journal device |
| DiskUse.PreparesUntilNamed | src/state/StateMachine.cpp:241-244 | a host that prepares its disks is still at it if and only if no report has named it since, and until then no Ceph task was ever launched on it |
| Deadlocks.BlockedForever | src/state/StateMachine.cpp:71-121 | with an uncounted failure, or a task that will neither run nor fail countably, and no flex-up launched so far, no continuation reaches WAITING_REQUEST |
| Deadlocks.LostStaysLost | src/state/StateMachine.cpp:157-228 | whatever happens, a lost task stays lost or becomes an uncounted failure |
| Deadlocks.IdsAccount | src/scheduler/CephSchedulerAgent.hpp:464-498 | OSDs running and starting + ids pending and under way = all ids mon0 ever produced - those of OSDs that failed |
| Deadlocks.StarvedForever | src/state/StateMachine.cpp:308-321 | when mon0 takes no more messages and fewer than three OSDs run, start or have an id waiting for them, no continuation reaches WAITING_REQUEST |
| Recovery.BootstrapCanCompleteIff | src/state/StateMachine.cpp:136-281 | in every world of a run in which mon0 was launched, whatever became of it, and no flex-up, some continuation completes the bootstrap if and only if no place is taken for ever and mon0 still takes messages or there are ids for three OSDs |
| Recovery.BootstrapCanStart | src/state/StateMachine.cpp:245-255 | before the first MON token is spent some continuation completes the bootstrap |
| Recovery.FriendlyStep | src/scheduler/CephSchedulerAgent.hpp:193-346 | as long as nothing is lost and ids will suffice, some event lowers the remaining cost of the bootstrap and keeps it so |
| Witnesses.BootstrapIsReachable | README.md:5 | from the start some run completes the bootstrap |
| Witnesses.LateFailureRun | src/state/StateMachine.cpp:94-106 | eight events after which the staging counter is one too high and the bootstrap cannot be completed |
| Witnesses.HungRun | src/executor/CephExecutor.cpp:240-254 | ten events after which an OSD's container never appears: no failure reported, no process ended, and the bootstrap cannot be completed |
| Witnesses.LostMonRun | src/scheduler/CephSchedulerAgent.hpp:288-299 | a run whose first offer lacks the resources decides that there is no initial MON |
| Witnesses.FailedMonRun | src/executor/CephExecutor.cpp:647-687 | a run after which a registration is under way to a mon0 that failed its start test and still lives |
| Departures.GluedJournalsExample | src/executor/DiskExecutor.cpp:184-190 | two failed journals arrive as one device that does not exist |
| Departures.DottedHostExample | src/scheduler/CephSchedulerAgent.hpp:222-230 | a report from a host with a full domain name is not attributed to it |
| Departures.FailedDeviceIsPooled | src/scheduler/CephSchedulerAgent.hpp:228-238 | a device reported as failed is pooled and not recorded as failed |
| Evolution.EventSteps | src/scheduler/CephSchedulerAgent.hpp:193-346 | what any event may change: records, new launches, the first MON token, running counters, uncounted failures |
| Assignments.HandleWaitingExact | src/scheduler/CephSchedulerAgent.hpp:464-498 | exactly min(waiting tasks, pending ids) tasks are started, each paired with the next id from the back, until one side runs out |
| Assignments.AssignFirstExact | src/scheduler/CephSchedulerAgent.hpp:464-498 | after n assignments exactly the first n tasks are STARTING, the last n ids are gone, and the messages pair them in order |
| OfferAnswers.EveryOfferAnswered | src/scheduler/CephSchedulerAgent.hpp:270-345 | for any batch every offer is answered exactly once, by one Ceph task or one decline; a disk task comes only with a decline; no other offer is touched |
| Disks.LaunchesExactlyWhen | src/scheduler/CephSchedulerAgent.hpp:270-331 | an offer leads to a launch if and only if it has role and resources, its host has no raw device, the phase has room, and in the last phase a request is pending |
| Disks.TokensSpentExactlyWhen | src/scheduler/CephSchedulerAgent.hpp:285-307 | a token is spent exactly by a launch or by an offer accepted and then found wanting; only a missing flex-up gives it back |
| Disks.RoundKeepsDisks | src/scheduler/CephSchedulerAgent.hpp:281-331 | a round of the offer loop keeps every host either raw and unused or partitioned and balanced |
| Disks.LaunchesOnPreparedHosts | src/state/StateMachine.cpp:241-244 | after a round that launched a Ceph task its host is not preparing and has nothing pending |
| Disks.ReportKeepsDisks | src/scheduler/CephSchedulerAgent.hpp:222-239 | any DISK_READY report, expected or repeated, keeps every host sound |
| Disks.PartitionsAreLinear | src/state/HostConfig.hpp:93-136 | on a sound host with clean names the partitions handed out are distinct and not in the pool |
| Counters.MovingChangeCounts | src/state/StateMachine.cpp:71-228 | a report that moves the phase keeps the censuses and the phase |
| Counters.WaitingChangeCounts | src/state/StateMachine.cpp:176-209 | changes to WAITING_OSDID and STARTING need no moveState: the phase stays right |
| Counters.LaunchBounds | src/state/StateMachine.cpp:245-279 | at most one MON and one gateway, and 3 OSDs plus flex-ups, although only the staging counter of gateways is tested |
| Counters.BootstrapComplete | src/state/StateMachine.cpp:136-149 | counted and bounded with no flex-ups, WAITING_REQUEST means exactly 1, 3 and 1 |
| Counters.StuckBlocksBootstrap | src/state/StateMachine.cpp:256-264 | counted and bounded with no flex-ups, an uncounted failure rules out the last two phases |
| Identity.TaskIdIsFresh | src/scheduler/CephSchedulerAgent.hpp:567-569 | the id of a task with the next token is in no record, whatever host and slave are called |
| Identity.SameExecutorSameTask | src/scheduler/CephSchedulerAgent.hpp:362-372 | an executor id belongs to one record |
| Identity.InitialMonAnswer | src/state/StateMachine.cpp:308-321 | if mon0 is in the table, every possible answer of getInitialMon is its record |
| Messages.NextReportIsLegal | src/scheduler/CephSchedulerAgent.hpp:193-241 | whatever report comes next, it is a legal step, and record, executor and remaining reports still fit |
| Messages.LaunchMeetsWaitingExecutor | src/executor/CephExecutor.cpp:426-473 | a LAUNCH_OSD that reaches a living executor finds it waiting and its record STARTING |
| Supply.SupplyAccount | src/scheduler/CephSchedulerAgent.hpp:243-255 | the account of registrations, replies, pending and sent ids, lost registrations included |
| Supply.WaitingAreUnserved | src/scheduler/CephSchedulerAgent.hpp:464-498 | waiting OSDs and ids sent together are at most the OSDs launched |
| Effects.LaunchRound | src/scheduler/CephSchedulerAgent.hpp:270-345 | a round that launches adds exactly one staging record, one token, one log entry, at most one registration, and takes one flex-up in the last phase |
| Effects.QuietRound | src/scheduler/CephSchedulerAgent.hpp:270-310 | a round that does not launch changes at most a token and the disks |
| SchedulerAgents.CephSchedulerAgent.OnResourceOffers | src/scheduler/CephSchedulerAgent.hpp:257-346 | the object computes the callback that runs are made of, with answers of getInitialMon that fit |
| SchedulerAgents.CephSchedulerAgent.OfferRound | src/scheduler/CephSchedulerAgent.hpp:270-345 | one round of the offer loop in place equals the function of the round |
| SchedulerAgents.CephSchedulerAgent.HandleWaitingOSDTasks | src/scheduler/CephSchedulerAgent.hpp:464-498 | the assignment loop in place, for the tasks that wait, each once |
| SchedulerAgents.CephSchedulerAgent.LaunchAndRegister | src/scheduler/CephSchedulerAgent.hpp:318-343 | launch, record and registration in place, with the two answers of getInitialMon taken before and after the record |
| SchedulerAgents.CephSchedulerAgent.LaunchNode | src/scheduler/CephSchedulerAgent.hpp:536-593 | the task, its partitions and its executor id, with the pool of the host updated |
| SchedulerAgents.CephSchedulerAgent.TryLaunchDiskTask | src/scheduler/CephSchedulerAgent.hpp:595-686 | the three refusals, the labels and the flags of a disk task, and no change to any other host |
| SchedulerAgents.CephSchedulerAgent.FetchPendingRESTfulRequest | src/scheduler/CephSchedulerAgent.hpp:501-523 | takes one instance from the first request if there is one |
| SchedulerAgents.CephSchedulerAgent.OnStatusUpdate | src/scheduler/CephSchedulerAgent.hpp:193-241 | every kind of status update in place, and which messages are read past their end |
| SchedulerAgents.CephSchedulerAgent.TaskFinished | src/scheduler/CephSchedulerAgent.hpp:220-240 | the disk report with its shadowed variable refines the function that passes an empty list |
| SchedulerAgents.CephSchedulerAgent.OnFrameworkMessage | src/scheduler/CephSchedulerAgent.hpp:243-255 | an id counts exactly if the answer of getInitialMon names the sender |
| StateMachines.StateMachine.UpdateCounters | src/state/StateMachine.cpp:71-121 | the counters of one type change and no others |
| StateMachines.StateMachine.UpdateTaskToRunning | src/state/StateMachine.cpp:157-174 | the record and the phase change; an unknown task changes nothing |
| StateMachines.StateMachine.UpdateTaskToFailed | src/state/StateMachine.cpp:211-228 | as above, to FAILED |
| StateMachines.StateMachine.DecideMove | src/state/StateMachine.cpp:230-281 | the decision for a host and the token it spends |
| StateMachines.StateMachine.AddConfig | src/state/StateMachine.cpp:283-295 | a new host gets an entry of its own, a known one is left alone |
| StateMachines.StateMachine.GetInitialMon | src/state/StateMachine.cpp:308-321 | the scan in any order returns a record with the prefix if there is one |
| StateMachines.StateMachine.GetWaitingOSDTask | src/state/StateMachine.cpp:323-335 | the waiting OSDs, each exactly once |
| StateMachines.StateMachine.constructor | src/state/StateMachine.cpp:32-37 | an empty machine in BOOTSTRAP_MON with a fallback host entry without devices |
| StateMachines.StateMachine.AddStaging | src/state/StateMachine.cpp:41-68 | a new STAGING record and one more staging task of its type |
| StateMachines.StateMachine.MoveState | src/state/StateMachine.cpp:136-149 | the phase becomes that of the running counters, and nothing else changes |
| StateMachines.StateMachine.UpdateTaskToWaitingOSDID | src/state/StateMachine.cpp:176-192 | the record changes, the phase does not |
| StateMachines.StateMachine.UpdateTaskToStarting | src/state/StateMachine.cpp:194-209 | the record changes, the phase does not |
| HostConfigs.HostConfig.ForHost | src/state/HostConfig.hpp:38-45 | a new entry has all configured devices pending and empty pools |
| HostConfigs.HostConfig.PopOSDPartition | src/state/HostConfig.hpp:93-101 | the last data partition leaves the pool, or nothing does |
| HostConfigs.HostConfig.PopJournalPartition | src/state/HostConfig.hpp:103-112 | the last journal partition leaves the pool, or nothing does |
| HostConfigs.HostConfig.UpdatePartitions | src/state/HostConfig.hpp:114-136 | pools the partitions of the devices not listed as failed, records the failed ones, and clears the pending lists |
| HostConfigs.HostConfig.Contains | src/state/HostConfig.hpp:138-149 | finds exactly the members |
| HostConfigs.HostPartitionsDistinct | src/state/HostConfig.hpp:114-133 | distinct device names without trailing digits yield distinct, non-empty partition names |
| DiskExecutors.PartitionDisk | src/executor/DiskExecutor.cpp:116-144 | for a positive count: that many adjacent equal ranges within the disk, less than that many percent unused, none empty if and only if the count is at most 100; a count of 0 is the division by zero |
| DiskExecutors.DiskExecutor.PrepareDisks | src/executor/DiskExecutor.cpp:88-114 | how every device is split, which partitions are formatted, which devices are reported as failed, and when the executor dies of a division by zero |
| DiskExecutors.DiskExecutor.PrepareReturnValue | src/executor/DiskExecutor.cpp:177-193 | the text of the report, with its two comma rules |
| DiskExecutors.DiskExecutor.AddPendingDisks | src/executor/DiskExecutor.cpp:195-225 | the devices and the count read from the labels, and when a label is no integer |
| DiskExecutors.DiskExecutor.LaunchTask | src/executor/DiskExecutor.cpp:52-69 | a task without labels, and no other, is reported failed first and then finished; a report comes unless a count is no integer or journals are to have 0 partitions; and what it says |
| DiskExecutors.DiskLabelsRoundTrip | src/scheduler/CephSchedulerAgent.hpp:646-666 | devices and count survive the labels |
| DiskExecutors.PooledWouldBeGood | src/state/HostConfig.hpp:114-136 | given the failed list, the pool would be exactly the partitions formatted on good devices |
| DiskExecutors.PooledAsWritten | src/scheduler/CephSchedulerAgent.hpp:228-238 | as the code stands, that holds if and only if no OSD device failed, and no journal device unless the partition count is 0 or less |
| DiskExecutors.PreparationEndToEnd | src/executor/DiskExecutor.cpp:88-225 | labels read, failed list reported, read back and used: exactly the partitions of the good devices would be pooled |
| CephExecutors.BlockUntilStarted | src/executor/CephExecutor.cpp:240-268 | with a positive timeout the loop ends if and only if docker lists the container at some poll, and then tells whether its daemon answers; it never times out |
| CephExecutors.CephExecutor.LaunchTask | src/executor/CephExecutor.cpp:542-687 | status updates and container name of a new task, for every outcome of the shell commands, polling for ever included |
| CephExecutors.CephExecutor.FrameworkMessage | src/executor/CephExecutor.cpp:414-483 | answers REGISTER_OSD, starts the OSD on LAUNCH_OSD or polls for it for ever, and dies of a message that is no integer |
| FlexUp.MessageQueue.JsonCheck | src/httpserver/RestServer.cpp:21-43 | exactly the acceptable requests of at most 256 bytes are queued; exactly which answer each body gets, and that a longer acceptable one gets none |
| FlexUp.Limits | src/httpserver/RestServer.cpp:25-38 | the limits of a request, in numbers |
| FlexUp.EventLoop.ProcessData | src/scheduler/EventLoop.cpp:57-70 | only OSD requests reach the list |
| FlexUp.EventLoop.FetchPending | src/scheduler/CephSchedulerAgent.hpp:502-523 | one instance is taken from the first request, which goes when it is used up |
| FlexUp.AcceptedIsKeptOnlyForOsds | src/scheduler/EventLoop.cpp:57-70 | an accepted request reaches the list with all its instances if and only if it is for OSDs |
| FlexUp.TakeOne | src/scheduler/CephSchedulerAgent.hpp:512-518 | one instance is taken and no empty entry is left |
| FlexUp.MessageMovesInstances | src/scheduler/EventLoop.cpp:57-70 | receiving moves the OSD instances of a request into the list |
| OfferAnswers.RoundAnswers | src/scheduler/CephSchedulerAgent.hpp:270-345 | a round answers its own offer and no other |
| Text.ExplodeText | src/common/StringUtil.hpp:32-40 | the loop computes the tokens |
| Text.TokensAreFree | src/common/StringUtil.hpp:32-40 | no token contains the delimiter |
| Text.ExplodeExact | src/common/StringUtil.hpp:32-40 | re-joining the tokens gives the text, up to one final delimiter |
| Text.ExplodeTerminated | src/common/StringUtil.hpp:32-40 | delimiter-free tokens that are each terminated are read back |
| Text.IntTextRoundTrip | src/scheduler/CephSchedulerAgent.hpp:479-480 | integers survive being written as text and read back |
| Wire.TaskIdsSpelled | src/scheduler/CephSchedulerAgent.hpp:444-462 | the texts of the task ids of the three types |
| Wire.ExecutorIdsSpelled | src/scheduler/CephSchedulerAgent.hpp:365-370 | the texts of the executor ids |
| Wire.TaskDataSpelled | src/common/TaskType.hpp:24-30 | the texts of the task data |
| Wire.MessagesSpelled | src/common/FrameworkMessage.hpp:29-33 | the texts of the messages to executors |
| Wire.TaskIdsSeparate | src/scheduler/CephSchedulerAgent.hpp:443-459 | equal task ids have equal type and token |
| Wire.ExecutorIdsSeparate | src/scheduler/CephSchedulerAgent.hpp:362-372 | equal executor ids have equal type and token |
| Wire.InitialMonPrefix | src/state/StateMachine.cpp:311-317 | the prefix test holds of MON token 0 and of no other task |
| Wire.ContainerNameOfTask | src/executor/CephExecutor.cpp:406-410 | a container is named after type and token of its task |
| Wire.MalformedTaskData | src/executor/CephExecutor.cpp:553-567 | which task data end an executor |
| Wire.TaskDataRoundTrip | src/scheduler/CephSchedulerAgent.hpp:563-566 | the executor reads the flag and type the scheduler wrote |
| Wire.MalformedOrders | src/executor/CephExecutor.cpp:414-480 | which messages end an executor, and which it ignores |
| Wire.MessageRoundTrip | src/executor/CephExecutor.cpp:414-427 | the executor reads the message the scheduler wrote |
| Wire.MalformedReports | src/scheduler/CephSchedulerAgent.hpp:218-235 | which messages of a finished task are ignored, and which are undefined reads or uncaught errors |
| Wire.DiskReadyDecodes | src/executor/DiskExecutor.cpp:177-193 | what the parse steps make of any report from a plain host |
| Wire.DiskReadyRoundTrip | src/scheduler/CephSchedulerAgent.hpp:222-235 | the report is read back if and only if at most one journal failed |
| Wire.DiskReadyNeedsPlainHost | src/scheduler/CephSchedulerAgent.hpp:222-230 | the report is attributed to its host if and only if the name has no dot and no colon |
| Cidr.MatchIPToCIDR | src/common/StringUtil.hpp:53-66 | the loop in place, missing tokens included |
| Cidr.GetPublicNetworkIP | src/executor/CephExecutor.cpp:395-404 | the first matching address, else the fallback |
| Cidr.MembersMatch | src/common/StringUtil.hpp:53-66 | a member of the network (section 3.1 of RFC 4632) is never rejected |
| Cidr.MatchIsOctetPrefix | src/common/StringUtil.hpp:53-66 | the match is membership in the prefix cut to whole octets |
| Cidr.MatchIsMembershipIffWholeOctets | src/common/StringUtil.hpp:53-66 | the match is prefix membership for all addresses if and only if the length is a multiple of 8 |
| Cidr.FlippedIsOutside | src/common/StringUtil.hpp:53-66 | for any other length, an address that is matched and outside |

## Left out

- Shell, docker, mount, parted and mkfs: each is a success or a failure chosen by the environment. Partition names are relative to `/dev`.
- The Mesos driver, protobuf types and URIs: the driver is a log of calls; of the URIs only the host they name is kept.
- Resource arithmetic: an offer carries the verdicts of the role test and of the resource test, which is the same for disk tasks and Ceph tasks.
- HTTP, JSON and YAML parsing: a request is a record of instances and profile, a host configuration its disk part.
- The message queue's capacity of 1014 messages, the raw receive buffer, and what becomes of the process when `send` throws.
- 32-bit overflow of counters, tokens and percentages; only the conversions of texts to integers check the 32-bit range.
- Durations and the resolution of timestamps: the clock in executor ids is an arbitrary integer, and a poll that could still succeed is modelled by its outcome.
- Recovery.BootstrapCanCompleteIff: says nothing of runs in which the first MON token was lost. There the answers of getInitialMon depend on the iteration order, and a MON that is not the first needs files of a host that does not exist.
- The message that an OSD's RUNNING update carries (CONSUMED_OSD_ID): the scheduler only logs it.
- CephExecutors.CephExecutor.FrameworkMessage: `ceph osd create` may print anything for the executor itself, but in the protocol its output is a 32-bit integer.
- Messages to an executor that has not received its task yet wait in the channel.
- The journal count of the fallback host entry is uninitialised in the program; here it is that of the configuration. It is never used, as the entry has no devices.
- Empty callbacks, `HostConfig.reload`, `toString`, logging, configuration loading and merging, the file server.
