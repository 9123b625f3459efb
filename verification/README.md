# dhtperf, verified

dhtperf measures distributed hash tables. A master waits for N controllers, gives each of them a
DHT type, a profile of operations and a start message, waits for their reports and aggregates the
metrics. This project models three parts of it in Dafny and proves what they promise.

**The controller's event loop.** `Clock`, `Events` and `ProfileModel` describe the truncated clock,
the priority queues and the profiles that refill them. `Scheduler` is `start()` as a transition
system with a real clock. Its theorems are in `SchedulerOrder` (conservation, order, timing and
catching up), `SchedulerNode` (the connected flag and the metrics), `SchedulerSafety` (exactly when
the process can kill itself) and `SchedulerTermination`. `Profiles` and `Controller` are the same
program as classes with loops; the loop carries a ghost trace that is proved to be a run of the
transition system, so every theorem applies to it.

**The protocol.** `Codec` is the binary format, `Connection` the master's end of a connection,
`ControllerLink` the controller's end, `StartMessages` the ports, `Master` the handlers of the
master. `Protocol` puts one master and its controllers together over byte streams. Accepting,
reading, writing, dying and the timeout are single steps, in any order. `ProtocolProgress` proves
that every interleaving of them ends, and not before the master has stopped.

**The metrics.** `Statistics`, `NodeLatency`, `GeneralLatency`, `Cdf` and `Results` cover the way of
a sample from a node to a printed row. `WorkloadLines` and `Workload` are the loader of the workload
file. `NodesToMetrics` follows the measurements from the nodes through the protocol's
reports to the metric each was made for.

Where the code changes fields, the model has a class whose methods are proved equal to a function or
relation on values, and the theorems are about that function or relation. Doubles are reals;
`uint32_t` and `uint16_t` wrap in the model where they wrap in the code.

What the proofs say about the code where its comments or the reader's expectation differ:

- `start()` is said not to return before the duration has passed. Every nonzero duration has a run
  in which it does (`SchedulerOrder.NeverEarlyIff`); what holds in every run is that it returns in
  the last second or later (`SchedulerOrder.ReturnsAtTheEnd`).
- An event at time 0 reads like no event. The model keeps such events: they decide when an Interval
  profile fails to catch up (`SchedulerSafety.CatchesUpIff`) and are one of the ways for the process
  to kill itself (`SchedulerSafety.LeaveAtZeroKills`). The other is two events at once; since any
  time may pass between two readings of the clock, two listed joins are enough
  (`SchedulerSafety.TwoJoinsKill`).
- The controller ignores an error while it reads a body, so that a message cut short after its
  header can be taken for a whole one, with zeros for what is missing. A DHT type and a start message
  always are, a profile unless its sizes have lost a byte other than 0, a report once the space after
  its type has arrived (`ControllerLink.CutAcceptedIff`); `dummy` can arrive as
  `dum` and two zeros (`ControllerLink.CutDhtType`). It is unharmed only when nothing but zeros is
  missing (`ControllerLink.CutUnharmedIff`).
- Of several `nodes` lines the first is said to be used. When the command line gives no number, that
  is so exactly when it is not 0 or no later one is anything else
  (`Workload.FirstNodesLineDecidesIff`, `Workload.SecondNodesLine`).
- A node's latencies survive printing and reading exactly when no two of them have the same time
  (`NodeLatency.RoundTripIff`). Nodes can be aggregated without reading them back, and the columns
  stay in order, exactly when this holds of each of them (`GeneralLatency.UnreadOrderedIff`).
- The rows of the distribution count the samples below their bounds exactly when no sample is as low
  as minus one interval, which takes a clock that is set back (`Cdf.RowsCountBelowIff`,
  `Cdf.SetBackIsLost`).

## Model

| member | source | states |
|---|---|---|
| Clock.CheckMeaning | src/controller/DhtperfController.cpp:181-188 | The check fires exactly when less than one second of the run is left; until then nothing wraps and the elapsed time read is the real time rounded up. |
| Events.EventQueue.PopEvents | src/events.h:109-118 | What is popped is the due part of the queue in time order, nothing due stays behind and nothing is lost. |
| Events.EventQueue.GetNextEventTime | src/events.h:100-107 | Returns the time of the earliest event, and 0 for an empty queue. |
| ProfileModel.OrderedScheduled | src/controller/profiles/Interval.h:81-92 | Refilling any kind of profile keeps everything queued no earlier than what was taken before, wrap-around included. |
| ProfileModel.OrderedTaken | src/controller/Profile.h:104-109 | Taking the due events extends the history in time order and leaves only later events. |
| ProfileModel.TicksTaken | src/controller/profiles/Interval.cpp:24-45 | Popping takes whole ticks: the ticks before the last generated one are complete, each with exactly its repetitions. |
| ProfileModel.RefillTimes | src/controller/profiles/Now.h:60-68 | Within the bounds that keep the time type from wrapping, these are the times of a refill. |
| ProfileModel.AnyDraw | src/controller/profiles/WeibullRandom.h:82-83 | An empty Weibull profile may refill at any time up to 2^31 later. |
| Profiles.Profile.Interval | src/controller/profiles/Interval.h:47-73 | The constructed Interval profile holds exactly one tick, at its start time. |
| Profiles.Profile.Exact | src/controller/profiles/Exact.h:42-56 | The constructed profile holds exactly the listed events. |
| Profiles.Profile.PushElement | src/controller/profiles/Interval.cpp:24-45 | Adds exactly the repetitions of one tick, all of the right kind and time, a put storing what its key tells, and nothing else. |
| Profiles.Profile.ScheduleNextEvent | src/controller/profiles/WeibullRandom.h:77-89 | A queue that reads as empty is refilled: at the current time by Now, a draw later by Weibull, a draw or a frequency after its own last event by Poisson and Interval; any other queue is left alone, and the earliest time is returned. |
| Profiles.Profile.GetEvents | src/controller/Profile.h:104-109 | Takes exactly the due events, in order, off the queue and into the history. |
| Controller.DhtNode.ProcessJoinEvent | src/controller/DhtNode.cpp:77-105 | A connected node makes the process exit and changes nothing; otherwise each failed try is a miss with a latency and the last one a hit, and the node is connected. |
| Controller.DhtNode.ProcessLeaveEvent | src/controller/DhtNode.cpp:107-124 | A disconnected node makes the process exit; otherwise one latency is recorded and the node is disconnected. |
| Controller.DhtNode.ProcessGetEvent | src/controller/DhtNode.cpp:143-168 | A connected node counts one latency and one hit or miss, as the get succeeded or failed; a disconnected one nothing. |
| Controller.ControllerWorkloadProfile.GetNextEventTime | src/controller/ControllerWorkloadProfile.cpp:93-114 | Schedules only the profiles that matter in the present state, and returns the least of their times that is not 0, or 0 when all are. |
| Controller.DhtperfController.CheckDone | src/controller/DhtperfController.cpp:181-188 | Is one step of the transition system: done only in the last second. |
| Controller.DhtperfController.Round | src/controller/DhtperfController.cpp:190-246 | One iteration is a piece of a run, and takes at least a second of waiting or one operation. |
| Controller.DhtperfController.Start | src/controller/DhtperfController.cpp:164-248 | The loop ends; it returns in the last second or later, or kills the process, which takes a hazardous configuration; joins and leaves alternated and every operation was measured. |
| Scheduler.ClockHolds | src/controller/DhtperfController.cpp:179-201 | In every run, wherever the loop holds a reading of the clock, that reading is the real time rounded up, less than one second ahead, and within the duration. |
| Scheduler.PlannedNext | src/controller/DhtperfController.cpp:193-197 | The next event planned is the least of the readings that matter, unless it lies after the end of the run or there is none. |
| SchedulerOrder.NothingLost | src/controller/DhtperfController.cpp:202-229 | In every run of every configuration the events pushed are, as a multiset, those issued, in hand and still queued. |
| SchedulerOrder.IssuedInOrder | src/controller/DhtperfController.cpp:202-229 | Over a whole run the events of one operation are issued in time order across all refills, and what is still queued is no earlier. |
| SchedulerOrder.NeverIssuedEarly | src/controller/DhtperfController.cpp:193-201 | An event is carried out only when the real time is past its time less one second. |
| SchedulerOrder.NotBegunLate | src/controller/DhtperfController.cpp:210-221 | No put, get or leave is begun in the last second of the run or later, however long those before it have taken. |
| SchedulerOrder.WaitIsEnough | src/controller/DhtperfController.cpp:231-245 | The loop waits as many seconds as its clock is short of the next event or the end; one wait makes the awaited event due or ends the loop, and a wait for no event always ends it. |
| SchedulerOrder.ReturnsAtTheEnd | src/controller/DhtperfController.cpp:184-188 | The loop returns only when the real time is past the duration less one second. |
| SchedulerOrder.NeverEarlyIff | src/controller/DhtperfController.cpp:162 | No run of a configuration returns before the duration has passed exactly when the duration is 0. |
| SchedulerOrder.IntervalCaughtUp | src/controller/profiles/Interval.h:64-92 | Whenever the loop sleeps while connected, an Interval profile that starts after time 0 has issued exactly repetitions * ((elapsed - start) / frequency + 1) events, each tick complete, however long the node was away. |
| SchedulerNode.JoinsAndLeavesAlternate | src/controller/DhtNode.cpp:77-124 | In every run joins and leaves strictly alternate, starting with a join. |
| SchedulerNode.PutsThenGetsThenLeaves | src/controller/DhtperfController.cpp:202-229 | In every run a batch is either joins alone, or puts, then gets, then leaves. |
| SchedulerNode.EveryOperationMeasured | src/controller/DhtNode.cpp:77-168 | In every run, cut short or not, join hits less leaves is 1 when connected and 0 otherwise, latencies equal hits plus misses, and no put or get meets a disconnected node. |
| SchedulerSafety.KilledIffHazard | src/controller/DhtNode.cpp:81-84 | The process can kill itself by a join while connected or a leave while disconnected exactly in the hazardous configurations, over all configurations. |
| SchedulerSafety.TwoJoinsKill | src/controller/DhtNode.cpp:81-84 | Joins listed at times 1 and 2, with nothing else, are hazardous: some run kills the process. |
| SchedulerSafety.LeaveAtZeroKills | src/controller/profiles/Now.h:60-68 | So is a single join with one put, when a profile that leaves at once is given the time 0. |
| SchedulerSafety.CatchesUpIff | src/controller/profiles/Interval.h:85-88 | An Interval profile catches up in every run of every configuration exactly when its first tick is not at time 0. |
| SchedulerTermination.RankFalls | src/controller/DhtperfController.cpp:190-246 | With profiles that are lists, empty or an Interval of frequency at least 1, started at any time, every step but a failed try to join lowers a measure, a weighted sum of the time left, the events to come and the place in the loop. |
| SchedulerTermination.RunsAreBounded | src/controller/DhtperfController.cpp:190-246 | No run is longer than its configuration allows, apart from failed tries to join. |
| Codec.EncodedDecodes | src/protocol.cpp:34-77 | Decoding what was encoded gives back the message; for a message without a body the buffer may hold anything. |
| Codec.DecodesIffEncoded | src/protocol.cpp:213-230 | A body decodes to a message exactly when it is that message's body and its sizes are in range. |
| Codec.ToBits | src/protocol.cpp:137-171 | The bytes copied one field after the other are the header and body of the message. |
| Codec.WireHeader | src/protocol.h:38-54 | Every message begins with its opcode, 1 to 5, and the size of its body, each four bytes with the lowest first. |
| Codec.WireProfile | src/protocol.cpp:137-171 | A profile message holds the four sizes and then the four texts, for join, leave, put and get. |
| Codec.WireStart | src/protocol.cpp:232-260 | A start message holds the duration, the two offsets and the host, at these places. |
| Codec.WireTexts | src/protocol.cpp:317-341 | A report is its type, a space and its value; a DHT type is the type alone, and a finish is empty. |
| Connection.ReadsOne | src/master/ControllerConnection.cpp:62-118 | Whatever was read before, a message at the front of the stream is read and its bytes are consumed exactly. |
| Connection.StreamReadsBack | src/master/ControllerConnection.cpp:53-118 | Reading a stream of messages returns them in order and leaves exactly what follows. |
| Connection.StreamUnique | src/protocol.cpp:317-341 | Two lists of messages with the same bytes are the same list. |
| Connection.ControllerConnection.HandleHeaderRead | src/master/ControllerConnection.cpp:62-88 | Waits for a body, or handles a message without one at once, on the buffer left from before. |
| Connection.ControllerConnection.HandleBodyRead | src/master/ControllerConnection.cpp:90-102 | Takes exactly the announced bytes and decodes them. |
| Connection.ControllerConnection.SendMessage | src/master/ControllerConnection.cpp:120-126 | Appends exactly the bytes of the message to the stream. |
| ControllerLink.WholeMessage | src/controller/DhtperfController.cpp:127-156 | getNextMessage returns a message that arrives whole, and consumes exactly its bytes. |
| ControllerLink.ExpectedIff | src/controller/DhtperfController.cpp:143-147 | Of any message that arrives whole exactly the expected one is returned. |
| ControllerLink.CutAcceptedIff | src/controller/DhtperfController.cpp:149-155 | A message cut short after its header is returned as if whole exactly when it is a DHT type or a start message, or a profile that has lost no byte of its sizes but zeros, or a report whose type and space have arrived. |
| ControllerLink.CutUnharmedIff | src/controller/DhtperfController.cpp:149-155 | What is returned is the message that was sent exactly when all missing bytes are zeros. |
| ControllerLink.CutDhtType | src/controller/DhtperfController.cpp:149-155 | The type dummy, cut after three letters, is returned as dum and two zeros. |
| ControllerLink.StepsAreOneCall | src/controller/DhtperfController.cpp:127-156 | The header step and the body step of the protocol together are one call. |
| ControllerLink.Link.Prepare | src/controller/DhtperfController.cpp:47-56 | The three messages are read in their order and nothing after them is touched. |
| ControllerLink.Link.ReportAndFinish | src/controller/DhtperfController.cpp:264-352 | Writes exactly the six reports, each result under its own name and in this order, and then a finish. |
| ControllerLink.WrittenAsPromised | src/controller/DhtperfController.cpp:264-352 | What is written is what the protocol expects of a controller, and can be encoded. |
| StartMessages.MakeStartMessages | src/master/DhtperfMaster.cpp:144-185 | The message made for a node carries the duration, the host of node 0 unless it is node 0 itself, the entry offset 0 and, in sixteen bits, the number of earlier nodes on its host. |
| StartMessages.EndpointsDistinctIff | src/master/DhtperfMaster.cpp:170-182 | No two nodes of one host are told the same port exactly when no host has more nodes than there are ports. |
| StartMessages.TwoPortRangesDisjoint | src/controller/dhtnodes/KaddemoWrapper.cpp:120-125 | The two ports that each node of one host is told to take do not meet those of another within the bound. |
| StartMessages.OneNetwork | src/controller/DhtNode.cpp:66-75 | Only node 0 is told to start a DHT, and every other node is pointed at the host and the port that node 0 is told to take. |
| StartMessages.PortNumbers | src/controller/dhtnodes/OpenchordWrapper.cpp:112-115 | Ports go up from 5000, by one or two, or from 0 for the dummy, exactly as long as they fit sixteen bits. |
| Master.DhtperfMaster.Accept | src/master/DhtperfMaster.cpp:93-122 | Greets the new controller, and starts all of them when it is the last. |
| Master.DhtperfMaster.SendStartMessages | src/master/DhtperfMaster.cpp:144-190 | Every controller gets its own start message and a read is begun for each. |
| Master.DhtperfMaster.Message | src/master/DhtperfMaster.cpp:192-236 | A report of a known type, with a readable text if it is of latencies, is pushed and another read begun; a finish is counted; anything else ends the process. |
| Master.DhtperfMaster.Disconnected | src/master/DhtperfMaster.cpp:211-219 | The controller is counted once as failed and as finished, and its results are kept. |
| Master.DhtperfMaster.ControllerDone | src/master/DhtperfMaster.cpp:249-259 | Counts one, and stops the run exactly when all are counted. |
| Protocol.InvHolds | src/master/DhtperfMaster.cpp:93-259 | Every step of every interleaving keeps the byte-exact invariant of streams, phases and counts. |
| Protocol.BytesUnderWay | src/controller/DhtperfController.cpp:127-156 | In every reachable state the bytes down are exactly the unread rest of the three messages, for a dead controller too; the bytes up are exactly the unread rest of six reports and a finish, a prefix of it when the controller is gone, and none when it is completed. |
| Protocol.NeverConfused | src/controller/DhtperfController.cpp:143-147 | Neither side ever takes its exit for an unexpected message. |
| Protocol.StartsTogether | src/master/DhtperfMaster.cpp:111-121 | A controller runs only when all have been accepted, and with its own type, profile and start message. |
| Protocol.CompletedReported | src/master/DhtperfMaster.cpp:221-236 | A controller counted as finished and not failed has had its six reports pushed, in order. |
| Protocol.CountedOnce | src/master/DhtperfMaster.cpp:211-259 | Finished and failed are the controllers completed or lost, a read is outstanding exactly for the others, and without a timeout the run stops exactly when the last is counted. |
| Protocol.StatusAddsUp | src/master/DhtperfMaster.cpp:275-288 | Published as finished is the number of completed controllers, as failed that of lost ones, as unfinished that of all others; the three add up to the nodes. |
| Master.DhtperfMaster.PushNodesStatus | src/master/DhtperfMaster.cpp:275-288 | The three numbers come from the two counters and the nodes as stated. |
| Protocol.MasterCanAct | src/master/DhtperfMaster.cpp:192-236 | While a controller is done or gone but not counted, the master can take a step for it. |
| ProtocolProgress.RankFalls | src/master/DhtperfMaster.cpp:50-82 | Every action of the master or of a controller, in any reachable or other consistent state, lowers a measure. |
| ProtocolProgress.RunsAreFinite | src/master/DhtperfMaster.cpp:50-82 | No run, however the actions interleave, is longer than a fixed multiple of the number of nodes. |
| ProtocolProgress.QuietOnlyWhenStopped | src/master/DhtperfMaster.cpp:249-259 | When nothing but deaths and the timeout can happen, the master has stopped, and without a timeout every controller is counted. |
| NodesToMetrics.RealReportsReadable | src/controller/DhtNode.cpp:170-183 | Whatever a node has measured, the texts it prints for its reports are readable in the sense in which the protocol needs it, when the master reads with the constructor of node latencies. |
| NodesToMetrics.MeasuredEndsInItsMetric | src/controller/DhtperfController.cpp:264-334 | Whatever the controllers have measured, once their reports are collected the join metric is made of the joins, the leave metric of the leaves, the get metric of the gets and the put metric of the puts. |
| NodesToMetrics.SameAcceptable | src/master/ResultProcessor.cpp:48-72 | The protocol and the result processor agree on which reports end the process. |
| Statistics.PushAllRefines | src/metrics/Statistics.h:65-83 | Pushed one at a time, the mean times the count is the sum, maximum and minimum are the extremes, each bucket holds exactly the samples whose quotient it names, and the buckets add up to the count. |
| Statistics.QuotientTruncates | src/metrics/Statistics.h:81-82 | Buckets are numbered by truncating division: what is left over is smaller than the interval and has the sign of the sample. |
| Statistics.OrderDoesNotMatter | src/metrics/Statistics.h:65-83 | Any two orders of the same samples give the same statistics, buckets included. |
| Statistics.MeanBetween | src/metrics/Statistics.h:79 | The incremental mean lies between any bounds on the samples. |
| Statistics.StatisticsObject.Push | src/metrics/Statistics.h:65-83 | The fields after a push are those of the pushed value. |
| NodeLatency.RoundTrip | src/metrics/NodeLatency.cpp:32-65 | Reading the printed text restores the measurements; the statistics are those of the durations kept, and their count is the number of distinct times, never more than the pushes. |
| NodeLatency.RoundTripIff | src/metrics/NodeLatency.cpp:61-65 | The whole object comes back exactly when no two measurements had the same time, in whatever order they were made. |
| NodeLatency.TextOfTwo | src/metrics/NodeLatency.cpp:92-108 | Of two measurements the earlier is printed first, each as its time, a space and its duration, with a space between. |
| NodeLatency.OddTexts | src/metrics/NodeLatency.cpp:38-50 | A time without a duration ends the process; an empty piece is passed over with the piece after it. |
| NodeLatency.NodeLatencyObject.ToString | src/metrics/NodeLatency.cpp:92-108 | The loop writes the measurements in order of time, with a space between any two pieces. |
| NodeLatency.NodeLatencyObject.FromString | src/metrics/NodeLatency.cpp:32-54 | The loop over pairs of pieces builds the node its text means, or ends the process on an odd or unreadable piece. |
| GeneralLatency.ReportedOrdered | src/metrics/GeneralLatency.cpp:29-78 | For all histories of all nodes, after printing, reading and aggregating: least sample, least mean, both the mean and the mean of means, largest mean, largest sample are in order, and the general mean is the sample-weighted mean of the node means. |
| GeneralLatency.ReportedMadeOf | src/metrics/GeneralLatency.cpp:29-45 | The aggregate holds exactly one node for each history with a measurement, in their order, with what was measured last at each of its times; the means are as many as the nodes, and the samples as many as the different times. |
| GeneralLatency.UnreadMadeOf | src/metrics/GeneralLatency.cpp:29-45 | So does the aggregate of nodes that are not read back. |
| GeneralLatency.UnreadOrderedIff | src/metrics/GeneralLatency.cpp:29-45 | For given times at every node, nodes that are not read back from their texts keep that order for all durations exactly when no node measures twice at the same time. |
| GeneralLatency.GeneralLatencyObject.Push | src/metrics/GeneralLatency.cpp:29-45 | A node without results is skipped; any other is kept once, with one more mean and as many more samples as it has measurements. |
| Cdf.PrintRows | src/master/ResultProcessor.cpp:205-220 | The loop prints for each of the thirty rows what the buckets up to it make of the count, or not a number without samples. |
| Cdf.ReportedRows | src/master/ResultProcessor.cpp:205-220 | For all histories of all nodes, printed, read back and aggregated, a row is the exact fraction of the samples that lie below its bound and above minus one interval. |
| Cdf.RowsCountBelowIff | src/master/ResultProcessor.cpp:215-216 | The rows count the samples below their bounds exactly when every sample is above minus one interval. |
| Cdf.SetBackIsLost | src/master/ResultProcessor.cpp:215-216 | A sample of -10 is below every bound and in no row of five units. |
| Cdf.Distribution | src/master/ResultProcessor.cpp:205-220 | The rows never fall and lie between 0 and 1; a row is 1 exactly when every sample is below its bound and above minus one interval. |
| Cdf.RowAdded | src/master/ResultProcessor.cpp:215-216 | Adding the bucket of a row to what was accumulated counts exactly the samples up to that row. |
| Results.CollectSeparates | src/master/ResultProcessor.cpp:48-72 | However the reports of the controllers are mixed, the join metric is what the texts named JoinLatency make it, and so on for every name, in their order; all is collected exactly when every report has one of the seven names and, if of latencies, a text that can be read. |
| Results.ResultProcessor.PushResult | src/master/ResultProcessor.cpp:48-96 | A result changes the metric of its name and no other. |
| WorkloadLines.JoiningKeepsText | src/master/MasterWorkload.cpp:78-85 | Joining ends on every file; the lines are the text of the file, in order, less exactly one backslash for each join, each from the end of its piece, so that those inside a line stay; no line asks to be continued. |
| WorkloadLines.ContinuedLine | src/master/MasterWorkload.cpp:80-85 | A backslash at the end of a piece joins it to the next piece and to no more. |
| WorkloadLines.ContinuedAtEnd | src/master/MasterWorkload.cpp:80-85 | At the end of the file it is dropped. |
| WorkloadLines.PlainLine | src/master/MasterWorkload.cpp:78-80 | Any other piece is a line by itself. |
| WorkloadLines.JoiningIff | src/master/MasterWorkload.cpp:78-85 | The lines are those of the file exactly when none ends in a backslash. |
| WorkloadLines.ReadLine | src/master/MasterWorkload.cpp:79-85 | The joining loop ends, also on backslashes at the end of the file, and yields the joined line and the place after it. |
| Workload.HeadersRecognised | src/master/MasterWorkload.cpp:149-180 | Exactly which lines give a number of nodes, a duration, a profile section or a default profile. |
| Workload.PartsRecognised | src/master/MasterWorkload.cpp:182-205 | Exactly which lines give a join, leave, put or get part. |
| Workload.SingleRecognised | src/master/MasterWorkload.cpp:220-230 | Exactly which lines choose the profile of a single node. |
| Workload.UnsignedReadsBack | src/master/MasterWorkload.cpp:157 | A number in decimal is read as that number, and refused exactly when it needs more than 32 bits. |
| Workload.NodesMeaning | src/master/MasterWorkload.cpp:149-161 | The number of nodes is the caller's, or that of the first line that gives one other than 0. |
| Workload.FirstNodesLineDecidesIff | src/master/MasterWorkload.cpp:151-156 | Without a number from the caller, the first nodes line decides exactly when its number is not 0 or no later one is anything else. |
| Workload.SecondNodesLine | src/master/MasterWorkload.cpp:151-156 | In a file with the lines nodes 0 and nodes 5 the second one decides. |
| Workload.DefaultCoversAllOrNone | src/master/MasterWorkload.cpp:209-218 | A default-profile line covers every node when the number of nodes is known before it, and none otherwise. |
| Workload.ChoiceMeaning | src/master/MasterWorkload.cpp:208-230 | A node has a profile name exactly when a line covered it, and then that of the last such line. |
| Workload.ProfileMeaning | src/master/MasterWorkload.cpp:170-205 | A profile exists exactly when a section bears its name, and has exactly the parts given in the last such section. |
| Workload.RunAcceptedIff | src/master/MasterWorkload.cpp:135-237 | The lines are taken to the end exactly when each can be taken where it stands: its number is readable where needed, and a part belongs to a section that does not have it yet. |
| Workload.LoadAcceptedIff | src/master/MasterWorkload.cpp:61-131 | A first load succeeds exactly when all lines can be taken, there are nodes, a duration and a section, every last section is complete, and every node is covered, last by a line that names a section. |
| Workload.EveryNodeServed | src/master/MasterWorkload.cpp:46-53 | After a successful load every node has the four nonempty parts of the profile named by the last line that covered it. |
| Workload.LeftoverProfile | src/master/MasterWorkload.cpp:140-141 | In a later load, a part before the first section goes to the profile that the load before left, or ends the process when that part is set. |
| Workload.MasterWorkload.GetNodeProfile | src/master/MasterWorkload.cpp:46-53 | Returns the four parts of the profile chosen for the node, each in its own place. |
| Workload.MasterWorkload.ProcessConfigLine | src/master/MasterWorkload.cpp:135-237 | A line changes the fields, is rejected or ends the process as its kind demands. |
| Workload.MasterWorkload.LoadConfig | src/master/MasterWorkload.cpp:61-131 | The two nested loops and the final checks give the same verdict and the same fields as folding the joined lines. |

## Left out

- Sockets, asio, name resolution and threads: replaced by atomic steps on byte streams, a step in which a controller dies and loses any part of what it wrote, and a timeout step.
- The controller's timeout thread: a controller that it ends is, to the master, one that dies.
- Connection.ControllerConnection.SendMessage: appends in one step, although `writeBuffer_` is reused by consecutive sends; that a send is over before the next one starts is assumed.
- Errors of writes, by the master to a controller that is gone and by a controller to its master, end those processes in the code and are not modelled.
- Errors of accept, which end the master.
- Controller.DhtNode.ProcessJoinEvent: assumes that joining succeeds after some finite, arbitrary number of tries; the source may try for ever.
- Controller.DhtperfController.Start: assumes that a DHT operation takes some least time, however small, and that joining succeeds after finitely many tries; the transition system and its theorems assume neither.
- The timer of the event loop never runs backwards; the time between two of its readings is not bounded.
- Master.DhtperfMaster.Message: which texts can be read as latencies is given as a predicate; that what a controller prints can be read is NodesToMetrics.RealReportsReadable.
- The random number generators and the dictionary: draws are any number below 2^31 and words are any strings. Durations and the frequency of an Interval are at most 2^31, so that a time that wraps is never reached before the end of the run.
- SchedulerTermination.RankFalls: leaves out Now, the random profiles, which may draw 0 for ever, and an Interval of frequency 0, which is due again at once.
- The order of equal times in a priority queue is left open, and its heap is a multiset.
- The text of a profile, its parameters and `makeProfile`; FullDictionary and NTimesRandom are lists of events like Exact.
- Profiles.Profile.Now: for puts and gets the code exits instead of building a queue.
- Protocol.InvHolds: the workload's texts and numbers fit the fields that carry them; a workload that does not fit is not followed.
- Codec.ToBits: numbers are stored as on a little-endian host.
- NodeLatency.RoundTrip: how a date or duration is written is left open; assumed is only that it reads back, holds no space and is made of one-byte characters, and `NodesToMetrics.FaithfulBytesExist` shows that this can be met.
- Rounding of floating point numbers, and the width of counters of samples.
- Master.DhtperfMaster.PushNodesStatus: the three numbers are returned; how they are written into one text is not modelled.
- Success rates: only the texts pushed are kept, by type and in order.
- The columns, files and console output of `ResultProcessor`; in the distribution the left column of range bounds.
- Workload.Classify: letters and digits are those of ASCII, and a line holds no zero byte.
- Workload.LoadAcceptedIff: is stated for the first load of a process, as the master does it; a later one may go on with the profile the static variable still holds, which the fold itself models.
- The wrappers around DHT programs, `RWPopen`, the scripts and the service `dhtperfd`.
