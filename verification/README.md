# Verified model of the monitoring pipeline

This project models, in Dafny 4.11, how the monitoring pipeline carries statistics from a hypervisor to the
files the dashboard reads, and proves what is conserved and kept on the way.

* A **monitor** (`DomainStatTracker.dfy`, `MonitorSpec.dfy`, `Publisher.dfy`) polls the hypervisor, keeps one
  tracker per listed domain, announces departed domains and publishes one batch of counter deltas per cycle.
  The classes follow the C++ ones; each method is proved equal to a step of `MonitorSpec`, which
  `MonitorRuns` shows to be a short declarative account (`CycleResult`, `Story`). Every object a publisher
  allocates carries a ghost `alive` flag that `Delete` requires and clears, so double frees and uses after a
  free are excluded by preconditions. `MonitorEvents`, `MonitorReports`, `MonitorBatches`,
  `MonitorConservation` and `MonitorLifetimes` prove what holds over every run, the last for each tracker's
  lifetime in it.
* The **relay tree** (`Message.dfy`, `Receivers.dfy`, `RelayTree.dfy`) carries messages over channels that may
  lose whole messages. The receivers' loops are methods over sockets; the network is a step function over any
  in-tree, and every interleaving is a sequence of steps (a step that is not enabled does nothing).
  `RelayProgress.dfy` says what can stop a relay and what cannot.
* The **writer** (`WhisperLines.dfy`, `WhisperProxy.dfy`) prints batches into bounded buffers and a buffered
  pipe; the **updater** (`WhisperUpdater.dfy`) tokenises the lines and files each value under a path;
  `WriterStream.dfy` joins the two and `SeriesTimes.dfy` dates the points.
* The **dashboard** (`DashboardQueries.dfy`) picks files by substrings of path components. `Topics.dfy` covers
  the topic/path helpers and the directory builder, `Timespec.dfy` the clock arithmetic.
* `Pipeline.dfy` joins everything: counters observed by monitors, through batches, relays, lines and the
  decoder, to the values filed; `FiledLifetimes.dfy` does so for a single tracker's lifetime.

Modelling choices. The environment (listings, lookups, samples, clocks, uninitialised memory of the structs
a tracker allocates) is input: a `Cycle` holds one cycle's answers. A failed domain count or lookup is an
exception that nothing catches, so the run halts; a failed listing reads as an empty one, as in the code. A
failed sample leaves its struct alone, and a successful call may write any value, which covers libvirt being
handed a pointer's size. Counters are 64-bit: `long long` differences wrap, and each conservation law is
stated both modulo 2^64 for any values and exactly (`exact`) when the counter in question never moves by more
than a signed 64-bit number in one update, as when it never reads negative. Doubles are
signed-magnitude reals with infinities and NaN, so a zero elapsed time or a zero `maxMem` is covered.
The branch for a first update at src/DomainStatTracker.cc:88-100 is dead, because the constructor already
allocates `m_domainInfo`, so the first delta is taken against whatever the structs held at construction.
A relay republishes before it decodes; a message it cannot decode halts it after it has been sent on.

Where code and comments disagree the code is followed. src/horizon_monitor/ubuntu/horizon/dashboards/nova/monitor/utils.py:89-90
sets the metric flag when the node filter is absent (`FilterFusion`, `FusionExactly` and `MissingNodeFilter`
say exactly what follows). Its line 97 says the last three components are node, UUID and file, which for a
host name with dots is true of the host's last label only (`PathComponents`). The comment at
src/common.cc:153-154 promises a topic's dirname, while the function returns every directory above it
(`ComponentsArePrefixes`).

## Model

| member | source | states |
|---|---|---|
| Publisher.ActiveDomainWatcher.ListedSet | src/ActiveDomainWatcher.hh:47-52 | after a successful listing the result has exactly the listed ids, 0 included, whatever their order and however often they repeat; after a failed one it is empty |
| Publisher.ActiveDomainWatcher.Poll | src/ActiveDomainWatcher.hh:34-84 | a poll with its handler calls takes the publisher to the state the snapshot diff specifies; new objects are fresh and ownership is kept |
| Publisher.ActiveDomainWatcher.CallRemoved | src/ActiveDomainWatcher.hh:54-66 | the remove handler runs once for each remembered id missing from the listing, in id order, while the handlers mutate the tracker map |
| Publisher.ActiveDomainWatcher.CallAdded | src/ActiveDomainWatcher.hh:68-80 | the add handler runs for each new id in id order and stops at the first lookup that fails |
| Publisher.LibvirtDomainStatPublisher.RemoveStatTracker | src/DomainStatPublisher.hh:202-228 | the notice is sent, the tracker freed and its entry erased; an unknown id only warns (NoticeNamesTopic and LogsAgree say what the notice is) |
| Publisher.LibvirtDomainStatPublisher.AddStatTracker | src/DomainStatPublisher.hh:189-200 | a new tracker is owned by the map; an old one under the same id is freed first; a failed lookup halts |
| Publisher.LibvirtDomainStatPublisher.Update | src/DomainStatPublisher.hh:159-187 | one cycle equals the specified step on the monitor's abstract state, and the map owns exactly the live trackers afterwards (BatchSays and RunBatches say what the batch is) |
| Publisher.LibvirtDomainStatPublisher.CollectStats | src/DomainStatPublisher.hh:163-170 | every tracker is updated once, in id order, and the batch holds their results in that order |
| Publisher.LibvirtDomainStatPublisher.Destroy | src/DomainStatPublisher.hh:148-157 | after the destructor every tracker ever allocated is dead, none freed twice |
| Publisher.Monitor | src/basic_monitor.cc:80-99 | the messages the monitor process sends over any environment answers are those of the specified run |
| Trackers.DomainStatTracker.Update | src/DomainStatTracker.cc:56-159 | overwriting the structs in the code's order amounts to one step of the tracker's specification (SampleReaches, UpdateDelta, CpuWork and MemoryShare say what that is in terms of the sample) |
| MonitorRuns.CycleMeaning | src/DomainStatPublisher.hh:159-187 | handler by handler and update by update, a cycle is: drop the departed with notices in id order, add the new in id order, and unless a lookup failed send one batch of everything listed |
| MonitorRuns.RunIsStory | src/basic_monitor.cc:80-90 | every run of the code is the run of those declarative cycles |
| MonitorRuns.RunCoupled | src/ActiveDomainWatcher.hh:34-84 | after every cycle of every run the tracker map's keys, the watcher's set and the ids the hypervisor listed are one set, and neither warning branch was ever taken |
| MonitorRuns.HaltsWhen | src/DomainStatTracker.cc:15-20 | a run halts if and only if some cycle could not count the domains or could not look a newly listed one up |
| MonitorRuns.HaltedForever | src/basic_monitor.cc:80-90 | once an exception has left main the run changes no more |
| MonitorRuns.BatchLists | src/DomainStatPublisher.hh:163-170 | each batch has exactly one entry per id the hypervisor listed, domain 0 included, in strictly ascending id order, duplicates in the listing notwithstanding |
| MonitorBatches.BatchSays | src/DomainStatPublisher.hh:172-187 | a batch goes out under monitor.servers. and its host with the host's name, the entries, and a time that is the clock reading to the nanosecond |
| MonitorBatches.RunBatches | src/basic_monitor.cc:80-90 | a run sends one batch for each cycle it completes, in order, each with its own cycle's clock and exactly its own cycle's listed ids |
| MonitorEvents.EventsDetermined | src/ActiveDomainWatcher.hh:54-83 | the add and remove events of a run are a function of the listings alone |
| MonitorEvents.EventsPerPoll | src/ActiveDomainWatcher.hh:54-80 | a poll fires as many events as the symmetric difference has elements |
| MonitorEvents.EventsAlternate | src/ActiveDomainWatcher.hh:54-83 | per id, adds and removes strictly alternate starting with an add, and the hypervisor's last listing has the id exactly after an odd number of events |
| MonitorEvents.LogsAgree | src/DomainStatPublisher.hh:202-228 | termination notices, remove events and freed trackers correspond one to one, in order, each notice naming the freed tracker's UUID |
| MonitorEvents.NoticesCountDepartures | src/DomainStatPublisher.hh:202-228 | in every run an id's freed trackers number its present-to-absent edges in the listings the run compared, that of a cycle whose failed lookup ended the run included |
| MonitorReports.ReportedNames | src/DomainStatPublisher.hh:159-187 | a batch names a UUID if and only if a domain listed in that cycle carries it |
| MonitorReports.NoticeFollowsReport | src/DomainStatPublisher.hh:202-228 | every termination notice of every run comes after a batch naming its UUID, with only other notices in between |
| MonitorReports.NoLaterReport | src/DomainStatPublisher.hh:159-228 | once no tracker carries a UUID and none is looked up with it again, no later batch names it |
| MonitorConservation.DeltasConserved | src/DomainStatTracker.cc:107-156 | over every run the deltas sent for a UUID add up to the movement of each of the thirteen counters over all its lifetimes, from construction to the newest successful sample, modulo 2^64 for any values, and exactly when that counter moves by signed 64-bit amounts |
| MonitorConservation.PlainFits | src/DomainStatTracker.cc:107-156 | a counter that no listed domain ever reads negative moves by signed 64-bit amounts throughout, whatever the other counters read |
| MonitorConservation.DriftIsCurrent | src/DomainStatTracker.cc:124-131 | in every tracker of a run, freed or not, reference and current counter are the newest value among its samples that was fetched, and what it moved is that minus the reference held at construction; nothing before the first sample and for domain 0 |
| MonitorConservation.PolledDrift | src/DomainStatPublisher.hh:189-228 | freeing and adding trackers changes no account: a newborn tracker starts at zero |
| MonitorConservation.AdvancedDrift | src/DomainStatPublisher.hh:163-170 | what a batch reports for a UUID is how far its trackers moved, up to multiples of 2^64, and exactly when that counter's movements in the cycle are signed 64-bit numbers |
| MonitorLifetimes.LifetimesComplete | src/DomainStatPublisher.hh:189-228 | every tracker a run frees has a history from the cycle that found its domain new to the one that no longer listed it, and every tracker of a running monitor one up to now: its state is the tracker specification applied to its samples since then, and its entries in the batches sent since then are that computation's outputs, one per cycle |
| MonitorLifetimes.LifetimeDeltas | src/DomainStatTracker.cc:107-156 | for each lifetime of a run the deltas sent for the tracker add up to the newest fetched value of its counter among the cycles' samples minus the reference found at construction, modulo 2^64 or exactly when its updates fit; there is one entry per cycle; domain 0 contributes 0 |
| MonitorLifetimes.LifetimeCpu | src/DomainStatTracker.cc:102-121 | for each lifetime of a run the utilisation sent for the tracker, weighted by elapsed time, adds up to its newest fetched CPU time minus the one found at construction, and the weights to the time since construction |
| MonitorLifetimes.SoleLifetime | src/DomainStatPublisher.hh:163-170 | while no other tracker carries a lifetime's UUID, the entries sent for the UUID are exactly this tracker's outputs, and their deltas add up to its counter's movement |
| Trackers.SampleReaches | src/DomainStatTracker.cc:66-131 | whatever a call of a sample fetched is afterwards the current and the reference value of its struct, of each of the thirteen counters and of the CPU figures, and the clock reading is the new reference time |
| Trackers.FirstUpdate | src/DomainStatTracker.cc:7-36 | the first deltas, CPU time and elapsed time are measured from the structs and the clock reading of the construction |
| Trackers.DomainZero | src/DomainStatTracker.cc:63-64 | domain 0 never changes and reports zero utilisation and zero deltas |
| Trackers.CountersDetermine | src/AggregateDomainStats.hh:42-54 | the thirteen counters the results are stated for are all the fields of the two structs |
| Trackers.UpdateDelta | src/DomainStatTracker.cc:124-156 | each of the thirteen deltas is the counter's movement since the previous update up to a multiple of 2^64, and exactly that if and only if the movement is a signed 64-bit number |
| Trackers.FailedSample | src/DomainStatTracker.cc:83-85 | a sample in which the call supplying a counter failed adds 0 to it once reference and current value agree, whatever the other call did, and they agree after any update |
| Trackers.NextSuccess | src/DomainStatTracker.cc:83-154 | after any number of failures to fetch a counter, each reporting 0, the next delta is the value fetched minus the one last fetched |
| Trackers.FailedInfo | src/DomainStatTracker.cc:66-121 | a failed CPU sample accounts for no CPU time once the saved and scratch structs agree, and they do after any update |
| Trackers.DeltasTelescope | src/DomainStatTracker.cc:56-159 | over any list of samples, failed or not, a tracker's deltas add up to the counter's movement since construction, modulo 2^64 or exactly when every update fits |
| Trackers.ExactThroughout | src/DomainStatTracker.cc:124-156 | the deltas add up exactly after every update of a lifetime if and only if every update moves the counter by a signed 64-bit amount |
| Trackers.LifetimeEnds | src/DomainStatTracker.cc:56-159 | after any samples the reference and current counter are the newest fetched value among them, and likewise the CPU figures; domain 0 never moves |
| Trackers.CpuWork | src/DomainStatTracker.cc:102-109 | published CPU utilisation is finite if and only if the clock has moved, and then times elapsed nanoseconds it is the CPU time used up to this sample; otherwise it is NaN or infinite by whether any was used |
| Trackers.MemoryShare | src/DomainStatTracker.cc:112-115 | published memory utilisation times the newest maximum is the newest memory in use, and NaN or infinite just when that maximum is 0 |
| Trackers.CpuConserved | src/DomainStatTracker.cc:102-121 | over any run the time-weighted utilisation adds up to the newest fetched CPU time minus the one found at construction, modulo 2^64 or exactly for a rising counter, and the weights add up to the time since construction |
| Trackers.UtilisationBounded | src/DomainStatTracker.cc:102-115 | finite utilisations are at most 2^64, from a 64-bit difference over at least a nanosecond |
| Timespecs.TsDiffExact | src/timespec_utils.cc:20-34 | the difference is exact in nanoseconds for arguments in either order, normalised when they are, and its seconds are nonnegative if and only if end is not before start |
| Timespecs.DiffsTelescope | src/timespec_utils.cc:20-34 | differences of successive readings add up to the overall difference, clock steps included |
| MessageFrames.MessageObject.Send | src/Message.hh:36-54 | a message goes out as its key frame followed by its data frame |
| MessageFrames.MessageObject.Receive | src/Message.hh:56-98 | receiving takes exactly one message off the socket, its key cut at the first NUL; fails if and only if a frame is missing |
| MessageFrames.ReceivedKey | src/Message.hh:68-73 | a message arrives unchanged if and only if its key has no NUL, and a second hop changes nothing more |
| Receivers.Receiver.RelayOne | src/intermediate_receiver.cc:61-98 | one turn republishes the message received before it may halt on decoding it, and it halts exactly when it decodes and the payload is not the kind its key calls for |
| Receivers.Receiver.Relay | src/basic_receiver.cc:71-109 | until interrupted, a relay sends on what it receives up to and including the first message it cannot decode (ForwardedPrefix says which that is) |
| Receivers.ForwardedPrefix | src/intermediate_receiver.cc:61-98 | what a relay sends is a prefix of what it was sent, shorter if and only if it decodes and, before the last, a notice key comes without a notice or another key without a batch |
| RelayTree.StepInv | src/intermediate_receiver.cc:61-98 | every publish, drop, receive, forward, decode and crash keeps each edge's and node's accounting |
| RelayTree.OneChild | src/basic_receiver.cc:40-51 | a monitor's messages enter each node of the tree through one child only |
| RelayTree.SubscribedKept | src/intermediate_receiver.cc:49-59 | a key matches the subscriptions if and only if it still does after being read back as a C string |
| RelayTree.LoopIsSteps | src/intermediate_receiver.cc:61-98 | a relay taking turns of receive, forward and decode over a channel sends on exactly what the receivers' loop forwards, halting included |
| RelayTree.RelayedInOrder | src/basic_receiver.cc:71-79 | over every tree, interleaving, loss and crash, what any other node received from a monitor is a subsequence of what the monitor published |
| RelayTree.NothingLost | src/intermediate_receiver.cc:61-98 | without drops and crashes, delivered plus in flight is exactly what was published, even when relays halt on messages they cannot decode |
| RelayProgress.DropsReach | src/basic_receiver.cc:71-79 | conversely any subsequence of what a channel holds can be left in it by losses, which touch nothing else |
| RelayProgress.CrashStops | src/intermediate_receiver.cc:93-98 | a relay that has gone down neither receives nor sends anything again, whatever happens |
| RelayProgress.OnlyTopics | src/intermediate_receiver.cc:49-59 | over every run of the network, only messages under the two subscribed topics ever reach a channel or a node |
| RelayProgress.RunForwarded | src/intermediate_receiver.cc:61-98 | a relay, decoding or not, forwards everything a monitor's run sends, unchanged |
| RelayProgress.NeverHalted | src/intermediate_receiver.cc:70-98 | without crashes no relay of a network of monitors ever halts |
| RelayProgress.RelayDrains | src/intermediate_receiver.cc:61-98 | an idle relay taking turns until its child's channel is empty sends on all of it, in order |
| WhisperLines.GetWhisperUpdates | src/common.cc:26-96 | four lines per domain, in order, each the line of the domain's report for that metric |
| WhisperLines.UpdateLines | src/common.cc:30-91 | domain i's lines are the (4i)th to (4i + 3)rd: its CPU and memory utilisation, disk reads and disk writes, each as key, value and time in full |
| WhisperLines.BuffersHold | src/common.cc:34-91 | whatever is printed, the key keeps its first 511 characters and the line its first 1023 |
| WhisperLines.KeyFits | src/common.cc:37-42 | a key survives its 512-byte buffer if and only if host, UUID and metric take at most 493 characters |
| WhisperLines.NothingTruncated | src/common.cc:34-91 | with a 36-character UUID, a host of at most 443 characters, and utilisation and times up to 2^64, no key and no line is cut by its buffer, and the line is the key, the value and the time |
| Numerals.FixedRoundTrip | src/whisper_updater.py:34-35 | reading a printed double gives it back within 5e-7, sign of zero included, and printing that gives the same text |
| Numerals.IntRoundTrip | src/whisper_updater.py:34 | reading a printed long long gives it back exactly |
| Numerals.FixedFormat | src/common.cc:45 | %f prints sign, digits, a point and six more, for the nearest such number and the even one of two; negative zero keeps its sign |
| Numerals.FloatLiterals | src/whisper_updater.py:34-35 | a word is a number if and only if it is a decimal literal, inf or nan behind at most one sign |
| WhisperProxy.WhisperRRDProxy.UpdateImmediate | src/WhisperUpdater.hh:79-105 | the message's lines are appended to the pipe, nothing stays buffered after a batch with any domain (earlier notices included), and a payload of the wrong kind writes nothing |
| WhisperProxy.WhisperRRDProxy.RunProxyLoop | src/WhisperUpdater.hh:108-143 | what has been written is the lines of the messages handled, in order; the socket holds the others; all but the last handled converted, and the loop stops before its polls are over only if the last did not |
| WhisperProxy.NoticeLine | src/WhisperUpdater.hh:79-105 | a notice is written as one line, its key and its text as far as the first NUL |
| WhisperProxy.AllConvert | src/WhisperUpdater.hh:79-105 | messages all convert if and only if each payload is what its key calls for |
| WhisperProxy.LinesReadBack | src/whisper_updater.py:72-77 | the reader gets exactly the newline-free lines written, in order |
| WhisperProxy.FlushedLines | src/WhisperUpdater.hh:101-102 | whatever part of the text has been flushed, the reader has a prefix of the lines and possibly the beginning of the next |
| WhisperUpdater.Updater.Update | src/whisper_updater.py:24-37 | the metric's file is created before the numbers are read, and a value is filed only if both parse |
| WhisperUpdater.UpdateOutcome | src/whisper_updater.py:24-37 | for any data whatever: the file exists afterwards, the error is for a bad number before a missing one, and a point is filed exactly when there is none |
| WhisperUpdater.Updater.Process | src/whisper_updater.py:39-52 | dispatch on the key: foreign keys are ignored, notices recorded, update lines filed, an empty line raises |
| WhisperUpdater.CommandOutcome | src/whisper_updater.py:39-52 | for any line whatever: blank lines raise and change nothing, foreign topics change nothing, a notice is recorded with its words joined by blanks, and a report goes to its topic with slashes for dots |
| WhisperUpdater.Updater.ReadLoop | src/whisper_updater.py:72-77 | every line is stripped and processed in order until an exception |
| WriterStream.ReadingStops | src/whisper_updater.py:72-77 | the first line that raises ends the reading, and whatever follows it has no effect |
| WhisperUpdater.LineRoundTrip | src/whisper_updater.py:24-52 | decoding the line printed for a report files exactly that report, under the path of its host, UUID and metric, and raises nothing |
| WhisperUpdater.KeyToPath | src/whisper_updater.py:50-52 | splitting the printed key at its dots and joining all but the first part gives servers/host/uuid/metric with the host's dots as slashes |
| WhisperUpdater.FilePathInjective | src/whisper_updater.py:24-32 | different host, UUID or metric, different file, also for hosts with dots |
| WhisperUpdater.ProcessStripped | src/whisper_updater.py:76-77 | the newline and strip() make no difference to what a line does |
| WriterStream.StreamProcessed | src/WhisperUpdater.hh:79-105 | reading the proxy's text back files every report of every message, in order, and nothing else; the updater never raises |
| WriterStream.SeriesFiled | src/whisper_updater.py:24-37 | for every host, UUID and metric the store holds exactly what the messages carried, each value and time once and in order |
| WriterStream.DashboardAgrees | src/horizon_monitor/ubuntu/horizon/dashboards/nova/monitor/utils.py:56-75 | after any messages into an empty store, querying any listing of it by instance and metric returns exactly the files of that instance and metric |
| DashboardQueries.GetWhisperFilesBy | src/horizon_monitor/ubuntu/horizon/dashboards/nova/monitor/utils.py:45-75 | the three query loops, for the component third, second or last from the end, with the IndexError on a path that is too short |
| DashboardQueries.GetWhisperFilesList | src/horizon_monitor/ubuntu/horizon/dashboards/nova/monitor/utils.py:78-122 | the files match_filter accepts flag by flag, in order, with its ValueError on a short path |
| DashboardQueries.FilterFusion | src/horizon_monitor/ubuntu/horizon/dashboards/nova/monitor/utils.py:84-109 | with a node filter the list equals the passes composed, order included; without one it is everything if there is no filter at all, and otherwise nothing |
| DashboardQueries.FusionExactly | src/horizon_monitor/ubuntu/horizon/dashboards/nova/monitor/utils.py:88-94 | the list is what its filters ask for if and only if a node filter is given, or no filter at all, or nothing matches |
| DashboardQueries.MissingNodeFilter | src/horizon_monitor/ubuntu/horizon/dashboards/nova/monitor/utils.py:89-90 | a concrete file that an instance filter asks for and the list omits |
| DashboardQueries.PassesCommute | src/horizon_monitor/ubuntu/horizon/dashboards/nova/monitor/utils.py:45-75 | the passes may be made in any order |
| DashboardQueries.PathComponents | src/horizon_monitor/ubuntu/horizon/dashboards/nova/monitor/utils.py:97-98 | the last three components of a stored path are the host's last label (the host itself without dots), the UUID and the metric's file name |
| DashboardQueries.MetricNames | src/horizon_monitor/ubuntu/horizon/dashboards/nova/monitor/utils.py:67-75 | a metric's name occurs in a metric's file name only if they are the same metric |
| DashboardQueries.QueriesAgree | src/horizon_monitor/ubuntu/horizon/dashboards/nova/monitor/utils.py:56-75 | over any listing of stored paths the two substring queries select exactly by UUID and metric |
| DashboardQueries.NodeQuery | src/horizon_monitor/ubuntu/horizon/dashboards/nova/monitor/utils.py:45-53 | over stored paths a query by node looks for its text anywhere in the last label of the host |
| Topics.PubsubTopicToPath | src/common.cc:137-146 | in place, every dot becomes a slash and nothing else changes |
| Topics.PubsubTopicToPathComponents | src/common.cc:155-174 | the loop collects the path up to and including each dot |
| Topics.ComponentsArePrefixes | src/common.cc:155-174 | for keys without slashes the components are exactly the slash-terminated prefixes of the path, strictly increasing, one per dot |
| Topics.ThreeViews | src/whisper_updater.py:51 | Python's split and join is the in-place rewriting, and splitting the path at slashes is splitting the topic at dots |
| Topics.FileSystem.CreateDirectories | src/common.cc:176-199 | stat and mkdir per component, stopping at the first failure |
| Topics.OnlyUnderParents | src/common.cc:179-197 | in any file system, slashes or not: nothing is lost, nothing is created over a plain file or without its parent, and creation succeeds if and only if every component is a directory afterwards |
| Topics.DirectoriesCreated | src/common.cc:176-199 | where every directory's parent exists no missing parent is met: creation fails if and only if a plain file is in the way, else it adds exactly the ancestors and keeps the file system closed |
| Topics.CreationIdempotent | src/common.cc:187-188 | creating the same directories again succeeds and changes nothing |
| Pipeline.RunSendsGood | src/DomainStatPublisher.hh:159-228 | every message of a run fits its buffers, parses back, has a NUL-free subscribed key and names its own host |
| Pipeline.ExecGenuine | src/intermediate_receiver.cc:61-98 | at every node of every tree, packets only ever carry messages their origin may have sent |
| Pipeline.OwnSeries | src/common.cc:65-91 | with distinct hosts, what a log carries for a host, UUID and metric is, point by point, what that host's monitor put into it |
| Pipeline.FiledAt | src/whisper_updater.py:24-52 | lossy or not, the series filed for a host, UUID and each of the four metrics is exactly what was received for it, and a subsequence of what the monitor's run carries for it |
| Pipeline.FiledStamped | src/whisper_updater.py:34-37 | lossy or not, every filed point has the time of one of its monitor's cycles, to within 5e-7 |
| Pipeline.NoticeNamesTopic | src/DomainStatPublisher.hh:212-221 | a domain's notice names the topic its metrics are published under, less the leading monitor. |
| Pipeline.NoticesDiffer | src/DomainStatPublisher.hh:212-221 | equal notices are of the same host and UUID, also for hosts with dots |
| Pipeline.RunTerminated | src/whisper_updater.py:47-49 | the terminations the updater records for a run are those of its freed trackers, in order, each with its host and UUID |
| Pipeline.TerminatedAt | src/whisper_updater.py:47-49 | those recorded at any node are the texts of the notices it received, in order |
| Pipeline.SeriesReadings | src/whisper_updater.py:34-37 | the values decoded from a host's messages for a UUID and metric are, in order, those of the UUID's entries |
| Pipeline.SeriesSum | src/whisper_updater.py:34-37 | decoded disk values add up to the deltas the messages report |
| Pipeline.EndToEnd | src/DomainStatTracker.cc:56-131 | at any moment, without loss, the decoded disk values filed for a host and UUID plus those in flight or not yet published add up to the movement of the counter over all lifetimes on that host, modulo 2^64 or exactly when that counter's movements fit |
| FiledLifetimes.LifetimeFiled | src/whisper_updater.py:24-52 | once a lifetime's messages have arrived, its file holds, after the points of what was sent before its construction, the tracker's outputs one per cycle, each with its own cycle's time to within 5e-7, for each of the four metrics, while no other tracker carries the UUID |
| FiledLifetimes.OwnSum | src/DomainStatTracker.cc:124-131 | the disk values among a lifetime's points add up to the newest fetched value of this one tracker's counter minus the reference found at construction |
| FiledLifetimes.ArrivedInTime | src/intermediate_receiver.cc:61-98 | without loss a lifetime's messages have arrived once as many messages have |
| Pipeline.NoReportSubseq | src/basic_receiver.cc:71-79 | losing messages cannot put a report after a notice |
| Pipeline.SilentEverywhere | src/DomainStatPublisher.hh:159-228 | once no tracker carries a UUID and it is not found again, however often it was announced and found before: at any moment what any node of any lossy tree has received is messages sent until then followed by messages that do not name it |
| Pipeline.SilentFromNotice | src/DomainStatPublisher.hh:159-228 | the split is already before the messages of the cycle that announces the termination |
| Pipeline.SilentAfterFirstNotice | src/DomainStatPublisher.hh:202-228 | a UUID announced for the first time and not found again is named by no batch after its notice, at the monitor or any other node |

## Left out

- Trackers.DomainStatTracker.Update: leaves out the domain XML lookup of the disk name and the sizes passed to libvirt, because what those foreign calls write is environment input here.
- Numerals.FixedRoundTrip: models doubles as reals with a sign, infinities and NaN, so IEEE rounding is not modelled; the sign printf may put before nan is implementation-defined and printed as none.
- Numerals.IntRoundTrip: the decoder reads decimal literals, inf and nan only; exponents and other literals Python accepts are read as errors, because the printer never writes them.
- Topics.DirectoriesCreated: is stated for keys without slashes, because a label with a slash names a nested directory whose parent the code never creates; permissions and symbolic links are not modelled.
- WhisperUpdater.Updater.Update: keeps the set of metric files and the sequence of values; the file format, retention and timestamp checks of the whisper library are not part of this model.
- RelayTree.RelayedInOrder: is for in-trees, where each node sends to one parent; further subscribers of the basic receiver are not modelled.
- Publisher.LibvirtDomainStatPublisher.AddStatTracker: the null entry that evaluating the map lookup before a throwing constructor may leave behind is not modelled, because the exception ends the process.
- libvirt, mxml, ZeroMQ and msgpack themselves: samples are inputs, serialisation is lossless, sockets are queues that may lose whole messages.
- LinuxHostStatPublisher, eat_memory.c, the console printers, signal and thread start-up, sm_ctl, scripts and installers: constant values and process plumbing.
- utils.average and the dashboard views, tables, tabs and templates: they would only add easy members.
