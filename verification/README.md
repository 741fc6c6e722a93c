# Verification of close

close is a load-testing system written in Go. This project models its stateful cores in Dafny and proves
what they promise: what the packet statistics mean, what the pacing clock guarantees, that logs are
delivered or their loss counted, that a configuration is driven onto Docker, that the caches do not lie,
and that configurations stay registered and agree with what runs.

Check everything with `dafny verify dfyconfig.toml` (Dafny 4.11).

## How the model is built

Every core is a step function on a datatype, with the program's branches and 64-bit arithmetic written
out, and beside it the imperative code it specifies: a class whose methods update their fields, or a
method with the program's loop, proved to do what the step function says. Safety is then proved over
every run, by induction on the sequence of events; goroutines are interleaved one channel operation at a
time. Loops over Go maps take the elements in an arbitrary order, so a proof covers every iteration
order. What a state machine has come to is also stated of its events alone, without its steps: what was
configured, sent, heard, written, stored or answered. Docker, Redis, the statistics store, the network and
the clock are small abstract states or parameters; any call to Docker may fail. Docker may run anything
else beside the controller's containers: a container is *managed* if a client or a worker could have its
name, and only those are touched.

| file | what it models |
|---|---|
| `Wrappers.dfy`, `Words.dfy`, `Wire.dfy` | options; machine integers; the payload's wire form |
| `Receiver.dfy`, `ReceiverLoop.dfy` | sequence tracking for one sender; the receiver's table and timer |
| `RateClock.dfy` | the pacing clock |
| `Sender.dfy` | numbered packets, statistics windows, live configuration |
| `EndToEnd.dfy` | a sender, a lossy network and a receiver |
| `Logs.dfy`, `LogPipeline.dfy` | the log broadcaster and its followers: alone, and interleaved over bounded channels |
| `StringSets.dfy`, `Ident.dfy`, `ConfigID.dfy` | sorted string sets; container names; names that can register |
| `Containers.dfy`, `Listing.dfy` | the container manager over an abstract Docker; listing by labels |
| `Tables.dfy`, `Reconcile.dfy`, `Control.dfy` | the controller's tables and their passes; what a pass does, in any order; the controller |
| `DockerCache.dfy`, `StatsCache.dfy` | the two caches |
| `Registration.dfy`, `ConfigPush.dfy` | all registrations on one Redis, alone and interleaved, and what is listed; the push handshake |
| `Icmp.dfy` | the pinger's table of requests in flight |

## The main results

* **Loss statistics** (`EndToEnd.LossStatistics`, `EndToEnd.WireIsSent`, `EndToEnd.HeardIsArrived`). Over
  a network that loses, repeats and reorders but never invents, at every reachable state and for every
  lifetime of the receiver's record, the skips summed over its windows are exactly the numbers that never
  arrived or arrived only after a larger one, and the packets counted are fewer than the sender's
  successes. What was sent and what arrived are read off the actions.
* **Receiver conservation** (`Receiver.Conservation`, `Receiver.WindowsTile`, `ReceiverLoop.Run`). Counts
  and skips are exact, never wrap, and reported windows tile the sequence numbers, for every sender at
  once and any order of the table.
* **Pacing** (`RateClock.MaxPlus`, `RateClock.RunWithinRate`, `RateClock.SetDeliversCount`,
  `RateClock.StopEndsClock`, `Sender.SendsWithinRate`). The release times in closed form, the rate bound
  over any reconfiguration, for the clock's ticks and for the packets sent, with the exact number of ticks
  up to which it holds (`RateClock.RateBoundExactly`), and exactly how many ticks follow a `Set` or a `Stop`.
* **Logs** (`LogPipeline.RunIsSafe`, `LogPipeline.ReaderSees`, `LogPipeline.BusyRunEnds`,
  `LogPipeline.NeverStalled`, `LogPipeline.WritesWhatFits`). Every message that finds room is written,
  every drop is counted where it happened, and a stuck reader stalls nobody.
* **Reconciliation** (`Control.Manager.Start`, `Control.ConfiguredIsUp`, `Control.Manager.Drive`). An
  error-free start converges on the configuration from any well-formed tables; a second one changes
  nothing; over every error-free sequence of commands the tables cover exactly the managed containers in
  Docker; a deployable configuration meets no errors but Docker's; and containers that are not the
  controller's are left alone throughout, errors or not.
* **Caches** (`DockerCache.Answers`, `StatsCache.Answers`, `StatsCache.ClashAnswers`). Any sequence of
  queries, eager or lazy, is answered as a direct lookup would; for statistics, exactly if no series with
  the same cache key has another value.
* **Registration and push** (`Registration.LiveExactly`, `Registration.RedisTells`,
  `Registration.ListedIsLive`, `ConfigPush.PushesTell`, `ConfigPush.StoredIsRunning`). How late a
  refresh may be; that in every reachable state of one Redis, with any number of registrations interleaved
  on it, the listing finds exactly those that live; and that each push is answered once and leaves Redis
  and the worker in agreement.

## Where the code and its documentation differ

The model follows the code.

* `StringSet.Subset` is documented as inclusion (util/stringset.go:64-65). It stops when the other set is
  exhausted, so it also accepts an overhang: `StringSets.SubsetExact` gives the exact condition, and
  `Containers.EqualsAcceptsMissingEnv` a container that passes as up to date without a configured variable.
* `logFollower.close` is documented as safe to call from several goroutines (logs/follower.go:55-56).
  Both goroutines of a web socket call it (logs/websocket.go:30-52), and a second call panics the
  broadcaster, which is exactly when it panics: `LogPipeline.PanicsExactlyOnDoubleClose`, and
  `LogPipeline.DoubleClosePanics` for a run that does.
* `RateClock.Stop` is documented as stopping the clock (udp/rate.go:79). Before the first tick it removes
  the limit instead: `RateClock.StopEndsClock`.
* The refresh at half the TTL (config/sub.go:135) suggests that a tick may be late by half the TTL. Redis
  expires at whole seconds, so it may be late by that less one second: `Registration.LiveExactly`.
* The statistics cache runs type, field and instance together with `?instance=` (control/worker.go:375). A
  field that itself holds a question mark, which a URL can carry, may be answered with another series:
  `StatsCache.WrongAnswer`. `StatsCache.Answers` and `StatsCache.ClashAnswers` give the exact condition.

## Model

| member | source | states |
|---|---|---|
| Wire.TruncatedRoundTrip | udp/payload.go:63-86 | a packed payload decodes to itself exactly if its 16 header bytes arrived, whatever padding was cut off |
| Wire.RoundTrip | udp/payload.go:63-86 | unpacking undoes packing, for every payload and size |
| Wire.WireBytes | udp/payload.go:63-75 | the wire form byte by byte: the ID, the number from its highest byte down, zeros up to the size |
| Wire.DecodeIsEncode | udp/payload.go:77-86 | a datagram decodes to a payload exactly if it starts with that payload's encoding |
| Wire.FromTo | udp/payload.go:72 | reading big-endian bytes undoes writing them |
| Wire.ToFrom | udp/payload.go:83 | and writing undoes reading |
| Wire.Pack | udp/payload.go:63-75 | fills a fresh buffer with the ID, the number and zeros up to the wanted size, never less than 16 bytes |
| Wire.PayloadVar.Unpack | udp/payload.go:77-86 | overwrites the payload from a buffer; a short buffer is an error and leaves it alone |
| Receiver.RecvState.constructor | udp/recv.go:174-187 | the first packet only sets the starting point, and the window's start time |
| Receiver.RecvState.HandlePacket | udp/recv.go:189-205 | a packet is counted with the gap before it, or as out of sequence; either way its time is kept |
| Receiver.RecvState.TakeStats | udp/recv.go:211-223 | hands out the window with its duration and starts the next one where it ended |
| Receiver.HandleExact | udp/recv.go:189-205 | in a balanced window no count or skip addition wraps, and the window stays balanced |
| Receiver.RecordsStep | udp/recv.go:192-195 | one more arrival adds one to the strict running maxima exactly if it is one |
| Receiver.MissedStep | udp/recv.go:192-194 | one more arrival adds exactly the numbers it jumps over to the missed ones |
| Receiver.MissedMeans | udp/recv.go:189-205 | a number is missed exactly if each of its arrivals came after a larger number |
| Receiver.Conservation | udp/recv.go:189-223 | over all windows of a lifetime: counts plus skips are the span, counts are the strict running maxima, skips are the missed numbers, one plus counts plus duplicates are the arrivals (modulo 2^64 for duplicates) |
| Receiver.AliveIffValid | udp/recv.go:60-62 | a window is alive exactly if its ratios are defined |
| Receiver.AliveWindowIsGood | udp/recv.go:66-74 | a reported window has a positive denominator, and win and loss add up to one |
| Receiver.WindowsTile | udp/recv.go:207-223 | each window starts where the one before ended |
| Receiver.WindowsInTime | udp/recv.go:174-223 | as time passes, each window lasts its duration, its last packet is within it, and it ends before the next one starts |
| Receiver.WindowsTell | udp/recv.go:174-223 | each window's start, duration, last packet time, count, bytes and duplicates are those of the packets and takes in it |
| ReceiverLoop.TracksAreGood | udp/recv.go:146-171 | whatever arrives, a state reports only when alive and is deleted only after an idle window |
| ReceiverLoop.TracksInOrder | udp/recv.go:146-171 | every lifetime's steps are in order of time, so its windows are |
| ReceiverLoop.TracksHear | udp/recv.go:152-157 | each packet of an ID is in exactly one of its lifetimes, in order, with its number, size and time |
| ReceiverLoop.CurrentLife | udp/recv.go:152-166 | the current lifetime has every packet of its ID and every tick since the packet that began it |
| ReceiverLoop.EndedLife | udp/recv.go:159-165 | and an earlier one had them up to the tick that ended it |
| ReceiverLoop.ReportOne | udp/recv.go:159-165 | one state is reported and reset, or deleted |
| ReceiverLoop.ReportAll | udp/recv.go:158-166 | the timer reports every live state once and deletes the idle ones, in any order of the table |
| ReceiverLoop.Run | udp/recv.go:146-171 | for every sender ID, the table and the reports are those of that ID's own lifetimes, whatever the others send |
| RateClock.ProductInRange | udp/rate.go:37 | the int64 product of the schedule is exact exactly up to offset 9223372036 |
| RateClock.TargetExact | udp/rate.go:37 | up to there the target is the offset's share of time, rounded down; a rate beyond int64 is due at once |
| RateClock.ScheduleWraps | udp/rate.go:37 | one tick further the product has wrapped and the target is negative |
| RateClock.StepOnSchedule | udp/rate.go:34-56 | every step keeps: no tick since the last Set was early, nor will the pending one be |
| RateClock.RunOnSchedule | udp/rate.go:31-83 | the same over every run with any reconfiguration, however long, as long as fewer than 2^64 ticks are out since the last Set; the offset is their number |
| RateClock.RateBound | udp/rate.go:34-51 | then no more ticks are out since the last Set than the rate allows for the time passed, up to 9223372037 of them |
| RateClock.RunWithinRate | udp/rate.go:31-83 | in every reachable state of a started clock that has at most 9223372037 ticks out since the last Set, no more are out than the last Set's rate allows for the time since it |
| RateClock.RateBoundExactly | udp/rate.go:37 | and for every larger number a run breaks it: the bound holds for all runs with n ticks since the last Set exactly if n is at most that |
| RateClock.RunsAsSet | udp/rate.go:71-77 | over every run the clock's start and rate are the time and the rate of the last Set, or of the start |
| RateClock.LimitAsSet | udp/rate.go:71-83 | and its limit is that Set's count, or the ticks out since it when Stop was called; its offset is those ticks modulo 2^64 |
| RateClock.StatsKept | udp/rate.go:53-83 | Set and Stop change no statistics and recall no pending tick; a tick adds one to the count |
| RateClock.CountIsTicks | udp/rate.go:53-55 | over every run the count is the number of ticks, modulo 2^64 |
| RateClock.TicksMeetBudget | udp/rate.go:34-56 | ticks delivered and ticks still to come add up to a constant |
| RateClock.SetDeliversCount | udp/rate.go:71-77 | after Set with a count on a live clock the channel closes after exactly that many ticks, a pending one included |
| RateClock.StartDeliversCount | udp/rate.go:59-68 | so does a clock that is started with a count |
| RateClock.LiveClockMoves | udp/rate.go:31-57 | a clock that is not closed always has a next step; the loop's head leads to a tick, or to the end exactly at the limit, and a tick back to the head |
| RateClock.EndlessRun | udp/rate.go:34 | without a limit any number of ticks can follow |
| RateClock.StopEndsClock | udp/rate.go:80-83 | Stop leaves at most one tick exactly if a tick was counted before; at offset 0 it lifts the limit |
| RateClock.MaxPlus | udp/rate.go:34-53 | a release is the largest, over earlier ticks, of that tick's target plus the consumer's delays since |
| RateClock.LeftAloneAccounted | udp/rate.go:31-57 | time slept is time passed less the consumer's delays; underruns are the ticks that were late |
| RateClock.RateClock.constructor | udp/rate.go:59-68 | a started clock |
| RateClock.RateClock.SetRate | udp/rate.go:71-77 | restarts the schedule with a new rate and limit |
| RateClock.RateClock.StopClock | udp/rate.go:80-83 | sets the limit to the current offset |
| RateClock.RateClock.Sleep | udp/rate.go:35-51 | sleeps out the skew or counts an underrun |
| RateClock.RateClock.TurnHead | udp/rate.go:34-51 | the loop's test, then the sleep, or the end |
| RateClock.RateClock.Received | udp/rate.go:53-55 | a received tick is counted |
| RateClock.RateClock.Run | udp/rate.go:31-57 | left alone, releases are at the max-plus times, and the statistics account for all of the time |
| Sender.Send.constructor | udp/send.go:293-311 | the head of Run |
| Sender.Send.SendPacket | udp/sock_udp.go:101-112 | a packet is counted as sent with its size, or as an error |
| Sender.Send.ConfigPush | udp/send.go:259-288 | answers a push, and changes configuration and clock as it says; rate, count and size are the pushed ones where the push has them |
| Sender.Send.Turn | udp/send.go:313-358 | each branch of the select; a report carries the time and the clock's statistics of the loop's head before it |
| Sender.Send.Run | udp/send.go:293-359 | any interleaving of ticks, reports, pushes and the clock's goroutine |
| Sender.RunConserves | udp/send.go:293-359 | over all windows packets plus errors are the sequence number (modulo 2^64), windows abut, each reported one lasts an interval, the ID never changes |
| Sender.CountersAreSequence | udp/sock_udp.go:101-112 | below 2^64 packets the counters are exactly the sequence number |
| Sender.CountersTell | udp/sock_udp.go:101-112 | the next number is the number of packets given to the socket, and the window's counters are its successes, their bytes and its failures since the last report, modulo 2^64 |
| Sender.ReportsTell | udp/send.go:313-349 | every report has those counters, and the times and clock statistics of the loop's heads before it and before the report before; without a reporter there is none |
| Sender.ClockCountTells | udp/send.go:344-348 | a report takes the clock's statistics away: their count is the ticks since |
| Sender.DoneTells | udp/send.go:322-356 | the loop has ended exactly if a channel was closed or a packet refused |
| Sender.SenderTells | udp/send.go:293-359 | all of these from the head of Run, over any interleaving |
| Sender.ClockFollowsConfig | udp/send.go:272-279 | the clock was last set when rate or count last changed, to the values held since; its limit is that count, or where Stop left it |
| Sender.LimitIsCount | udp/send.go:308-311 | until Stop the limit is the count that was pushed last |
| Sender.PushEffect | udp/send.go:259-288 | a push is accepted exactly if it is readable and keeps the ID; then each of rate, count and size is the pushed one if it has one and stays otherwise, and a new rate or count restarts the clock with both at that time; a rejected one changes nothing |
| Sender.ConfigHeld | udp/send.go:259-288 | over every run each of rate, count and size is the last one that an accepted push had, and each reply says what was then held, or refuses |
| Sender.SenderOnSchedule | udp/send.go:313-358 | the sender never takes a tick early since the last change of rate or count, over runs of any length |
| Sender.PacketsTakeTicks | udp/sock_udp.go:101-112 | every packet since the last change of rate or count took a tick |
| Sender.SendsWithinRate | udp/send.go:308-358 | over runs of any length, as long as at most 9223372037 ticks were taken since the last push that changed rate or count, no more packets have left since that push than the held rate allows for the time since it |
| EndToEnd.HonestStep | udp/sock_udp.go:59-83 | every step keeps: what is heard under the sender's ID, the sender sent |
| EndToEnd.WireIsSent | udp/sock_udp.go:101-112 | the wire has the sender's packets, each its ID with the number of packets sent before it and of the size last pushed, and the strangers' datagrams |
| EndToEnd.HeardIsArrived | udp/sock_udp.go:59-83 | what the receiver heard is, in order, what each arriving datagram unpacks to, cut to the buffer, at its time, and the ticks |
| EndToEnd.SuccessesStep | udp/sock_udp.go:101-112 | every step keeps: successes are what the sender's windows count |
| EndToEnd.TrackArrivals | udp/recv.go:152-157 | every lifetime hears only numbers that were sent |
| EndToEnd.LossStatistics | udp/recv.go:189-205 | from the start of the sender over any actions: for the datagrams that arrived, as they were sent, every lifetime's summed skips are the numbers lost or late, its counts are fewer than the successful sends, and each arrival is in one lifetime |
| EndToEnd.LostCountsAsSkipped | udp/recv.go:192-194 | a number that never arrived counts as skipped once a larger one has |
| Logs.PositionsIncrease | logs/follower.go:41-50 | messages are written in the order they were taken |
| Logs.Forward | logs/follower.go:37-53 | exactly the messages that found room are written, each with the exact gap before it |
| Logs.Broadcast | logs/logs.go:50-52 | every subscriber, in any order, gets the message |
| Logs.Replay | logs/logs.go:54-60 | a new subscriber gets the whole history |
| Logs.BookedStep | logs/logs.go:46-67 | the effect of one request on the history and the subscribers |
| Logs.Distribute | logs/logs.go:40-69 | between requests every subscriber was sent the whole history and every other channel what was logged until it unsubscribed; closing twice panics and nothing else does |
| LogPipeline.BufferedStep | logs/follower.go:37-53 | every step keeps the buffers bounded and each follower's drops exact |
| LogPipeline.RoutedStep | logs/logs.go:45-67 | every step keeps: what was sent to a subscriber is the prefix of the history due to it |
| LogPipeline.RunIsSafe | logs/logs.go:40-69 | both over every interleaving |
| LogPipeline.ReaderSees | logs/follower.go:41-50 | a written message is the one its drop counts place it at; at the select everything logged was written, dropped or is buffered |
| LogPipeline.WritesWhatFits | logs/follower.go:44-50 | over every interleaving a message is written exactly if fewer than 100 of those written before it were unread when it was taken; what is read is what was written, in order |
| LogPipeline.RoomyWritesAll | logs/follower.go:44-50 | so a follower whose reader always leaves room writes every message it takes and drops none |
| LogPipeline.AllSentKept | logs/logs.go:50-60 | whatever was sent to a follower is taken or still buffered, subscribed or not |
| LogPipeline.PanicsExactlyOnDoubleClose | logs/logs.go:62-66 | the interleaved broadcaster panics exactly if a channel is closed twice |
| LogPipeline.DoubleClosePanics | logs/logs.go:62-66 | and a reachable run that closes one twice |
| LogPipeline.WorkShrinks | logs/logs.go:50-60 | each send and each forward reduces the work of a broadcast by one; readers do not matter |
| LogPipeline.BusyRunEnds | logs/logs.go:50-60 | a broadcast or replay ends within that work, in any order |
| LogPipeline.NeverStalled | logs/follower.go:44-50 | while it lasts, each awaited channel has room or a follower that can make room |
| LogPipeline.UnsubscribedFollowerFinishes | logs/follower.go:37-53 | an unsubscribed follower always has a step left until its write channel is closed |
| LogPipeline.ClosedMeansOffered | logs/follower.go:38-52 | when it is closed, every message sent was written or counted as dropped |
| LogPipeline.ClosedOnce | logs/follower.go:38 | and it is closed at most once |
| StringSets.SortedPermutation | util/stringset.go:20-22 | sorting keeps the contents |
| StringSets.SortedIsUnique | util/stringset.go:20-22 | there is only one sorted list with given contents |
| StringSets.ScanAccepts | util/stringset.go:70-78 | the loop accepts exactly if what lies strictly below the other's last element is included |
| StringSets.SubsetExact | util/stringset.go:66-81 | what Subset accepts; inclusion is that without an overhang, so inclusion is always accepted |
| StringSets.SubsetAcceptsMissing | util/stringset.go:70-80 | a missing element that is accepted |
| StringSets.StringSet.constructor | util/stringset.go:10-18 | sorted, with exactly the given contents |
| StringSets.StringSet.Set | util/stringset.go:33-38 | sorted, with exactly the given contents |
| StringSets.StringSet.Add | util/stringset.go:40-43 | sorted, with one element more |
| StringSets.StringSet.AddEnv | util/stringset.go:45-50 | sorted, with one variable more |
| StringSets.Equals | util/stringset.go:52-62 | equal element by element |
| StringSets.Subset | util/stringset.go:66-81 | the merge loop, over any two lists |
| Ident.DecimalInjective | control/clients.go:99 | different instances have different decimals |
| Ident.DecimalValue | control/clients.go:99 | an instance's decimal denotes it |
| Ident.NameInjective | docker/id.go:15-17 | names tell IDs apart if classes and instances hold no dash |
| Ident.NamesClash | docker/id.go:15-17 | two IDs with one name, where an instance holds a dash |
| Ident.NamesApartExactly | docker/id.go:15-17 | for a class without a dash, an instance's names are told apart from all dash-free ones exactly if it holds no dash |
| Ident.KeyInjective | control/clients.go:36-38 | table keys tell names and instances apart if instances hold no colon |
| Ident.ParseRoundTrip | docker/id.go:19-56 | the labels and name of a container created for an ID parse as that ID, under any path, exactly if no part is empty and the name holds no slash |
| Ident.ParsedName | docker/id.go:27-56 | a recognised container has the name of its ID |
| Ident.IdentifyRoundTrip | docker/container.go:84-98 | and with the check of the path, on a single Docker or any node: exactly the same IDs are recognised |
| Containers.CompatibleExact | docker/config.go:88-140 | Equals accepts exactly the faithful reports and those whose environment is overhung |
| Containers.EqualsAcceptsMissingEnv | docker/config.go:110-112 | a report without a configured variable that Equals accepts |
| Containers.Equals | docker/config.go:88-140 | the comparison, part by part |
| Containers.MakeEnv | docker/config.go:144-148 | swarm constraints are merged into a sorted environment |
| Containers.MakeBinds | docker/config.go:172-181 | the volumes, and the binds of mounts that have a source |
| Containers.MakeOptions | docker/config.go:143-183 | what Docker is asked to create, as `OptionsAsk` says |
| Containers.OptionsAsk | docker/config.go:143-183 | the environment is the configured one and the constraints, as a multiset; the command line, image, privileges, network and labels are the configuration's and the ID's; the hostname is the name exactly without a network; one bind for each mount with a source, in order, and a volume for each destination |
| Containers.Get | docker/manager.go:106-128 | finds a container, or that there is none; it is an error exactly if Docker fails or the container's labels, name or path are not those of an ID |
| Containers.Reuse | docker/manager.go:130-157 | a container that will not do is destroyed, one that will is kept as it is |
| Containers.Up | docker/manager.go:130-191 | afterwards the container is up, and right or made from being asked for as its configuration says; it takes exactly the calls that what it found requires; no other container is touched; it fails only with Docker or on an unrecognised container |
| Containers.UpCalls | docker/manager.go:130-191 | which calls those are, by the state it found |
| Containers.Down | docker/manager.go:196-208 | afterwards the container is not running, and otherwise as it was; one that was not running is left alone |
| Containers.Clean | docker/manager.go:237-245 | afterwards the container is gone |
| Listing.List | docker/manager.go:58-103 | the containers that match the filter, each with its ID; fails only with Docker or on an unrecognised match |
| Listing.ListFinds | docker/manager.go:58-103 | a listing finds a container exactly if it has an ID that agrees with the filter |
| Listing.ListsOnly | docker/manager.go:61-72 | and nothing that disagrees with it |
| Tables.EntryNames | control/clients.go:36-38 | in a well-formed table entries have the same container exactly if they have the same key |
| Tables.OtherClass | docker/id.go:15-17 | a client and a worker never have the same container |
| Tables.Table.Mark | control/clients.go:88-92 | every entry is marked down |
| Tables.Table.Sweep | control/clients.go:112-123 | every entry that is down is stopped or reported, whatever failed before; those up keep their containers; nothing happens if they were stopped already |
| Tables.Table.DownAll | control/clients.go:128-142 | everything is marked down, and stopped or reported |
| Tables.Table.CleanDown | control/clients.go:145-159 | exactly the containers of the entries that are down are removed, but for those reported, and those entries forgotten |
| Tables.RisingStep | control/clients.go:98-106 | one more instance leaves the others that are up as they were |
| Tables.ConvergedElsewhere | control/manager.go:216-239 | a pass over the workers leaves the clients converged |
| Reconcile.CoveredStep | control/clients.go:101-105 | starting an instance keeps the coverage: of the containers with a name of this class there are exactly those of the table |
| Reconcile.StartedStep | control/clients.go:98-106 | what starting one more instance of a name keeps |
| Reconcile.PassedStep | control/manager.go:218-222 | what starting one more name keeps, in any order of names |
| Reconcile.PassConverges | control/clients.go:112-123 | a complete pass and its sweep converge |
| Reconcile.ConvergedIsCalm | docker/manager.go:130-191 | on a converged table, with a Docker that reports what was asked for, starting an instance makes no call |
| Reconcile.PassEnds | control/manager.go:216-225 | an error-free pass converges, keeps the coverage of its class, and changes nothing if the table had converged |
| Reconcile.UpExactly | control/manager.go:213-241 | in a converged table a container is up exactly if it is a desired instance |
| Reconcile.CleanHolds | control/clients.go:145-159 | cleaning keeps the coverage, and that what the table has as up is up |
| Reconcile.BothCover | control/manager.go:59-60 | the two tables each cover their class exactly if the managed containers are those of the tables together |
| Reconcile.EmptyTables | control/manager.go:244-267 | sound tables are empty exactly if Docker has no managed container |
| Reconcile.ExactlyOneEntry | control/manager.go:59-60 | where the tables cover Docker each managed container is named by exactly one entry of one table |
| Control.Manager.constructor | control/manager.go:63-82 | empty tables |
| Control.Manager.LoadConfig | control/manager.go:116-149 | a document that decodes replaces the configuration and nothing else; one that does not changes nothing |
| Control.Manager.StartClient | control/clients.go:53-85 | brings up the container that the configuration describes |
| Control.Manager.ClientUp | control/clients.go:95-109 | all instances from 1 to the count are tried: each is up and remembered, or reported |
| Control.Manager.MakeWorkerEnv | control/worker.go:102-104 | the sorted environment of a worker |
| Control.Manager.ClientNetwork | control/worker.go:114-120 | a worker shares its client's network; an untracked client is an error |
| Control.Manager.MakeWorker | control/worker.go:96-120 | the container that the configuration describes |
| Control.Manager.StartWorker | control/worker.go:87-135 | brings it up; an untracked client or a name that cannot register is the error it is |
| Control.Manager.NextWorker | control/worker.go:148-158 | the worker is remembered as up, started or not |
| Control.Manager.WorkerUp | control/worker.go:145-161 | all instances from 1 to the count are tried and remembered |
| Control.Manager.StartClients | control/manager.go:216-225 | a whole pass over the clients converges, keeps the coverage, touches only clients, and changes nothing on a converged table |
| Control.Manager.StartWorkers | control/manager.go:228-236 | the same for the workers |
| Control.DeployableReady | control/worker.go:114-132 | with a deployable configuration, once the clients have started every worker has its client and a name that can register |
| Control.Manager.Start | control/manager.go:213-241 | without errors both tables converge, the coverage is kept, every configured instance runs as the configuration says and no other managed container is up, and a second start changes nothing in Docker; with errors everything is still tried; a deployable configuration fails to start only if Docker fails; containers that are not managed are left alone |
| Control.Manager.Stop | control/manager.go:244-254 | everything tracked is marked down and stopped or reported, and otherwise as it was; the coverage is kept and no other container is touched; with the tables covering the managed containers it fails only with Docker |
| Control.Manager.Clean | control/manager.go:257-267 | removes exactly what is down and touches nothing else; with sound tables they stay so, and it fails only with Docker |
| Control.Manager.DiscoverOne | control/clients.go:40-51 | a container enters its class's table, down: a worker if its name is configured and can register, a client always, under the name of a nil configuration if its type has none |
| Control.Manager.Discover | control/manager.go:179-210 | the tables get only listed containers, all down, with the key of every client and deployable worker among them; whatever else Docker runs, where the labelled containers are the configuration's they come to cover the managed ones, and discovery fails only with Docker; a failure changes nothing |
| Control.Manager.Drive | control/manager.go:144-267 | over any sequence of load, start, stop and clean the configuration is the last that decoded; over an error-free one sound tables stay so; after a start the managed containers that are up are the configured instances, as configured; after a stop and a clean no managed container is left; with deployable configurations every error is one of Docker's; other containers are never touched |
| Control.ConfiguredIsUp | control/manager.go:213-241 | after an error-free start a managed container is up exactly if its name is that of instance 1 to the count of a configured client or worker, whatever else Docker runs |
| Control.ClientWants | control/clients.go:53-78 | what a client's container is to be, field by field: its instance in the environment, its volume bound from the path with the instance |
| Control.WorkerWants | control/worker.go:96-120 | and a worker's: its three variables, flag and arguments, constraints, and its client's network |
| Control.AllRun | control/manager.go:213-241 | after an error-free start every configured instance is up, and compatible with that or made from being asked for it |
| Control.RegistersExactly | control/worker.go:128-132 | whether a worker can register depends on its type and name alone |
| Control.ClientAt | control/clients.go:161-169 | a client found by its key has that client's container |
| DockerCache.DirectIsExact | docker/manager.go:58-103 | a direct lookup is what the exact filter lists, with the listed state |
| DockerCache.Cache.constructor | docker/cache.go:14-22 | an empty cache |
| DockerCache.Cache.GetContainer | docker/cache.go:27-38 | what is inspected is returned and cached, under the ID it has, in its inspected state |
| DockerCache.Cache.GetStatus | docker/cache.go:45-80 | answers as a direct lookup would; it lists exactly if the container is not cached and the class, or the ID, was not listed before, and fails exactly if that listing does |
| DockerCache.Answers | docker/cache.go:45-80 | any sequence of queries, eager or lazy, is answered by direct lookups; a query fails only if its listing does |
| StatsCache.IndexInjective | control/worker.go:374 | the index tells types and fields apart |
| StatsCache.KeyInjective | control/worker.go:375 | the cache key tells series apart if types hold no slash and fields no question mark |
| StatsCache.KeysClash | control/worker.go:375 | with a question mark it need not |
| StatsCache.NoQuestionMarks | control/worker.go:374-375 | a store without question marks in its fields has no harmful clash |
| StatsCache.QueryIsExact | control/worker.go:389-409 | after a query for a field, the cache has a key of that field exactly if the store has the series, and then with its value: other fields' series cannot interfere |
| StatsCache.CompleteMore | control/worker.go:383-400 | a prefetch makes its type and field complete |
| StatsCache.Cache.StatsGet | control/worker.go:361-410 | a cached value is served as it is; an eager cache misses what it has queried without finding; otherwise a value is found exactly if the store has the series, and only the store's failure is an error of a query |
| StatsCache.Cache.Query | control/worker.go:389-409 | the query branch: exact, and all instances are cached if eager |
| StatsCache.Answers | control/worker.go:361-410 | any sequence of queries, eager or not, finds what the store has, and nothing but that where no series under the same key has another value; an eager cache reports a type and field's absence once and misses after that |
| StatsCache.ClashAnswers | control/worker.go:377-378 | for every two series that clash in key but not in value, querying one after the other answers wrongly: the condition is necessary |
| StatsCache.WrongAnswer | control/worker.go:375 | such a store and such a query |
| Registration.TellsStep | config/sub.go:105-113 | every step keeps: the score is the expiry to the second, the key expires within a second before it, and no push moves it later |
| Registration.NeverLapses | config/sub.go:125-183 | with ticks at most half the TTL less a second late, the key lives at every moment up to its refresh |
| Registration.LateTickLapses | config/sub.go:105-113 | a tick one nanosecond later can lose the key, and the refresh does not bring it back |
| Registration.StateTells | config/sub.go:125-183 | over every run: the key has the configuration stored last, and expires when the last push or tick said unless it had expired at a tick; the score is the last tick's time plus the TTL, to the second; both are gone once it ended |
| Registration.TickTimes | config/sub.go:135-177 | ticks are half a TTL apart, however late they are handled |
| Registration.LiveExactly | config/sub.go:135-180 | every run keeps its key live exactly if the delay is at most that |
| Registration.Registrar.Refresh | config/sub.go:105-113 | moves a live key's expiry and the score; a lapsed key stays lapsed; no other registration's entry changes |
| Registration.Registrar.Turn | config/sub.go:150-182 | the commands of one turn of the loop: a refresh, a set, nothing, or the clear that ends it |
| Registration.Registrar.Start | config/sub.go:129-145 | the commands of a start, up to the one that fails |
| Registration.TriedShows | config/sub.go:129-145 | a start that fails touches nobody else's entries and no score, so an ID that had none is not listed |
| Registration.HandledShows | config/sub.go:95-122 | the commands of one event leave the key and the score of the registration's next state, and touch nobody else's |
| Registration.Registrar.Register | config/sub.go:125-183 | what Redis has at the end under this ID is what the events come to, and nothing else in Redis has changed but the set of types; a start that fails ends it and leaves what its commands had done, without a score of its own |
| Registration.KeptAct | config/sub.go:95-183 | every step of any registration keeps: Redis holds each one's key and score, which tell its expiry, and no other key or score |
| Registration.RunKept | config/sub.go:95-183 | so in every reachable state, over every interleaving of any number of registrations |
| Registration.RedisTells | config/sub.go:95-183 | so Redis has under each ID what its own events come to, whatever the others do |
| Registration.List | config/redis.go:103-124 | exactly the type's entries in the score window; fails exactly if Redis does or an entry's ID is invalid |
| Registration.ConfigList | control/config.go:14-48 | exactly the entries, of the asked types, in the window and with a TTL, each with the time left; an entry whose TTL query fails is passed over, and only Redis or an invalid ID fails the list |
| Registration.ListedIsLive | control/config.go:29-44 | in every reachable state, at any time and for any filter, an entry is listed exactly if its registration has not ended and its key, by its own events, lives |
| Registration.WindowExactly | config/redis.go:103-106 | the score's window alone keeps an entry for a TTL after its expiry, to the second |
| Registration.ListedMidRefresh | config/sub.go:105-113 | also between the two commands of a refresh, an entry is listed exactly if its key lives |
| Registration.OnTimeIsListed | config/sub.go:125-183 | a registration whose ticks keep the limit is listed until its next tick is later than that, whatever the others do |
| ConfigPush.PairedStep | config/config.go:38-70 | every step keeps: the push in the worker's hands is the one awaited, on an open channel; "No return" never happens |
| ConfigPush.AgreesStep | config/sub.go:152-171 | every step keeps: Redis has the running configuration, except between change and store |
| ConfigPush.AnsweredStep | config/config.go:57-70 | every step keeps: each push that reached the worker has one reply, the right one |
| ConfigPush.EveryPushAnswered | config/config.go:38-70 | all three over every interleaving |
| ConfigPush.PushesTell | config/config.go:57-70 | each push that was applied under the running ID is answered with every field it has and what was held before, any other is refused, and that is what runs |
| ConfigPush.ArrivedReaches | config/config.go:45-49 | every push from Redis reaches the worker, in order, except the one that is being sent |
| ConfigPush.StoredTells | config/sub.go:160-166 | Redis has what ran at the last successful store, and is behind exactly if the last store failed |
| ConfigPush.StoredIsRunning | config/sub.go:152-171 | when the registration waits, Redis has what runs, unless the last accepted configuration could not be stored |
| ConfigPush.IDConstant | udp/send.go:268-270 | the running ID never changes |
| ConfigPush.RejectedChangesNothing | config/config.go:60-61 | a rejected push changes neither Redis nor the worker |
| ConfigPush.ExchangeMoves | config/config.go:45-54 | an exchange never gets stuck, and a return channel is never closed twice |
| Icmp.AccountedStep | icmp/ping.go:163-196 | every step keeps: successful requests are matched, in flight or overwritten |
| Icmp.NumberedStep | icmp/ping.go:165-172 | every step keeps: what is overwritten was sent a whole wrap earlier |
| Icmp.EveryPingAccounted | icmp/ping.go:145-207 | both over every run |
| Icmp.NoneLostBeforeWrap | icmp/ping.go:165-172 | in the first 65536 ticks nothing is overwritten |
| Icmp.PingsTell | icmp/ping.go:163-196 | what is in flight under a number is the last request with it that was not answered, and every statistic pairs a reply with the request in flight |
| Icmp.Pinger.Run | icmp/ping.go:145-207 | the loop, and the statistics it writes |

## Left out

Members whose contracts are weaker than one could wish:

- Control.Manager.Start: that only Docker can make it fail is stated for tables that cover the managed containers, containers that are all recognised and a deployable configuration: names without slashes, worker names that can register, and enough clients for the workers that need one.
- Control.Manager.Drive: promises coverage from tables that have it, as new ones on a Docker without managed containers and those of Discover do, and for sequences without errors; after an error a client's container may be up without an entry.
- Control.Manager.Discover: promises coverage only where every managed or labelled container belongs to a configured client or worker with a decimal instance; otherwise only that the entries are down and of listed containers, every client and deployable worker among them.
- Tables.Table.DownAll: ClientDown and WorkerDown for one configuration only, which nothing calls, are not modelled.
- Receiver.Conservation: duplicates are counted modulo 2^64; counts and skips are exact.
- Receiver.AliveWindowIsGood: win and loss are exact rationals, not floating point.
- Sender.RunConserves: only the packet counters are conserved; the clock's statistics are shared with its goroutine without synchronisation, so their sums over windows are not.
- RateClock.MaxPlus: sleeps are exact.
- DockerCache.Answers: no query inspects; with inspections an answer may show the inspected state instead of the listed one, which Cache.GetStatus states.
- StatsCache.Cache.StatsGet: URLs without a host name, one series for each type, field and instance, and a store that does not change.
- Registration.LiveExactly: the time between a command's call and its effect in Redis is part of the tick's delay; what a SET with no time left does is left to the client library.
- Registration.RunKept: starts succeed (one that fails is `Registrar.Register`'s and `TriedShows`'s); pushes are handled before the expiry, because of that SET; a clear is one step and its two commands succeed, so a registration whose clear fails counts as one that has died.
- Registration.List: paths are the pairs of type and instance they are made from.

How the model differs from the program:

- The clock's delivery of a tick and its two increments are one step; a `Set` between them is not modelled.
- Times are unbounded integers; `time.Since` does not saturate.
- The receiver's `PacketErrors` field, which it never sets, is left out; the states that one tick reports are reported at one time, where the program reads the clock for each.
- Datagrams longer than the receive buffer of 1500 bytes are cut, as the socket does; IP and UDP headers, checksums and the other socket types are left out.
- A follower's drop count is unbounded; it is proved to be at most the length of the history.
- Channel operations of the push handshake are steps of a state machine, and Redis's delivery of pushes is the arrival of any push.
- Table entries are values in a map, so sharing of an entry between the table and another holder is not captured.
- A failing Docker call changes nothing, and a container is known by its name; the ID that Docker gives it is left out.
- What Docker reports of a container is some function of what it was asked to create. Whether a real Docker reports mounts and constraints as the configuration has them is outside the model: a mount that is not read-only is compared with its RW flag off, and constraints are read back from a label of Docker Swarm.
- A container without a command, which the program cannot read back (docker/config.go:73), does not occur.
- `VolumeFmtID` is the text before and after the instance.
- Sorting is an insertion sort; `StringSets.SortedIsUnique` makes it any sort.
- Strings are sequences of characters compared in order, not UTF-8 bytes.

Parts of the program that are not modelled: JSON, TOML and URL decoding, SHA-256 and hexadecimal IDs, the parsing of Docker's status text, the web server and its routes, shell commands, authentication, the DNS and HTTP workers, `Panic` and the deletion of single clients or workers.
