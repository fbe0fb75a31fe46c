# Verified model of netsnoop

netsnoop measures a network: a server hands `ping` and `send` commands to its
peers over TCP, datagrams flow over UDP or multicast, and every client reports
what it received. This project models that machinery in Dafny and proves what it
keeps, over every input and every run.

| file | what it models |
|---|---|
| `sequence_window.dfy`, `duplicate_filter.dfy` | the 2^16-bit ring that filters duplicates, against the unbounded set of packets it stands for |
| `command_receiver.dfy` | the two receivers of a client, in place |
| `delay_statistics.dfy`, `speed_gauge.dfy` | truncating means, extremes, deviations; speeds over windows |
| `net_stat.dfy`, `aggregates.dfy` | results, their aggregation, the final divisions; every field as a sum, an extreme or a mean of what the peers report |
| `command_text.dfy`, `result_text.dfy` | the text of commands and results, printed and read back |
| `rate_arithmetic.dfy` | counts and intervals from a speed and a time |
| `commands.dfy`, `multicast_sock.dfy`, `command_sender.dfy` | commands, the shared multicast socket, the sender of a command |
| `net_snoop_client.dfy`, `peer.dfy` | the client, and one peer with both ends of its control channel |
| `payload_rhythm.dfy` | the attempts of a sender and the expiries of its timer, in turn |
| `client_ledger.dfy`, `peer_reports.dfy` | what a client makes of the datagrams it is handed, and what each peer reports, by datagrams, samples and times alone |
| `net_snoop_server.dfy` | the server: queue, ready peers, the closure of a command, the multicast barrier |
| `server_invariant.dfy`, `steady_runs.dfy` | the lists, accounts and packets of the server, over all runs |
| `server_runs.dfy` | the order of messages, the phases of senders and the barrier, over all runs that start no ping below one |
| `server_guarantees.dfy` | what follows for every run |
| `progress.dfy` | a measure that every useful step of a running command lowers, and exactly when a command can end |
| `channels.dfy`, `reported_figures.dfy`, `end_to_end.dfy` | runs over channels that lose, double and reorder, or do none of it, and the figures and losses that callbacks get |
| `figure_guarantees.dfy` | the pace of payload, the datagrams of clients and the reported figures in every run; the callback of a send whose packets all arrive |
| `witness_steps.dfy`, `witness_runs.dfy`, `witness_delivery.dfy` | runs, step by step: divisions by zero, a negative loss, payload before its command, a command that is stuck, a packet that is received and reported |
| `arithmetic.dfy`, `wrappers.dfy` | truncating division, square roots, Option |

Code that works in place is a class (`SendCommandReceiver`, `EchoCommandReceiver`,
`CommandSender`, `MultiCastSock`, `NetSnoopClient`, `NetSnoopServer`,
`RatedCommand`) whose methods are proved against functions on values; the main
results are about those functions. A run is a sequence of events of the server,
the network and the clients in any order (`ServerGuarantees.After`): pushes,
connects, losses, every handler of every peer, with every outcome of a send; a
state is `Reachable` when some run leads to it. It is `FaithfullyReachable` when in
that run a receiver of "send" was handed, of the datagrams it takes for its own, only
copies of stamped ones in an order its filter can follow, a client accepted each ping
that was sent at most once, and each echo it sent came back at most once. It is
`PerfectlyReachable` when moreover each client was handed the packets of its command
one by one, in order, on their socket and while it listened, and all of them before it
read the stop.
Any command can be pushed. What concerns the order of messages and payload, and the
figures of callbacks, is proved of runs that have started no ping with a count below
one (`ServerRuns.Proper`), which is so when none is pushed
(`ServerGuarantees.PushableRunsAreProper`); after such a ping it can fail
(`WitnessRuns.EmptyPingMakesTheNextTooEarly`).
Clock readings and the outcomes of system calls are parameters.

What the code does differently from what one would expect, all of it proved:

- `MAX_SEQ` is unsigned (netsnoop.h:184), so the guard of the clearing loop
  passes for every jump that is not negative. A late packet from before a 2^16
  boundary then wipes the ring: the filter is exact if and only if each fresh
  packet is *tracked* (`SequenceWindow.FilterIsExact`).
- Both ends have the same token if and only if the token travels
  (`CommandText.TokenTravels`): the text names it, or the suffix does and is read
  back. A word that merely begins with " token" keeps the suffix off; a token
  argument after a tab makes the client refuse the command.
- The first division of the aggregation has a divisor of zero if and only if some
  peer answered, and the command was a send that asked for no packet, such as
  "send interval 4000", a ping that asked for none and sent none, as "ping count 0"
  may when its timer runs out before its first write, or a multicast command that
  has lost a peer and whose others have sent nothing. Runs are given for each.
- A ping below one that stops without a packet keeps its write bit
  (command_sender.cc:238-250), and the next command then sends payload before its
  client is told of it. After a ping and a send, this happens in some run if and only
  if the ping asks for no packet (`WitnessRuns.EmptyPingMakesTheNextTooEarly`).
- A wait of zero, as in "send wait 0" (command.h:595), disarms the timer that
  precedes the stop (command_sender.h:35). The stop is then never sent: a running
  command has a helpful step before it if and only if not all of its peers are stuck
  like this (`Progress.StuckExactly`), it can be ended without a loss if and only if
  its wait is positive or its clients are gone (`Progress.EndsExactly`), and a stuck
  one blocks all commands behind it (`Progress.StuckForever`). With a positive wait no
  command is ever stuck. A run ends in such a state (`WitnessRuns.NoWaitIsStuck`).
- The multicast loss is negative if and only if the peers that succeeded miss fewer
  packets than went with lost peers, counted once for each success; a run of two
  peers ends in a callback with such a loss.
- A fast ping, of less than a microsecond a packet, falls back to its default
  interval and takes far longer than the time asked for.

## Model

| member | source | states |
|---|---|---|
| SequenceWindow.ClearsAheadMeaning | command_receiver.cc:202-203 | the guard, in unsigned arithmetic, holds exactly for jumps that are not negative or are below minus half a turn |
| SequenceWindow.FilterIsExact | command_receiver.cc:179-222 | a packet in reach is judged rightly by the ring, and recording it keeps the ring true to the unbounded history if and only if it is tracked |
| SequenceWindow.EarlyIsJudged | command_receiver.cc:179-222 | a packet more than half a turn early, up to a turn ahead of the expected one, is taken for a duplicate if and only if the packet a turn before it has arrived; otherwise it is in reach |
| SequenceWindow.UntrackedMisjudges | command_receiver.cc:202-222 | an untracked fresh packet leaves a ring that misjudges one particular packet in reach |
| SequenceWindow.ExpectedIsFirstClear | command_receiver.cc:218-222 | after any accepted number the expected one is the first clear cell after it, at most half a turn on |
| DuplicateFilter.ExpectedIsNeverDuplicate | command_receiver.cc:179-222 | for any arrivals whatever, the expected packet is accepted when it comes, and it is the first clear cell after the last accepted one |
| DuplicateFilter.EveryArrivalCounted | command_receiver.cc:179-200 | every valid datagram is counted once, as received or as a duplicate |
| DuplicateFilter.FilterCounts | command_receiver.cc:179-222 | over every admissible run the received count is the number of distinct packets, the duplicates are the rest, and the reorders are the fresh packets that were not the expected one |
| DuplicateFilter.RejectsExactlyDuplicates | command_receiver.cc:179-184 | after an admissible run a packet in reach is rejected if and only if it arrived before |
| DuplicateFilter.UntrackedMiscounts | command_receiver.cc:202-222 | after one untracked packet the received count is no longer the number of distinct packets |
| DuplicateFilter.InOrderIsPerfect | command_receiver.cc:179-222 | any number of packets in order, over any number of wraps, gives no duplicate and no reorder |
| DuplicateFilter.LatePacketAcrossTheBoundary | command_receiver.cc:203-212 | a concrete run in which packet 70000 is accepted twice |
| CommandReceivers.SendCommandReceiver.constructor | command_receiver.cc:126-132 | an empty ring, zero counters |
| CommandReceivers.SendCommandReceiver.Recv | command_receiver.cc:162-246 | a datagram is illegal, a duplicate or taken in; the new state is that of the filter, the delays and the bytes |
| CommandReceivers.SendCommandReceiver.ClearLost | command_receiver.cc:206-211 | the first inner loop ends, clears exactly the cells half a turn ahead of the skipped packets and leaves the others |
| CommandReceivers.SendCommandReceiver.SkipReceived | command_receiver.cc:218-222 | the second inner loop ends at the first clear cell, in fewer than half a turn of steps |
| CommandReceivers.SendCommandReceiver.MarkReceived | command_receiver.cc:202-222 | ring and expected number become those of the accepted packet |
| CommandReceivers.SendCommandReceiver.MeasureDelay | command_receiver.cc:224-246 | the delay figures become those of one more sample, which `DelayStatistics.SendDelays` and `DelayStatistics.SendDeviations` describe by all samples |
| DelayStatistics.SendDeviations | command_receiver.cc:230-246 | the accumulator is the sum, over all samples, of the squared distance of each from the mean of the first hundred as it was then; the deviation is the truncated root of its mean, and a packet is late when it comes more than the timeout after the least delay before it |
| DelayStatistics.SendReportFigures | command_receiver.cc:280-285 | the delay fields of a result, by the samples alone: distances of the mean, the greatest and the mean of the head from the least one, and the deviation |
| CommandReceivers.ResultRates | command_receiver.cc:286-291 | receive speed and packet rate are the truncated quotients by the time elapsed, and zero below a millisecond |
| SpeedGauge.PerSecondIsRate | command_receiver.cc:290-291 | a rate, times the time elapsed, is at most the amount in a second and less than one time below it |
| CommandReceivers.SendCommandReceiver.MeasureSpeed | command_receiver.cc:248-257 | the open window, and the extremes when it closes |
| CommandReceivers.SendCommandReceiver.Result | command_receiver.cc:272-295 | the fields of the result, speeds and rates by the time elapsed |
| SpeedGauge.SpeedExtremes | command_receiver.cc:248-257 | the reported speeds are the least and the greatest of the closed windows, and every byte is in one closed window or in the open one |
| CommandReceivers.EchoCommandReceiver.Recv | command_receiver.cc:65-94 | an illegal datagram is counted, a legal one queued and the write bit set |
| CommandReceivers.EchoCommandReceiver.Send | command_receiver.cc:44-64 | the queue is sent in order, up to the first send that fails |
| CommandReceivers.EchoKeepsOrder | command_receiver.cc:44-94 | what is accepted is what was echoed followed by the queue, and received counts are sent counts plus the queue |
| DelayStatistics.MeanError | command_receiver.cc:237 | n times the truncating mean differs from the sum by at most n(n-1)/2 |
| DelayStatistics.SendDelays | command_receiver.cc:224-246 | the extremes are those of the samples, both means lie between them, and the deviation never exceeds the spread |
| DelayStatistics.SendReportInRange | command_receiver.cc:280-285 | the reported delay, jitter and jitter deviation are neither negative nor above the reported maximal delay |
| DelayStatistics.PingDelays | command_sender.cc:214-230 | the same for echoes, with an increment made of the old and the new mean |
| DelayStatistics.PingDeviations | command_sender.cc:220-230 | the accumulator is the sum of the products of the distances of each echo from the mean before it and from the mean after it, and never negative; the deviation is the truncated root of its mean, and an echo is late when it is above the timeout |
| DelayStatistics.PingReportFigures | command_sender.cc:260-264 | the delay fields of a ping, by the samples alone |
| DelayStatistics.PingReportInRange | command_sender.cc:260-264 | with delays that are not negative, the deviation of a ping is at most its jitter |
| DelayStatistics.PingReportAnyClock | command_sender.cc:260-264 | with any clocks, it is at most the jitter plus one |
| NetStats.OrderIndependent | net_snoop_server.cc:345-371 | the totals are the same for every order in which the peers report |
| NetStats.FinalOrderIndependent | net_snoop_server.cc:345-401 | so is the final result, with its peer counts |
| NetStats.AddCommutes | command.h:303-346 | adding results is commutative and may be reordered; what each field becomes is in `Aggregates.FieldsOfCollect` |
| NetStats.CountsOfCollect | net_snoop_server.cc:345-371 | failures and successes make up all reports; there is a total exactly when one succeeded, and it holds the sums of bytes |
| Aggregates.FieldsOfCollect | command.h:303-346 | for every field and all reports, in any order: the aggregate is the sum of what the successful peers contribute, or their greatest or least, which one of them attains; losses are added up and the peers that sent are counted |
| Aggregates.FieldsOfFinal | net_snoop_server.cc:379-399 | for every field of the final result: send times and speeds are truncated means over the peers that sent, receive times, speeds and delays over those that succeeded, a multicast command has the sum of send speeds as its extremes, and all others are the sum or the extreme |
| Aggregates.LossOfFinal | net_snoop_server.cc:385-392 | the loss is the mean over the peers that sent or, multicast, one less the bytes received out of those sent, once for each success |
| NetStats.UndefinedExactly | net_snoop_server.cc:379-393 | no result exactly without a success, a division by zero exactly when no successful peer sent data |
| NetStats.AveragesBetweenExtremes | net_snoop_server.cc:384-389 | averaged times, delay and unicast speed lie between the aggregated extremes |
| NetStats.UnicastLossRange | net_snoop_server.cc:385 | the averaged loss is a fraction when each loss is |
| NetStats.SharesAveraged | net_snoop_server.cc:385 | when each peer reports the share of a count that it misses, the averaged loss is the share of all packets that are missing |
| NetStats.MulticastLossExactly | net_snoop_server.cc:390-392 | the byte-based loss is a fraction if and only if the bytes received are at most those sent, once for each success, and negative exactly when they are more |
| CommandText.Extract | command.h:46-54 | stream extraction yields the next word |
| CommandText.ReadArguments | command.h:52-64 | the argument loop, with its left-over value |
| CommandText.NewCommand | command.h:40-66 | what a text is parsed to, or that it is refused |
| CommandText.AcceptedExactly | command.h:40-66 | a text is accepted if and only if it is not too long, its first word is ping, send, ack, stop or result, no key with a value comes twice, and its first key has a value; it is then read as that name and these keys with these values |
| CommandText.CommandRoundTrip | command.h:436-439 | the other end reads the same arguments and the token if and only if the words come in pairs and the suffix leaves room |
| CommandText.BothEndsAgree | command.h:589-598 | then both ends have the same token and the same value for every key |
| CommandText.TokenAgreement | command.h:436-439 | for every accepted command, the client reads the token of the server, whatever it draws itself, if and only if the token travels in the text or in the suffix |
| CommandText.TokenAfterTabIsRefused | command.h:436-439 | a token argument not preceded by a space makes the other end refuse the command |
| CommandText.NearTokensDiffer | command.h:453-457 | tokens drawn fewer than eight commands apart differ |
| CommandText.EighthTokenMayRepeat | command.h:453-457 | eight apart they may not |
| ResultText.IntegerRoundTrip | command.h:261-262 | the text of an integer reads as that integer |
| ResultText.ResultRoundTrip | command.h:216-300 | a result with no loss and integers in range is read back unchanged, with zero fields printed or left out |
| ResultText.ResultFits | command.h:715-718 | every result is at most 958 characters long, within what a command may have |
| RateArithmetic.SendRateMeets | command.h:604-610 | the count is the smallest that carries the bytes asked for, and count times interval is the time asked for, to within a microsecond a packet and one interval |
| RateArithmetic.TimedRateMeets | command.h:611-614 | without a speed, the count is the largest that fits into the time |
| RateArithmetic.AsksForNothing | command.h:604-614 | a send asks for no packet if and only if no speed decides and its interval is longer than its time, or neither decides and its count is below one |
| RateArithmetic.GivenRateStands | command.h:514-529 | where neither a speed nor an interval meets a time, a send keeps the count and the interval it was given; so does a ping with a positive interval, and any other gets the default one |
| RateArithmetic.PingRateMeets | command.h:514-529 | a ping keeps its rate if and only if one packet takes at least a microsecond |
| RateArithmetic.FastPingIsSlow | command.h:514-529 | a concrete ping of two milliseconds that takes minutes |
| RateArithmetic.RatedCommand.ResolveSend | command.h:604-614 | count and interval of a send, in place |
| RateArithmetic.RatedCommand.ResolvePing | command.h:514-529 | size, count and interval of a ping, in place |
| MulticastPacing.MultiCastSock.Send | peer.cc:157-177 | the shared counter stamps and moves on once the interval is over and packets are left, and nothing changes otherwise |
| MulticastPacing.PacedSendSound | peer.cc:157-177 | an attempt goes out, or fails, under the next number and after the interval since the last one; or nothing changes |
| MulticastPacing.SpacedTotal | peer.cc:157-177 | by the clock, n sends more take at least n intervals |
| MulticastPacing.MultiCastSock.Start | peer.cc:178-182 | the counter restarts |
| CommandSenders.CommandSender.Start | command_sender.cc:23-30 | the command is to be sent |
| CommandSenders.CommandSender.Stop | command_sender.cc:41-53 | the stop is to be sent after the wait |
| CommandSenders.CommandSender.SendControl | command_sender.cc:61-97 | command or stop leaves, or there is nothing to send |
| CommandSenders.CommandSender.RecvControl | command_sender.cc:99-136 | acknowledgement or result is taken, anything else removes the peer |
| Peers.OnlyTheAwaited | peer.cc:41-63 | in any state a peer outlasts a read if and only if it takes exactly one message and this is the one it waits for: a cookie, an acknowledgement or a result; only a result ends its command |
| Peers.OnlyTheAnswered | net_snoop_client.cc:173-228 | in any state a client outlasts a read unless an acknowledgement or a result reaches its receiver, answers exactly the commands, and ignores several messages in one read |
| CommandSenders.CommandSender.SendPayload | command_sender.cc:177-200 | one payload attempt of a ping, and of the two kinds of send; that a timer separates them is `FigureGuarantees.PayloadIsPaced` |
| CommandSenders.CommandSender.SendShared | command_sender.cc:306-343 | one payload attempt of a multicast send, with the turn of the shared socket |
| FigureGuarantees.PayloadIsPaced | command_sender.cc:306-369 | in every run that has started no ping below one: at a peer whose command has an interval, and at every ping, the timer runs out between any two attempts, so packets are at most one more than expiries; while payload lasts the write bit is set exactly when the timer had the last turn |
| CommandSenders.CommandSender.Expire | command_sender.cc:138-152 | what a timer that has run out does |
| CommandSenders.CommandSender.OnTimeout | command_sender.cc:353-369 | the next attempt, or the end of the payload |
| CommandSenders.CommandSender.Complete | command_sender.cc:252-283 | the result of the client, completed for the three kinds of command, speeds and rates by the time elapsed |
| CommandSenders.SentBytesExactly | command_sender.cc:385-397 | bytes are reported as sent exactly by a sender that sent a packet |
| Client.NetSnoopClient.RecvCommand | net_snoop_client.cc:173-228 | a command, a stop or something else, with the reply |
| Client.NetSnoopClient.SendCommand | net_snoop_client.cc:230-238 | the result leaves and the receiver is dropped |
| Client.NetSnoopClient.RecvData | net_snoop_client.cc:240-259 | a datagram on the socket of the running command goes to its receiver, any other is counted as outside; which socket this is says `ClientLedger.DatagramTaken` |
| Client.NetSnoopClient.SendData | net_snoop_client.cc:261-271 | echoes leave |
| Client.ResultCounts | net_snoop_client.cc:230-238 | a result reports exactly the datagrams that were pending |
| Client.DatagramCounts | net_snoop_client.cc:240-259 | a datagram that is read is accounted for once |
| ClientLedger.DatagramTaken | net_snoop_client.cc:240-259 | a packet of the command raises the received or the duplicate count when it comes on the socket of its kind, the group for multicast and the data socket for all else; another datagram there is illegal; one on the other socket leaves the receiver as it is and is outside the command |
| FigureGuarantees.ClientsSortTheirDatagrams | net_snoop_client.cc:173-259 | in every such run the state of each client is what the datagrams it was handed since its last result amount to: packets on their socket, in order, through filter, delays and speeds; rejected ones; and those outside the command |
| FigureGuarantees.ClientReportsAreExact | net_snoop_client.cc:230-238 | and so is what it reports |
| Client.CommandCounts | net_snoop_client.cc:192-227 | a command forgets datagrams if and only if it replaces a receiver that has counted some |
| Peers.ServerSendsSound | command_sender.cc:61-92 | the assertions of SendCommand hold and the message goes into an empty channel |
| Peers.ServerReadsSound | command_sender.cc:99-131 | what the server reads is the one message it waits for, or the client is gone |
| Peers.ServerWritesSound | command_sender.cc:306-343 | payload is attempted only while no stop is under way, and the phase invariant is kept |
| Peers.TimerFiresSound | command_sender.cc:138-152 | a timer keeps the phase invariant |
| Peers.ClientReadsSound | net_snoop_client.cc:173-228 | the client reads a command while it has no receiver and a stop while it has one |
| Peers.ClientAnswersSound | net_snoop_client.cc:230-238 | a result is sent only with a receiver, into an empty channel |
| Peers.BusyUnlessStuck | command_sender.h:35 | at every peer of a running command a step is due, unless it waits for the multicast barrier or, without a positive wait, for its stop; then none is |
| Peers.EmptyPing | command_sender.cc:238-250 | a ping whose timer runs out before its first packet stops with its write bit set if and only if its count is below one |
| Peers.OnlyWritesClear | command_sender.cc:166-200 | nothing but a write clears that bit |
| Peers.StaleWriteBit | command_sender.cc:306-343 | with it, the next command sends payload before its client is told of it, a multicast one once its interval is over |
| Server.NetSnoopServer.PushCommand | net_snoop_server.cc:268-278 | the command is queued last |
| Server.NetSnoopServer.AcceptNewConnect | net_snoop_server.cc:232-266 | a new peer without a command |
| Server.NetSnoopServer.ProcessNextCommand | net_snoop_server.cc:291-412 | the first command starts at all ready peers, or all are answered when none is ready |
| Server.NetSnoopServer.CollectReady | net_snoop_server.cc:304-309 | exactly the authenticated peers, in order |
| Server.NetSnoopServer.Drain | net_snoop_server.cc:311-323 | every queued command is answered once, in order |
| Server.NetSnoopServer.GiveCommand | net_snoop_server.cc:336-407 | every ready peer gets the command, no other changes |
| Server.NetSnoopServer.OnStopped | net_snoop_server.cc:340-404 | one report, and what the last one settles |
| Server.NetSnoopServer.Handle | net_snoop_server.cc:130-174 | one handler of a peer and what follows from it |
| Server.NetSnoopServer.Follow | net_snoop_server.cc:153-174 | the peer stays, is removed, or is done |
| Server.NetSnoopServer.Remove | net_snoop_server.cc:153-167 | a failed peer reports a failure and is erased |
| Server.NetSnoopServer.StartMulticast | net_snoop_server.cc:169-185 | the write bits are set when all peers have acknowledged |
| ServerInvariant.SettledCompletion | net_snoop_server.cc:377-403 | the last report divides by zero exactly when some peer answered a send below one, a ping below one that sent nothing, or a multicast command that lost a peer and whose other peers sent nothing; otherwise the callback gets the aggregate |
| ServerRuns.WritesShared | peer.cc:157-177 | the shared counter moves by what the peer has sent, or a send has failed and the peer leaves |
| ServerGuarantees.RunsAreSteady | net_snoop_server.cc:42-186 | after every run, of any commands, the lists of peers agree, the queue is in order, reports and packets are accounted for, and a peer has a sender exactly while it takes part |
| ServerGuarantees.RunsAreGood | net_snoop_server.cc:42-186 | after every run that has started no ping below one, each peer is also in one phase of its command, with the matching flags, timers and messages |
| ServerGuarantees.PushableRunsAreProper | net_snoop_server.cc:268-278 | such is every run in which no ping below one is pushed |
| ServerGuarantees.ExactlyOnceInOrder | net_snoop_server.cc:268-412 | the commands answered, running and waiting are, in this order, all that were pushed |
| ServerGuarantees.NobodyReady | net_snoop_server.cc:291-323 | in every run, when a command is due and no peer is ready, every waiting command is answered without a result, so all that were pushed are answered and none is left behind |
| ServerGuarantees.OldestStarts | net_snoop_server.cc:291-337 | otherwise the command that has waited longest starts at exactly the ready peers, of which as many are awaited, and nothing changes at the others |
| ServerGuarantees.CompletedGrows | net_snoop_server.cc:401 | a callback that has fired stays fired |
| ServerGuarantees.PeerAccounting | net_snoop_server.cc:328-382 | while a command runs, its peers take part, have succeeded or have failed; those that take part have OnStopped set |
| ServerGuarantees.ReportsOnce | net_snoop_server.cc:340-376 | over the whole run of a command the peers that have reported are distinct, as many as there are reports, and none of them can report again |
| ServerGuarantees.HaltsExactly | net_snoop_server.cc:379-386 | the server has divided by zero exactly after a command that some peer answered and that was a send below one, a ping below one that sent nothing, or a multicast command that lost a peer and whose other peers sent nothing; no command that was answered is one |
| WitnessRuns.NoPacketDividesByZero | net_snoop_server.cc:379-386 | for every ping or unicast command with a positive wait: some run of it alone ends in that division if and only if its count is below one |
| WitnessRuns.ServerCanDivideByZero | net_snoop_server.cc:379-386 | a run of two peers and a multicast send that ends in it |
| WitnessRuns.EmptyPingMakesTheNextTooEarly | command_sender.cc:238-250 | for every ping and every unicast command after it: in some run payload of the second leaves before its client is told of it if and only if the count of the ping is below one |
| WitnessRuns.NoWaitIsStuck | command_sender.h:35 | a run of "send count 1 wait 0" at one peer ends with every peer stuck |
| WitnessRuns.LostPeerMakesLossNegative | net_snoop_server.cc:390-392 | a run of two peers that ends in a callback with a negative loss |
| ServerGuarantees.CallbackResults | net_snoop_server.cc:377-401 | every callback gets the aggregate of its peers; each success of a unicast command has sent the bytes of its count, of a ping those at least, and those of a multicast command have sent its count together, less the packets that went with lost peers |
| ServerGuarantees.CallbackFields | net_snoop_server.cc:377-401 | in every run, each field of what a callback gets is the sum, the mean, the greatest or the least of what the successful peers reported |
| ServerGuarantees.CallbackExact | net_snoop_server.cc:377-401 | when no ping below one was started, each success of a ping or unicast command has sent its count exactly |
| ServerGuarantees.ControlProtocol | command_sender.cc:61-131 | at most one control message is under way per peer, in both directions together, and the assertions of both ends hold |
| ServerGuarantees.CompletedInOrder | command_sender.cc:99-118 | a completed command has exchanged command, acknowledgement, stop and result |
| ServerGuarantees.PayloadInOrder | command_sender.cc:326-340 | a ping or unicast sender has stamped 0, 1, 2, ..., and exactly its count when it stops |
| ServerGuarantees.ClientsForgetNothing | net_snoop_client.cc:230-259 | datagrams read are those reported plus those pending; echoes are the accepted datagrams in order, and the write bit says whether some are left |
| ServerGuarantees.MulticastBarrier | net_snoop_server.cc:128-185 | no write bit for multicast payload is set, and no multicast datagram has left, before every peer that takes part has acknowledged |
| ServerGuarantees.MulticastConservation | peer.cc:157-182 | the shared counter is the sum of what all peers have sent, its stamps are 0, 1, 2, ..., and it is at most the count, and equal to it once a peer has succeeded |
| ServerGuarantees.MulticastPace | peer.cc:157-182 | in every run, the datagrams of a multicast command are an interval apart by the clock, whichever peers send them, and n more of them take n intervals |
| ServerGuarantees.EarlyWriteWaits | peer.cc:164-169 | a write before the interval is over leaves the counter, the stamps and the packets of all peers as they are |
| Progress.NoDeadlock | net_snoop_server.cc:42-186 | while a command with a positive wait runs, an event that advances it is due in which no socket fails and no client goes away |
| Progress.StuckExactly | command_sender.h:35 | while a command runs, such an event is due if and only if some peer that takes part is not stuck before its stop |
| Progress.EndsExactly | net_snoop_server.cc:42-186 | some run in which nothing is lost ends the running command if and only if its wait is positive or all clients that take part are gone; and then some run does of which every event advances it, no longer than its measure |
| Progress.StuckForever | command_sender.h:35 | once all peers of a command are stuck, no run without a loss changes that, answers a command or takes one from the queue |
| Progress.EveryEventCloser | net_snoop_server.cc:42-186 | an event that advances the command lowers its measure, a send the shared socket skips raises it by at most one, and no other event raises it |
| Progress.CommandsEnd | net_snoop_server.cc:42-186 | in every run during which a command runs, the advancing events are at most a fixed number for each peer and two for each packet and peer, plus the skipped sends |
| ReportedFigures.CallbackAverages | net_snoop_server.cc:384-389 | in every callback of every run that has started no ping below one the averaged times and delays lie between the aggregated extremes |
| PeerReports.PingReported | command_sender.cc:252-283 | the report of a ping holds the delays of as many samples as echoes were counted, the bytes of its packets, and their rates by the time elapsed |
| PeerReports.SendReported | command_sender.cc:378-400 | the report of a send keeps what its client reported of receiving, and adds the packets, bytes and rates of sending |
| FigureGuarantees.ReportsHold | command_sender.cc:252-401 | so does every report in every callback of every run that has started no ping below one |
| FigureGuarantees.IllegalAddedUp | command_sender.cc:269 | the illegal datagrams of a ping are those of its client and those that came back to its sender, of a send those of its client |
| EndToEnd.DeliveryIsCounted | command_receiver.cc:179-190 | over every admissible delivery of the packets sent, exactly the distinct ones are received, never more than were sent |
| Channels.TalliedReport | command_receiver.cc:272-295 | a receiver handed genuine datagrams reports the number of distinct ones, at most the count, and their bytes |
| EndToEnd.UnicastLoss | command_sender.cc:396 | the unicast loss is the share of packets that never arrived, a fraction |
| EndToEnd.PingLoss | command_sender.cc:271 | the loss of a ping is a fraction if and only if no more echoes came back than packets left |
| EndToEnd.CallbackSharedLoss | net_snoop_server.cc:390-392 | in any run, a multicast callback gets a fraction if and only if the peers counted no more bytes than the successful ones sent, once for each; and these sent the count less what was lost |
| EndToEnd.CallbackLoss | net_snoop_server.cc:385 | in any run that has started no ping below one, a ping or unicast callback gets as its loss the share of the count, once for each success, that was not received |
| EndToEnd.FaithfulEchoes | command_sender.cc:202-215 | over faithful channels a ping counts no more echoes than its client sent, and this no more than pings were sent |
| EndToEnd.FaithfulLoss | net_snoop_server.cc:385 | over faithful channels that loss is a fraction, the packets missed out of those asked for |
| EndToEnd.FaithfulSharedLoss | net_snoop_server.cc:390-392 | over faithful channels every multicast callback gets a loss of at most one, negative if and only if the successful peers miss fewer packets than were lost, once for each success; without a lost peer it is a fraction |
| FigureGuarantees.PerfectCallback | net_snoop_server.cc:377-401 | over perfect channels the callback of a send counts every packet once for each success and no illegal, double or reordered one; its loss is zero if and only if it is unicast or no packet went with a lost peer |
| WitnessDelivery.OnePacketIsReported | net_snoop_server.cc:377-401 | for every unicast command of one packet without an interval there is such a run, and its callback counts the packet, with no loss |

## Left out

- CommandReceivers.SendCommandReceiver.Recv: the receive buffer shrinks to the length of each datagram (command_receiver.cc:162-163) and truncates longer ones; the model takes a datagram as it arrives. `EndToEnd` has datagrams of one size.
- CommandReceivers.SendCommandReceiver.Result: the time elapsed is a parameter, in whole nanoseconds, and the quotients are exact, without floating-point rounding; so in `CommandSenders.CommandSender.Complete`.
- DuplicateFilter.FilterCounts: the meaning of the counters is for admissible runs only, because it is false of the others (`DuplicateFilter.UntrackedMiscounts`).
- DelayStatistics.SendDelays: machine overflow of the squared delays and the rounding of the square root; both are exact here.
- ResultText.ResultRoundTrip: the decimal text of a loss that is not zero; `atof` is modelled for texts of zero only.
- RateArithmetic.SendRateMeets: floating-point rounding and the 32-bit overflow of `speed * 1024`; the numbers are exact.
- CommandSenders.CommandSender.Complete: the loss of a ping that has sent nothing, zero divided by zero in the source, is zero here.
- ServerGuarantees.RunsAreGood: runs that have started a ping below one, of which the invariant is false; what such a run keeps is in `ServerGuarantees.RunsAreSteady`, and nothing more is said of its messages.
- Progress.StuckExactly: a ping is taken to have a positive interval, which `EchoCommand` makes sure of (command.h:526-528).
- ServerGuarantees.CallbackResults: a command object that is pushed a second time keeps its `is_finished`; every push here is a fresh command.
- EndToEnd.FaithfulLoss: pings and echoes that are doubled on their way; nothing filters them, and `EndToEnd.PingLoss` says exactly when a ping still has a fraction.
- Server.NetSnoopServer.Handle: the server holds its peers and senders as values in a map; that the source shares them by reference, and that a closure is destroyed while it runs, is not captured.
- Server.NetSnoopServer.OnStopped: the counters a closure captures are fields of the server, since one command runs at a time.
- MulticastPacing.MultiCastSock.Send: the clock is read once in each attempt; the source reads it again when it notes the time of a send (peer.cc:171).
- CommandSenders.CommandSender.SendPayload: virtual calls are decided by the kind of the command, and a send takes a whole datagram or fails.
- Partial reads and writes of the TCP stream: a read takes all there is.
- Sockets, addresses, multicast groups, keepalive, discovery, logging, scripts and consoles.
- The microseconds counted in `Run`: an armed timer may run out at any time.
- Threads: pushing a command is one step.
- `ModeCommand`, and what the send sender does with datagrams it does not expect.
- The content of the cookie: a peer is ready once it has sent one.
