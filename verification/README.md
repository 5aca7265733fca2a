# IoT edge gateway: protocol and state models

The gateway sits between sensor hubs (MQTT) and a server (gRPC). After a power failure it leads its hubs
through a *balance* protocol: an opening handshake with a vote, the phases Alert, Data and Monitor in
which the hubs empty their queues, a closing handshake, and Normal; a safe mode catches everything that
fails. Around that protocol it buffers telemetry while the server is away, watches the server's
heartbeat, updates the hubs' firmware one at a time, keeps a cache of the configured networks in step
with its database, and keeps its MQTT subscriptions in step with the networks.

This project models those six parts and proves what they keep over whole runs.

| files | part of the gateway |
|---|---|
| `FsmDomain`, `FsmRuns` | the hierarchical state machine, next to a flat machine of thirteen modes; runs over any event list |
| `Watchdog` | the one-shot timer used by every service, with the state it falls into when it is started twice |
| `FsmTask`, `FsmTaskClasses` | what the `fsm` task does with actions and hub messages: as functions, and as classes that update their fields |
| `FsmSystem`, `FsmWatchdog` | all tasks and channels of the protocol service as one transition system; its timers are the watchdog task |
| `FsmAsync`, `FsmAnnouncements`, `FsmEpoch`, `FsmAsyncVotes`, `FsmDrain`, `FsmProgress` | every interleaving of the tasks: lag, accounting of stale events, what the hubs are told and with which epoch, votes and reports, no livelock, no deadlock |
| `FsmStale`, `FsmEarlyAlert`, `FsmEarlyPhases`, `FsmAsyncLimits` | every interleaving: exactly when a phase can be ended before the fsm task has entered it |
| `FsmBooks`, `FsmAsyncBound`, `FsmAsyncWorst` | every interleaving: how many repeat rounds and watchdog expiries there can be, and runs that attain both bounds |
| `FsmRtc`, `FsmRtcTheorems`, `FsmLongestRun` | run-to-completion operation: a new message or expiry arrives when the channels are empty; a run that attains the bound |
| `Topics`, `MqttSubscriptions` | topic names, dispatch by suffix, the subscription index and the broker |
| `StoreForward`, `Heartbeat`, `HeartbeatAsync` | write buffer, tables, drain; the heartbeat machine and the drain trigger; its three tasks in every interleaving |
| `Firmware` | the OTA sequencer and its watchdog |
| `NetworkCache` | the network cache, its rules, and the commands that persist its changes |

Pure code of the source is a function here, tied down by lemmas. Code that updates state in place is a
class or a loop whose `ensures` equates its new state with such a function, and the lemmas speak about
the function. Time is "armed" or "idle" plus a firing chosen by the environment; hub counts, broker and
SQL failures, fetched versions and message arrivals are inputs, different at every call.

## Model

| member | source | states |
|---|---|---|
| FsmDomain.ModeRoundTrip | src/fsm/domain.rs:291-308 | the hierarchical states with balance present iff in balance mode, quorum iff in Quorum and phase iff in Phase are exactly thirteen modes, one to one up to the epoch label |
| FsmDomain.StepIsFlat | src/fsm/domain.rs:482-965 | on every well-formed state `step` accepts the same events as the flat arrow table, reaches the same mode, emits the same action list (transition actions, then entry actions) and stays well formed |
| FsmRuns.RunsFollowTheRoute | src/fsm/domain.rs:519-655 | after any event list the milestones passed are exactly the prefix of the fixed route InHandshake, Alert, Data, Monitor, OutHandshake that belongs to the mode reached, with safe mode as the only shortcut |
| FsmRuns.NormalMeansFullProtocol | src/fsm/domain.rs:519-655 | a run from power-on that is in Normal without safe mode passed all five milestones in order, then Normal; with safe mode it passed none, the first, or all five of them, then safe mode and Normal, and nothing else |
| FsmRuns.MilestonesDiffer | src/fsm/domain.rs:935-965 | no milestone is entered twice in a run |
| FsmRuns.PhaseEntriesAtMostOnce | src/fsm/domain.rs:935-965 | each phase entry action is emitted at most once per run |
| FsmRuns.StagesOnlyGrow | src/fsm/domain.rs:482-655 | the stage never decreases over any event list and Normal is never left |
| Watchdog.RunWatchdog | src/fsm/domain.rs:973-999 | for every sequence of commands and expiries the nested receive/select loops send one timeout for each sleep that ends while the timer runs, and end in what the commands since the last end of a sleep make of an idle timer |
| Watchdog.FeedMeans | src/fsm/domain.rs:980-998 | what commands make of an idle timer: the first start that meets a start deafens it in the name of the one before; if there is none it is armed iff the last command is a start |
| Watchdog.CleanOutcome | src/fsm/domain.rs:980-998 | commands that never start a running timer leave it listening, and the last command alone decides armed or idle |
| FsmTask.ApprovedIff | src/fsm/logic.rs:476-513 | a count approves iff attempts are within both max and 14 and the votes reach 80 - 5(attempts - 1) percent of the hub count (any vote at all when the count is zero); it gives up iff attempts exceed max |
| FsmTask.GuardMattersIff | src/fsm/logic.rs:493-497 | the guard "threshold above 10" decides some verdict iff more than 14 attempts are configured |
| FsmTaskClasses.UpdateSession.InsertHandshake | src/fsm/domain.rs:442-446 | a hub's first handshake is recorded, a repeated one changes nothing |
| FsmTaskClasses.UpdateSession.InsertEmpty | src/fsm/domain.rs:436-440 | a hub's first report is recorded, a repeated one changes nothing |
| FsmTaskClasses.FsmRunner.RunQuorumAlgorithm | src/fsm/logic.rs:476-513 | sends exactly one verdict, an approval iff attempts and votes are what `ApprovedIff` says, and changes nothing else |
| FsmTaskClasses.FsmRunner.Execute | src/fsm/logic.rs:266-426 | one action takes session, channels and epoch exactly where `HandleAction` says |
| FsmTaskClasses.FsmRunner.OnEntryRepeatHandshake | src/fsm/logic.rs:324-335 | a repeat round counts one attempt, forgets the votes, asks again and starts its timer |
| FsmTaskClasses.FsmRunner.OnEntryPhaseState | src/fsm/logic.rs:341-381 | a phase entry clears votes, reports and attempts, starts its timer and, for Alert, the fast heartbeat |
| FsmTaskClasses.FsmRunner.ExecuteAll | src/fsm/logic.rs:138-152 | a vector of actions is executed in order, each with the hub count of its moment; session state and attempts end where replaying the vector puts them |
| FsmTaskClasses.VectorReplays | src/fsm/logic.rs:138-152 | the state and attempt counter after a vector are those of replaying its actions, whatever the hub counts and votes |
| FsmTaskClasses.FsmRunner.OnHubMessage | src/fsm/logic.rs:76-115 | votes and reports count only in the states that listen for them and only for the current epoch; a reached quorum sends its event and cancels the timer; at most one vote is added |
| FsmTaskClasses.OneVoteAtMost | src/fsm/logic.rs:76-115 | one hub message adds at most one vote, of a hub not counted yet, only while handshakes are listened for and only for the current epoch |
| FsmTaskClasses.FsmRunner.OnCommand | src/fsm/logic.rs:73-136 | epoch replies, epoch errors and hub messages; a reply sets the epoch to the one after it, 0 after the largest, and sends it once to the core and once to the reported state; no other command touches these three |
| FsmTask.ReplySetsEpoch | src/fsm/logic.rs:120-134 | the same of the function the runtime uses |
| FsmTaskClasses.FsmOwner.OnEvent | src/fsm/logic.rs:768-790 | a valid transition replaces the state and sends its actions as one vector, an invalid one changes nothing; the mode follows the flat arrow table |
| FsmTaskClasses.HeartbeatGenerator.OnAction | src/fsm/logic.rs:830-908 | a send action sets the cadence and starts the timer, a stop action stops it |
| FsmTaskClasses.HeartbeatGenerator.OnTimeout | src/fsm/logic.rs:897-908 | an expiry sends exactly one heartbeat and, if there is a cadence, restarts the timer at it |
| FsmSystem.ActionSends | src/fsm/logic.rs:266-426 | exactly which events, timer commands and heartbeat actions each action sends |
| FsmSystem.ActionReports | src/fsm/logic.rs:266-426 | exactly which messages each action sends to the core and which states it reports |
| FsmSystem.CommandSends | src/fsm/logic.rs:73-136 | which events each command sends, and that the watchdog is cancelled exactly with a quorum event |
| FsmWatchdog.TimerIsTheWatchdog | src/fsm/domain.rs:973-999 | in every interleaving the protocol timer stands where the commands received since its last sleep ended lead, and one timeout is sent for each sleep that ended |
| FsmWatchdog.OneHeartbeatPerExpiry | src/fsm/logic.rs:897-908 | in every interleaving one heartbeat is sent per handled expiry of the heartbeat timer, and none without |
| FsmEpoch.LabelsAfterReply | src/fsm/logic.rs:120-134 | from any state and in every interleaving: everything sent to the core from the reply `Epoch(e)` on, until another reply, carries the epoch after `e`, and a handshake that carries `e` changes nothing |
| FsmEpoch.EveryReplyIsTold | src/fsm/logic.rs:120-134 | in every interleaving the new epochs told to the core, and those in the reported state, are those after the replies, one each and in order |
| FsmEpoch.FinalStatesAreReported | src/fsm/logic.rs:382-400 | in every interleaving the epoch is asked for exactly once, and safe mode and Normal are reported exactly as far as the machine has come |
| FsmAsync.LagKept | src/fsm/logic.rs:278-400 | every step of every task keeps: replaying the queued actions on the session gives the session of the machine's mode |
| FsmAsync.AccountsKept | src/fsm/logic.rs:338-357 | every step of every task keeps the ledger: before Alert is entered at most one timeout per open round exists or can still arise, and afterwards what is left over is too little to pass Data |
| FsmAsync.SessionLagsMachine | src/fsm/logic.rs:278-400 | in every interleaving from power-on, executing the queued actions brings the session state exactly to the machine's mode and the attempt counter to the machine's repeat count |
| FsmAsync.VerdictsAreNotReused | src/fsm/logic.rs:338-357 | in every interleaving, when OutHandshake is entered no verdict is in the event channel and no vote count is queued, so an approval of the first handshake never ends the last |
| FsmAsync.NothingStaleAfterData | src/fsm/domain.rs:537-619 | in every interleaving, everything the machine reads from Monitor on was sent after the Alert entry cleared the first handshake |
| FsmAnnouncements.ActionTells | src/fsm/logic.rs:266-400 | executing an action sends the hubs exactly the handshake request or phase notification it announces |
| FsmAnnouncements.HubsAreToldInOrder | src/fsm/logic.rs:278-382 | in every interleaving, what the hubs were told followed by what is queued is: 1 + (repeat rounds of the opening) opening handshakes, then Alert, Data, Monitor once each as far as the machine has come, then 1 + (repeat rounds of the closing) closing handshakes, with the exact numbers at every moment |
| FsmAsyncVotes.TallyKept | src/fsm/logic.rs:73-136 | every step of every task keeps: the session's voters are among, and while it listens exactly, the distinct senders with the current epoch since the task opened the round; its reporters are those since it entered the phase |
| FsmAsyncVotes.ApprovalsAreEarned | src/fsm/logic.rs:476-513 | in every interleaving an approval is sent only if the distinct current-epoch senders since the task opened the round reach the threshold and the counted attempts are within both max and 14; while the task listens to handshakes, if and only if |
| FsmAsyncVotes.QuorumsAreEarned | src/fsm/logic.rs:519-591 | in every interleaving a quorum event is sent exactly at the empty-queue report with which the distinct reporters since the task entered the phase reach 80% of the hub count; in safe mode 70% |
| FsmAsyncLimits.AlertMayEndEarly | src/fsm/domain.rs:603-608 | the condition below is met: in some interleaving a handshake timeout, sent behind the approval, ends Alert before its timer is started and with no report |
| FsmEarlyAlert.AlertEndsEarlyIff | src/fsm/domain.rs:603-608 | from any state in which the machine is in Alert and the fsm task has not entered it: some schedule leaves Alert before the entry is executed iff a timeout of the opening handshake exists or can still arise (sent, running, started or queued to start) |
| FsmEarlyAlert.NothingStale | src/fsm/logic.rs:338-357 | if none does, every schedule keeps the machine in Alert until the entry is executed, and nothing sent before it can end a phase later |
| FsmEarlyAlert.AlertEndsEarlyIffApprovedEarly | src/fsm/domain.rs:537-619 | in every run, as the machine enters Alert: it can be ended early iff it was not entered from the check, that is iff the approval was read before the expiry of its round's timer |
| FsmEarlyPhases.PhaseEndsEarlyIff | src/fsm/domain.rs:609-619 | while the entry of Data or Monitor is outstanding: some schedule leaves the phase before it is executed iff a timeout or quorum event is on its way, or the fsm task has not yet taken up the vector that holds it (it still counts reports and may send a duplicate quorum) |
| FsmEarlyPhases.DueInEveryRun | src/fsm/logic.rs:138-152 | every state of every run with such an entry outstanding is covered by that condition |
| FsmEarlyPhases.NothingStaleInPhase | src/fsm/logic.rs:341-381 | if the vector of Data or Monitor is taken up with no timeout or quorum event on its way, then after its entry is executed: while the machine has read no more events than were in the channel at that moment it is still in the phase, and every timer started until then is the phase's own |
| FsmDrain.StepsUseWeight | src/fsm/logic.rs:138-152 | every internal step of every task strictly lowers a weight of all channels |
| FsmDrain.SilenceDrains | src/fsm/logic.rs:784-786 | without new input any interleaving stops within as many steps as the weight of the channels |
| FsmDrain.StoppedMeansDrained | src/fsm/logic.rs:138-152 | where it stops all channels are empty, except commands offered to a timer that does not listen |
| FsmProgress.NeverStuck | src/fsm/domain.rs:973-999 | in every interleaving from power-on: where no task can move, the machine awaits its epoch or is in Normal, or the watchdog still has a timeout to send; a swallowed start never leaves a waiting mode without one |
| FsmAsyncBound.SoundKept | src/fsm/logic.rs:266-513 | every step of every task keeps the books of pending timeouts, outstanding rounds and verdicts on their way, and only an expiry uses room |
| FsmAsyncBound.RoundsAreBounded | src/fsm/logic.rs:476-513 | in every interleaving the opening handshake has at most max + 1 repeat rounds (min(max, 14) + 1 when it succeeds) and the closing one at most max + 5 |
| FsmAsyncBound.ExpiriesAreBounded | src/fsm/domain.rs:519-655 | in every interleaving a run has at most max + min(max, 14) + 12 watchdog expiries |
| FsmAsyncWorst.TheRoundsAreReached | src/fsm/logic.rs:324-335 | for every maximum some interleaving has max + 5 closing repeat rounds: timers of the phases that expire late carry the machine past counts asked for early |
| FsmAsyncWorst.TheAsyncBoundIsReached | src/fsm/domain.rs:973-999 | for every maximum some interleaving has exactly max + min(max, 14) + 12 expiries |
| FsmRtc.RtcKept | src/fsm/logic.rs:266-759 | every step of run-to-completion operation keeps the joint invariant of machine, session, both timers, votes and attempts |
| FsmRtcTheorems.NoTimerIsRestarted | src/fsm/domain.rs:973-999 | neither watchdog ever receives a start while running, and neither goes deaf |
| FsmRtcTheorems.TimersAtQuiescence | src/fsm/logic.rs:401-464 | at quiescence the protocol watchdog runs, for the present mode, exactly in the handshakes, repeats, phases and safe mode, and the heartbeat timer exactly in phases, safe mode and Normal, at that mode's cadence |
| FsmRtcTheorems.VotesDecide | src/fsm/logic.rs:77-89 | a verdict approves iff the distinct senders whose handshake carried the current epoch since the round opened reach the threshold and the attempts are within both max and 14; duplicates and order do not matter |
| FsmRtcTheorems.RepeatsAreBounded | src/fsm/logic.rs:324-345 | the attempt counter is the number of repeat rounds since the last phase and never exceeds max + 1 |
| FsmRtcTheorems.LastRoundEndsInSafeMode | src/fsm/logic.rs:485-488 | a handshake in round max + 1 can only stay, be checked, and end in safe mode |
| FsmRtcTheorems.PhaseExitsAreJustified | src/fsm/logic.rs:519-591 | a phase is left only by a timeout or because distinct hubs that reported an empty queue since its entry reach 80% of the count; safe mode likewise at 70% |
| FsmRtcTheorems.TimeoutsBelongToTheirMode | src/fsm/logic.rs:646-725 | every expiry is that of the timer the present mode started |
| FsmRtcTheorems.FuelBurns | src/fsm/domain.rs:519-655 | no step raises the measure of stage and attempts left, and each expiry lowers it |
| FsmRtcTheorems.Termination | src/fsm/domain.rs:519-655 | whatever messages and hub counts occur, a run has at most max + min(max, 14) + 7 watchdog expiries (2 max + 7 up to max = 14); with that many a quiescent gateway is in Normal |
| FsmLongestRun.TheBoundIsReached | src/fsm/logic.rs:476-513 | the bound is exact: for every configured maximum some run has exactly max + min(max, 14) + 7 expiries |
| FsmLongestRun.BurnAll | src/fsm/domain.rs:519-655 | from every state of that plan (one hub votes once, in the last opening round that can be approved) a run continues until the measure is used up by expiries alone |
| FsmRtcTheorems.AlwaysProgress | src/fsm/domain.rs:519-655 | a quiescent gateway past the epoch reply and short of Normal has a running watchdog whose expiry lowers the measure |
| Topics.TopicsAreDispatched | src/message/logic.rs:244-272 | a message published on a hub's topic of any network and hub name is decoded as that topic's kind |
| Topics.LinkageIsDispatched | src/message/logic.rs:263-264 | the linkage topic is decoded as a linkage request |
| Topics.SubscriptionsAreDistinct | src/network/domain.rs:409-425 | different networks or kinds have different topics, none of them the linkage topic |
| Topics.SubscriptionsReceiveTheirOwn | src/network/domain.rs:409-425 | a subscription, its `+` read as a wildcard level, matches a hub's topic iff it is of the same network and kind (or the network is itself named by the wildcard) |
| Topics.TopicLevels | src/network/domain.rs:406-448 | the levels of a hub's topic, in order |
| Topics.LinkageLevels | src/network/domain.rs:205 | the levels of the linkage topic |
| MqttSubscriptions.EveryKindIsRequired | src/mqtt/logic.rs:296-318 | every inbound topic kind of a configured network is required |
| MqttSubscriptions.Client.AllTopics | src/mqtt/logic.rs:357-370 | marks a known topic and registers a new one as not yet subscribed |
| MqttSubscriptions.Client.UpdateSubscriptions | src/mqtt/logic.rs:296-348 | under any refusals the entries flagged subscribed stay exactly the broker's topics; each topic ends subscribed or not as required unless its call was refused; the calls made are exactly the missing and the superfluous ones, once each |
| MqttSubscriptions.Client.CollectSubscriptions | src/mqtt/logic.rs:266-288 | the index of a new connection: linkage topic and all topics of all networks, flagged and with their quality of service |
| MqttSubscriptions.Client.Connect | src/mqtt/logic.rs:141-169 | work starts iff no call is refused, and then the index is exactly what the broker has |
| MqttSubscriptions.SuccessfulPassSynchronises | src/mqtt/logic.rs:335-348 | a pass whose calls succeed leaves exactly the required topics, whatever failed before |
| MqttSubscriptions.SecondPassIsSilent | src/mqtt/logic.rs:323-332 | repeating it for the same networks makes no call |
| MqttSubscriptions.IncrementalAgreesWithFromScratch | src/mqtt/logic.rs:266-318 | after any passes with any refusals and a last one whose own calls succeed, the broker holds what a new connection would subscribe to, except the linkage topic |
| MqttSubscriptions.LinkageSurvivesIff | src/mqtt/logic.rs:271-318 | the linkage topic stays subscribed iff the broker refused every attempt to drop it: the first update drops it |
| MqttSubscriptions.BrokerKeepsQos | src/network/domain.rs:406-448 | whatever passes were made, the broker delivers firmware answers exactly once, alerts, empty-queue reports and linkage requests at least once, everything else at most once |
| StoreForward.Repository.Insert | src/database/repository.rs:143-158 | tables before the first failing non-empty insertion get their rows, the others none |
| StoreForward.Repository.PopBatch | src/database/repository.rs:161-169 | the oldest LIMIT rows of each table are answered in some order and deleted; on an error the tables already popped have lost theirs |
| StoreForward.Repository.GetAllTables | src/database/logic.rs:392-410 | the drain loop sends what `Drain` says, batch by batch up to order inside a batch, and leaves the tables it says, under any faults |
| StoreForward.DrainIsExact | src/database/logic.rs:392-410 | without faults a drain sends exactly max over the tables of ceil(n / LIMIT) batches, none empty, none above LIMIT rows per kind, and empties every table |
| StoreForward.DrainAccounts | src/database/repository.rs:330-356 | under any faults the rows sent, then lost, then left are the table in order, and at most LIMIT rows per kind are lost |
| StoreForward.DrainStopsAtFirstFault | src/database/logic.rs:392-410 | a drain sends a batch in every round up to the first fault (a failing pop or a closed channel), or until the tables are empty |
| StoreForward.PopTakesOldest | src/database/repository.rs:161-169 | a pop takes the oldest ten rows of each table before the first that fails and none of the others, and answers iff none fails |
| StoreForward.DrainIsARun | src/database/logic.rs:392-410 | whatever order the tables answer in, a drain is a possible run of pop steps of the store below: it moves rows from the tables to forwarded and lost as stated above and leaves buffer and history alone |
| StoreForward.FlushStoresOrLoses | src/database/logic.rs:69-85 | a flush empties the buffer; a kind's vector is lost whole iff its own or an earlier non-empty table fails, else stored whole |
| StoreForward.NothingDisappears | src/database/logic.rs:69-85 | over any messages, ticks and drain rounds with any failures every row received is forwarded, stored, buffered or lost, and no buffer reaches 49 rows between steps |
| StoreForward.EveryMessageIsKept | src/database/logic.rs:69-85 | the same told from the messages: of each kind, the rows that arrived are those forwarded, stored, buffered and lost |
| StoreForward.OneRowOfItsKind | src/database/logic.rs:184-201 | a message adds its row to the table of its own kind and to no other |
| StoreForward.HealthyRunsKeepOrder | src/database/logic.rs:69-85 | without faults nothing is lost; the batches forwarded are, one by one, shuffles of consecutive slices of at most LIMIT rows of a kind, and those slices, the stored and the buffered rows, in this order, are the rows received |
| StoreForward.TickEmptiesBuffer | src/database/logic.rs:69-74 | after any run that ends in a tick the buffer is empty, whatever fails |
| StoreForward.HealthyTickStoresAll | src/database/logic.rs:69-74 | after a healthy run that ends in a tick every row that arrived is forwarded or stored, in order |
| StoreForward.MessageFlushesIff | src/database/logic.rs:78-85 | a message flushes iff it fills the buffer of its kind (the 49th row); otherwise the buffers only grow by its row and the tables stand still |
| StoreForward.TableDataVector.Sort | src/database/logic.rs:184-201 | each telemetry message is appended to the vector of its kind; others to none |
| StoreForward.TableDataVector.Clear | src/database/domain.rs:282-287 | all four vectors are empty afterwards |
| StoreForward.InsertTask.OnTick | src/database/logic.rs:69-74 | a tick with a non-empty buffer flushes, otherwise changes nothing; the buffer is empty afterwards |
| StoreForward.InsertTask.OnHubMessage | src/database/logic.rs:78-85 | a message is buffered and the buffer flushed iff some vector is then full; below 48 rows of every kind the tables are untouched |
| Heartbeat.ExecuteActions | src/heartbeat/logic.rs:62-97 | actions are turned in order into notices (only for a real change of status) and timer commands |
| Heartbeat.RunFsmHeartbeat | src/heartbeat/logic.rs:113-141 | the loop reaches the state, notices and commands of the event list |
| Heartbeat.StateFollowsTheTail | src/heartbeat/domain.rs:207-239 | the state after any history is decided by its tail: two expiries in a row are death, one a warning, and heartbeats alternate between the live states |
| Heartbeat.ConnectedMeansAliveSince | src/heartbeat/domain.rs:266-341 | the server counts as connected iff the machine has been in ItsAlive and no two expiries in a row have come since |
| Heartbeat.NoticesAreChangePoints | src/heartbeat/logic.rs:75-88 | each step announces exactly the change of status it makes |
| Heartbeat.WhenNoticesAreSent | src/heartbeat/domain.rs:266-341 | a disconnection is announced iff a second expiry in a row meets a connected server; a connection iff a heartbeat meets a disconnected one in StartingWait |
| Heartbeat.NoticesAlternate | src/heartbeat/logic.rs:75-88 | over any history notices alternate, beginning with a connection, and the last one is the present status |
| Heartbeat.GetTask.OnInternal | src/database/logic.rs:300-319 | the edge detector's two variables and the drain it starts |
| Heartbeat.DrainOnRisingEdge | src/database/logic.rs:290-319 | for any stream of internal events a drain starts exactly at a connection that follows a disconnection or the start |
| Heartbeat.OneDrainPerConnection | src/database/logic.rs:290-319 | fed with the heartbeat's notices every connection starts exactly one drain and nothing else does |
| Heartbeat.TimerFollowsState | src/heartbeat/logic.rs:66-73 | run to completion, the watchdog is armed for the present state unless nothing has happened yet or the server is dead |
| Heartbeat.EveryStepIsClean | src/heartbeat/domain.rs:384-410 | it is never started while running, and the machine never meets an event it rejects |
| Heartbeat.FeasibleMeans | src/heartbeat/domain.rs:207-239 | the histories the watchdog allows are exactly those that start with a heartbeat and never hold three expiries in a row |
| Heartbeat.SilenceIsNoticed | src/heartbeat/domain.rs:306-341 | from any history with the server connected, at most two expiries give exactly one disconnection notice and an idle watchdog |
| Heartbeat.TwoBeatsRevive | src/heartbeat/domain.rs:345-352 | a dead server is connected again by two heartbeats, not by one |
| HeartbeatAsync.LivingKept | src/heartbeat/logic.rs:44-141 | every step of every task keeps: the notices sent and queued are those of the events read, and after any event short of death an event is on its way or the watchdog runs or will be started |
| HeartbeatAsync.NeverStuck | src/heartbeat/domain.rs:384-410 | in every interleaving: where no task can move, nothing has been received yet, or the server is known to be dead, or the watchdog still has a timeout to send, also after stale expiries and swallowed starts |
| HeartbeatAsync.AnnouncementsAlternate | src/heartbeat/logic.rs:75-88 | in every interleaving the notices sent and queued alternate, beginning with a connection, and the last is the machine's present status |
| HeartbeatAsync.SilenceEnds | src/heartbeat/domain.rs:384-410 | without further heartbeats any interleaving of tasks and expiries stops within as many steps as the weight of channels and state |
| HeartbeatAsync.SilenceIsAlwaysNoticed | src/heartbeat/domain.rs:306-341 | where it stops, the server counts as disconnected and the last notice sent, if any, says so |
| Firmware.GenerateOutcome | src/firmware/logic.rs:298-326 | for a non-empty vector the percentage times its length is 100 times the number of hubs updated or successful; it lies in 0 to 100, is 100 iff all are and 0 iff none is; for an empty vector it is not a number |
| Firmware.UpdateFirmwareTask.OnUpdate | src/firmware/logic.rs:62-128 | a fetched version and a non-empty network open a session and ask its first hub; otherwise one error is sent and the task sleeps |
| Firmware.UpdateFirmwareTask.OnHubResponse | src/firmware/logic.rs:130-176 | only the hub being asked is heard; its answer closes it |
| Firmware.UpdateFirmwareTask.OnTimeout | src/firmware/logic.rs:183-222 | an expiry closes the hub at the index as failed; with the index out of range it panics, having told the watchdog to stop |
| Firmware.PanicIffExpiryWhileSleeping | src/firmware/logic.rs:183-191 | over any events the index stays in range until, and the out-of-range access happens at, the first expiry handled while the task sleeps |
| Firmware.SessionRuns | src/firmware/logic.rs:60-226 | under any responses and expiries, requests go out once per hub in list order, each when its predecessor is resolved, and the one outcome, sent when the last is resolved, has the exact percentage of the verdicts |
| Firmware.SessionOutcome | src/firmware/logic.rs:298-326 | once every hub has its verdict, the session has sent one request per hub in list order and then one outcome, whose percentage times the hubs is 100 times the good verdicts |
| Firmware.UpdateAnswers | src/firmware/logic.rs:62-128 | accepting an update sends one message: the request to the first hub, under its watchdog, or an error for the network it should name, and sleep |
| Firmware.DisciplinedRunsAreSafe | src/firmware/logic.rs:60-226 | with updates accepted only while sleeping: no panic, the watchdog runs exactly while the task works and for the hub being asked, and every update gets exactly one answer |
| Firmware.DisciplinedFromPowerOn | src/firmware/logic.rs:43-60 | the same from power-on, with the exact number of answers |
| Firmware.DeliverKeepsGuard | src/firmware/domain.rs:188-217 | the same for one step, and no start ever meets a running watchdog |
| Firmware.UpdateKeepsGuardIffSleeping | src/firmware/logic.rs:62-128 | accepting an update keeps task and watchdog in step iff the task was sleeping |
| Firmware.FailedUpdateWhileWorkingIsFatal | src/firmware/logic.rs:74-128 | an update that cannot start, accepted while working, leads to the out-of-range access at the next expiry |
| Firmware.ExpiryBehindLastResponseIsFatal | src/firmware/logic.rs:138-191 | so does an expiry already on its way when the last hub answers |
| Firmware.FetchErrorNamesEarlierNetwork | src/firmware/logic.rs:115-128 | when no version can be fetched the error names the network of the latest update that had one, not the one asked for |
| NetworkCache.NetworkManager.ChangeActive | src/network/domain.rs:224-228 | changes the flag of a known network and nothing for an unknown one |
| NetworkCache.NetworkManager.RemoveNetwork | src/network/domain.rs:239-241 | forgets the network and keeps its hubs |
| NetworkCache.NetworkManager.AddHub | src/network/domain.rs:244-255 | adds to the network's set, creating it if needed, and tells whether the hub was new; a hub is registered afterwards iff it was or is this one |
| NetworkCache.NetworkManager.RemoveHub | src/network/domain.rs:258-274 | removes every entry with that id from that network only: afterwards a hub is registered iff it was and is not one of these |
| NetworkCache.NetworkManager.SearchHub | src/network/domain.rs:277-292 | true for unknown networks, else whether some registered hub of the network has the id |
| NetworkCache.NetworkManager.GetTotalHubs | src/network/domain.rs:304-311 | the loop's sum is the number of (network, hub) pairs registered |
| NetworkCache.NetworkAdmin.OnNetwork | src/network/logic.rs:70-87 | decision, mutation, notice and queued change for a server message, or nothing at all |
| NetworkCache.MessageIsObeyed | src/network/logic.rs:70-87 | after a server message the network is gone or there with the given flag, as the message says, and nothing else has changed; it is written down and announced exactly if it changed something |
| NetworkCache.NetworkAdmin.OnDeleteHub | src/network/logic.rs:97-107 | removes the hub, forwards the message, and queues a delete that carries the network's id |
| NetworkCache.DeletedHubIsForgotten | src/network/domain.rs:258-274 | after a delete message a hub is registered iff it was and is not the one named; in a known network it is then unknown and its next linkage request stores it again |
| NetworkCache.NetworkAdmin.OnLinkageRequest | src/network/logic.rs:114-131 | an unknown hub of a known network is added and queued for storing; anything else is acknowledged |
| NetworkCache.UnknownNetworkIsAcknowledged | src/network/domain.rs:277-292 | a hub of an unknown network is acknowledged and neither registered nor stored |
| NetworkCache.NetworkAdmin.OnNetworkBatch | src/network/logic.rs:138-147 | loads every row, a later row winning, and reports readiness |
| NetworkCache.NetworkBatchLoads | src/network/logic.rs:138-147 | after a batch each network in it is cached as its last row says, and the others are as before |
| NetworkCache.OtherInputsForward | src/network/logic.rs:88-96 | settings are forwarded to their hub and a batch of networks reports that they are ready |
| NetworkCache.NetworkAdmin.OnHubBatch | src/network/logic.rs:149-157 | adds every row's hub to its network |
| NetworkCache.HubBatchRegisters | src/network/logic.rs:149-157 | after a batch of hub rows a hub is registered iff it was or some row names it with its network |
| NetworkCache.BootLoad | src/network/logic.rs:138-147 | after loading the rows of the table the cache holds exactly the table's ids and flags |
| NetworkCache.OneInput | src/network/logic.rs:170-195 | for every input, the commands queued for it do to the table what the input does to the cache, and none is refused |
| NetworkCache.StoreFollowsCache | src/network/logic.rs:280-300 | after the boot load, in any interleaving, the commands sent and still queued, replayed on the boot table, give the cache's id-to-active map, and no insert meets an existing key |
| NetworkCache.CaughtUp | src/network/logic.rs:280-300 | once nothing is queued the table written is the cache |
| NetworkCache.HubsReachTheDatabase | src/network/logic.rs:280-300 | in every interleaving the hub rows sent to the database and queued are, in order, those of the unknown hubs that reported to known networks, and the deletions those of the delete messages |
| NetworkCache.RepeatedMessageIsIgnored | src/network/logic.rs:70-87 | a server message handled twice has the effect of once: no second command, notice or change |
| NetworkCache.InsertBeforeBootLoad | src/network/logic.rs:73-80 | before the boot load a create message inserts, and the insert is refused iff the table has the id |
| NetworkCache.ReorderedTasksDisagree | src/database/logic.rs:86-240 | an insert and a delete executed in the other order give the same table iff they concern different networks |
| NetworkCache.LinkageInsertsOnce | src/network/logic.rs:114-131 | a hub of a known network is stored and counted exactly once |
| NetworkCache.HubsOutliveTheirNetwork | src/network/domain.rs:239-241 | hubs of a deleted network keep counting, and when the network returns they are acknowledged without being stored again |
| NetworkCache.PresentAfter | src/network/logic.rs:70-87 | after any inputs a network is cached iff the inputs end with its creation, or it was cached and they do not end with its deletion |
| NetworkCache.DeleteNoticePublishedIff | src/message/logic.rs:116-138 | whatever is handled between a deletion and the lookup of the notice's topic: the notice is published iff the broker is connected and those inputs create the network again and do not delete it after |
| NetworkCache.ChangeNoticePublishedIff | src/message/logic.rs:181-190 | the notice of a change is published iff the broker is connected and the network is not deleted at both lookups, and is retained iff it is there at the first |
| NetworkCache.ForwardedIsPublishedIff | src/network/domain.rs:314-347 | settings and delete messages are published, each on its topic of the network, iff the broker is connected and the network is there at the second lookup |

## Where code and description differ

The model follows the code.

- The description of `update_subscriptions` (src/mqtt/logic.rs:291-295) speaks of matching the broker to the
  network manager's topics; the linkage topic, which a new connection subscribes to, is dropped by the first
  update.
- `FirmwareOutcomeError` is meant to name the network of the failed update; when the version cannot be
  fetched it names an earlier one.
- The delete notice to the hubs of a removed network (src/network/logic.rs:202-203) is published only if the
  network has been created again before another task looks up its topic; otherwise it is dropped.
- A watchdog that is started while running does not restart: it loses the command and stops listening until
  its sleep ends.

## Left out

- That an event is read in the mode it was meant for is stated for run-to-completion operation only. In other
  interleavings approvals and quorum events are earned when they are sent (`FsmAsyncVotes`) but can be read later;
  `FsmEarlyAlert` and `FsmEarlyPhases` say exactly when that ends a phase early, `FsmAsyncBound` how far it can go.
- Floating point: percentages are compared exactly by cross-multiplication (`FsmTask`) or given as exact
  reals (`Firmware`); rounding of `f64` and `f32` is not modelled. A hub count of zero keeps its NaN and
  infinity outcomes.
- The `u32` epoch wraps as in a release build; a debug build would panic at the largest value.
- MqttSubscriptions.Client.Connect: starts from a broker without subscriptions, since the client always asks for
  a clean session.
- Durations, jitter, timestamps and sleeps: a timer is armed or idle and may fire at any moment.
- Channels are unbounded and never closed, except the drain's channel to the core in `StoreForward`.
- The `GetEpoch` retry loop (src/fsm/logic.rs:279-293) is one send, since sends do not fail here.
- Spawning, deleting and shutting down runtimes: each run of a service is a fresh one.
- `edge_state` (src/fsm/logic.rs:163-250), the periodic state report, and the wrappers `Core`, `Channels` and
  the service loops: they only forward.
- gRPC, TLS, certificates, systemd, TOML and metrics: input and output.
- An accepted MQTT call is taken as effective; the client library only queues it. Reconnection is a new run
  of `Connect`.
- SQL text and column mapping: a table is the sequence of its rows in id order. The four insertions of a
  flush and the four deletions of a pop are each one step of `StoreForward`, not interleaved with each other.
- Row order inside one `RETURNING` batch is left open, as SQLite leaves it.
- The hub table: deleting a hub carries the network's id (src/network/logic.rs:101) and deleting a network
  keeps its cached hubs, so cache and table do not agree there.
- `hub_hash_aux` (src/network/logic.rs:60) is written but never read.
- Protobuf and MessagePack conversion of message bodies.
