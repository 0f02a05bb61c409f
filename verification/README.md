# Verification model of psyexp_net

A Dafny model of the runtime of `psyexp_net`, an experiment-control library with one server and
many clients. It proves what the control protocol, the clock handling, the client registry, the
codec, the layered configuration, the in-process transport and the event log guarantee, over every
input and every run.

## How the protocol is modelled

One step system (`Protocol.dfy`) holds the server, every client and the network. A step is the code
between two `await`s. The network remembers every packet ever sent and may deliver any of them to
its addressee at any time and any number of times, so packets are duplicated, delayed, reordered
and (when never delivered) lost. Message ids and command ids are fresh; `time.monotonic()` is one
real, never decreasing clock; a client's clock is that clock minus a constant true offset; a step
takes no time, so all clock readings of one step agree. Handlers are opaque and return.

There is one client object per id, alive for the whole run: a process that restarts under its old
id begins with an empty duplicate filter, no session and no clock pair, and the statements about
runs do not cover it.

The step functions come from one module per component: `AckTable` (pending table, tracking table,
command groups, metrics), `Registry`, `ClientLoop`, `Dedupe`, `Clock`, `Sessions`, `Versioning`.
The classes of the program that update their fields are classes here as well (`Server`,
`ClientRuntime`, `Dedupe`, `Registry`, `Sessions`, `Clock`, `Barrier`, `Transport`, `Recorder`), and
each of their methods is proved to leave the object in the state the step function names; the table
below lists those with a loop, a branch on the state, or several objects, and leaves out the
one-line ones (`add`, `touch`, `update_status`, `update_sync`, `add_sample`, `ensure_client`, `send`
and the like), which are proved in the same way.

The laws about the step functions are in `AckLaws`, `ClockLaws`, `RegistryLaws`; what one step
builds, sends and does to one client in `StepShape`; the invariants of the whole system in
`SafetyLaws`, `ExchangeLaws`, `GroundLaws`, `DeliveryLaws`; one client through a whole run in
`ClientRuns`, `TrialRuns` and `WorkRuns`, one send in `SendRuns`, one table entry in `EntryLaws` and
`EntryRuns`, the server's answers and session in `ServerRuns`; the other statements over runs in
`Theorems`, `RunTheorems`, `ClockTheorems`, `DelayRuns`, `RegistryRuns`; and `ExampleRun` builds a
run in which a command completes, one in which an unsynchronised client starts a trial too early,
and one in which a synchronised client starts as early as the bound allows.

Bookkeeping that the program does not keep (which commands were sent, which acknowledgements were
accepted, which messages a client was delivered) is recorded in history fields: ghost fields in the
classes, fields under "what has happened so far" in the values. No step reads a history field to
decide what to do. The statements about runs do not rest on them: `Histories` and `Ledgers` define
what was delivered, completed, acknowledged, started, sent, accepted and expired from the steps of
the run alone, and prove the fields equal to that. What a client synchronised with or registered by
is not recorded at all but read off the run: `LastSync` and `LastJoin` name the step in which the
coroutine last resumed with a PONG or a REGISTER_OK. `Transport` in the same way defines what was
sent to a client from the calls made.

Where the code and its description differ, the model follows the code: the repository's own
`README.md:3` speaks of tracked retransmission, but nothing is sent twice
(`psyexp_net/runtime/server.py:358`), and expired entries are only counted.

## Model

| member | source | states |
|---|---|---|
| RunTheorems.CommandRunsOnce | psyexp_net/runtime/server.py:286-353 | If the call that issued an ack-required command returns normally, the handlers of every peer registered at its issue have returned, in some step of the run, for its own copy of it; the peer began those of no other message of that command, and began them exactly once if and only if no delivery the run made of that copy fell outside the duplicate filter's window. |
| RunTheorems.CommandReachesEveryone | psyexp_net/runtime/server.py:286-353 | The at-least-once half alone, over all interleavings with duplication, delay and loss. |
| RunTheorems.ExactlyOnce | psyexp_net/runtime/client.py:176-200 | In every state of every run, a command a client has begun was begun exactly once iff each redelivery among the messages the run delivered to it came with fewer than the cache size of other ids since the previous one. |
| RunTheorems.NoAckBeforeHandlers | psyexp_net/runtime/client.py:201-257 | For every acknowledgement on the network, and every one the server accepted, an earlier step of the run is the return of its sender's handlers for that command, and an apply time it carries is the sender's local time at such a return. |
| RunTheorems.EveryDeliveryIsAcked | psyexp_net/runtime/client.py:186-253 | The acknowledgements a client has built, with the command it is working on, answer exactly the ack-required messages that the run's steps delivered to it, repeats included, in order; for each message exactly as many acknowledgement packets with different ids exist, all put on the network. |
| RunTheorems.AcksAreAccounted | psyexp_net/runtime/server.py:286-431 | In every reachable state, for the messages entered, accepted and found overdue in the steps of the run: each send is in exactly one of pending, accepted, expired; tracking holds the pending and expired ones; sends = latency samples + timeouts + pending; live groups hold exactly the peers that reported an apply time, and a group with peers is gone exactly when all have; n reports give n-1 skews that never decrease, the i-th made of the first i+1 apply times, of different peers, and the last of all n. |
| Histories.RecordsAreReal | psyexp_net/runtime/client.py:176-257 | In every state of every run, the deliveries, completions, acknowledgements and trial starts a client has recorded are, in order and with their times, those the steps of the run delivered to it, let it finish, let it build and made it begin. |
| Ledgers.LedgersAreReal | psyexp_net/runtime/server.py:286-369 | So are the commands, sends, accepted acknowledgements and expired entries of the server's table: the first acknowledgement from a message's own peer is accepted, unless a scan at least the timeout after the message was entered came first, which gives it up. |
| WorkRuns.EveryDeliveryIsUsed | psyexp_net/runtime/client.py:176-243 | Every message a run delivers to a client is acknowledged again and not worked on if it is a command seen within the filter's window, handed to its coroutine if it replies to a request still waiting, and otherwise, of whatever kind and however often it has come, what the client works on next: its handlers run at once, unless it is a trial start whose time is still to come. |
| WorkRuns.WorkIsDoneInOrder | psyexp_net/runtime/client.py:176-257 | In every run the messages whose handlers began, with a trial start being waited for, are exactly those deliveries, in order, repeats of messages that ask for no acknowledgement included; those whose handlers returned, with the one running, are those that began. |
| WorkRuns.WakesExactly | psyexp_net/runtime/client.py:236-243 | A waiting trial start may go on exactly from execute_at, mapped with the pair the client had when the message came. |
| SendRuns.WaitsExactly | psyexp_net/runtime/server.py:343-353 | In every run, once a send is transmitted and until it returns or times out, it may time out exactly if the acknowledgement timeout has passed since the transmission and no acknowledgement was in time, and return exactly if one was. |
| SendRuns.TimeoutIsLate | psyexp_net/runtime/server.py:343-353 | Every timeout comes at least the acknowledgement timeout after the transmission. |
| SendRuns.AckInTimeCounts | psyexp_net/runtime/server.py:191-202 | An acknowledgement that reaches the server from the right peer less than the timeout after its message was entered gives the future its value for good, and that send never times out. |
| SendRuns.FutureIsFirst | psyexp_net/protocol/ack.py:50-58 | A future is cancelled iff its send has timed out, and else has its value iff an acknowledgement was in time. |
| SendRuns.ExpiresExactly | psyexp_net/protocol/ack.py:60-66 | A step gives a message up iff it is an expiry scan at least the timeout after the step that entered the message, and the message was neither accepted nor given up before. |
| SendRuns.SentAsOrdered | psyexp_net/runtime/server.py:316-342 | Each send of a command puts on the network, for its peer, a message that asks for an acknowledgement and carries the kind and time the command was issued with. |
| SendRuns.SentOnce | psyexp_net/runtime/server.py:342-358 | Nothing is sent twice: each send of a command is transmitted at most once, expired or not. |
| SendRuns.CoroutinesAreIssued | psyexp_net/runtime/server.py:295-314 | There is a send for a command and a peer iff the peer was registered when the command was issued. |
| RunTheorems.FuturesSettleOnce | psyexp_net/protocol/ack.py:50-58 | A future that has a value or was given up keeps that state for the rest of the run, across late and repeated acknowledgements. |
| ExampleRun.ACommandCanComplete | psyexp_net/runtime/server.py:94-99 | For every configuration that admits a client there is a run that registers it, issues a session start to it and ends with the call returned normally. |
| SafetyLaws.StepKeepsSafe | psyexp_net/runtime/server.py:146-202 | Every step of server, client or network keeps the joint invariant behind these results: honest packets, tables, tasks, client loops, and backed acknowledgements. |
| DeliveryLaws.StepKeepsAddressed | psyexp_net/runtime/server.py:316-342 | Every step keeps: a command travels only to the peer it was sent for, and the commands a client was delivered are its own copies. |
| DeliveryLaws.StepKeepsPosted | psyexp_net/runtime/client.py:187-253 | Every step keeps: each client has built exactly as many acknowledgement packets of each message as it records, all put on the network. |
| Theorems.RunPersists | psyexp_net/runtime/server.py:316-353 | Along any stretch of a run a command's peers, a settled future and the reply a request received never change. |
| ClientLoop.ExactlyOnceIffWindow | psyexp_net/runtime/client.py:186-200 | For every delivery history: a delivered command is run at least once, and exactly once iff every redelivery stays inside the filter's window. |
| ClientLoop.DeliveredMeansRun | psyexp_net/runtime/client.py:187-199 | The first delivery of a command is never taken for a repetition. |
| ClientLoop.ReceiveKeepsLoopInv | psyexp_net/runtime/client.py:176-200 | Taking one message keeps: the filter is the window of the history, commands run are its misses, deliveries processed are acknowledged once each. |
| ClientLoop.FinishKeepsLoopInv | psyexp_net/runtime/client.py:201-257 | So does finishing a message's handlers. |
| Dedupe.ItemsAreMostRecent | psyexp_net/protocol/ack.py:69-83 | After any history of calls the ordered dictionary is exactly the last max_size distinct ids, ordered by last occurrence (also for limits of 0 or less). |
| Dedupe.HitExactlyInWindow | psyexp_net/protocol/ack.py:76-83 | `seen` answers true iff the id occurred before with fewer than max_size distinct ids after its last occurrence. |
| Dedupe.MessageDeduplicator.Seen | psyexp_net/protocol/ack.py:76-83 | The in-place filter answers and changes as those lemmas describe. |
| AckLaws.OpenKeeps | psyexp_net/runtime/server.py:295-302 | Opening a group for a fresh command keeps the table invariant; a command without clients leaves its group in place. |
| AckLaws.AddKeeps | psyexp_net/runtime/server.py:325-341 | Entering a fresh message in both tables keeps it. |
| AckLaws.GiveUpKeeps | psyexp_net/runtime/server.py:345-353 | A timed-out wait keeps it. |
| AckLaws.ExpireKeeps | psyexp_net/protocol/ack.py:60-66 | Expiry, which clears only the pending table, keeps it. |
| AckLaws.AcceptKeeps | psyexp_net/runtime/server.py:191-202 | Any acknowledgement, wanted or not, keeps it: fates, conservation, exact groups, n-1 nondecreasing skews. |
| AckLaws.AcceptFlow | psyexp_net/protocol/ack.py:50-58 | An acknowledgement either closes the one entry it names and updates acceptance, group and skews together, or changes none of them. |
| AckLaws.SpreadGrows | psyexp_net/runtime/server.py:423-429 | One more apply time never narrows a group's spread. |
| AckLaws.SpreadIsWidest | psyexp_net/runtime/server.py:423-429 | A spread is the widest distance between two of the apply times, and reached. |
| RunTheorems.RepliesMatchRequests | psyexp_net/runtime/client.py:259-271 | The reply a waiting request resumes with carries that request's id and an expected type, so the unexpected-response error is unreachable; it is the only reply the request ever gets. |
| RunTheorems.RequestsResumeOnce | psyexp_net/runtime/client.py:259-271 | No request resumes twice. |
| ServerRuns.EveryRequestIsAnswered | psyexp_net/runtime/server.py:212-284 | In every run, each message the server takes puts on the network exactly its answer: a registration is accepted, with the session of that moment and whether the id was live, iff version, secret and role admit it, and rejected otherwise; a ping gets its own time and the server's; nothing else is answered. |
| ServerRuns.WhatIsSentIsOnTheWay | psyexp_net/runtime/client.py:273-278 | A client's request or report goes on the network as it is; an announcement of the server reaches the network for exactly its peers. |
| ExchangeLaws.StepKeepsExchanges | psyexp_net/runtime/client.py:193-198 | Every step keeps: each reply on its way answers a request that was made, and each waiting request is unanswered. |
| RunTheorems.SnapshotIsServersSession | psyexp_net/runtime/client.py:292-304 | A client's session fields are the initial ones until a registration of it first resumes with REGISTER_OK, and from then on, all together, the server's session at the very step in which it took the last of these registrations and found version, secret and role admissible. |
| ClockLaws.SampleIsAccurate | psyexp_net/timing/sync.py:19-27 | A causally ordered sample is within rtt/2 of the true offset; it is exact iff the two delays agree, and off by rtt/2 iff one of them is zero (section 8 of RFC 5905). |
| Clock.SyncEstimator.AverageOffsetMs | psyexp_net/timing/sync.py:29-33 | The mean of the recorded offsets, 0 without samples. |
| ClockLaws.TotalBetween | psyexp_net/timing/sync.py:29-33 | The mean stays between common bounds of the samples. |
| ClockLaws.StartWindow | psyexp_net/runtime/client.py:236-243 | Starting at or after the mapped local time means starting no earlier than execute_at - rtt/2 on the server's clock, and a start at most `late` after it comes no later than execute_at + rtt/2 + late. |
| ClockLaws.DelayIsSound | psyexp_net/runtime/server.py:416-421 | Mapping a client's time with an accurate pair gives a delay within rtt/2 of the true one, cut off at 0. |
| DelayRuns.AcknowledgementIsTimed | psyexp_net/runtime/server.py:405-421 | The n-th latency in any run is the time from the step that entered a message to the step that took its acknowledgement; the n-th receive delay is within rtt/2 of the time from the former to the step, strictly in between, in which the client built that acknowledgement, if the pair used, the last one the client had reported, was had after a PONG, and exactly that time minus the clock's true offset, cut off at 0, if it was had before. |
| DelayRuns.ApplyDelayIsTimed | psyexp_net/runtime/server.py:405-421 | The same of the n-th apply delay and the step in which the client's handlers for the message returned. |
| DelayRuns.DelaysAreCounted | psyexp_net/runtime/server.py:191-202 | Every accepted acknowledgement gives one latency and one receive delay, and one apply delay iff it has an apply time. |
| DelayRuns.TimesAreMapped | psyexp_net/runtime/server.py:405-431 | Every apply time in a group or a skew of any run was accepted for that command and mapped with the clock pair its peer had last reported then. |
| ClockLaws.SkewIsSound | psyexp_net/runtime/server.py:423-429 | The spread of mapped apply times differs from the true spread by at most the largest round trip in the group. |
| ClockLaws.WorstIsLargest | psyexp_net/runtime/server.py:423-429 | The round trip in that bound is the largest of the group's. |
| ClockTheorems.ClockPairIsLastSample | psyexp_net/runtime/client.py:127-145 | In every state of every run a client's clock pair is the sample of the last PONG it resumed with, and accurate, or (0, 0) if it has resumed with none. |
| ClockTheorems.RegistryPairWasHad | psyexp_net/runtime/server.py:169-181 | The registry's copy of a client's pair is one that client had at this or an earlier state. |
| ClockTheorems.TrialStartsOnTime | psyexp_net/runtime/client.py:236-243 | In every run a client that had resumed with a PONG before the message reached it starts a scheduled trial no earlier than execute_at - rtt/2 in server time, and, if its handlers begin at most `late` after execute_at as mapped by its pair, no later than execute_at + rtt/2 + late. |
| ExampleRun.ABoundaryStart | psyexp_net/runtime/client.py:124-145 | That bound is reached: for every admitted client and every d >= 0 some run synchronises it over a path of delay d one way only and lets it start a trial exactly d/2 = rtt/2 before execute_at. |
| ClockTheorems.UnsyncedStartIsOff | psyexp_net/runtime/client.py:236-243 | A client that had not starts it no earlier than execute_at + its clock's true offset, and, if its handlers begin at most `late` after execute_at on its own clock, at most that much later. |
| ExampleRun.UnsyncedIsNeverEarlyIff | psyexp_net/runtime/client.py:289-290 | For a client the server admits: no run lets it start a trial before execute_at while unsynchronised, if and only if its clock is not ahead of the server's. |
| ExampleRun.AnEarlyStart | psyexp_net/runtime/client.py:289-290 | The run in which it does, for a clock that is ahead. |
| ClockTheorems.TrialCompletesOnTime | psyexp_net/runtime/client.py:236-251 | The n-th completed run of TRIAL_START_AT handlers is that of the n-th start, which came no later, so the lower bound holds for completions as well. |
| ClockTheorems.RunningTrialHasStarted | psyexp_net/runtime/client.py:236-251 | Starts are one for each completed run of those handlers and one for the run in progress, whose start has the clock pair and arrival of its message. |
| TrialRuns.StartWasReceived | psyexp_net/runtime/client.py:176-243 | Every start comes from a message the client received earlier in the run and was mapped with the pair it had at that moment. |
| ClockTheorems.TrialStartsTogether | psyexp_net/runtime/client.py:236-243 | Two clients that had both synchronised when the message reached them start within (rtt_a + rtt_b)/2 + late of each other. |
| ClockTheorems.ReportedSkewIsSound | psyexp_net/runtime/server.py:405-431 | Every skew in every run is made of the local times of steps in which its peers' handlers for that command returned, each mapped with a pair its peer had; if all of these were had after a PONG it is within the largest round trip of the true skew. |
| RunTheorems.SkewsAreWhole | psyexp_net/runtime/server.py:422-431 | Each skew was, in the state that first reported it, made of one apply time of every peer that had reported by then. |
| RunTheorems.CompleteSkewCoversAll | psyexp_net/runtime/server.py:422-431 | A command to n >= 2 peers that have all reported has n-1 skews, the last made of one apply time of each of them. |
| GroundLaws.StepKeepsGrounded | psyexp_net/runtime/server.py:169-181 | Every step keeps: clock readings in messages and clients, and clock pairs in status reports, registry and command tables, come from real earlier moments. |
| RegistryLaws.RegisterIsSafe | psyexp_net/runtime/server.py:212-266 | A registration is accepted iff the offered version parses with the server's major, the secret is right where one is required, and the id is new, DISCONNECTED or of the same role; a refusal names the first of these that fails and changes nothing. The accepted entry holds the lower of the two versions and exactly the common capabilities in increasing order; a refreshed one keeps its clock pair, a fresh one starts at (0, 0); no other entry changes. |
| RegistryLaws.OnlyAcceptedRegistrationsChangeRecords | psyexp_net/runtime/server.py:159-210 | No message but an accepted registration, and no scan, changes a role, version or capability list. |
| RegistryLaws.StepKeepsRole | psyexp_net/runtime/registry.py:46-57 | One event removes no id and changes a role only for a DISCONNECTED one. |
| RegistryLaws.RoleNeedsDisconnect | psyexp_net/runtime/registry.py:46-57 | Over any event sequence a changed role implies a DISCONNECTED state in between. |
| RegistryLaws.EntriesStayAgreeable | psyexp_net/runtime/server.py:212-231 | Over any event sequence every entry keeps the server's major version, a minor no larger, and an increasing list of the server's capabilities. |
| RegistryLaws.FailureDetector | psyexp_net/runtime/server.py:371-403 | A client whose last handled message, of whatever kind, came at r and left it in an active status is reported no earlier than r + T and no later than r + 1.5T + 2g, and has been once a scan came at r + 1.5T + g or later; a heartbeat timeout T below 0 acts like 0. |
| RegistryLaws.HandledRefreshes | psyexp_net/runtime/server.py:159-181 | Every message of a known client, accepted or not, makes its entry last seen at the moment it is handled. |
| EntryLaws.SilenceDecides | psyexp_net/runtime/server.py:371-403 | The exact fate of a silent client: its status stays until the first scan from r + T/2 on, which disconnects it if it comes at r + T or later and else degrades it; degraded at x, it is disconnected by the first scan from x + T on. |
| EntryRuns.SilenceDecidesStatus | psyexp_net/runtime/server.py:371-403 | The same in runs of the whole protocol, with the times of their scans. |
| RegistryLaws.OnlyReportsLift | psyexp_net/runtime/server.py:203-210 | Heartbeats and all other messages but registrations and status reports never lift DEGRADED or DISCONNECTED. |
| RegistryLaws.BetweenDisconnects | psyexp_net/runtime/server.py:371-385 | Between two disconnect records of one client lies a registration or status report from it. |
| RegistryLaws.PairIsLastReport | psyexp_net/runtime/server.py:169-181 | An entry's clock pair is that of the last status report handled from its client since it was entered, or (0, 0). |
| RegistryRuns.RegistryFollowsHistory | psyexp_net/runtime/server.py:146-157 | In every run of the whole protocol the registry is what its own message and scan history makes of it. |
| RegistryRuns.RegistryStaysAgreeable | psyexp_net/runtime/server.py:212-231 | In every state of every run all entries are agreeable. |
| RegistryRuns.RolesChangeWhenDisconnected | psyexp_net/runtime/registry.py:46-57 | In every run ids are never removed and a role changes only across a state with that id DISCONNECTED. |
| RegistryRuns.SilenceIsReported | psyexp_net/runtime/server.py:371-403 | The same in runs of the whole protocol: r is the time of the last step that handled a message of the client. |
| RegistryRuns.ReportedAgainAfterContact | psyexp_net/runtime/server.py:371-385 | In every run, between two disconnect records for one client the server handled a registration or status report from it. |
| RegistryRuns.RegistryPairIsLastReport | psyexp_net/runtime/server.py:169-181 | The same inside runs of the whole protocol. |
| EntryLaws.EntryStep | psyexp_net/runtime/server.py:159-266 | What any one message or scan does to each part of an entry, by the conditions on the message and the entry: whether there is one, its status, clock pair, time last seen, role and agreement. |
| EntryRuns.EntryIsLastSet | psyexp_net/runtime/server.py:159-210 | In every run each part of an entry is the one given by the last step that set it: the status by the last status report, admitted registration, or scan that found the client overdue; the role and agreement by the last admitted registration; the pair by the last report or fresh registration; the time last seen by the last message or judging scan. Heartbeats and all else leave the status as it was. |
| EntryRuns.EntryMeansAdmitted | psyexp_net/runtime/registry.py:46-57 | There is an entry iff a registration has been admitted. |
| EntryRuns.ClockIsLastReported | psyexp_net/runtime/server.py:411-412 | The pair the server maps a client's times with is the one it last reported, and (0, 0) without a report or entry. |
| Versioning.ParseFormat | psyexp_net/protocol/versioning.py:17-26 | Parsing a written version gives the version back. |
| Versioning.ParseIff | psyexp_net/protocol/versioning.py:17-26 | A version is read iff it is two numbers around its first dot. |
| Versioning.ParseNatIff | psyexp_net/protocol/versioning.py:17-26 | A number is read iff the text is nonempty and all digits, and is the one they write, first digit first. |
| Versioning.LessIff | psyexp_net/protocol/versioning.py:43-45 | Capabilities are ordered by the first character that differs, a prefix first. |
| Versioning.DegradedIff | psyexp_net/protocol/versioning.py:46-51 | An agreement is not degraded iff both sides offer the same text and it is written as versions are. |
| Versioning.CommonSortedIsIntersection | psyexp_net/protocol/versioning.py:43-45 | The capability list is the strictly increasing list of exactly the common capabilities. |
| Versioning.NegotiatedIsAgreeable | psyexp_net/protocol/versioning.py:29-51 | Negotiation fails exactly on unparsable or different major versions, and else yields the lower minor, which is one side's own version, with the common capabilities. |
| Registry.ClientRegistry.DoRegisterOrRefresh | psyexp_net/runtime/registry.py:46-57 | Enters a new or disconnected id, refreshes a live one of the same role, refuses one of another role. |
| Registry.ClientRegistry.FindMissingRoles | psyexp_net/runtime/registry.py:87-98 | The accumulating loop finds the required roles without a READY or RUNNING client, in order. |
| Server.PendingAckManager.ExpireEntries | psyexp_net/protocol/ack.py:60-66 | Returns each entry whose deadline is now or past exactly once, and keeps exactly the others, as they are. |
| Server.ExperimentServer.HandleAck | psyexp_net/runtime/server.py:191-202 | The whole effect of an acknowledgement on pending entry, future, tracking, metrics and group. |
| Server.ExperimentServer.ObserveAckTiming | psyexp_net/runtime/server.py:405-431 | Delays, group and skew of one closed entry, with the registry's clock pair of its receiver. |
| Server.ExperimentServer.ExpireAcks | psyexp_net/runtime/server.py:355-369 | Counts and logs each entry whose deadline is now or past once, and no other. |
| Server.ExperimentServer.RefreshClientHealth | psyexp_net/runtime/server.py:371-403 | The loop logs exactly the clients not yet disconnected without a sign of life for the timeout, and the active ones without one for half of it but not the whole, by their state before the scan. |
| Server.ExperimentServer.HandleRegister | psyexp_net/runtime/server.py:212-266 | Registry and reply of every outcome, with the session snapshot of that moment. |
| Server.ExperimentServer.HandleMessage | psyexp_net/runtime/server.py:159-210 | The objects end in the protocol's next state, and exactly its reply is sent. |
| Server.ExperimentServer.ServeOnce | psyexp_net/runtime/server.py:146-157 | One iteration of the serve loop, with or without a message: the objects end in the state of its three steps, and it answers, expires and logs exactly what they do. |
| Server.ExperimentServer.StartSession | psyexp_net/runtime/server.py:94-99 | Up to its first await: a new running session without a trial, and a SESSION_START to every client registered at that moment. |
| Server.ExperimentServer.StopSession | psyexp_net/runtime/server.py:101-107 | The session is STOPPED, and SESSION_STOP goes to every client registered. |
| Server.ExperimentServer.ArmTrial | psyexp_net/runtime/server.py:109-116 | The trial is armed, and TRIAL_ARM goes to every client registered. |
| Server.ExperimentServer.StartTrial | psyexp_net/runtime/server.py:118-130 | The trial is running, and TRIAL_START_AT with its time goes to every client registered. |
| ClientRuntime.ExperimentClient.ReceiveMessage | psyexp_net/runtime/client.py:176-200 | The object and the acknowledgement it sends follow the client's step function. |
| ClientRuntime.ExperimentClient.Dispatch | psyexp_net/runtime/client.py:201-243 | A trial start waits for its mapped local time; everything else is handled at once. |
| ClientRuntime.ExperimentClient.FinishDispatch | psyexp_net/runtime/client.py:201-257 | The four commands, and only they, are acknowledged, with the time their handlers were done. |
| ClientRuntime.ExperimentClient.ResumeExchange | psyexp_net/runtime/client.py:104-145 | A registration copies the snapshot, a ping replaces the clock pair by its sample, a rejection changes neither. |
| Barrier.BarrierManager.WaitUntilReady | psyexp_net/runtime/barrier.py:18-29 | Whatever other tasks may do while the task sleeps: nothing changes but by what they may do; the answer is what is missing at this moment; it is empty or the deadline has passed; the task slept only after polls before the deadline that saw a missing role; fewer than timeout/0.02 + 2 polls. |
| Barrier.BarrierManager.WaitUntilClientsReady | psyexp_net/runtime/server.py:85-92 | The session becomes READY only with every required role ready, and nothing else changes but by what other tasks may do; on a timeout, which names the missing roles, nothing does, so the session is untouched if they leave it alone. |
| Barrier.MissingAreTheUnready | psyexp_net/runtime/registry.py:87-98 | A role is reported iff it is required and no READY or RUNNING client has it; nothing is reported iff all are ready. |
| Barrier.MissingAppend | psyexp_net/runtime/registry.py:87-98 | Missing roles are reported in the order they were required. |
| Sessions.TrialFollowsCalls | psyexp_net/runtime/session.py:27-69 | After any calls: the trial is the one last armed or started since creation, a phase is shown exactly while there is one, and it is "ended" exactly if that trial was ended since. |
| Sessions.StateFollowsCalls | psyexp_net/runtime/session.py:28-54 | After any calls: the state is the one named by the last call not about a trial, IDLE before any, and the id that of the session created last. |
| ServerRuns.SessionFollowsCalls | psyexp_net/runtime/session.py:28-69 | In every run the server's session is the one the calls made so far determine. |
| Codec.RoundTrip | psyexp_net/protocol/codec.py:20-42 | Decoding an encoded value gives the value back iff no dictionary in it, at any depth, has the key `__bytes__`. |
| Codec.DecodesIff | psyexp_net/protocol/codec.py:33-42 | Decoding any value fails iff some reserved-key entry reached from the top does not hold ASCII text of correctly padded base64. |
| Codec.EncodedIsTextOnly | psyexp_net/protocol/codec.py:20-31 | An encoded value holds no byte string at any depth. |
| Codec.EncodingConfuses | psyexp_net/protocol/codec.py:22-25 | A byte string and a dictionary with the reserved key can encode alike. |
| Base64.RoundTrip | psyexp_net/protocol/codec.py:25-38 | Base64 (section 4 of RFC 4648) of byte strings of every length decodes to them. |
| Base64.EncodesBits | psyexp_net/protocol/codec.py:25 | The characters stand for the bits of the bytes, in order, six each, filled up with zero bits, in text padded to a multiple of four (section 4 of RFC 4648). |
| Base64.AlphabetIsStandard | psyexp_net/protocol/codec.py:25 | The alphabet is that of table 1 there. |
| Base64.IgnoresOthers | psyexp_net/protocol/codec.py:37-38 | The lenient decoder ignores characters outside the alphabet wherever they stand. |
| Base64.UnpaddedDecodes | psyexp_net/protocol/codec.py:37-38 | Text of n alphabet characters without padding decodes iff n is a multiple of 4, to 3n/4 bytes. |
| Base64.EncodedIsAscii | psyexp_net/protocol/codec.py:25-38 | Encoded text is ASCII, so the decoder's ASCII conversion accepts it. |
| Envelope.MessageRoundTrip | psyexp_net/protocol/codec.py:44-58 | A whole message survives encoding and decoding iff no header value, payload or attachment has a dictionary with the key `__bytes__`. |
| Envelope.DictRoundTrip | psyexp_net/protocol/message.py:67-117 | `from_dict` undoes `to_dict` for every message. |
| Envelope.HeaderFields | psyexp_net/protocol/message.py:89-91 | A header dictionary is accepted iff all its keys are fields and msg_type is among them; given fields are taken, missing ones get their defaults. |
| Envelope.FromParts | psyexp_net/protocol/message.py:89-117 | From a dictionary with the three parts and all header fields each part is taken as it is. |
| Config.DeepMerge | psyexp_net/config.py:16-24 | The copying, recursive loop computes the merge. |
| Config.RightIdempotent | psyexp_net/config.py:16-24 | Merging the same overrides again changes nothing. |
| Config.LeftAbsorbs | psyexp_net/config.py:16-24 | Merging onto the base again changes nothing. |
| Config.AssociativeIff | psyexp_net/config.py:16-24 | Merging is associative iff, wherever a table is overridden by a non-table and that by a table, the last table covers the keys of the first. |
| Config.NoFlipsAssociates | psyexp_net/config.py:16-24 | In particular when no key at any depth is table, non-table, table. |
| Config.CoveredMergesAway | psyexp_net/config.py:16-24 | A base disappears in a merge iff its keys are covered at every depth. |
| Config.NotAssociative | psyexp_net/config.py:16-24 | A concrete triple for which merging is not associative. |
| Config.OverridingWins | psyexp_net/config.py:16-24 | At every path the override's setting wins, else the base's, when neither has a table where the other has a setting. |
| Config.MappingAccepted | psyexp_net/config.py:120-133 | A mapping is accepted iff its known sections are tables of known fields, and then has exactly the schema's sections. |
| Config.FromSources | psyexp_net/config.py:154-178 | The layers are applied in the order file, environment, overrides, with the file's errors first. |
| Config.Precedence | psyexp_net/config.py:154-178 | At every path of a known section: override, else environment, else file, else default. |
| Config.SourcesAccepted | psyexp_net/config.py:154-178 | Compatible sources are accepted iff each names known fields only. |
| Environment.TargetOf | psyexp_net/config.py:165-172 | PREFIX + SECTION__FIELD names that section and field in lower case, for fields with single underscores. |
| Environment.TargetIff | psyexp_net/config.py:165-172 | A name sets a field iff it is the prefix and text that reads, in lower case, section, double underscore, field, with no other double underscore; any other name sets nothing. |
| Environment.JoinSplit | psyexp_net/config.py:169 | Splitting at double underscores loses nothing: joining the parts gives the text back. |
| Environment.CollectEnv | psyexp_net/config.py:164-173 | The loop collects the environment's settings in order. |
| Environment.EnvironmentSays | psyexp_net/config.py:164-173 | The environment has exactly the settings its variables name, each with its last value, and nothing deeper. |
| Environment.SettingIs | psyexp_net/config.py:154-178 | A field is what the overrides say, else its last environment variable, else the file, else the default. |
| Transport.NothingIsLost | psyexp_net/transport/memory.py:23-121 | Over every interleaving of calls: the server's queue holds exactly what the calls sent it and it has not received, each connected client's queue exactly what the calls sent or broadcast to it since it connected and it has not received, both in order; all counters are the numbers of those calls and copies; server sends and copies = client received + waiting + discarded on disconnection. |
| Transport.ReceivedWasSent | psyexp_net/transport/memory.py:51-65 | What waits for a client was sent to it or broadcast earlier, and it has not disconnected since; so the hub delivers only what the protocol's network may deliver. |
| Transport.WaitingPutAll | psyexp_net/transport/memory.py:59-65 | A broadcast adds one waiting copy for each connected client. |
| Transport.InMemoryServerTransport.BroadcastAll | psyexp_net/transport/memory.py:59-65 | The loop queues one copy for every connected client and counts each. |
| Recorder.EventRecorder.Record | psyexp_net/logging/recorder.py:32-52 | After any rows: event_count, kinds, trial ids, peer ids and last session are a recount of the rows. |
| Recorder.TrialsAgree | psyexp_net/logging/replay.py:171-178 | The recorder's trial ids are the nonempty ids replay derives plus those of sessions hidden behind a message's own trial id. |
| Recorder.TimelineAcks | psyexp_net/logging/replay.py:81-145 | A message's acknowledgements are the ACK rows that reply to it or carry its id, by time, each with its latencies counted from the first row that sends the message. |
| Recorder.LatenciesAreElapsed | psyexp_net/logging/replay.py:93-127 | In a timeline acknowledgements come by time; if some row sends the message, each one's latencies lead from the first such row to its own time and from the message's time to its apply time, and never decrease; otherwise there are none. |
| Recorder.SortIsStable | psyexp_net/logging/replay.py:98 | The order by time is a permutation that keeps rows of one time in their order. |
| Recorder.TimelineHasAcks | psyexp_net/logging/replay.py:93-127 | A timeline has an acknowledgement iff some ACK row replies to the message or carries its id. |
| Recorder.AckedMessages | psyexp_net/logging/replay.py:36-41 | acked_messages counts the send rows with such a row. |
| Recorder.AckedCountsReplies | psyexp_net/logging/replay.py:36-41 | It equals the number of send rows some ACK row replies to iff every send row sharing its id with an ACK row is replied to. |

## Left out

- ZeroMQ sockets, zeroconf discovery, doctor, benchmark and the command line: I/O and foreign calls.
- `json.dumps`, `json.loads`, UTF-8 and file parsing: JSON text is taken to carry byte-free values faithfully; TOML, JSON and YAML files enter as mappings.
- Floating-point rounding: times, delays and header numbers are reals, so NaN and infinities do not occur.
- Python's `int()` and `float()` on odd strings: versions are plain decimals, and the coercion of an environment value is an arbitrary function of its text; lower-casing is that of ASCII letters.
- Retransmission, pause and resume, NACK, TRIAL_ABORT, PARAM_UPDATE: declared but not carried out by the runtime.
- Liveness of `_exchange` and `reconnect`: neither has a timeout, and a reconnection started by the receive loop waits for a reply only that loop can deliver; only safety is stated for requests.
- Handlers that raise, cancellation inside a queue operation, `close` and `shutdown`: handlers are taken to return and tasks to live.
- The client's own `status` field and its heartbeat loop: status reports, heartbeats and requests may be sent at any time, and a report may carry any status, which covers every schedule of them, including the older status `sync_clock` can write back.
- The order of Python dictionaries in the registry and the pending table: they are maps, and loops over them take the entries in any order. Apply times of a group do keep their order.
- Futures are identified by their message's id, not as objects: each message has exactly one.
- Two clock readings within one step are taken to agree.
- `host`, `process_info` and `queue_health` of a client's record, the registry list inside REGISTER_OK, the result queues and `collect`: carried but never decided on.
- `register`, `stale_clients`, `snapshot` and `resolve` of the registry and the pending table: no part of the runtime's steps, or covered by the members that are.
- Recorder.TimelineAcks: takes a send row's `server_ts` to be a number, which the server always writes; the source raises an error on a row without one.
- `RollingLatencyStats`, `compute_jitter_ms`, `HealthMonitor`, `resolve_execute_at` and replay's `trial_timeline`: they would only add easy members.
