# Ring election, Lamport clocks and vector clocks, modelled in Dafny

This project models the core of the "Lamport-and-Vector-Clocks" programs in Dafny:

- **Ring election with a heartbeat (Q2_4).** One process is the coordinator. Every 4 seconds it copies its data to every live process. When a process sees that the coordinator has crashed, and no election is already in progress (the election gate), it starts a ring election. The token (the list of ids collected so far) goes round the ring. The initiator starts it with its own id alone. Each receiver not yet in the token appends its own id and hands the token to the first live process on its own ring. The token stops at the first process whose id is already in it. That process gives every live process named in the token the token rotated to that process's own position as its new ring; a live process the token never reached keeps its old ring. It then elects the process holding the largest id.
- **The variant with a forced crash (Q2_3B).** During a scan, a live candidate that is not the coordinator may be crashed on a coin toss, at most once per election. The flag `crashedDuringElection` records this, and `updateRing` clears it.
- **Vector clocks (Q1_3).** The receivers are the server and the clients. Each receiver flags a causality violation when an incoming stamp is lexicographically smaller than its own clock. It then merges the stamp into its clock. The server ticks its own entry once more and either drops the message or broadcasts it.
- **Lamport clocks (Q1_2).** A client ticks before it sends. The server takes max(local, stamp) + 1, ticks again, and then drops or forwards. The forwarding step and the client's listener each apply the update rule.

Layout:

- **`process_table.dfy`** (module `ProcessTable`) holds the parts shared by both election programs:
  - the process record;
  - the value-level meaning of each table update (ring installation, winner, heartbeat, crash) and its properties;
  - the start-up code;
  - the read-only queries, as methods over the table.
- **`ring_election.dfy`** (module `RingElection`, Q2_4) and **`ring_election_chaos.dfy`** (module `RingElectionChaos`, Q2_3B) each have two parts:
  - **Value level:** the cluster state as a datatype. The election is written as the mutually recursive functions `Scan`/`Receive`, which mirror `sendRingToNextActiveProcess`/`receiveRing`. They terminate because a token never repeats an id, so it grows by one table id per hop.
  - **Class level:** a class whose fields are the process table, the coordinator and the global flags. Each of its methods is the Go function's loop, proved equal to the value-level function.
- **`vector_clock.dfy`** (module `VectorClock`) and **`lamport_clock.dfy`** (module `LamportClock`) hold the pure clock functions, the per-role clock steps as class methods, and the order and growth lemmas.

Modelling decisions:

- **Coordinator:** the Go pointer `coordinator` is modelled by its index in the process table.
- **Panics become preconditions:** the Go index panics become `requires` clauses. These are a non-empty token for `updateRing`, at least one process at start-up, and clocks of one length. A table holding two processes with one id cannot arise, because the start-up code numbers processes 1..n (`UniqueIds`).
- **Repeated ids:** in the Go program `receiveRing` appends only an id that is absent, so `updateRing` never sees a token that repeats an id. The model's value-level `Update` also accepts such tokens and resolves them as the Go loop would: the last write wins, which the model writes as `LastIndexOf`.
- **Coins and crash choices:** every coin of `math/rand` is a parameter:
  - the drop-or-broadcast coin;
  - the forced-crash oracle `toss(token, i)` of Q2_3B, keyed by the token and the scan position. Within one election each step has its own key, because the token grows at every hop.
- **`updateData`:** the code sets the data without looking at the status, and the model follows the code.
- **Vector-clock send:** in Q1_3 a client does not tick its own entry when it sends. The model follows the code (`VectorClock.Client.Send`).

## Model

| member | source | states |
|---|---|---|
| ProcessTable.MaxOf | Q2/Q2_4/Q2_4.go:131-136 | the winner search yields an element of the token that is at least every token element |
| ProcessTable.MaxID | Q2/Q2_4/Q2_4.go:131-136 | the max loop of `updateRing` returns the token maximum `MaxOf` |
| ProcessTable.Rotate | Q2/Q2_4/Q2_4.go:122 | `t[i:] + t[:i]` has the token's length and the same multiset of ids, and starts with `t[i]` |
| ProcessTable.RotateAt | Q2/Q2_4/Q2_4.go:122 | position j of the rotated ring is token position (i + j) mod len, so the ring reads the token cyclically from the process's own position |
| ProcessTable.Find | Q2/Q2_4/Q2_4.go:155-162 | a lookup returns the first table index holding the id, or none when no process holds it |
| ProcessTable.IsLiveFirstEntry | Q2/Q2_4/Q2_4.go:88-89 | `IsLive`, the scan's test `nextProcess != nil && nextProcess.status == 1`, holds exactly when the first table entry holding the id exists and has status 1 |
| ProcessTable.Crash | Q2/Q2_4/Q2_4.go:176-186 | a crash keeps every id in place and never sets a crashed process live |
| ProcessTable.TokenBound | Q2/Q2_4/Q2_4.go:100-115 | a token of table ids without repetitions is no longer than the table, which bounds the hops of one circulation |
| ProcessTable.TokenExtend | Q2/Q2_4/Q2_4.go:111-114 | appending the id of a receiver not yet in the token keeps it a token without repetitions, and the token was shorter than the table |
| ProcessTable.InstallAndElect | Q2/Q2_4/Q2_4.go:118-144 | the whole table update of `updateRing`. Each live process named at position i gets `t[i:] + t[:i]`, starting with its own id. Crashed and unnamed processes keep their ring. The process holding the token maximum is the winner, live or not, and is marked elected. No other flag, id, status or data changes |
| ProcessTable.InstalledRings | Q2/Q2_4/Q2_4.go:119-128 | the ring loop alone: the rotation facts per live named process, unchanged rings elsewhere, no other field changed |
| ProcessTable.Installed | Q2/Q2_4/Q2_4.go:119-128 | the whole ring loop of `updateRing` as a value: it keeps every id in place. Entry by entry it is described by `InstalledRings`, and the loop of `InstallRings` is proved to compute it |
| ProcessTable.InstalledUpTo | Q2/Q2_4/Q2_4.go:119-128 | the ring loop after its first i token positions: it keeps every id in place. It starts at the table (`InstalledUpToNone`), grows by `InstallStep` and ends at `Installed` (`InstalledUpToAll`) |
| ProcessTable.InstallStep | Q2/Q2_4/Q2_4.go:119-128 | one iteration of the ring loop extends the installation from the first i token positions to the first i + 1 |
| ProcessTable.WinnerIsTokenMaximum | Q2/Q2_4/Q2_4.go:131-142 | when every token id names a process there is a winner, and its id is the largest of the token |
| ProcessTable.Winner | Q2/Q2_4/Q2_4.go:130-137 | the lookup of the token maximum: a found winner is a table index whose id is in the token and at least every token id. There is none only when no process holds the token maximum |
| ProcessTable.MarkElected | Q2/Q2_4/Q2_4.go:137-140 | only the winner's `elected` flag is set, and no other flag, id, status, data or ring changes. Nothing changes when there is no winner |
| ProcessTable.HeartbeatReplicates | Q2/Q2_4/Q2_4.go:46-60 | after a heartbeat from p, every live process other than p holds p's data. Crashed processes and p are untouched, and no status, ring or flag changes. When p is live, all live processes agree |
| ProcessTable.HeartbeatIdempotent | Q2/Q2_4/Q2_4.go:46-60 | a second heartbeat from the same process changes nothing |
| ProcessTable.Heartbeat | Q2/Q2_4/Q2_4.go:46-60 | the value of `sendDataToProcesses`: it keeps every id in place. What it copies is stated by `HeartbeatReplicates`, and a repeat changes nothing by `HeartbeatIdempotent` |
| ProcessTable.CrashEffect | Q2/Q2_4/Q2_4.go:176-186 | the process holding the id gets status 0 and every other process is unchanged. It is a no-op when that process is crashed or absent |
| ProcessTable.GrownTokenBeforeCrash | Q2/Q2_3/Q2_3B/Q2_3B.go:84-88 | a token grown by processes live after a forced crash was grown by processes live before it |
| ProcessTable.RingFrom | Q2/Q2_4/Q2_4.go:235-238 | entry j of process i's start-up ring is the id of table entry (i + j) mod n |
| ProcessTable.NumberedTable | Q2/Q2_4/Q2_4.go:229-231 | the creation loop gives entry k id k + 1, status 1, its data, no flag and an empty ring |
| ProcessTable.LinkRings | Q2/Q2_4/Q2_4.go:234-239 | after the ring loop of `main`, every entry's ring is the id list rotated to start at that entry, and nothing else changes |
| ProcessTable.HighestId | Q2/Q2_4/Q2_4.go:242-247 | the coordinator loop of `main` picks the first index holding the highest id |
| ProcessTable.InitialTable | Q2/Q2_4/Q2_4.go:229-248 | start-up gives processes ids 1..n, all live, with the given data. Process i's ring is the id list rotated to i. The coordinator holds the maximum id and is the only one marked elected |
| ProcessTable.FindProcessByID | Q2/Q2_4/Q2_4.go:155-162 | the lookup loop returns exactly `Find` |
| ProcessTable.GetActiveProcesses | Q2/Q2_4/Q2_4.go:165-173 | the result holds exactly the indices of live processes, in table order |
| ProcessTable.AllProcessesCrashed | Q2/Q2_4/Q2_4.go:214-221 | true exactly when no process has status 1 |
| RingElection.Update | Q2/Q2_4/Q2_4.go:118-144 | `updateRing` keeps the ids unique, in place, and the coordinator inside the table |
| RingElection.Scan | Q2/Q2_4/Q2_4.go:85-97 | the scan-and-hand-off recursion terminates and keeps the table well formed |
| RingElection.Receive | Q2/Q2_4/Q2_4.go:100-115 | the receive recursion terminates and keeps the table well formed |
| RingElection.ScanOutcome | Q2/Q2_4/Q2_4.go:85-97 | a circulation either leaves the cluster (rings, data, coordinator and gate) unchanged, or ends in `updateRing` on a token grown from the current one by live processes, without repetitions |
| RingElection.ScanStalls | Q2/Q2_4/Q2_4.go:86-96 | when no entry of the ring from the scan position on names a live process, the token is dropped and the cluster is unchanged |
| RingElection.ScanFirstLive | Q2/Q2_4/Q2_4.go:86-93 | the token goes to the process named by the first ring entry, from the scan position on, that names a live process |
| RingElection.ReceiveCases | Q2/Q2_4/Q2_4.go:100-114 | a receiver whose id is in the token runs `updateRing` on exactly that token; otherwise it scans its own ring from position 1 with the token plus its id |
| RingElection.ReceiveOutcome | Q2/Q2_4/Q2_4.go:100-115 | a circulation entered at a live receiver either leaves the cluster unchanged or ends in `updateRing` on a token grown from the current one by live processes |
| RingElection.UpdateEffect | Q2/Q2_4/Q2_4.go:118-144 | `updateRing` installs the rings, makes the token maximum coordinator and marks it elected, and resets the gate. Ids, statuses and data stay |
| RingElection.CrashedWinnerPossible | Q2/Q2_4/Q2_4.go:137-142 | the winner's liveness is not checked: a crashed process holding the token maximum becomes coordinator |
| RingElection.CheckOutcome | Q2/Q2_4/Q2_4.go:63-82 | with a live coordinator or the gate shut, detection is a no-op. Otherwise the election from p either stalls with the gate left shut and all else unchanged, or completes on a token that starts with p's id |
| RingElection.Initiate | Q2/Q2_4/Q2_4.go:78-82 | the election from p on the token `[p.id]` keeps the ids unique and in place and the coordinator inside the table. Its two ends are stated by `CheckOutcome` |
| RingElection.Check | Q2/Q2_4/Q2_4.go:63-75 | detection keeps the ids unique and in place and the coordinator inside the table. `CheckOutcome` states the gate: a no-op with a live coordinator or an election in progress, otherwise the gate is shut and `Initiate` runs |
| RingElection.StalledElectionBlocksDetectors | Q2/Q2_4/Q2_4.go:63-75 | once an election has stalled with the gate shut, every further detection changes nothing |
| RingElection.ElectionKeepsStatusAndData | Q2/Q2_4/Q2_4.go:63-144 | an election changes no id, status or data value |
| RingElection.NoOperationRevives | Q2/Q2_4/Q2_4.go:46-186 | none of election, heartbeat, crash or data update sets a status from 0 back to 1 |
| RingElection.Cluster.constructor | Q2/Q2_4/Q2_4.go:229-248 | the start-up state of `main`, with the gate open |
| RingElection.Cluster.SendDataToProcesses | Q2/Q2_4/Q2_4.go:46-60 | the heartbeat loop leaves the table equal to `Heartbeat` of the old one, and everything else unchanged |
| RingElection.Cluster.CheckCoordinatorStatus | Q2/Q2_4/Q2_4.go:63-75 | the new state is `Check` of the old one |
| RingElection.Cluster.InitiateElection | Q2/Q2_4/Q2_4.go:78-82 | the new state is `Initiate` of the old one, with the token `[p.id]` |
| RingElection.Cluster.SendRingToNextActiveProcess | Q2/Q2_4/Q2_4.go:85-97 | the scan loop gives the state `Scan` specifies |
| RingElection.Cluster.ReceiveRing | Q2/Q2_4/Q2_4.go:100-115 | the membership loop and the forward give the state `Receive` specifies |
| RingElection.Cluster.UpdateRing | Q2/Q2_4/Q2_4.go:118-144 | the ring loop, the max loop and the winner update give the state `Update` specifies |
| RingElection.Cluster.InstallRings | Q2/Q2_4/Q2_4.go:119-128 | the ring loop leaves the table equal to `Installed`: every live process named in the token holds the token rotated to its position |
| RingElection.Cluster.UpdateData | Q2/Q2_4/Q2_4.go:147-152 | only p's data changes, whatever p's status |
| RingElection.Cluster.CrashProcess | Q2/Q2_4/Q2_4.go:176-186 | the loop with its early exit leaves the table equal to `Crash` of the old one |
| RingElectionChaos.Update | Q2/Q2_3/Q2_3B/Q2_3B.go:113-139 | `updateRing` keeps the table well formed and resets both the gate and `crashedDuringElection` |
| RingElectionChaos.ForceCrash | Q2/Q2_3/Q2_3B/Q2_3B.go:84-86 | a forced crash keeps the ids in place and revives nobody |
| RingElectionChaos.Scan | Q2/Q2_3/Q2_3B/Q2_3B.go:78-97 | the scan with forced crashes terminates and keeps the table well formed |
| RingElectionChaos.Receive | Q2/Q2_3/Q2_3B/Q2_3B.go:99-111 | the receive recursion terminates and keeps the table well formed |
| RingElectionChaos.ScanOutcome | Q2/Q2_3/Q2_3B/Q2_3B.go:78-97 | after at most one forced crash, the circulation either stalls or ends in `updateRing` on a token grown by processes live when it began |
| RingElectionChaos.ScanStalls | Q2/Q2_3/Q2_3B/Q2_3B.go:79-98 | when no entry of the ring from the scan position on names a live process, no one is crashed, the token is dropped and the cluster is unchanged |
| RingElectionChaos.ScanFirstLive | Q2/Q2_3/Q2_3B/Q2_3B.go:79-83 | ring entries naming no live process are passed over: the scan from position i is the scan at the first entry j, from i on, that names a live process |
| RingElectionChaos.ScanHandOff | Q2/Q2_3/Q2_3B/Q2_3B.go:79-96 | at that first live entry j, naming process k: with no forced crash yet, k not the coordinator and the coin saying crash, k is crashed and the scan resumes at entry j + 1; otherwise k takes the token |
| RingElectionChaos.ReceiveCases | Q2/Q2_3/Q2_3B/Q2_3B.go:101-111 | a receiver whose id is in the token runs `updateRing` on exactly that token; otherwise it scans its own ring from position 1 with the token plus its id |
| RingElectionChaos.ForcedCrashOutcome | Q2/Q2_3/Q2_3B/Q2_3B.go:84-89 | a force-crashed candidate k is crashed (`crashProcess` on its id, flag set) and the scan resumes at the next ring entry; the circulation then ends as `Outcome` allows, with that crash the election's only one |
| RingElectionChaos.ReceiveOutcome | Q2/Q2_3/Q2_3B/Q2_3B.go:99-111 | a circulation entered at a live receiver, after at most one forced crash, stalls or ends in `updateRing` on a token grown by processes live when it began |
| RingElectionChaos.ForcedCrashEffect | Q2/Q2_3/Q2_3B/Q2_3B.go:84-87 | a forced crash hits at most one process, never the coordinator, only when the flag was false, and changes no data |
| RingElectionChaos.ElectionCrashesAtMostOne | Q2/Q2_3/Q2_3B/Q2_3B.go:84-89 | within one election at most one process goes from live to crashed. It is never the coordinator, none goes down once the flag is set, nobody revives, and no data changes |
| RingElectionChaos.OutcomeEffect | Q2/Q2_3/Q2_3B/Q2_3B.go:78-139 | the crash facts hold for every end state the outcome admits |
| RingElectionChaos.UpdateKeepsStatusAndData | Q2/Q2_3/Q2_3B/Q2_3B.go:113-139 | `updateRing` on a grown token changes no status and no data |
| RingElectionChaos.UpdateEffect | Q2/Q2_3/Q2_3B/Q2_3B.go:113-139 | ring installation, election of the token maximum, and reset of both flags |
| RingElectionChaos.CheckOutcome | Q2/Q2_3/Q2_3B/Q2_3B.go:60-76 | detection is a no-op with a live coordinator or the gate shut. Otherwise it shuts the gate and the election ends as `Outcome` allows |
| RingElectionChaos.Initiate | Q2/Q2_3/Q2_3B/Q2_3B.go:72-76 | the election from p on the token `[p.id]` keeps the ids unique and in place and the coordinator inside the table. Its ends are stated by `CheckOutcome` and its crashes by `ElectionCrashesAtMostOne` |
| RingElectionChaos.Check | Q2/Q2_3/Q2_3B/Q2_3B.go:60-70 | detection keeps the ids unique and in place and the coordinator inside the table. `CheckOutcome` states the gate: a no-op with a live coordinator or an election in progress, otherwise the gate is shut and `Initiate` runs |
| RingElectionChaos.ChaosCluster.constructor | Q2/Q2_3/Q2_3B/Q2_3B.go:184-201 | the start-up state, with both flags false |
| RingElectionChaos.ChaosCluster.SendDataToProcesses | Q2/Q2_3/Q2_3B/Q2_3B.go:44-58 | the table becomes `Heartbeat` of the old one, and the coordinator and flags are unchanged |
| RingElectionChaos.ChaosCluster.CheckCoordinatorStatus | Q2/Q2_3/Q2_3B/Q2_3B.go:60-70 | the new state is `Check` of the old one |
| RingElectionChaos.ChaosCluster.InitiateElection | Q2/Q2_3/Q2_3B/Q2_3B.go:72-76 | the new state is `Initiate` of the old one |
| RingElectionChaos.ChaosCluster.SendRingToNextActiveProcess | Q2/Q2_3/Q2_3B/Q2_3B.go:78-97 | the scan loop, with its mid-loop crash and `continue`, gives the state `Scan` specifies |
| RingElectionChaos.ChaosCluster.ReceiveRing | Q2/Q2_3/Q2_3B/Q2_3B.go:99-111 | gives the state `Receive` specifies |
| RingElectionChaos.ChaosCluster.UpdateRing | Q2/Q2_3/Q2_3B/Q2_3B.go:113-139 | gives the state `Update` specifies, with both flags reset |
| RingElectionChaos.ChaosCluster.InstallRings | Q2/Q2_3/Q2_3B/Q2_3B.go:114-123 | the ring loop leaves the table equal to `Installed` |
| RingElectionChaos.ChaosCluster.UpdateData | Q2/Q2_3/Q2_3B/Q2_3B.go:141-146 | only p's data changes |
| RingElectionChaos.ChaosCluster.CrashProcess | Q2/Q2_3/Q2_3B/Q2_3B.go:157-167 | the table becomes `Crash` of the old one |
| VectorClock.Greater | Q1/Q1_3/Q1_3.go:58-63 | the result is at least both arguments and equal to one of them |
| VectorClock.Join | Q1/Q1_3/Q1_3.go:66-70 | the entrywise maximum dominates both inputs, which are cut to len(x), and takes each entry from one of them |
| VectorClock.Merge | Q1/Q1_3/Q1_3.go:66-73 | the result has length len(x). Entry i is max(x[i], y[i]), plus 1 at the receiver's entry |
| VectorClock.MergeVectorClock | Q1/Q1_3/Q1_3.go:66-73 | the loop over a fresh array returns `Merge`. The result dominates x and y and strictly exceeds both at the receiver's entry |
| VectorClock.LesserVectorClock | Q1/Q1_3/Q1_3.go:170-179 | true exactly when x is smaller at the first index where x and y differ, so false for equal clocks |
| VectorClock.JoinIsLeastUpperBound | Q1/Q1_3/Q1_3.go:66-70 | every clock that dominates both inputs dominates their join |
| VectorClock.LexTransitive | Q1/Q1_3/Q1_3.go:170-179 | the lexicographic order is transitive |
| VectorClock.LexAsymmetric | Q1/Q1_3/Q1_3.go:170-179 | the lexicographic order is asymmetric |
| VectorClock.FirstDifference | Q1/Q1_3/Q1_3.go:170-179 | two different clocks of one length have a first differing index |
| VectorClock.LexTrichotomy | Q1/Q1_3/Q1_3.go:170-179 | on clocks of one length, exactly one of x < y, y < x and x == y holds |
| VectorClock.LeqLexLess | Q1/Q1_3/Q1_3.go:170-179 | the lexicographic order extends happens-before: dominated and different implies smaller, and a dominating clock is never smaller |
| VectorClock.MergeAdvances | Q1/Q1_3/Q1_3.go:103 | a receiver's merged clock dominates its old clock and the stamp. It is lexicographically above the old clock and not below the stamp |
| VectorClock.DominatingStampIsNoViolation | Q1/Q1_3/Q1_3.go:98-101 | a stamp that dominates the receiver's clock never raises a causality violation |
| VectorClock.Server.constructor | Q1/Q1_3/Q1_3.go:214-215 | the server is process 0 with a zero clock of n + 1 entries |
| VectorClock.Server.ServerListenerStep | Q1/Q1_3/Q1_3.go:96-128 | the violation flag is exactly lesser(msg, local). The clock becomes the merge, then ticks at the server's entry. A broadcast goes to every client except the sender, each copy carrying the new clock, in client order. The done count and the loop exit follow `messageID == NUM_MESSAGES` |
| VectorClock.Client.constructor | Q1/Q1_3/Q1_3.go:218 | a client starts with a zero clock of n + 1 entries |
| VectorClock.Client.Send | Q1/Q1_3/Q1_3.go:143 | the message carries the client's id, the message number and its current clock |
| VectorClock.Client.Receive | Q1/Q1_3/Q1_3.go:150-155 | the violation flag is exactly lesser(msg, local), and the clock becomes the merge at the client's entry |
| LamportClock.Max | Q1/Q1_2/Q1_2.go:41-46 | the result is at least both arguments and equal to one of them |
| LamportClock.UpdateLamportClock | Q1/Q1_2/Q1_2.go:36-38 | the result is strictly above both clocks and one above one of them, that is max + 1 |
| LamportClock.Apply | Q1/Q1_2/Q1_2.go:121 | a tick or a receipt raises the clock, and after a receipt it lies above the stamp |
| LamportClock.Run | Q1/Q1_2/Q1_2.go:36-38 | a process's clock after a run of ticks (`c.lamportClock++` in `clientSender`) and receipts (`updateLamportClock` in `clientListener`): never below the start, and above it once any event happened. `RunGrows` sharpens this to one per event |
| LamportClock.RunGrows | Q1/Q1_2/Q1_2.go:114-128 | no run of clock steps lowers a clock: it grows by at least one per event and ends above every stamp received |
| LamportClock.ServerReceive | Q1/Q1_2/Q1_2.go:88-92 | the server's clock after a receipt and the extra tick is at least both the message stamp + 2 and the old clock + 2 |
| LamportClock.DeliveryChain | Q1/Q1_2/Q1_2.go:55-121 | along one message's path the stamps strictly increase: send, server receipt, forwarded stamp, the client update in `serverSender`, the client's own receipt |
| LamportClock.Client.constructor | Q1/Q1_2/Q1_2.go:159-165 | a client starts with clock 0 |
| LamportClock.Client.ClientSend | Q1/Q1_2/Q1_2.go:52-62 | the clock goes up by exactly 1, and the message carries the new value. The loop stops after message NUM_MESSAGES unless that is -1 |
| LamportClock.Client.ClientListener | Q1/Q1_2/Q1_2.go:119-121 | the client clock becomes the update of the old clock with the message stamp |
| LamportClock.Server.constructor | Q1/Q1_2/Q1_2.go:154-167 | the server starts with clock 0 and clients 1..n |
| LamportClock.Server.ServerListener | Q1/Q1_2/Q1_2.go:83-108 | the clock becomes update + 1. A forward goes to every client except the sender, in array order, carrying the new clock. The done count and the channel close follow `messageID == NUM_MESSAGES` |
| LamportClock.Server.ServerSender | Q1/Q1_2/Q1_2.go:68-73 | the client clock becomes the update with the forwarded stamp, and the delivered message carries the client's new clock |
| LamportClock.Forwards | Q1/Q1_2/Q1_2.go:95-99 | a delivery is forwarded exactly when its receiver is a listed client other than the sender and it carries the forwarded message |
| LamportClock.ForwardsCount | Q1/Q1_2/Q1_2.go:95-99 | with distinct client ids that include the sender, exactly n - 1 copies are forwarded |

## Left out

- Concurrency is not modelled. Goroutines, channels, `select`, `sync.WaitGroup`, `time.Sleep`, the mutexes and the `run`/`prepMsgs` loops are concurrency. Each listener or sender iteration is modelled as one atomic step, and `go p.initiateElection()` as a synchronous call. So are the `go serverSender` calls; interleavings are not modelled.
- The races are not modelled. Examples are the unsynchronised reads of `status` and `coordinator` and the reset of `electionInProgress` outside `electionMutex`. They are not sequential behaviour.
- Randomness is not modelled. `math/rand` becomes parameters, and so does the console input (`fmt.Scan` of the number of processes, clients and messages). The initial data of `main` (`rand.Intn(100)`) is the `initialData` parameter.
- `randomlyChangeData` and the crash-injection goroutines of `main` are left out. They are external stimuli: they only call `updateData` and `crashProcess`, which are modelled.
- Console output, ANSI colouring and `os.Exit` are left out. They carry no state.
- The Q1_1 program is not part of this model. It only relays messages over channels.
- Go slice aliasing is not modelled. One example is the `append` in `receiveRing` and `updateRing` that may share a backing array. Another is the event in Q1_3's `serverListener`, which shares the server's clock slice before the in-place increment, and the broadcast copies' `vectorTimeStamp`, which aliases the server clock. Clocks and tokens are values here.
- The event records sent on `eventsChannel`, and the violation text on `pcvChannel`, are not modelled. The violation is returned as a boolean.
- 64-bit integer overflow of clocks, ids and data is not modelled. Integers are unbounded.
- RingElectionChaos.ScanOutcome, RingElectionChaos.ReceiveOutcome, RingElectionChaos.ForcedCrashOutcome, RingElectionChaos.CheckOutcome: state only that every id the token gained was live when the scan began, not that it was still live at the moment of hand-off. `Scan` itself checks liveness at hand-off, as `sendRingToNextActiveProcess` does; the per-step facts are in `ScanFirstLive`, `ScanStalls` and `ReceiveCases`.
- VectorClock.LesserVectorClock: requires the stamp to be no longer than the receiver's clock. If it were longer, the Go loop would index out of range; in the program all clocks have NUM_CLIENTS + 1 entries.
