# Two-phase-commit key-value store: a Dafny model

This project models the per-actor transaction logic of `concurrent_2pc`, a
Java/Akka key-value store. The store is split into shards. Each shard is a
server holding `DB_SIZE` keys. Clients move amounts between keys inside
transactions. A coordinator routes every read and write to the owning server.
When the client ends a transaction, the coordinator runs two-phase commit over
the servers the transaction touched. A checker then adds up the servers' sums
and compares the total with the starting total.

Each actor is a Dafny class, and each of its message handlers is a method over
the actor's own maps:

- The Akka runtime is not modelled. The sender of a message is a parameter,
  and every send is appended to an `outbox` sequence. A multicast to a Java
  `HashSet` is one `Multicast(set, msg)` entry, because the set's iteration
  order is unspecified.
- Random draws are parameters. Their range, as set by `Random.nextInt`, is a
  `requires`. Crash-probability draws are booleans.
- A handler that would throw a Java exception returns `Threw(fault)`. A null
  map entry gives `NullPointer`, a bad list index `IndexOutOfBounds`, and
  `nextInt` with a bound that is not positive `IllegalArgument`. The effects the
  handler made before the throwing statement are kept.
- Coordinators and servers share `Node` behaviour. Each of them holds a
  `const node: Node`, which keeps the crash counts, the crashed flag, the
  recorded decisions and the outbox.

Modules:

- `Common`: `Option`, `Outcome`, Java's truncating `/`, and `Integer` reference
  equality.
- `TransactionIds` (`Transaction.java`) and `Transactions`
  (`transactions/Transaction.java`): transaction identity.
- `Resources`: `Resource.java` and `WorkspaceResource.java`.
- `CrashPhases` and `Messages`: payload types.
- `Nodes`: `actors/Node.java`.
- `Servers`, `Coordinators`, `Clients` and `Checkers`: the four actors.
- `Scenarios`: short runs of the server and coordinator handlers.

A server stores key/value/version entries as values (`Snapshot`), not as
`Resource` objects. Every workspace entry is a clone, so no two live objects
ever alias, and value semantics lose nothing. The `Resource` and
`WorkspaceResource` classes are modelled on their own, with fresh-object
clones.

A behaviour the model keeps on purpose: the server's pending-key set is not
keyed by transaction. When a transaction votes NO because another transaction
holds a lock, it frees every key of its own workspace, and that can include
the other transaction's lock. `Scenarios.NoVoteReleasesForeignLock` runs this
case.

## Model

| member | source | states |
|---|---|---|
| `Common.JavaDiv` | concurrent_2pc/src/main/java/it/unitn/ds1/actors/Coordinator.java:143 | The shard number `key / DB_SIZE` uses Java's division, which rounds toward zero. The quotient brackets the dividend from below for non-negative keys and from above for negative ones. |
| `TransactionIds.EqualsIsPairEquality` | concurrent_2pc/src/main/java/it/unitn/ds1/Transaction.java:16-21 | `equals` holds exactly when the other object is a `Transaction` with the same `(clientId, numAttemptedTxn)` pair. It is never true of `null`. |
| `TransactionIds.HashCode` | concurrent_2pc/src/main/java/it/unitn/ds1/Transaction.java:23-26 | The hash code is a 32-bit signed int. Its bit pattern is the XOR of the two ids' patterns, as for `Map.Entry<Integer,Integer>`. |
| `TransactionIds.EqualsImpliesEqualHashCode` | concurrent_2pc/src/main/java/it/unitn/ds1/Transaction.java:15-26 | Equal transactions have equal hash codes. |
| `TransactionIds.Clone` | concurrent_2pc/src/main/java/it/unitn/ds1/Transaction.java:28-31 | The clone is equal to the original in both directions and has the same hash code. |
| `Transactions.BaseEquals` | concurrent_2pc/src/main/java/it/unitn/ds1/transactions/Transaction.java:26-32 | The base `equals` returns true exactly for a transaction with the same id pair, whatever its variant or state. It returns false for `null`. It throws a class-cast exception exactly for an object of another class. |
| `Transactions.BaseEqualsAgreesWithHashCode` | concurrent_2pc/src/main/java/it/unitn/ds1/transactions/Transaction.java:26-37 | Whenever the base `equals` is true, the two hash codes agree. |
| `Transactions.ModifiableTransaction.constructor` | concurrent_2pc/src/main/java/it/unitn/ds1/transactions/Transaction.java:66-69 | A new modifiable transaction has the given client id and attempt number, which the getters return, and starts in `INIT`. |
| `Transactions.ModifiableTransaction.SetState` | concurrent_2pc/src/main/java/it/unitn/ds1/transactions/Transaction.java:71-73 | `setState` sets the subclass's own `state` field. |
| `Transactions.ModifiableTransaction.GetState` | concurrent_2pc/src/main/java/it/unitn/ds1/transactions/Transaction.java:49-51 | As written, `getState` reads the base class's `state`, which nothing assigns, so it always returns `null`. |
| `Transactions.ModifiableTransaction.CurrentState` | concurrent_2pc/src/main/java/it/unitn/ds1/transactions/Transaction.java:63-73 | The corrected getter returns the state that `setState` last stored. |
| `Transactions.UnmodifiableTransaction.constructor` | concurrent_2pc/src/main/java/it/unitn/ds1/transactions/Transaction.java:54-60 | The frozen copy has its source's id, so each is `equals` to the other. Its state is copied from the base field, so it is `null`. |
| `Transactions.SetStateThenRead` | concurrent_2pc/src/main/java/it/unitn/ds1/transactions/Transaction.java:49-73 | After `setState(s)`, the corrected getter reports `s` and the getter as written reports `null`. |
| `Resources.Resource.constructor` | concurrent_2pc/src/main/java/it/unitn/ds1/Resource.java:7-10 | A new resource stores the given value and version. |
| `Resources.Resource.SetValue` | concurrent_2pc/src/main/java/it/unitn/ds1/Resource.java:16-18 | `setValue` changes the value and not the version. |
| `Resources.Resource.SetVersion` | concurrent_2pc/src/main/java/it/unitn/ds1/Resource.java:24-26 | `setVersion` changes the version and not the value. |
| `Resources.Resource.Clone` | concurrent_2pc/src/main/java/it/unitn/ds1/Resource.java:28-31 | `clone` returns a fresh object with the same value and version. |
| `Resources.MutateClone` | concurrent_2pc/src/main/java/it/unitn/ds1/Resource.java:28-31 | Setting both fields of a clone leaves the original's value and version as they were. |
| `Resources.WorkspaceResource.constructor` | concurrent_2pc/src/main/java/it/unitn/ds1/resources/WorkspaceResource.java:7-10 | The snapshot is a fresh resource with the source's value and version, and its `changed` flag is the argument. |
| `Resources.WorkspaceResource.SetChanged` | concurrent_2pc/src/main/java/it/unitn/ds1/resources/WorkspaceResource.java:16-18 | `setChanged` sets the flag and leaves the copied value and version alone. |
| `Resources.SnapshotThenUpdateSource` | concurrent_2pc/src/main/java/it/unitn/ds1/resources/WorkspaceResource.java:7-10 | A snapshot keeps the pair it copied after the source's value changes. |
| `Nodes.AddCount` | concurrent_2pc/src/main/java/it/unitn/ds1/actors/Node.java:93 | Counting a crash raises that phase's count by exactly the amount, with a missing phase counting 0. Every other phase keeps its count. |
| `Nodes.SumMaps` | concurrent_2pc/src/main/java/it/unitn/ds1/actors/Node.java:40-46 | For every phase, the result's count is the sum of that phase's counts over all the input maps, with a missing entry counting 0. A phase is a key of the result exactly when some input has it. An empty input gives an empty map. |
| `Nodes.RecoveryDelay` | concurrent_2pc/src/main/java/it/unitn/ds1/actors/Node.java:111 | The recovery delay lies in `[MIN_RECOVERY_TIME, MAX_RECOVERY_TIME)`. |
| `Nodes.ZeroMsgCrashPhase` | concurrent_2pc/src/main/java/it/unitn/ds1/actors/Node.java:160-172 | Each of the four phase classes is mapped to its own phase that crashes before any message. Any other class gives `null`. |
| `Nodes.AllMsgCrashPhase` | concurrent_2pc/src/main/java/it/unitn/ds1/actors/Node.java:175-187 | Each of the four phase classes is mapped to its own phase that crashes after all messages. Any other class gives `null`. |
| `Nodes.RndMsgCrashPhase` | concurrent_2pc/src/main/java/it/unitn/ds1/actors/Node.java:190-200 | Three classes are mapped to their random-prefix phase. The server-vote class and any other class give `null`. |
| `Nodes.Node.constructor` | concurrent_2pc/src/main/java/it/unitn/ds1/actors/Node.java:66-73 | A new node has its id and crash phases, no crashes, no decisions and an empty outbox. |
| `Nodes.Node.Crash` | concurrent_2pc/src/main/java/it/unitn/ds1/actors/Node.java:91-105 | A crash enters crashed mode and adds exactly 1 to that phase's count. It schedules one recovery message after the delay and always ends the handler. |
| `Nodes.Node.MaybeCrash` | concurrent_2pc/src/main/java/it/unitn/ds1/actors/Node.java:108-113 | The node crashes exactly when the phase is enabled and the probability draw says so. There is never a crash for a phase outside `crashPhases`. Without a crash, nothing changes. The recovery draw is constrained only when a crash happens, as `nextInt` is called only then. |
| `Nodes.Node.OnDecisionRequest` | concurrent_2pc/src/main/java/it/unitn/ds1/actors/Node.java:207-212 | The node replies with the recorded decision exactly when one is recorded. Otherwise it sends nothing. |
| `Servers.KeyRange` | concurrent_2pc/src/main/java/it/unitn/ds1/actors/Server.java:27 | The key range holds exactly the `n` consecutive keys from `lo`. |
| `Servers.CommitBumpsChangedKeys` | concurrent_2pc/src/main/java/it/unitn/ds1/actors/Server.java:130-145 | With current snapshots, a commit gives every changed key the workspace value and the live version plus 1. Every other key is untouched, and the key set is unchanged. |
| `Servers.SecondCommitBreaksSnapshot` | concurrent_2pc/src/main/java/it/unitn/ds1/actors/Server.java:130-157 | A second write-back of the same workspace takes each new version from the snapshot again, so it leaves the database as one commit left it. After one commit the snapshot versions are no longer the live ones, so the check before each write (line 139) would fail on a second pass. `fixDecision` acts only once. |
| `Servers.InitialRangeSum` | concurrent_2pc/src/main/java/it/unitn/ds1/actors/Server.java:24-29 | The first `n` keys of a fresh shard sum to `n * DEFAULT_VALUE`. |
| `Servers.InitialShardTotal` | concurrent_2pc/src/main/java/it/unitn/ds1/actors/Server.java:24-29 | A fresh shard holds `DB_SIZE * DEFAULT_VALUE` in total. |
| `Servers.CommittedRangeSum` | concurrent_2pc/src/main/java/it/unitn/ds1/actors/Server.java:140-143 | A commit changes a key range's total by exactly the sum of (written value minus replaced live value) over its changed keys. |
| `Servers.BalancedCommitKeepsTotal` | concurrent_2pc/src/main/java/it/unitn/ds1/actors/Server.java:130-145 | A commit whose written values sum to what they replace keeps the shard total. |
| `Servers.Server.constructor` | concurrent_2pc/src/main/java/it/unitn/ds1/actors/Server.java:24-29 | The server stores exactly the keys `id*DB_SIZE .. (id+1)*DB_SIZE-1`, each with value `DEFAULT_VALUE` and version 0. No workspaces, locks or coordinators are recorded. |
| `Servers.Server.CanCommit` | concurrent_2pc/src/main/java/it/unitn/ds1/actors/Server.java:54-65 | The answer is true exactly when every workspace key's snapshot version equals the live version and the key is not pending. |
| `Servers.Server.LockResources` | concurrent_2pc/src/main/java/it/unitn/ds1/actors/Server.java:75-80 | The pending set grows by exactly the workspace's keys. |
| `Servers.Server.FreePendingResources` | concurrent_2pc/src/main/java/it/unitn/ds1/actors/Server.java:82-87 | Every workspace key leaves the pending set, whoever locked it. Other keys stay. |
| `Servers.Server.FreeWorkspace` | concurrent_2pc/src/main/java/it/unitn/ds1/actors/Server.java:69-73 | Afterwards the transaction has no workspace and no coordinator entry, and none of its keys is pending. |
| `Servers.Server.CommitWorkspace` | concurrent_2pc/src/main/java/it/unitn/ds1/actors/Server.java:130-145 | The new database is the committed image of the workspace. The Java `assert` is proved at each key from the precondition that the snapshots are current. |
| `Servers.Server.FixDecision` | concurrent_2pc/src/main/java/it/unitn/ds1/actors/Server.java:147-158 | A second decision changes neither the decision nor the database nor any other state. A first decision is recorded. COMMIT applies the workspace and ABORT leaves the database alone, and in both cases the workspace is freed. An unknown transaction throws after its decision is recorded. |
| `Servers.Server.OnVoteRequest` | concurrent_2pc/src/main/java/it/unitn/ds1/actors/Server.java:89-106 | If the workspace validates, the server votes YES, locks every workspace key and records the sender as coordinator. Otherwise it votes NO, and if the transaction was undecided it decides ABORT and removes the workspace. The database is never changed, and a missing workspace throws before anything happens. |
| `Servers.Server.OnDecisionResponse` | concurrent_2pc/src/main/java/it/unitn/ds1/actors/Server.java:160-164 | The decision is applied with `fixDecision`'s effects above. |
| `Servers.Server.ProcessWorkspace` | concurrent_2pc/src/main/java/it/unitn/ds1/actors/Server.java:166-178 | The first touch of a key copies the live entry with `changed=false`. Later touches return the existing entry, and the database is never changed. A key the server does not own throws after the empty workspace is created. |
| `Servers.Server.OnTransactionRead` | concurrent_2pc/src/main/java/it/unitn/ds1/actors/Server.java:180-184 | The reply carries the workspace value. That is the transaction's own earlier write, if there was one, or else the live value. The database is unchanged. |
| `Servers.Server.OnTransactionWrite` | concurrent_2pc/src/main/java/it/unitn/ds1/actors/Server.java:187-193 | The workspace entry gets the written value and `changed=true`, and keeps the version seen at first touch. The database is unchanged. |
| `Servers.Server.SumOfKeys` | concurrent_2pc/src/main/java/it/unitn/ds1/actors/Server.java:195-199 | The loop computes the sum of the values of all the server's keys. |
| `Servers.Server.Receive` | concurrent_2pc/src/main/java/it/unitn/ds1/actors/Node.java:81-88 | The server's dispatch (`createReceive()` at Server.java:36-48, `crashed()` here). In crashed mode every message except `RecoveryMsg` and `CheckCorrectness` is dropped and changes nothing, so a crashed server neither votes nor locks. `CheckCorrectness` is answered with the shard total in either mode. Recovery and kinds without a handler change nothing, and the mode never changes. In normal mode a vote request gets the vote that `Validates` gives, a decision request the recorded decision, and a decision response `fixDecision`'s effects. Only a decision response can change the database. |
| `Servers.Server.OnCheckCorrectness` | concurrent_2pc/src/main/java/it/unitn/ds1/actors/Server.java:195-201 | The asker receives the shard total and the crash counts. |
| `Coordinators.RoutedKeyIsOnShard` | concurrent_2pc/src/main/java/it/unitn/ds1/actors/Coordinator.java:141-147 | Every non-negative key is sent to the server whose key range contains it. |
| `Coordinators.SmallNegativeKeyIsMisrouted` | concurrent_2pc/src/main/java/it/unitn/ds1/actors/Coordinator.java:143 | Because `/` truncates, the keys from -9 to -1 are routed to server 0, which does not own them. |
| `Coordinators.SameSizeSubsetIsEqual` | concurrent_2pc/src/main/java/it/unitn/ds1/actors/Coordinator.java:26-28 | When the YES voters are among the tracked servers, the size test of `allVotedYes` holds exactly when every tracked server voted YES. |
| `Coordinators.RepeatedYesKeepsCount` | concurrent_2pc/src/main/java/it/unitn/ds1/actors/Coordinator.java:80-82 | A repeated YES from the same server does not grow the voter set. |
| `Coordinators.Coordinator.constructor` | concurrent_2pc/src/main/java/it/unitn/ds1/actors/Coordinator.java:30-32 | A new coordinator starts with empty client, server and voter maps and no decisions. |
| `Coordinators.Coordinator.FixDecision` | concurrent_2pc/src/main/java/it/unitn/ds1/actors/Coordinator.java:62-70 | Only the first decision is recorded. The client is told once, with `commit == (d == COMMIT)`, and a later call sends nothing. |
| `Coordinators.Coordinator.OnVoteResponse` | concurrent_2pc/src/main/java/it/unitn/ds1/actors/Coordinator.java:72-94 | A vote for a decided transaction changes nothing. A YES joins the voter set, and COMMIT is decided and multicast to the tracked servers exactly when the set reaches the server set's size. A NO decides ABORT and multicasts it. |
| `Coordinators.Coordinator.OnTxnBeginMsg` | concurrent_2pc/src/main/java/it/unitn/ds1/actors/Coordinator.java:112-119 | The client is mapped to the new transaction and back, replacing any earlier mapping of that client, and receives an accept. |
| `Coordinators.Coordinator.OnTxnEndMsg` | concurrent_2pc/src/main/java/it/unitn/ds1/actors/Coordinator.java:121-132 | Whatever the client's `commit` flag, the YES voters are reset to empty and a vote request is multicast to exactly the tracked servers. |
| `Coordinators.Coordinator.TrackServerForTxn` | concurrent_2pc/src/main/java/it/unitn/ds1/actors/Coordinator.java:134-139 | The transaction's server set only grows, by the addressed server. An id outside the group throws after the empty set is created. |
| `Coordinators.Coordinator.OnReadMsg` | concurrent_2pc/src/main/java/it/unitn/ds1/actors/Coordinator.java:141-147 | The read goes to server `key / DB_SIZE`, which joins the transaction's server set. |
| `Coordinators.Coordinator.OnWriteMsg` | concurrent_2pc/src/main/java/it/unitn/ds1/actors/Coordinator.java:154-161 | The write goes to server `key / DB_SIZE`, which joins the transaction's server set. |
| `Coordinators.Coordinator.OnTxnReadResponseMsg` | concurrent_2pc/src/main/java/it/unitn/ds1/actors/Coordinator.java:149-152 | A server's read result is relayed to the transaction's client. |
| `Coordinators.Coordinator.OnRecovery` | concurrent_2pc/src/main/java/it/unitn/ds1/actors/Coordinator.java:105-110 | Recovery returns the coordinator to normal mode. |
| `Coordinators.Coordinator.Receive` | concurrent_2pc/src/main/java/it/unitn/ds1/actors/Node.java:81-88 | The coordinator's dispatch (`createReceive()` at Coordinator.java:39-52, `crashed()` here). In crashed mode every message except `RecoveryMsg` and `CheckCorrectness` is dropped and changes nothing. `CheckCorrectness` and kinds without a handler change nothing in either mode. `RecoveryMsg` is the only way back to normal mode. In normal mode, begin, end, read and write messages have their handlers' effects, including the throws. A vote on a decided transaction changes nothing, and a NO on an undecided one decides ABORT. |
| `Clients.TxnLength` | concurrent_2pc/src/main/java/it/unitn/ds1/actors/Client.java:79-81 | `numOpTotal` lies in `[MIN_TXN_LENGTH, MAX_TXN_LENGTH]`. |
| `Clients.SecondKey` | concurrent_2pc/src/main/java/it/unitn/ds1/actors/Client.java:105-107 | With `maxKey >= 2`, the second key lies in `[0, maxKey]` and always differs from the first. |
| `Clients.AmountTaken` | concurrent_2pc/src/main/java/it/unitn/ds1/actors/Client.java:125-126 | The amount lies in `[1, firstValue]` when `firstValue >= 1`, and is 0 otherwise. |
| `Clients.TransferConservesSum` | concurrent_2pc/src/main/java/it/unitn/ds1/actors/Client.java:122-128 | The two written values sum to `firstValue + secondValue`. A non-negative first value stays non-negative, and a positive one strictly increases the second value. |
| `Clients.AttemptMatchAsWrittenFailsFrom128` | concurrent_2pc/src/main/java/it/unitn/ds1/actors/Client.java:187 | The attempt test as written, a reference comparison of two `Integer`s, never recognises the current attempt once it exceeds 127. |
| `Clients.Client.constructor` | concurrent_2pc/src/main/java/it/unitn/ds1/actors/Client.java:43-48 | A new client has made no attempts and no commits. |
| `Clients.Client.BeginTxn` | concurrent_2pc/src/main/java/it/unitn/ds1/actors/Client.java:66-88 | `numAttemptedTxn` rises by exactly 1, `acceptedTxn` becomes false and `numOpDone` becomes 0. The coordinator picked by the draw is sent the new attempt, and `numOpTotal` is set from the length draw. |
| `Clients.Client.EndTxn` | concurrent_2pc/src/main/java/it/unitn/ds1/actors/Client.java:91-100 | The coordinator receives a request to end the transaction with `commit = true`, since the commit probability is 1. Both read values are cleared. |
| `Clients.Client.ReadTwo` | concurrent_2pc/src/main/java/it/unitn/ds1/actors/Client.java:103-119 | Reads of two distinct keys are sent and the earlier values are cleared. With fewer than three keys, `nextInt` throws. |
| `Clients.Client.WriteTwo` | concurrent_2pc/src/main/java/it/unitn/ds1/actors/Client.java:122-135 | Writes of the two transferred values are sent to the two keys. |
| `Clients.Client.OnWelcomeMsg` | concurrent_2pc/src/main/java/it/unitn/ds1/actors/Client.java:139-144 | The client stores the coordinators and `maxKey`, then begins a transaction. |
| `Clients.Client.OnTxnAcceptMsg` | concurrent_2pc/src/main/java/it/unitn/ds1/actors/Client.java:152-156 | The transaction is marked accepted and the first pair of reads is sent. |
| `Clients.Client.FinishOperation` | concurrent_2pc/src/main/java/it/unitn/ds1/actors/Client.java:168-183 | With both values present the operation is counted. The outbox then grows by exactly the two writes, if the draw says so, followed by one end request once the budget is used up, or else by the next two reads. Without both values nothing is sent, unless the budget is already used up. Every branch fixes the whole outbox and all the key and value fields. |
| `Clients.Client.OnReadResultMsg` | concurrent_2pc/src/main/java/it/unitn/ds1/actors/Client.java:160-184 | A value is stored under the key it answers, then the operation is finished as above. Each branch states the entire new outbox: `outbox` followed by the optional two writes and then one `TxnEndMsg`, or the next two reads, or nothing more. The `readTwo` throw is stated too. |
| `Clients.Client.OnTxnResultMsg` | concurrent_2pc/src/main/java/it/unitn/ds1/actors/Client.java:186-199 | With the attempt compared by value (corrected), a result for another attempt is ignored. A commit raises `numCommittedTxn` by 1, and a new attempt follows. `numCommittedTxn <= numAttemptedTxn` is kept throughout. |
| `Clients.Client.OnTxnAcceptTimeoutMsg` | concurrent_2pc/src/main/java/it/unitn/ds1/actors/Client.java:202-208 | The transaction restarts only if it was not yet accepted. Otherwise no field of the client changes. |
| `Clients.Client.OnTxnOperationTimeoutMsg` | concurrent_2pc/src/main/java/it/unitn/ds1/actors/Client.java:210-215 | An operation timeout always begins a new attempt. |
| `Checkers.UntouchedShardsPass` | concurrent_2pc/src/main/java/it/unitn/ds1/actors/Checker.java:75-82 | Reports that each equal `DB_SIZE * DEFAULT_VALUE` add up to the expected `servers.size() * (DB_SIZE * DEFAULT_VALUE)`. |
| `Checkers.FreshServersPass` | concurrent_2pc/src/main/java/it/unitn/ds1/actors/Checker.java:79-82 | The reports of freshly built servers pass the (value) check. |
| `Checkers.SumCheckAsWrittenRejectsCorrectStore` | concurrent_2pc/src/main/java/it/unitn/ds1/actors/Checker.java:82 | The assertion as written, a reference comparison of two `Integer`s, fails even when the sum is exactly right. |
| `Checkers.Checker.constructor` | concurrent_2pc/src/main/java/it/unitn/ds1/actors/Checker.java:25-31 | A new checker has zero counters, a zero sum, empty crash maps and no groups. |
| `Checkers.Checker.OnCheckerWelcomeMsg` | concurrent_2pc/src/main/java/it/unitn/ds1/actors/Checker.java:47-50 | The checker stores the server and coordinator lists as sets. |
| `Checkers.Checker.OnCheckCorrectness` | concurrent_2pc/src/main/java/it/unitn/ds1/actors/Checker.java:52-63 | Every coordinator and then every server is asked for a report. |
| `Checkers.Checker.OnCheckCorrectnessResponse` | concurrent_2pc/src/main/java/it/unitn/ds1/actors/Checker.java:69-104 | A coordinator's report only raises `counterCoordinators` and stores its crash map. A server's report adds its sum to `partialSum` (always the sum of all server reports) and raises `counterServers` by 1. Crash maps are stored per sender and overwrite earlier ones. Once every server has answered, the verdict compares the total with `servers.size() * DB_SIZE * DEFAULT_VALUE` by value. A sender in neither group changes nothing. Before the group lists arrive, the unset list gives a `NullPointer` and nothing is counted. |
| `Scenarios.WriteFifty` | concurrent_2pc/src/main/java/it/unitn/ds1/actors/Server.java:166-193 | After a read and a write of 50 to key 0, the workspace holds value 50 with the version 0 seen on the read, and the live entry is untouched. |
| `Scenarios.VoteOnFifty` | concurrent_2pc/src/main/java/it/unitn/ds1/actors/Server.java:89-103 | The vote request on that workspace validates, locks exactly key 0 and records the coordinator, with no decision taken. |
| `Scenarios.TwoReaders` | concurrent_2pc/src/main/java/it/unitn/ds1/actors/Server.java:166-184 | Two transactions reading key 0 each get their own unchanged copy of the live entry. |
| `Scenarios.ReadAcrossShards` | concurrent_2pc/src/main/java/it/unitn/ds1/actors/Coordinator.java:112-147 | After a client begins a transaction and reads keys 3 and 15, the coordinator tracks exactly servers 0 and 1 for it. |
| `Scenarios.OneServerVotedTwice` | concurrent_2pc/src/main/java/it/unitn/ds1/actors/Coordinator.java:72-132 | After the end request and two YES votes from server 0, server 0 is the only YES voter and nothing is decided. |
| `Scenarios.CommitOneWrite` | concurrent_2pc/src/main/java/it/unitn/ds1/actors/Server.java:130-158 | Read, write 50, a YES vote and COMMIT leave the key at value 50, version 1, with nothing locked or pending. |
| `Scenarios.NoVoteReleasesForeignLock` | concurrent_2pc/src/main/java/it/unitn/ds1/actors/Server.java:82-101 | A second transaction's NO vote unlocks a key that the first transaction locked with its YES, while the first is still undecided. |
| `Scenarios.CommitAfterEveryServerVotesYes` | concurrent_2pc/src/main/java/it/unitn/ds1/actors/Coordinator.java:72-94 | Keys 3 and 15 involve servers 0 and 1. A repeated YES from server 0 does not commit, and the YES from server 1 commits and notifies the client and both servers. |

## Left out

- The Akka runtime is not modelled: `getSender`/`tell`, scheduler timeouts and the `Thread.sleep` delays. The sender is a parameter and a send is an outbox entry. `become` is the node's `crashed` flag, and the `receiveBuilder` dispatch is each actor's `Receive` method. The client's timers and their cancellation are left out; its timeout handlers are methods that the environment calls.
- Random numbers and floating-point probabilities are not modelled. They are oracle parameters, with the ranges of `nextInt` as preconditions and crash or write probabilities as booleans.
- Printing, `CrashPhaseMap.toString`, the debug flags and the checker's crash summaries are left out, because they are output only. `Nodes.SumMaps` models the summing those summaries use.
- The participant termination protocol and the timeout and recovery actions are left out, because the source has them as comments or TODOs. Server recovery does nothing. Coordinator recovery only leaves crashed mode.
- The client's stop message is left out, because it only prints and stops the actor.
- 32-bit overflow of counters, sums and values is not modelled, because integers are unbounded. Only the transaction hash code is computed in 32 bits.
- `Coordinators.Coordinator.OnTxnEndMsg`, `OnReadMsg` and `OnWriteMsg` require the sending client to have begun a transaction. In Java an unknown sender gives a `null` transaction that is then used as a `HashMap` key. The model does not follow that path.
- Some parts of the source do not fit together, and the model follows the evident intent:
  - `actors/Server.java` sends only the sum in its `CheckCorrectnessResponse`, but the checker reads `numCrashes`, so the model's response carries both.
  - `actors/Coordinator.java` builds `TxnResultMsg` without the attempt number that the client's version of the message has. The model fills it in from the transaction id.
  - `setGroup` and `servers` are missing from `actors/Node.java`. The model gives the coordinator its server list in its constructor.
  - The coordinator has no `onCheckCorrectness`, so the model has none. `crashed()` routes `CheckCorrectness` to it, and the model's coordinator changes nothing on that message.
  - `actors/Server.java` does not implement the abstract `hasDecided` (Node.java:123) that its `fixDecision` calls (Server.java:149). The model gives the server the coordinator's definition (Coordinator.java:58-60): a decision is recorded for the transaction.
  - `crashed()` names `RecoveryMsg` and `onRecoveryMsg`, while the actors define `Recovery` and `onRecovery`. The model has one `RecoveryMsg` handled by `onRecovery`.
  - Server and coordinator use the transaction class of `it/unitn/ds1/Transaction.java` (`TransactionIds`). `actors/Node.java` uses the one in `transactions/`, which has the same identity.
- `Clients.Client.ReadTwo` and the reply handlers require a begun transaction with a coordinator. The Java fields are `null` until the welcome message begins the first transaction.
- The server keeps entries as values, not `Resource` objects. Every workspace entry is a clone, so nothing aliases.
- Versions are compared by value, while `canCommit` and the commit assertion compare `Integer` references. The two agree as long as every commit writes over the version its snapshot saw. That is the precondition of `Servers.Server.CommitWorkspace`, and when it holds, equal versions of a key share one box. With Java assertions off, nothing enforces it. The lock release that `Scenarios.NoVoteReleasesForeignLock` shows can let two transactions with the same snapshot both commit a key. Each commit then boxes `version + 1` separately. Past 127, a workspace copied between the two commits fails `canCommit` although its version is equal.
- `Servers.Server.CommitWorkspace`, `FixDecision`, `OnDecisionResponse` and `Receive` require a COMMIT to find current snapshots, the condition the `assert` at Server.java:139 checks. With assertions off, Java would write anyway. The model does not follow that path.
- `Transactions.UnmodifiableTransaction.constructor` takes a `ModifiableTransaction`, while Java accepts any `Transaction`. Nothing is lost: the constructor copies only the ids and the base state, and the base state is `null` in every variant.
- The coordinator's unused `yesVoters` field and the node's unused `pendingTransactions` set are left out.
- `transactions/ServerTransaction.java` and `transactions/CoordinatorTransaction.java` are not part of this model.
- The superseded top-level `Node.java`, `Server.java`, `Coordinator.java` and `Checker.java` are not part of this model.
- The message classes are not modelled one by one; their fields appear as `Messages.Msg`.
- The iteration order of Java sets and maps is not modelled. Loops pick any remaining element, and every property above holds whatever the order.

## Findings

| source | as written | input that shows it | evidently intended | confidence | as-written member | corrected member |
|---|---|---|---|---|---|---|
| concurrent_2pc/src/main/java/it/unitn/ds1/actors/Checker.java:82 | `partialSum == correctSum` compares two `Integer` objects by reference | One server with an untouched store: both are 1000, boxed separately outside the cache [-128, 127], so the assertion fails (with assertions enabled) | Compare the two sums by value | high; not executed | `Checkers.SumCheckAsWrittenRejectsCorrectStore` | `Checkers.Checker.OnCheckCorrectnessResponse` |
| concurrent_2pc/src/main/java/it/unitn/ds1/actors/Client.java:187 | `msg.numAttemptedTxn == numAttemptedTxn` compares two `Integer` objects by reference | Attempt 128: the client's boxed counter and the message's separately boxed field differ, so the result is ignored and only the operation timeout restarts the client | Compare attempt numbers by value | medium (depends on how the coordinator fills the message field); not executed | `Clients.AttemptMatchAsWrittenFailsFrom128` | `Clients.Client.OnTxnResultMsg` |
| concurrent_2pc/src/main/java/it/unitn/ds1/transactions/Transaction.java:49-51 | `getState` reads the base class's `state`, which nothing assigns; each subclass declares its own `state` | `new ModifiableTransaction(1, 1)`, then `setState(READY)`, then `getState()` returns `null` (`Transactions.SetStateThenRead`) | Return the state that `setState` stored | high; not executed | `Transactions.ModifiableTransaction.GetState` | `Transactions.ModifiableTransaction.CurrentState` |
