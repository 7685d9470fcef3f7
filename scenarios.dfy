/** Short runs of the handlers on a concrete shard, showing how they compose. */
module Scenarios {
  import opened Common
  import opened TransactionIds
  import opened Resources
  import opened Messages
  import opened Servers
  import opened Coordinators

  /** A fresh shard 0 on which transaction `t` has read key 0 and then
      written 50 to it: the write sits in the workspace with the version
      seen on the read. */
  method WriteFifty(c: ActorRef, t: Transaction) returns (s: Server)
    ensures fresh(s) && fresh(s.node) && s.Valid() && s.id == 0
    ensures 0 in s.database && s.database[0] == Snapshot(DEFAULT_VALUE, 0)
    ensures s.workspaces == map[t := map[0 := WorkspaceEntry(Snapshot(50, 0), true)]]
    ensures s.pendingResource == {} && s.transaction2coordinator == map[]
    ensures s.node.transaction2decision == map[]
  {
    s := new Server(0, {}, 0, 1);
    assert 0 in ShardKeys(0);
    assert s.database[0] == Snapshot(DEFAULT_VALUE, 0);
    var o := s.OnTransactionRead(c, t, 0);
    assert s.workspaces == map[t := map[0 := WorkspaceEntry(Snapshot(DEFAULT_VALUE, 0), false)]];
    o := s.OnTransactionWrite(t, 0, 50);
    assert map[0 := WorkspaceEntry(Snapshot(DEFAULT_VALUE, 0), false)][0 := WorkspaceEntry(Snapshot(50, 0), true)]
      == map[0 := WorkspaceEntry(Snapshot(50, 0), true)];
  }

  /** The shard above after its vote request: the workspace validates, so
      key 0 is locked and the coordinator recorded. */
  method VoteOnFifty(c: ActorRef, t: Transaction) returns (s: Server)
    ensures fresh(s) && fresh(s.node) && s.Valid()
    ensures 0 in s.database && s.database[0] == Snapshot(DEFAULT_VALUE, 0)
    ensures s.workspaces == map[t := map[0 := WorkspaceEntry(Snapshot(50, 0), true)]]
    ensures s.pendingResource == {0} && s.transaction2coordinator == map[t := c]
    ensures s.node.transaction2decision == map[]
  {
    s := WriteFifty(c, t);
    assert Validates(s.database, s.pendingResource, s.workspaces[t]);
    var o := s.OnVoteRequest(c, t);
    assert {} + map[0 := WorkspaceEntry(Snapshot(50, 0), true)].Keys == {0};
  }

  /** One transaction reads key 0, writes 50 to it, votes YES and is
      committed: the key ends with value 50 at version 1, and nothing is
      left locked or in a workspace. */
  method CommitOneWrite() returns (s: Server)
    ensures fresh(s) && s.Valid()
    ensures 0 in s.database && s.database[0] == Snapshot(50, 1)
    ensures s.pendingResource == {} && s.workspaces == map[] && s.transaction2coordinator == map[]
    ensures s.node.transaction2decision == map[Transaction(1, 1) := COMMIT]
  {
    var c := CoordinatorRef(0);
    var t := Transaction(1, 1);
    s := VoteOnFifty(c, t);
    ghost var db := s.database;
    ghost var ws := s.workspaces[t];
    CommitBumpsChangedKeys(db, ws);
    var o := s.OnDecisionResponse(t, COMMIT);
    assert map[t := c] - {t} == map[];
    assert map[t := ws] - {t} == map[];
    assert {0} - ws.Keys == {};
  }

  /** A fresh shard 0 on which two transactions have each read key 0. */
  method TwoReaders(c: ActorRef, t1: Transaction, t2: Transaction) returns (s: Server)
    requires t1 != t2
    ensures fresh(s) && fresh(s.node) && s.Valid()
    ensures 0 in s.database && s.database[0] == Snapshot(DEFAULT_VALUE, 0)
    ensures s.workspaces == map[t1 := map[0 := WorkspaceEntry(Snapshot(DEFAULT_VALUE, 0), false)],
                                t2 := map[0 := WorkspaceEntry(Snapshot(DEFAULT_VALUE, 0), false)]]
    ensures s.pendingResource == {} && s.transaction2coordinator == map[]
    ensures s.node.transaction2decision == map[]
  {
    s := new Server(0, {}, 0, 1);
    assert 0 in ShardKeys(0);
    var o := s.OnTransactionRead(c, t1, 0);
    o := s.OnTransactionRead(c, t2, 0);
  }

  /** The pending set is not keyed by transaction. Two transactions read
      key 0; the first votes YES and locks it; the second then fails
      validation on that lock, votes NO, and freeing its workspace unlocks
      key 0 while the first is still waiting for its decision. */
  method NoVoteReleasesForeignLock() returns (s: Server)
    ensures fresh(s) && s.Valid()
    ensures Transaction(1, 1) in s.workspaces && 0 in s.workspaces[Transaction(1, 1)]
    ensures s.transaction2coordinator == map[Transaction(1, 1) := CoordinatorRef(0)]
    ensures !s.node.HasDecided(Transaction(1, 1))
    ensures s.node.transaction2decision == map[Transaction(2, 1) := ABORT]
    ensures 0 !in s.pendingResource
  {
    var c := CoordinatorRef(0);
    var t1 := Transaction(1, 1);
    var t2 := Transaction(2, 1);
    s := TwoReaders(c, t1, t2);
    assert Validates(s.database, s.pendingResource, s.workspaces[t1]);
    var o := s.OnVoteRequest(c, t1);
    assert 0 in s.pendingResource;
    assert !Validates(s.database, s.pendingResource, s.workspaces[t2]);
    o := s.OnVoteRequest(c, t2);
  }

  /** A coordinator over servers 0 and 1 on which client 7 has begun its
      first transaction and read keys 3 and 15, so both servers are tracked. */
  method ReadAcrossShards(client: ActorRef, t: Transaction) returns (k: Coordinator)
    requires t == Transaction(7, 1)
    ensures fresh(k) && fresh(k.node)
    ensures k.client2transaction == map[client := t] && k.transaction2client == map[t := client]
    ensures k.transaction2servers == map[t := {ServerRef(0), ServerRef(1)}]
    ensures k.transaction2yesVoters == map[] && k.node.transaction2decision == map[]
  {
    var s0, s1 := ServerRef(0), ServerRef(1);
    k := new Coordinator(0, {}, 0, 1, [s0, s1]);
    k.OnTxnBeginMsg(client, 7, 1);
    assert ShardOf(3) == 0 && ShardOf(15) == 1;
    var o := k.OnReadMsg(client, 3);
    assert {} + {s0} == {s0};
    o := k.OnReadMsg(client, 15);
    assert {s0} + {s1} == {s0, s1};
  }

  /** The coordinator above after the client ends the transaction and
      server 0 votes YES twice: one YES voter, no decision yet. */
  method OneServerVotedTwice(client: ActorRef, t: Transaction) returns (k: Coordinator)
    requires t == Transaction(7, 1)
    ensures fresh(k) && fresh(k.node)
    ensures k.transaction2client == map[t := client]
    ensures k.transaction2servers == map[t := {ServerRef(0), ServerRef(1)}]
    ensures k.transaction2yesVoters == map[t := {ServerRef(0)}]
    ensures k.node.transaction2decision == map[]
  {
    var s0 := ServerRef(0);
    k := ReadAcrossShards(client, t);
    var o := k.OnTxnEndMsg(client, true);
    assert k.transaction2yesVoters == map[t := {}];
    o := k.OnVoteResponse(s0, t, YES);
    assert {} + {s0} == {s0};
    assert k.transaction2yesVoters == map[t := {s0}];
    assert |{s0}| != |{s0, ServerRef(1)}|;
    o := k.OnVoteResponse(s0, t, YES);
    assert {s0} + {s0} == {s0};
  }

  /** A transaction touches keys 3 and 15, so servers 0 and 1. A repeated YES
      from server 0 does not commit; the YES from server 1 does, and the
      client and both servers are told. */
  method CommitAfterEveryServerVotesYes() returns (k: Coordinator)
    ensures fresh(k)
    ensures k.node.transaction2decision == map[Transaction(7, 1) := COMMIT]
    ensures k.transaction2servers == map[Transaction(7, 1) := {ServerRef(0), ServerRef(1)}]
    ensures |k.node.outbox| >= 2 && k.node.outbox[|k.node.outbox| - 2..] ==
      [Send(ClientRef(7), TxnResultMsg(true, 1)),
       Multicast({ServerRef(0), ServerRef(1)}, DecisionResponse(Transaction(7, 1), COMMIT))]
  {
    var client := ClientRef(7);
    var s0, s1 := ServerRef(0), ServerRef(1);
    var t := Transaction(7, 1);
    k := OneServerVotedTwice(client, t);
    assert !k.node.HasDecided(t);
    assert {s0} + {s1} == {s0, s1};
    var o := k.OnVoteResponse(s1, t, YES);
  }
}
