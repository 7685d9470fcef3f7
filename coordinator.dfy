/** A coordinator (it/unitn/ds1/actors/Coordinator.java): routes a client's
    reads and writes to the owning servers, remembers which servers a
    transaction touched, runs the vote and announces the decision. */
module Coordinators {
  import opened Common
  import opened TransactionIds
  import opened CrashPhases
  import opened Messages
  import opened Nodes
  import opened Servers

  /** The server that owns `key`: Java's `key / DB_SIZE`, truncating. */
  function ShardOf(key: int): int
  {
    JavaDiv(key, DB_SIZE)
  }

  /** The message kinds a coordinator's `createReceive()` has a handler for. */
  predicate CoordinatorMessage(m: Msg)
  {
    m.RecoveryMsg? || m.VoteResponse? || m.DecisionRequest? || m.TxnBeginMsg?
    || m.TxnEndMsg? || m.ReadMsg? || m.WriteMsg? || m.TxnReadResponseMsg?
  }

  /** Every non-negative key is routed to the server that stores it. */
  lemma RoutedKeyIsOnShard(key: int)
    requires key >= 0
    ensures ShardOf(key) >= 0
    ensures key in ShardKeys(ShardOf(key))
  {
    var q := ShardOf(key);
    assert q * DB_SIZE <= key < q * DB_SIZE + DB_SIZE;
  }

  /** Truncation sends the keys just below 0 to server 0, which does not
      own them. */
  lemma SmallNegativeKeyIsMisrouted(key: int)
    requires -DB_SIZE < key < 0
    ensures ShardOf(key) == 0
    ensures key !in ShardKeys(ShardOf(key))
  {
  }

  /** `allVotedYes` compares sizes only. When every YES voter is one of the
      transaction's servers, equal sizes mean every server voted YES. */
  lemma {:induction false} SameSizeSubsetIsEqual(yes: set<ActorRef>, servers: set<ActorRef>)
    requires yes <= servers
    ensures |yes| == |servers| <==> yes == servers
  {
    if yes != servers {
      var s :| s in servers && s !in yes;
      assert yes <= servers - {s};
      SubsetSize(yes, servers - {s});
    }
  }

  lemma {:induction false} SubsetSize(a: set<ActorRef>, b: set<ActorRef>)
    requires a <= b
    ensures |a| <= |b|
  {
    if a != {} {
      var x :| x in a;
      SubsetSize(a - {x}, b - {x});
    }
  }

  /** Yes voters are a set, so a second YES from the same server does not
      bring the commit closer. */
  lemma RepeatedYesKeepsCount(yes: set<ActorRef>, sender: ActorRef)
    requires sender in yes
    ensures |yes + {sender}| == |yes|
  {
    assert yes + {sender} == yes;
  }

  class Coordinator {
    /** The `Node` part: crash bookkeeping, decisions and the outbox. */
    const node: Node
    /** The server group; server `i` is at index `i`. */
    const servers: seq<ActorRef>
    var client2transaction: map<ActorRef, Transaction>
    var transaction2client: map<Transaction, ActorRef>
    var transaction2servers: map<Transaction, set<ActorRef>>
    var transaction2yesVoters: map<Transaction, set<ActorRef>>

    constructor (id: int, crashPhases: set<CrashPhase>, minRecoveryTime: int, maxRecoveryTime: int, servers: seq<ActorRef>)
      ensures fresh(node) && node.id == id && node.crashPhases == crashPhases
      ensures node.minRecoveryTime == minRecoveryTime && node.maxRecoveryTime == maxRecoveryTime
      ensures this.servers == servers
      ensures client2transaction == map[] && transaction2client == map[]
      ensures transaction2servers == map[] && transaction2yesVoters == map[]
      ensures node.transaction2decision == map[] && node.outbox == [] && node.numCrashes == map[] && !node.crashed
    {
      node := new Node(id, crashPhases, minRecoveryTime, maxRecoveryTime);
      this.servers := servers;
      client2transaction := map[];
      transaction2client := map[];
      transaction2servers := map[];
      transaction2yesVoters := map[];
    }

    /** `allVotedYes`: as many YES voters as tracked servers. */
    predicate AllVotedYes(t: Transaction)
      reads this
      requires t in transaction2yesVoters && t in transaction2servers
    {
      |transaction2yesVoters[t]| == |transaction2servers[t]|
    }

    /** The notice `fixDecision` sends the client of `t`, if it is known. */
    function ClientNotice(t: Transaction, d: Decision): seq<Envelope>
      reads this
    {
      if t in transaction2client then [Send(transaction2client[t], TxnResultMsg(d == COMMIT, t.numAttemptedTxn))] else []
    }

    /** `fixDecision`: the first decision is recorded and the client is told
        once; a later call does nothing. No client to tell is a null
        dereference, after the decision is recorded. */
    method FixDecision(t: Transaction, d: Decision) returns (o: Outcome)
      modifies node`transaction2decision, node`outbox
      ensures old(node.HasDecided(t)) ==>
        o == Done && node.transaction2decision == old(node.transaction2decision) && node.outbox == old(node.outbox)
      ensures !old(node.HasDecided(t)) ==>
        && node.transaction2decision == old(node.transaction2decision)[t := d]
        && node.outbox == old(node.outbox) + ClientNotice(t, d)
        && (o == Done <==> t in transaction2client)
        && (o != Done ==> o == Threw(NullPointer))
    {
      o := Done;
      if !node.HasDecided(t) {
        node.transaction2decision := node.transaction2decision[t := d];
        if t !in transaction2client {
          return Threw(NullPointer);
        }
        node.outbox := node.outbox + [Send(transaction2client[t], TxnResultMsg(d == COMMIT, t.numAttemptedTxn))];
      }
    }

    /** `onVoteResponse`. A vote for a decided transaction is ignored. A YES
        joins the voter set and commits once the set is as large as the
        server set; a NO aborts. Either decision is then multicast to the
        transaction's servers. */
    method OnVoteResponse(sender: ActorRef, t: Transaction, v: Vote) returns (o: Outcome)
      modifies this`transaction2yesVoters, node`transaction2decision, node`outbox
      ensures old(node.HasDecided(t)) ==>
        && o == Done
        && transaction2yesVoters == old(transaction2yesVoters)
        && node.transaction2decision == old(node.transaction2decision) && node.outbox == old(node.outbox)
      ensures !old(node.HasDecided(t)) && v == YES && t !in old(transaction2yesVoters) ==>
        && o == Threw(NullPointer)
        && transaction2yesVoters == old(transaction2yesVoters)
        && node.transaction2decision == old(node.transaction2decision) && node.outbox == old(node.outbox)
      ensures !old(node.HasDecided(t)) && v == YES && t in old(transaction2yesVoters) ==>
        var voters := old(transaction2yesVoters)[t] + {sender};
        && transaction2yesVoters == old(transaction2yesVoters)[t := voters]
        && (t !in transaction2servers ==>
              o == Threw(NullPointer)
              && node.transaction2decision == old(node.transaction2decision) && node.outbox == old(node.outbox))
        && (t in transaction2servers && |voters| != |transaction2servers[t]| ==>
              o == Done
              && node.transaction2decision == old(node.transaction2decision) && node.outbox == old(node.outbox))
        && (t in transaction2servers && |voters| == |transaction2servers[t]| ==>
              && node.transaction2decision == old(node.transaction2decision)[t := COMMIT]
              && (t in transaction2client ==>
                    o == Done
                    && node.outbox == old(node.outbox) + ClientNotice(t, COMMIT)
                                      + [Multicast(transaction2servers[t], DecisionResponse(t, COMMIT))])
              && (t !in transaction2client ==> o == Threw(NullPointer) && node.outbox == old(node.outbox)))
      ensures !old(node.HasDecided(t)) && v == NO ==>
        && transaction2yesVoters == old(transaction2yesVoters)
        && node.transaction2decision == old(node.transaction2decision)[t := ABORT]
        && (t in transaction2client && t in transaction2servers ==>
              o == Done
              && node.outbox == old(node.outbox) + ClientNotice(t, ABORT)
                                + [Multicast(transaction2servers[t], DecisionResponse(t, ABORT))])
        && (t in transaction2client && t !in transaction2servers ==>
              o == Threw(NullPointer) && node.outbox == old(node.outbox) + ClientNotice(t, ABORT))
        && (t !in transaction2client ==> o == Threw(NullPointer) && node.outbox == old(node.outbox))
    {
      if node.HasDecided(t) {
        return Done;
      }
      if v == YES {
        if t !in transaction2yesVoters {
          return Threw(NullPointer);
        }
        transaction2yesVoters := transaction2yesVoters[t := transaction2yesVoters[t] + {sender}];
        if t !in transaction2servers {
          return Threw(NullPointer);
        }
        if AllVotedYes(t) {
          o := FixDecision(t, COMMIT);
          if o != Done {
            return;
          }
          node.outbox := node.outbox + [Multicast(transaction2servers[t], DecisionResponse(t, node.transaction2decision[t]))];
        } else {
          o := Done;
        }
      } else {
        o := FixDecision(t, ABORT);
        if o != Done {
          return;
        }
        if t !in transaction2servers {
          return Threw(NullPointer);
        }
        node.outbox := node.outbox + [Multicast(transaction2servers[t], DecisionResponse(t, node.transaction2decision[t]))];
      }
    }

    /** `onTxnBeginMsg`: bind the client to the transaction `(clientId,
        attempt)` both ways and accept. A second begin from the same client
        rebinds the client; the earlier transaction keeps its client. */
    method OnTxnBeginMsg(sender: ActorRef, clientId: int, numAttemptedTxn: int)
      modifies this`client2transaction, this`transaction2client, node`outbox
      ensures client2transaction == old(client2transaction)[sender := Transaction(clientId, numAttemptedTxn)]
      ensures transaction2client == old(transaction2client)[Transaction(clientId, numAttemptedTxn) := sender]
      ensures node.outbox == old(node.outbox) + [Send(sender, TxnAcceptMsg)]
    {
      var t := Transaction(clientId, numAttemptedTxn);
      client2transaction := client2transaction[sender := t];
      transaction2client := transaction2client[t := sender];
      node.outbox := node.outbox + [Send(sender, TxnAcceptMsg)];
    }

    /** `onTxnEndMsg`: whatever the client's `commit` flag, start a vote with
        no YES voters yet, asking exactly the servers the transaction
        touched. */
    method OnTxnEndMsg(sender: ActorRef, commit: bool) returns (o: Outcome)
      requires sender in client2transaction
      modifies this`transaction2yesVoters, node`outbox
      ensures var t := client2transaction[sender];
        && transaction2yesVoters == old(transaction2yesVoters)[t := {}]
        && (t in transaction2servers ==>
              o == Done && node.outbox == old(node.outbox) + [Multicast(transaction2servers[t], VoteRequest(t))])
        && (t !in transaction2servers ==> o == Threw(NullPointer) && node.outbox == old(node.outbox))
    {
      var t := client2transaction[sender];
      transaction2yesVoters := transaction2yesVoters[t := {}];
      if t !in transaction2servers {
        return Threw(NullPointer);
      }
      node.outbox := node.outbox + [Multicast(transaction2servers[t], VoteRequest(t))];
      o := Done;
    }

    /** `trackServerForTxn`: make sure `t` has a server set, then add server
        `serverId`; an id outside the group is an index error after the
        empty set is in place. */
    method TrackServerForTxn(t: Transaction, serverId: int) returns (o: Outcome)
      modifies this`transaction2servers
      ensures var prior := if t in old(transaction2servers) then old(transaction2servers)[t] else {};
        && (0 <= serverId < |servers| ==>
              o == Done && transaction2servers == old(transaction2servers)[t := prior + {servers[serverId]}])
        && (!(0 <= serverId < |servers|) ==>
              o == Threw(IndexOutOfBounds) && transaction2servers == old(transaction2servers)[t := prior])
    {
      if t !in transaction2servers {
        transaction2servers := transaction2servers[t := {}];
      }
      if !(0 <= serverId < |servers|) {
        return Threw(IndexOutOfBounds);
      }
      transaction2servers := transaction2servers[t := transaction2servers[t] + {servers[serverId]}];
      o := Done;
    }

    /** `onReadMsg`: track the owning server and forward the read to it. */
    method OnReadMsg(sender: ActorRef, key: int) returns (o: Outcome)
      requires sender in client2transaction
      modifies this`transaction2servers, node`outbox
      ensures var t := client2transaction[sender];
        var shard := ShardOf(key);
        var prior := if t in old(transaction2servers) then old(transaction2servers)[t] else {};
        && (0 <= shard < |servers| ==>
              && o == Done
              && transaction2servers == old(transaction2servers)[t := prior + {servers[shard]}]
              && node.outbox == old(node.outbox) + [Send(servers[shard], TransactionRead(t, key))])
        && (!(0 <= shard < |servers|) ==>
              && o == Threw(IndexOutOfBounds)
              && transaction2servers == old(transaction2servers)[t := prior]
              && node.outbox == old(node.outbox))
    {
      var serverId := ShardOf(key);
      var t := client2transaction[sender];
      o := TrackServerForTxn(t, serverId);
      if o == Done {
        node.outbox := node.outbox + [Send(servers[serverId], TransactionRead(t, key))];
      }
    }

    /** `onWriteMsg`: track the owning server and forward the write to it. */
    method OnWriteMsg(sender: ActorRef, key: int, value: int) returns (o: Outcome)
      requires sender in client2transaction
      modifies this`transaction2servers, node`outbox
      ensures var t := client2transaction[sender];
        var shard := ShardOf(key);
        var prior := if t in old(transaction2servers) then old(transaction2servers)[t] else {};
        && (0 <= shard < |servers| ==>
              && o == Done
              && transaction2servers == old(transaction2servers)[t := prior + {servers[shard]}]
              && node.outbox == old(node.outbox) + [Send(servers[shard], TransactionWrite(t, key, value))])
        && (!(0 <= shard < |servers|) ==>
              && o == Threw(IndexOutOfBounds)
              && transaction2servers == old(transaction2servers)[t := prior]
              && node.outbox == old(node.outbox))
    {
      var serverId := ShardOf(key);
      var t := client2transaction[sender];
      o := TrackServerForTxn(t, serverId);
      if o == Done {
        node.outbox := node.outbox + [Send(servers[serverId], TransactionWrite(t, key, value))];
      }
    }

    /** `onTxnReadResponseMsg`: relay the value read to the transaction's client. */
    method OnTxnReadResponseMsg(t: Transaction, key: int, valueRead: int) returns (o: Outcome)
      modifies node`outbox
      ensures t in transaction2client ==>
        o == Done && node.outbox == old(node.outbox) + [Send(transaction2client[t], ReadResultMsg(key, valueRead))]
      ensures t !in transaction2client ==> o == Threw(NullPointer) && node.outbox == old(node.outbox)
    {
      if t !in transaction2client {
        return Threw(NullPointer);
      }
      node.outbox := node.outbox + [Send(transaction2client[t], ReadResultMsg(key, valueRead))];
      o := Done;
    }

    /** `onRecovery`: leave crashed mode. */
    method OnRecovery()
      modifies node`crashed
      ensures !node.crashed
    {
      node.crashed := false;
    }

    /** The actor's receive function. In normal mode `createReceive()`
        routes every message kind a coordinator knows to its handler; in
        crashed mode `crashed()` lets only `RecoveryMsg` and
        `CheckCorrectness` through and drops the rest. A coordinator has no
        `CheckCorrectness` handler, so that message changes nothing in
        either mode, like any other kind it has no handler for. Only
        recovery changes the mode. */
    method Receive(sender: ActorRef, m: Msg) returns (o: Outcome)
      requires !node.crashed && (m.TxnEndMsg? || m.ReadMsg? || m.WriteMsg?) ==> sender in client2transaction
      modifies this`client2transaction, this`transaction2client, this`transaction2servers, this`transaction2yesVoters,
               node`transaction2decision, node`outbox, node`crashed
      ensures m.RecoveryMsg? ==>
        && o == Done && !node.crashed && unchanged(this)
        && node.transaction2decision == old(node.transaction2decision) && node.outbox == old(node.outbox)
      ensures !m.RecoveryMsg? ==> node.crashed == old(node.crashed)
      ensures !old(node.Handles(m)) || !CoordinatorMessage(m) ==> o == Done && unchanged(this) && unchanged(node)
      ensures !old(node.crashed) && m.TxnBeginMsg? ==>
        && o == Done
        && client2transaction == old(client2transaction)[sender := Transaction(m.clientId, m.numAttemptedTxn)]
        && transaction2client == old(transaction2client)[Transaction(m.clientId, m.numAttemptedTxn) := sender]
        && node.outbox == old(node.outbox) + [Send(sender, TxnAcceptMsg)]
      ensures !old(node.crashed) && m.TxnEndMsg? ==>
        var t := old(client2transaction)[sender];
        && client2transaction == old(client2transaction)
        && transaction2yesVoters == old(transaction2yesVoters)[t := {}]
        && (t in transaction2servers ==>
              o == Done && node.outbox == old(node.outbox) + [Multicast(transaction2servers[t], VoteRequest(t))])
        && (t !in transaction2servers ==> o == Threw(NullPointer) && node.outbox == old(node.outbox))
      ensures !old(node.crashed) && (m.ReadMsg? || m.WriteMsg?) ==>
        var t := old(client2transaction)[sender];
        var shard := ShardOf(m.key);
        var prior := if t in old(transaction2servers) then old(transaction2servers)[t] else {};
        && client2transaction == old(client2transaction)
        && (0 <= shard < |servers| ==>
          && o == Done
          && transaction2servers == old(transaction2servers)[t := prior + {servers[shard]}]
          && node.outbox == old(node.outbox) +
               [Send(servers[shard], if m.ReadMsg? then TransactionRead(t, m.key) else TransactionWrite(t, m.key, m.value))])
        && (!(0 <= shard < |servers|) ==> o == Threw(IndexOutOfBounds) && node.outbox == old(node.outbox))
      ensures !old(node.crashed) && m.VoteResponse? && old(node.HasDecided(m.txn)) ==>
        o == Done && unchanged(this) && unchanged(node)
      ensures !old(node.crashed) && m.VoteResponse? && m.vote == NO && !old(node.HasDecided(m.txn)) ==>
        node.transaction2decision == old(node.transaction2decision)[m.txn := ABORT]
    {
      o := Done;
      if !node.Handles(m) {
        return;
      }
      match m
      case RecoveryMsg => OnRecovery();
      case VoteResponse(t, v) => o := OnVoteResponse(sender, t, v);
      case DecisionRequest(t) => node.OnDecisionRequest(sender, t);
      case TxnBeginMsg(clientId, numAttemptedTxn) => OnTxnBeginMsg(sender, clientId, numAttemptedTxn);
      case TxnEndMsg(_, commit) => o := OnTxnEndMsg(sender, commit);
      case ReadMsg(_, key) => o := OnReadMsg(sender, key);
      case WriteMsg(_, key, value) => o := OnWriteMsg(sender, key, value);
      case TxnReadResponseMsg(t, key, valueRead) => o := OnTxnReadResponseMsg(t, key, valueRead);
      case _ =>
    }
  }
}
