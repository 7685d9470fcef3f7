/** A shard server (it/unitn/ds1/actors/Server.java): a versioned store of
    `DB_SIZE` keys, per-transaction workspaces validated by optimistic
    concurrency control at vote time, and a set of locked keys. */
module Servers {
  import opened Common
  import opened TransactionIds
  import opened Resources
  import opened CrashPhases
  import opened Messages
  import opened Nodes

  const DEFAULT_VALUE: int := 100
  const DB_SIZE: int := 10

  /** A workspace entry: the resource copied at first touch and whether the
      transaction wrote it (Java's `Map.Entry<Resource, Boolean>`). */
  datatype WorkspaceEntry = WorkspaceEntry(resource: Snapshot, changed: bool)

  type Workspace = map<int, WorkspaceEntry>
  type Database = map<int, Snapshot>

  /** The first key of server `id`. */
  function FirstKey(id: int): int
  {
    id * DB_SIZE
  }

  /** The `n` consecutive keys from `lo`. */
  function KeyRange(lo: int, n: nat): (r: set<int>)
    ensures forall k :: k in r <==> lo <= k < lo + n
  {
    if n == 0 then {} else KeyRange(lo, n - 1) + {lo + n - 1}
  }

  /** The keys server `id` owns: `id * DB_SIZE` up to `(id + 1) * DB_SIZE - 1`. */
  function ShardKeys(id: int): set<int>
  {
    KeyRange(FirstKey(id), DB_SIZE)
  }

  /** The message kinds a server's `createReceive()` has a handler for. */
  predicate ServerMessage(m: Msg)
  {
    m.VoteRequest? || m.DecisionRequest? || m.DecisionResponse? || m.RecoveryMsg?
    || m.TransactionRead? || m.TransactionWrite? || m.CheckCorrectness?
  }

  /** What the constructor stores: every owned key at `DEFAULT_VALUE`, version 0. */
  function InitialDatabase(id: int): Database
  {
    map k | k in ShardKeys(id) :: Snapshot(DEFAULT_VALUE, 0)
  }

  /** `canCommit`'s condition: every workspace key still has the version its
      snapshot was taken at, and no key is in the pending set. */
  predicate Validates(db: Database, pending: set<int>, ws: Workspace)
  {
    forall k :: k in ws ==> k in db && ws[k].resource.version == db[k].version && k !in pending
  }

  /** The assertion in `commitWorkspace`: every snapshot is still current. */
  predicate SnapshotsCurrent(db: Database, ws: Workspace)
  {
    forall k :: k in ws ==> k in db && ws[k].resource.version == db[k].version
  }

  /** `db` after the changed entries of `ws` whose keys are in `done` were
      written back with their version bumped. */
  function CommittedOn(db: Database, ws: Workspace, done: set<int>): Database
  {
    map k | k in db :: if k in done && k in ws && ws[k].changed
                       then Snapshot(ws[k].resource.value, ws[k].resource.version + 1)
                       else db[k]
  }

  /** `db` after committing all of `ws`. */
  function Committed(db: Database, ws: Workspace): Database
  {
    CommittedOn(db, ws, ws.Keys)
  }

  /** On COMMIT every changed key takes the workspace value and its live
      version plus one; every other key, and the key set, stay as they were. */
  lemma CommitBumpsChangedKeys(db: Database, ws: Workspace)
    requires SnapshotsCurrent(db, ws)
    ensures Committed(db, ws).Keys == db.Keys
    ensures forall k :: k in ws && ws[k].changed ==>
      Committed(db, ws)[k] == Snapshot(ws[k].resource.value, db[k].version + 1)
    ensures forall k :: k in db && !(k in ws && ws[k].changed) ==> Committed(db, ws)[k] == db[k]
  {
  }

  /** Writing the same workspace back a second time writes the same values
      and versions again, since each bump is taken from the snapshot, so the
      database is as after one commit. What the second pass breaks is the
      check before each write: the snapshot versions are no longer the live
      ones. */
  lemma SecondCommitBreaksSnapshot(db: Database, ws: Workspace, k: int)
    requires SnapshotsCurrent(db, ws) && k in ws && ws[k].changed
    ensures Committed(Committed(db, ws), ws) == Committed(db, ws)
    ensures Committed(db, ws)[k].version == db[k].version + 1
    ensures !SnapshotsCurrent(Committed(db, ws), ws)
  {
  }

  /** Sum of the values of the `n` keys from `lo`. */
  function RangeSum(db: Database, lo: int, n: nat): int
    requires forall k :: lo <= k < lo + n ==> k in db
  {
    if n == 0 then 0 else RangeSum(db, lo, n - 1) + db[lo + n - 1].value
  }

  /** Sum of the values of server `id`'s keys (the answer to `CheckCorrectness`). */
  function ShardTotal(db: Database, id: int): int
    requires ShardKeys(id) <= db.Keys
  {
    RangeSum(db, FirstKey(id), DB_SIZE)
  }

  lemma {:induction false} InitialRangeSum(id: int, n: nat)
    requires n <= DB_SIZE
    ensures RangeSum(InitialDatabase(id), FirstKey(id), n) == n * DEFAULT_VALUE
  {
    if n > 0 {
      InitialRangeSum(id, n - 1);
    }
  }

  /** A fresh server holds `DB_SIZE * DEFAULT_VALUE` in total. */
  lemma InitialShardTotal(id: int)
    ensures ShardKeys(id) <= InitialDatabase(id).Keys
    ensures ShardTotal(InitialDatabase(id), id) == DB_SIZE * DEFAULT_VALUE
  {
    InitialRangeSum(id, DB_SIZE);
  }

  /** What committing `ws` adds to the values of the `n` keys from `lo`. */
  function CommitDelta(db: Database, ws: Workspace, lo: int, n: nat): int
    requires forall k :: lo <= k < lo + n ==> k in db
  {
    if n == 0 then 0
    else CommitDelta(db, ws, lo, n - 1)
         + (var k := lo + n - 1; if k in ws && ws[k].changed then ws[k].resource.value - db[k].value else 0)
  }

  /** A commit changes a range's total by exactly the written values minus
      the live values they replace. */
  lemma {:induction false} CommittedRangeSum(db: Database, ws: Workspace, lo: int, n: nat)
    requires forall k :: lo <= k < lo + n ==> k in db
    ensures forall k :: lo <= k < lo + n ==> k in Committed(db, ws)
    ensures RangeSum(Committed(db, ws), lo, n) == RangeSum(db, lo, n) + CommitDelta(db, ws, lo, n)
  {
    if n > 0 {
      CommittedRangeSum(db, ws, lo, n - 1);
    }
  }

  /** A commit that writes back values summing to what they replace keeps the
      shard total, which the end-of-run check relies on. */
  lemma BalancedCommitKeepsTotal(db: Database, ws: Workspace, id: int)
    requires ShardKeys(id) <= db.Keys
    requires CommitDelta(db, ws, FirstKey(id), DB_SIZE) == 0
    ensures ShardKeys(id) <= Committed(db, ws).Keys
    ensures ShardTotal(Committed(db, ws), id) == ShardTotal(db, id)
  {
    CommittedRangeSum(db, ws, FirstKey(id), DB_SIZE);
  }

  class Server {
    const id: int
    /** The `Node` part: crash bookkeeping, decisions and the outbox. */
    const node: Node
    var database: Database
    var workspaces: map<Transaction, Workspace>
    /** Locked keys. Not keyed by transaction: a key is just present or not. */
    var pendingResource: set<int>
    var transaction2coordinator: map<Transaction, ActorRef>

    ghost predicate Valid()
      reads this
    {
      && database.Keys == ShardKeys(id)
      && (forall t :: t in workspaces ==> workspaces[t].Keys <= database.Keys)
    }

    constructor (id: int, crashPhases: set<CrashPhase>, minRecoveryTime: int, maxRecoveryTime: int)
      ensures Valid() && fresh(node)
      ensures this.id == id && node.id == id && node.crashPhases == crashPhases
      ensures node.minRecoveryTime == minRecoveryTime && node.maxRecoveryTime == maxRecoveryTime
      ensures database == InitialDatabase(id)
      ensures workspaces == map[] && pendingResource == {} && transaction2coordinator == map[]
      ensures node.transaction2decision == map[] && node.outbox == [] && node.numCrashes == map[] && !node.crashed
    {
      this.id := id;
      node := new Node(id, crashPhases, minRecoveryTime, maxRecoveryTime);
      var db: Database := map[];
      var lo := id * DB_SIZE;
      var n := 0;
      while n < DB_SIZE
        invariant 0 <= n <= DB_SIZE
        invariant db == map k | k in KeyRange(lo, n) :: Snapshot(DEFAULT_VALUE, 0)
      {
        db := db[lo + n := Snapshot(DEFAULT_VALUE, 0)];
        n := n + 1;
      }
      database := db;
      workspaces := map[];
      pendingResource := {};
      transaction2coordinator := map[];
    }

    /** `canCommit`. */
    method CanCommit(t: Transaction) returns (ok: bool)
      requires Valid() && t in workspaces
      ensures ok <==> Validates(database, pendingResource, workspaces[t])
    {
      var ws := workspaces[t];
      var rest := ws.Keys;
      while rest != {}
        invariant rest <= ws.Keys
        invariant forall k :: k in ws && k !in rest ==>
          ws[k].resource.version == database[k].version && k !in pendingResource
        decreases rest
      {
        var key := Pick(rest);
        if ws[key].resource.version != database[key].version || key in pendingResource {
          return false;
        }
        rest := rest - {key};
      }
      return true;
    }

    /** `lockResources`: every workspace key becomes pending. */
    method LockResources(t: Transaction)
      requires t in workspaces
      modifies this`pendingResource
      ensures pendingResource == old(pendingResource) + workspaces[t].Keys
    {
      var keys := workspaces[t].Keys;
      var rest := keys;
      while rest != {}
        invariant rest <= keys
        invariant pendingResource == old(pendingResource) + (keys - rest)
        decreases rest
      {
        var key := Pick(rest);
        pendingResource := pendingResource + {key};
        rest := rest - {key};
      }
    }

    /** `freePendingResources`: every workspace key stops being pending,
        whichever transaction locked it. */
    method FreePendingResources(t: Transaction)
      requires t in workspaces
      modifies this`pendingResource
      ensures pendingResource == old(pendingResource) - workspaces[t].Keys
    {
      var keys := workspaces[t].Keys;
      var rest := keys;
      while rest != {}
        invariant rest <= keys
        invariant pendingResource == old(pendingResource) - (keys - rest)
        decreases rest
      {
        var key := Pick(rest);
        pendingResource := pendingResource - {key};
        rest := rest - {key};
      }
    }

    /** `freeWorkspace`: release the keys, drop the workspace and the
        coordinator entry. */
    method FreeWorkspace(t: Transaction)
      requires Valid() && t in workspaces
      modifies this`pendingResource, this`workspaces, this`transaction2coordinator
      ensures Valid()
      ensures pendingResource == old(pendingResource) - old(workspaces)[t].Keys
      ensures workspaces == old(workspaces) - {t}
      ensures transaction2coordinator == old(transaction2coordinator) - {t}
    {
      FreePendingResources(t);
      workspaces := workspaces - {t};
      transaction2coordinator := transaction2coordinator - {t};
    }

    /** `commitWorkspace`: write back every changed entry with its version
        bumped by one. The Java assertion that the snapshot is current is the
        precondition, checked again for each key as it is written. */
    method CommitWorkspace(t: Transaction)
      requires Valid() && t in workspaces
      requires SnapshotsCurrent(database, workspaces[t])
      modifies this`database
      ensures Valid()
      ensures database == Committed(old(database), workspaces[t])
    {
      var ws := workspaces[t];
      var rest := ws.Keys;
      while rest != {}
        invariant rest <= ws.Keys
        invariant database == CommittedOn(old(database), ws, ws.Keys - rest)
        decreases rest
      {
        var key := Pick(rest);
        var entry := ws[key];
        assert entry.resource.version == database[key].version;
        if entry.changed {
          database := database[key := Snapshot(entry.resource.value, entry.resource.version + 1)];
        }
        rest := rest - {key};
      }
    }

    /** `fixDecision`: only the first decision for a transaction has any
        effect. It records the decision, on COMMIT writes the workspace back,
        and frees the workspace. An unknown transaction has no workspace to
        free: the decision is recorded and the handler throws. */
    method FixDecision(t: Transaction, d: Decision) returns (o: Outcome)
      requires Valid()
      requires d == COMMIT && !node.HasDecided(t) && t in workspaces ==> SnapshotsCurrent(database, workspaces[t])
      modifies this`database, this`workspaces, this`pendingResource, this`transaction2coordinator,
               node`transaction2decision
      ensures Valid()
      ensures old(node.HasDecided(t)) ==>
        && o == Done
        && node.transaction2decision == old(node.transaction2decision)
        && database == old(database) && workspaces == old(workspaces)
        && pendingResource == old(pendingResource) && transaction2coordinator == old(transaction2coordinator)
      ensures !old(node.HasDecided(t)) ==> node.transaction2decision == old(node.transaction2decision)[t := d]
      ensures !old(node.HasDecided(t)) && t !in old(workspaces) ==>
        && o == Threw(NullPointer)
        && database == old(database) && workspaces == old(workspaces)
        && pendingResource == old(pendingResource) && transaction2coordinator == old(transaction2coordinator)
      ensures !old(node.HasDecided(t)) && t in old(workspaces) ==>
        && o == Done
        && database == (if d == COMMIT then Committed(old(database), old(workspaces)[t]) else old(database))
        && workspaces == old(workspaces) - {t}
        && transaction2coordinator == old(transaction2coordinator) - {t}
        && pendingResource == old(pendingResource) - old(workspaces)[t].Keys
    {
      o := Done;
      if !node.HasDecided(t) {
        node.transaction2decision := node.transaction2decision[t := d];
        if t !in workspaces {
          return Threw(NullPointer);
        }
        if d == COMMIT {
          CommitWorkspace(t);
        }
        FreeWorkspace(t);
      }
    }

    /** `onVoteRequest`: vote YES and lock the workspace keys when the
        workspace validates, otherwise decide ABORT locally and vote NO. */
    method OnVoteRequest(sender: ActorRef, t: Transaction) returns (o: Outcome)
      requires Valid()
      modifies this`database, this`workspaces, this`pendingResource, this`transaction2coordinator,
               node`transaction2decision, node`outbox
      ensures Valid()
      ensures database == old(database)
      ensures t !in old(workspaces) ==>
        && o == Threw(NullPointer)
        && workspaces == old(workspaces) && pendingResource == old(pendingResource)
        && transaction2coordinator == old(transaction2coordinator)
        && node.transaction2decision == old(node.transaction2decision) && node.outbox == old(node.outbox)
      ensures t in old(workspaces) && Validates(old(database), old(pendingResource), old(workspaces)[t]) ==>
        && o == Done
        && pendingResource == old(pendingResource) + old(workspaces)[t].Keys
        && transaction2coordinator == old(transaction2coordinator)[t := sender]
        && workspaces == old(workspaces)
        && node.transaction2decision == old(node.transaction2decision)
        && node.outbox == old(node.outbox) + [Send(sender, VoteResponse(t, YES))]
      ensures t in old(workspaces) && !Validates(old(database), old(pendingResource), old(workspaces)[t]) ==>
        && o == Done
        && node.outbox == old(node.outbox) + [Send(sender, VoteResponse(t, NO))]
        && (old(node.HasDecided(t)) ==>
              && workspaces == old(workspaces) && pendingResource == old(pendingResource)
              && transaction2coordinator == old(transaction2coordinator)
              && node.transaction2decision == old(node.transaction2decision))
        && (!old(node.HasDecided(t)) ==>
              && node.transaction2decision == old(node.transaction2decision)[t := ABORT]
              && workspaces == old(workspaces) - {t}
              && pendingResource == old(pendingResource) - old(workspaces)[t].Keys
              && transaction2coordinator == old(transaction2coordinator) - {t})
    {
      if t !in workspaces {
        return Threw(NullPointer);
      }
      var ok := CanCommit(t);
      var vote;
      if !ok {
        o := FixDecision(t, ABORT);
        vote := NO;
      } else {
        transaction2coordinator := transaction2coordinator[t := sender];
        LockResources(t);
        vote := YES;
        o := Done;
      }
      node.outbox := node.outbox + [Send(sender, VoteResponse(t, vote))];
    }

    /** `onDecisionResponse`: apply the decision through `fixDecision`. */
    method OnDecisionResponse(t: Transaction, d: Decision) returns (o: Outcome)
      requires Valid()
      requires d == COMMIT && !node.HasDecided(t) && t in workspaces ==> SnapshotsCurrent(database, workspaces[t])
      modifies this`database, this`workspaces, this`pendingResource, this`transaction2coordinator,
               node`transaction2decision
      ensures Valid()
      ensures old(node.HasDecided(t)) ==>
        && o == Done
        && node.transaction2decision == old(node.transaction2decision)
        && database == old(database) && workspaces == old(workspaces)
        && pendingResource == old(pendingResource) && transaction2coordinator == old(transaction2coordinator)
      ensures !old(node.HasDecided(t)) ==> node.transaction2decision == old(node.transaction2decision)[t := d]
      ensures !old(node.HasDecided(t)) && t in old(workspaces) ==>
        && o == Done
        && database == (if d == COMMIT then Committed(old(database), old(workspaces)[t]) else old(database))
        && workspaces == old(workspaces) - {t}
        && transaction2coordinator == old(transaction2coordinator) - {t}
        && pendingResource == old(pendingResource) - old(workspaces)[t].Keys
      ensures !old(node.HasDecided(t)) && t !in old(workspaces) ==>
        && o == Threw(NullPointer)
        && database == old(database) && workspaces == old(workspaces)
        && pendingResource == old(pendingResource) && transaction2coordinator == old(transaction2coordinator)
    {
      o := FixDecision(t, d);
    }

    /** `processWorkspace`: on first touch of `key` by `t`, copy the live
        resource into the workspace unchanged; later touches find that entry.
        A key this server does not own has no live resource to copy, and the
        Java code throws after creating the (empty) workspace. */
    method ProcessWorkspace(t: Transaction, key: int) returns (e: Option<WorkspaceEntry>)
      requires Valid()
      modifies this`workspaces
      ensures Valid()
      ensures t in workspaces
      ensures var prior := if t in old(workspaces) then old(workspaces)[t] else map[];
        if key in prior then
          workspaces == old(workspaces)[t := prior] && e == Some(prior[key])
        else if key in database then
          && workspaces == old(workspaces)[t := prior[key := WorkspaceEntry(database[key], false)]]
          && e == Some(WorkspaceEntry(database[key], false))
        else
          workspaces == old(workspaces)[t := prior] && e == None
    {
      if t !in workspaces {
        workspaces := workspaces[t := map[]];
      }
      var ws := workspaces[t];
      if key !in ws {
        if key !in database {
          return None;
        }
        workspaces := workspaces[t := ws[key := WorkspaceEntry(database[key], false)]];
      }
      e := Some(workspaces[t][key]);
    }

    /** `onTransactionRead`: answer with the workspace's value of `key`. */
    method OnTransactionRead(sender: ActorRef, t: Transaction, key: int) returns (o: Outcome)
      requires Valid()
      modifies this`workspaces, node`outbox
      ensures Valid()
      ensures database == old(database)
      ensures var prior := if t in old(workspaces) then old(workspaces)[t] else map[];
        && (o == Done <==> key in prior || key in database)
        && (key in prior ==> workspaces == old(workspaces)[t := prior])
        && (key !in prior && key in database ==>
              workspaces == old(workspaces)[t := prior[key := WorkspaceEntry(database[key], false)]])
        && (o == Done ==>
              var seen := if key in prior then prior[key].resource.value else database[key].value;
              node.outbox == old(node.outbox) + [Send(sender, TxnReadResponseMsg(t, key, seen))])
        && (o != Done ==> o == Threw(NullPointer) && node.outbox == old(node.outbox) && workspaces == old(workspaces)[t := prior])
    {
      var e := ProcessWorkspace(t, key);
      if e.None? {
        return Threw(NullPointer);
      }
      node.outbox := node.outbox + [Send(sender, TxnReadResponseMsg(t, key, e.value.resource.value))];
      o := Done;
    }

    /** `onTransactionWrite`: set the workspace value of `key` and mark it
        changed; the version stays the one seen at first touch. */
    method OnTransactionWrite(t: Transaction, key: int, value: int) returns (o: Outcome)
      requires Valid()
      modifies this`workspaces
      ensures Valid()
      ensures database == old(database)
      ensures var prior := if t in old(workspaces) then old(workspaces)[t] else map[];
        && (o == Done <==> key in prior || key in database)
        && (o == Done ==>
              var version := if key in prior then prior[key].resource.version else database[key].version;
              workspaces == old(workspaces)[t := prior[key := WorkspaceEntry(Snapshot(value, version), true)]])
        && (o != Done ==> o == Threw(NullPointer) && workspaces == old(workspaces)[t := prior])
    {
      var e := ProcessWorkspace(t, key);
      if e.None? {
        return Threw(NullPointer);
      }
      ghost var prior := if t in old(workspaces) then old(workspaces)[t] else map[];
      var entry := WorkspaceEntry(e.value.resource.(value := value), true);
      assert workspaces[t][key := entry] == prior[key := entry];
      workspaces := workspaces[t := workspaces[t][key := entry]];
      assert workspaces == old(workspaces)[t := prior[key := entry]];
      o := Done;
    }

    /** The summing loop of `onCheckCorrectness`, over the owned keys (which
        are exactly the database's keys). */
    method SumOfKeys() returns (s: int)
      requires Valid()
      ensures s == ShardTotal(database, id)
    {
      s := 0;
      var i := 0;
      while i < DB_SIZE
        invariant 0 <= i <= DB_SIZE
        invariant s == RangeSum(database, FirstKey(id), i)
      {
        s := s + database[FirstKey(id) + i].value;
        i := i + 1;
      }
    }

    /** `onCheckCorrectness`: report the sum of the live values and the crash
        counts to the asker. */
    method OnCheckCorrectness(sender: ActorRef)
      requires Valid()
      modifies node`outbox
      ensures node.outbox == old(node.outbox) + [Send(sender, CheckCorrectnessResponse(ShardTotal(database, id), node.numCrashes))]
    {
      var s := SumOfKeys();
      node.outbox := node.outbox + [Send(sender, CheckCorrectnessResponse(s, node.numCrashes))];
    }

    /** The actor's receive function. In normal mode `createReceive()`
        routes every message kind a server knows to its handler; in crashed
        mode `crashed()` lets only `RecoveryMsg` and `CheckCorrectness`
        through and drops the rest. The server's recovery handler is empty,
        and none of its handlers crashes, so its mode never changes here; a
        message of a kind the server has no handler for changes nothing. */
    method Receive(sender: ActorRef, m: Msg) returns (o: Outcome)
      requires Valid()
      requires !node.crashed && m.DecisionResponse? && m.decision == COMMIT && !node.HasDecided(m.txn) && m.txn in workspaces
        ==> SnapshotsCurrent(database, workspaces[m.txn])
      modifies this`database, this`workspaces, this`pendingResource, this`transaction2coordinator,
               node`transaction2decision, node`outbox
      ensures Valid()
      ensures node.crashed == old(node.crashed)
      ensures !old(node.Handles(m)) || !ServerMessage(m) || m.RecoveryMsg? ==>
        o == Done && unchanged(this) && unchanged(node)
      ensures m.CheckCorrectness? ==>
        && o == Done && unchanged(this)
        && node.transaction2decision == old(node.transaction2decision)
        && node.outbox == old(node.outbox) + [Send(sender, CheckCorrectnessResponse(ShardTotal(database, id), node.numCrashes))]
      ensures !m.DecisionResponse? ==> database == old(database)
      ensures !old(node.crashed) && m.VoteRequest? && m.txn in old(workspaces) ==>
        var vote := if Validates(old(database), old(pendingResource), old(workspaces)[m.txn]) then YES else NO;
        o == Done && node.outbox == old(node.outbox) + [Send(sender, VoteResponse(m.txn, vote))]
      ensures !old(node.crashed) && m.DecisionRequest? ==>
        && o == Done && unchanged(this) && node.transaction2decision == old(node.transaction2decision)
        && (old(node.HasDecided(m.txn)) ==>
              node.outbox == old(node.outbox) + [Send(sender, DecisionResponse(m.txn, old(node.transaction2decision)[m.txn]))])
        && (!old(node.HasDecided(m.txn)) ==> node.outbox == old(node.outbox))
      ensures !old(node.crashed) && m.DecisionResponse? ==>
        && node.outbox == old(node.outbox)
        && (old(node.HasDecided(m.txn)) ==> o == Done && unchanged(this) && unchanged(node))
        && (!old(node.HasDecided(m.txn)) ==> node.transaction2decision == old(node.transaction2decision)[m.txn := m.decision])
        && (!old(node.HasDecided(m.txn)) && m.txn in old(workspaces) ==>
              && o == Done
              && database == (if m.decision == COMMIT then Committed(old(database), old(workspaces)[m.txn]) else old(database))
              && workspaces == old(workspaces) - {m.txn})
    {
      o := Done;
      if !node.Handles(m) {
        return;
      }
      match m
      case VoteRequest(t) => o := OnVoteRequest(sender, t);
      case DecisionRequest(t) => node.OnDecisionRequest(sender, t);
      case DecisionResponse(t, d) => o := OnDecisionResponse(t, d);
      case TransactionRead(t, key) => o := OnTransactionRead(sender, t, key);
      case TransactionWrite(t, key, value) => o := OnTransactionWrite(t, key, value);
      case CheckCorrectness => OnCheckCorrectness(sender);
      case _ =>
    }
  }
}
