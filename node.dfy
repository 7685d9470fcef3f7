/** Logic shared by coordinators and servers (it/unitn/ds1/actors/Node.java):
    crash bookkeeping and injection, the crashed-mode filter, the crash-phase
    lookups and the answer to a decision request. */
module Nodes {
  import opened Common
  import opened TransactionIds
  import opened CrashPhases
  import opened Messages

  /** `m` with `n` more crashes counted for phase `p`. */
  function AddCount(m: CrashPhaseMap, p: CrashPhase, n: int): (r: CrashPhaseMap)
    ensures r.Keys == m.Keys + {p}
    ensures Count(r, p) == Count(m, p) + n
    ensures forall q :: q != p ==> Count(r, q) == Count(m, q)
  {
    m[p := Count(m, p) + n]
  }

  /** The count for `p` summed over `maps`, a missing entry counting 0. */
  function Total(maps: seq<CrashPhaseMap>, p: CrashPhase): int
  {
    if maps == [] then 0 else Total(maps[..|maps| - 1], p) + Count(maps[|maps| - 1], p)
  }

  /** `CrashPhaseMap.sumMaps`: the phase-wise sum of a collection of maps. */
  method SumMaps(maps: seq<CrashPhaseMap>) returns (res: CrashPhaseMap)
    ensures forall p :: Count(res, p) == Total(maps, p)
    ensures forall p :: p in res <==> exists i :: 0 <= i < |maps| && p in maps[i]
    ensures maps == [] ==> res == map[]
  {
    res := map[];
    var i := 0;
    while i < |maps|
      invariant 0 <= i <= |maps|
      invariant forall p :: Count(res, p) == Total(maps[..i], p)
      invariant forall p :: p in res <==> exists j :: 0 <= j < i && p in maps[j]
    {
      var m := maps[i];
      var pending := m.Keys;
      ghost var before := res;
      while pending != {}
        invariant pending <= m.Keys
        invariant forall p :: Count(res, p) == Count(before, p) + (if p in m && p !in pending then m[p] else 0)
        invariant forall p :: p in res <==> p in before || (p in m && p !in pending)
        decreases pending
      {
        var p := Pick(pending);
        res := res[p := Count(res, p) + m[p]];
        pending := pending - {p};
      }
      assert maps[..i + 1][..i] == maps[..i];
      i := i + 1;
    }
    assert maps[..|maps|] == maps;
  }

  /** Whether a handler goes on after an injection point. */
  datatype Signal = Continue | Crashed

  /** The delay `MIN_RECOVERY_TIME + r.nextInt(MAX_RECOVERY_TIME - MIN_RECOVERY_TIME)`
      for a draw `draw` of `nextInt`. */
  function RecoveryDelay(minRecoveryTime: int, maxRecoveryTime: int, draw: int): (d: int)
    requires 0 <= draw < maxRecoveryTime - minRecoveryTime
    ensures minRecoveryTime <= d < maxRecoveryTime
  {
    minRecoveryTime + draw
  }

  /** `getZeroMsgCrashPhase`: the phase of a class that crashes before any message. */
  function ZeroMsgCrashPhase(c: PhaseClass): (r: Option<CrashPhase>)
    ensures r.None? <==> c == Unlisted
    ensures r.Some? ==> ClassOf(r.value) == c && PositionOf(r.value) == BeforeAny
  {
    match c
    case CoordinatorVoteClass => Some(CoordinatorDuringVote(ZERO_MSG))
    case CoordinatorDecisionClass => Some(CoordinatorDuringDecision(ZERO_MSG))
    case ServerVoteClass => Some(ServerDuringVote(NO_VOTE))
    case ServerTerminationClass => Some(ServerDuringTermination(NO_REPLY))
    case Unlisted => None
  }

  /** `getAllMsgCrashPhase`: the phase of a class that crashes after every message. */
  function AllMsgCrashPhase(c: PhaseClass): (r: Option<CrashPhase>)
    ensures r.None? <==> c == Unlisted
    ensures r.Some? ==> ClassOf(r.value) == c && PositionOf(r.value) == AfterAll
  {
    match c
    case CoordinatorVoteClass => Some(CoordinatorDuringVote(ALL_MSG))
    case CoordinatorDecisionClass => Some(CoordinatorDuringDecision(ALL_MSG))
    case ServerVoteClass => Some(ServerDuringVote(AFTER_VOTE))
    case ServerTerminationClass => Some(ServerDuringTermination(ALL_REPLY))
    case Unlisted => None
  }

  /** `getRndMsgCrashPhase`: the phase of a class that crashes after a random
      prefix of the messages; a server's vote, a single message, has none. */
  function RndMsgCrashPhase(c: PhaseClass): (r: Option<CrashPhase>)
    ensures r.None? <==> c == ServerVoteClass || c == Unlisted
    ensures r.Some? ==> ClassOf(r.value) == c && PositionOf(r.value) == AfterRandomPrefix
  {
    match c
    case CoordinatorVoteClass => Some(CoordinatorDuringVote(RND_MSG))
    case CoordinatorDecisionClass => Some(CoordinatorDuringDecision(RND_MSG))
    case ServerTerminationClass => Some(ServerDuringTermination(RND_REPLY))
    case ServerVoteClass => None
    case Unlisted => None
  }

  /** The state a coordinator and a server share. */
  class Node {
    const id: int
    /** Phases this node was told it may crash in. */
    const crashPhases: set<CrashPhase>
    const minRecoveryTime: int
    const maxRecoveryTime: int
    var numCrashes: CrashPhaseMap
    /** The handler in force is `crashed()` rather than `createReceive()`. */
    var crashed: bool
    var transaction2decision: map<Transaction, Decision>
    /** Messages sent so far, oldest first. */
    var outbox: seq<Envelope>

    constructor (id: int, crashPhases: set<CrashPhase>, minRecoveryTime: int, maxRecoveryTime: int)
      ensures this.id == id && this.crashPhases == crashPhases
      ensures this.minRecoveryTime == minRecoveryTime && this.maxRecoveryTime == maxRecoveryTime
      ensures numCrashes == map[] && !crashed && transaction2decision == map[] && outbox == []
    {
      this.id := id;
      this.crashPhases := crashPhases;
      this.minRecoveryTime := minRecoveryTime;
      this.maxRecoveryTime := maxRecoveryTime;
      numCrashes := map[];
      crashed := false;
      transaction2decision := map[];
      outbox := [];
    }

    predicate HasDecided(t: Transaction)
      reads this
    {
      t in transaction2decision
    }

    /** The crashed-mode filter: while crashed only `RecoveryMsg` and
        `CheckCorrectness` reach a handler, everything else is dropped. */
    predicate Handles(m: Msg)
      reads this
    {
      !crashed || m.RecoveryMsg? || m.CheckCorrectness?
    }

    /** `crash`: switch to crashed mode, count the crash, schedule the recovery
        message, and end the current handler. */
    method Crash(recoverIn: int, phase: CrashPhase) returns (s: Signal)
      modifies this`crashed, this`numCrashes, this`outbox
      ensures s == Crashed && crashed
      ensures numCrashes == AddCount(old(numCrashes), phase, 1)
      ensures outbox == old(outbox) + [Schedule(recoverIn, RecoveryMsg)]
    {
      crashed := true;
      numCrashes := AddCount(numCrashes, phase, 1);
      outbox := outbox + [Schedule(recoverIn, RecoveryMsg)];
      s := Crashed;
    }

    /** `maybeCrash`: crash if `phase` is enabled and the probability draw
        (`belowProbability`, i.e. `r.nextDouble() < crash_prob`) says so;
        `recoveryDraw` is the `nextInt` draw for the recovery delay. */
    method MaybeCrash(phase: CrashPhase, belowProbability: bool, recoveryDraw: int) returns (s: Signal)
      requires phase in crashPhases && belowProbability ==> 0 <= recoveryDraw < maxRecoveryTime - minRecoveryTime
      modifies this`crashed, this`numCrashes, this`outbox
      ensures s == Crashed <==> phase in crashPhases && belowProbability
      ensures s == Continue ==> crashed == old(crashed) && numCrashes == old(numCrashes) && outbox == old(outbox)
      ensures s == Crashed ==> crashed && numCrashes == AddCount(old(numCrashes), phase, 1)
      ensures s == Crashed ==> outbox == old(outbox) + [Schedule(RecoveryDelay(minRecoveryTime, maxRecoveryTime, recoveryDraw), RecoveryMsg)]
    {
      if phase in crashPhases && belowProbability {
        s := Crash(RecoveryDelay(minRecoveryTime, maxRecoveryTime, recoveryDraw), phase);
      } else {
        s := Continue;
      }
    }

    /** `onDecisionRequest`: reply with the decision if one is recorded,
        otherwise send nothing. */
    method OnDecisionRequest(sender: ActorRef, t: Transaction)
      modifies this`outbox
      ensures HasDecided(t) ==> outbox == old(outbox) + [Send(sender, DecisionResponse(t, transaction2decision[t]))]
      ensures !HasDecided(t) ==> outbox == old(outbox)
    {
      if HasDecided(t) {
        outbox := outbox + [Send(sender, DecisionResponse(t, transaction2decision[t]))];
      }
    }
  }
}
