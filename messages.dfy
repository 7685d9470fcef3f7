/** The crash-injection points the nodes know of and the messages the actors
    exchange (payload records only). */
module CrashPhases {

  /** Where in a fan-out send a coordinator may crash: before any message,
      after all of them, or after a random prefix. */
  datatype FanOut = ZERO_MSG | ALL_MSG | RND_MSG

  /** Where in its vote a server may crash. */
  datatype VotePoint = NO_VOTE | AFTER_VOTE

  /** Where in its replies to a termination request a server may crash. */
  datatype ReplyPoint = NO_REPLY | ALL_REPLY | RND_REPLY

  /** A crash phase, tagged with the enum class it belongs to. */
  datatype CrashPhase =
    | CoordinatorDuringVote(fanOut: FanOut)
    | CoordinatorDuringDecision(fanOut: FanOut)
    | ServerDuringVote(point: VotePoint)
    | ServerDuringTermination(reply: ReplyPoint)

  /** The crash-phase classes the phase lookups are asked about; `Unlisted`
      stands for any other class. */
  datatype PhaseClass =
    | CoordinatorVoteClass
    | CoordinatorDecisionClass
    | ServerVoteClass
    | ServerTerminationClass
    | Unlisted

  function ClassOf(p: CrashPhase): PhaseClass
  {
    match p
    case CoordinatorDuringVote(_) => CoordinatorVoteClass
    case CoordinatorDuringDecision(_) => CoordinatorDecisionClass
    case ServerDuringVote(_) => ServerVoteClass
    case ServerDuringTermination(_) => ServerTerminationClass
  }

  /** The part of a multicast a phase stops before. */
  datatype Position = BeforeAny | AfterAll | AfterRandomPrefix

  function PositionOf(p: CrashPhase): Position
  {
    match p
    case CoordinatorDuringVote(f) => FanOutPosition(f)
    case CoordinatorDuringDecision(f) => FanOutPosition(f)
    case ServerDuringVote(v) => if v == NO_VOTE then BeforeAny else AfterAll
    case ServerDuringTermination(r) =>
      match r
      case NO_REPLY => BeforeAny
      case ALL_REPLY => AfterAll
      case RND_REPLY => AfterRandomPrefix
  }

  function FanOutPosition(f: FanOut): Position
  {
    match f
    case ZERO_MSG => BeforeAny
    case ALL_MSG => AfterAll
    case RND_MSG => AfterRandomPrefix
  }

  /** `CrashPhaseMap`: number of crashes per phase; a missing phase counts 0. */
  type CrashPhaseMap = map<CrashPhase, int>

  /** `getOrDefault(phase, 0)`. */
  function Count(m: CrashPhaseMap, p: CrashPhase): int
  {
    if p in m then m[p] else 0
  }
}

module Messages {
  import opened TransactionIds
  import opened CrashPhases

  /** Actor addresses. */
  datatype ActorRef = ClientRef(clientId: int) | CoordinatorRef(coordinatorId: int) | ServerRef(serverId: int) | CheckerRef

  datatype Vote = NO | YES
  datatype Decision = ABORT | COMMIT

  datatype Msg =
    // client <-> coordinator
    | TxnBeginMsg(clientId: int, numAttemptedTxn: int)
    | TxnAcceptMsg
    | ReadMsg(clientId: int, key: int)
    | WriteMsg(clientId: int, key: int, value: int)
    | TxnEndMsg(clientId: int, commit: bool)
    | ReadResultMsg(key: int, value: int)
    | TxnResultMsg(commit: bool, numAttemptedTxn: int)
    // coordinator <-> server
    | VoteRequest(txn: Transaction)
    | VoteResponse(txn: Transaction, vote: Vote)
    | DecisionRequest(txn: Transaction)
    | DecisionResponse(txn: Transaction, decision: Decision)
    | TransactionRead(txn: Transaction, key: int)
    | TransactionWrite(txn: Transaction, key: int, value: int)
    | TxnReadResponseMsg(txn: Transaction, key: int, valueRead: int)
    // node-internal and audit
    | RecoveryMsg
    | CheckCorrectness
    | CheckCorrectnessResponse(sumOfKeys: int, numCrashes: CrashPhaseMap)

  /** One outgoing send: to one actor, to every actor of a set (the order of a
      Java `HashSet` is unspecified), or a message to self after a delay. */
  datatype Envelope =
    | Send(to: ActorRef, msg: Msg)
    | Multicast(group: set<ActorRef>, msg: Msg)
    | Schedule(delay: int, msg: Msg)
}
