/** A client (it/unitn/ds1/actors/Client.java): runs an endless series of
    transactions, each a number of operations that read two distinct keys
    and, half of the time, move an amount from the first to the second. */
module Clients {
  import opened Common
  import opened Messages

  const MIN_TXN_LENGTH: int := 20
  const MAX_TXN_LENGTH: int := 40
  const RAND_LENGTH_RANGE: int := MAX_TXN_LENGTH - MIN_TXN_LENGTH + 1

  /** Operations in a transaction: `MIN_TXN_LENGTH` plus the extra draw
      `r.nextInt(RAND_LENGTH_RANGE)`. */
  function TxnLength(extraDraw: int): (n: int)
    requires 0 <= extraDraw < RAND_LENGTH_RANGE
    ensures MIN_TXN_LENGTH <= n <= MAX_TXN_LENGTH
    ensures n - MIN_TXN_LENGTH == extraDraw
  {
    MIN_TXN_LENGTH + extraDraw
  }

  /** `x % n` for `n <= x < 2n` (both operands non-negative, so Java's and
      Dafny's `%` agree). */
  lemma ModOnce(x: int, n: int)
    requires 0 < n <= x < 2 * n
    ensures x % n == x - n
  {
  }

  /** The second key of `readTwo`: the first key moved on by
      `1 + offsetDraw` places, wrapping around the `maxKey + 1` keys. */
  function SecondKey(maxKey: int, firstKey: int, offsetDraw: int): (k: int)
    requires maxKey >= 2 && 0 <= firstKey <= maxKey && 0 <= offsetDraw < maxKey - 1
    ensures 0 <= k <= maxKey
    ensures k != firstKey
  {
    var x := firstKey + 1 + offsetDraw;
    if x >= maxKey + 1 then ModOnce(x, maxKey + 1); x % (maxKey + 1)
    else x % (maxKey + 1)
  }

  /** The amount `writeTwo` moves: `1 + r.nextInt(firstValue)` when there is
      something to take, else 0. */
  function AmountTaken(firstValue: int, draw: int): (a: int)
    requires firstValue >= 1 ==> 0 <= draw < firstValue
    ensures firstValue >= 1 ==> 1 <= a <= firstValue
    ensures firstValue < 1 ==> a == 0
  {
    if firstValue >= 1 then 1 + draw else 0
  }

  /** The two values `writeTwo` writes back. */
  function Transfer(firstValue: int, secondValue: int, draw: int): (w: (int, int))
    requires firstValue >= 1 ==> 0 <= draw < firstValue
  {
    var amount := AmountTaken(firstValue, draw);
    (firstValue - amount, secondValue + amount)
  }

  /** A transfer conserves the sum of the two values, never takes more than
      the first holds, and never makes a non-negative first value negative. */
  lemma TransferConservesSum(firstValue: int, secondValue: int, draw: int)
    requires firstValue >= 1 ==> 0 <= draw < firstValue
    ensures Transfer(firstValue, secondValue, draw).0 + Transfer(firstValue, secondValue, draw).1
            == firstValue + secondValue
    ensures firstValue >= 0 ==> 0 <= Transfer(firstValue, secondValue, draw).0 <= firstValue
    ensures firstValue >= 1 ==> Transfer(firstValue, secondValue, draw).1 > secondValue
  {
  }

  /** `msg.numAttemptedTxn == numAttemptedTxn` as written: both sides are
      `Integer` objects boxed separately, so `==` compares references and is
      true only for equal numbers inside the `Integer` cache. */
  predicate AttemptMatchesAsWritten(msgAttempt: int, currentAttempt: int)
  {
    BoxedIdentical(msgAttempt, currentAttempt)
  }

  /** From the 128th attempt on, the result of the current attempt is never
      recognised. */
  lemma AttemptMatchAsWrittenFailsFrom128(attempt: int)
    requires attempt > INTEGER_CACHE_HIGH
    ensures !AttemptMatchesAsWritten(attempt, attempt)
  {
  }

  class Client {
    const clientId: int
    var coordinators: seq<ActorRef>
    var maxKey: int
    var numAttemptedTxn: int
    var numCommittedTxn: int
    var acceptedTxn: bool
    var currentCoordinator: Option<ActorRef>
    var firstKey: Option<int>
    var secondKey: Option<int>
    var firstValue: Option<int>
    var secondValue: Option<int>
    var numOpTotal: int
    var numOpDone: int
    /** Messages sent so far, oldest first. */
    var outbox: seq<Envelope>

    /** Commits never outnumber attempts, and a value is only held for a key
        that was asked for. */
    ghost predicate Valid()
      reads this
    {
      0 <= numCommittedTxn <= numAttemptedTxn && ValuesHaveKeys()
    }

    ghost predicate ValuesHaveKeys()
      reads this
    {
      && (firstValue.Some? ==> firstKey.Some?)
      && (secondValue.Some? ==> secondKey.Some?)
    }

    /** A transaction has been begun with a coordinator. */
    predicate Started()
      reads this
    {
      numAttemptedTxn >= 1 && currentCoordinator.Some?
    }

    constructor (clientId: int)
      ensures Valid()
      ensures this.clientId == clientId && numAttemptedTxn == 0 && numCommittedTxn == 0
      ensures coordinators == [] && currentCoordinator == None && outbox == []
      ensures firstKey == None && secondKey == None && firstValue == None && secondValue == None
    {
      this.clientId := clientId;
      numAttemptedTxn := 0;
      numCommittedTxn := 0;
      coordinators := [];
      maxKey := 0;
      acceptedTxn := false;
      currentCoordinator := None;
      firstKey := None;
      secondKey := None;
      firstValue := None;
      secondValue := None;
      numOpTotal := 0;
      numOpDone := 0;
      outbox := [];
    }

    /** The state `beginTxn` leaves: one more attempt, not accepted, a
        coordinator picked by `coordDraw` and told about the attempt, and a
        fresh operation budget. */
    twostate predicate BeganTxn(coordDraw: int, extraDraw: int)
      reads this
    {
      && numAttemptedTxn == old(numAttemptedTxn) + 1
      && !acceptedTxn
      && coordinators == old(coordinators) && maxKey == old(maxKey)
      && numCommittedTxn == old(numCommittedTxn)
      && firstKey == old(firstKey) && secondKey == old(secondKey)
      && firstValue == old(firstValue) && secondValue == old(secondValue)
      && (0 <= coordDraw < |coordinators| && 0 <= extraDraw < RAND_LENGTH_RANGE ==>
            && currentCoordinator == Some(coordinators[coordDraw])
            && outbox == old(outbox) + [Send(coordinators[coordDraw], TxnBeginMsg(clientId, numAttemptedTxn))]
            && numOpTotal == TxnLength(extraDraw)
            && numOpDone == 0)
      && (coordinators == [] ==>
            currentCoordinator == old(currentCoordinator) && outbox == old(outbox)
            && numOpTotal == old(numOpTotal) && numOpDone == old(numOpDone))
    }

    /** `beginTxn`. With no coordinator to pick from, `nextInt(0)` throws
        after the attempt was counted. */
    method BeginTxn(coordDraw: int, extraDraw: int) returns (o: Outcome)
      requires 0 <= numAttemptedTxn && 0 <= numCommittedTxn <= numAttemptedTxn + 1 && ValuesHaveKeys()
      requires coordinators != [] ==> 0 <= coordDraw < |coordinators|
      requires 0 <= extraDraw < RAND_LENGTH_RANGE
      modifies this
      ensures Valid() && BeganTxn(coordDraw, extraDraw) && coordinators == old(coordinators)
      ensures o == Done <==> coordinators != []
      ensures o != Done ==> o == Threw(IllegalArgument)
      ensures o == Done ==> Started()
    {
      acceptedTxn := false;
      numAttemptedTxn := numAttemptedTxn + 1;
      if coordinators == [] {
        return Threw(IllegalArgument);
      }
      currentCoordinator := Some(coordinators[coordDraw]);
      outbox := outbox + [Send(coordinators[coordDraw], TxnBeginMsg(clientId, numAttemptedTxn))];
      numOpTotal := TxnLength(extraDraw);
      numOpDone := 0;
      o := Done;
    }

    /** `endTxn`: ask the coordinator to end the transaction. The commit
        draw is `r.nextDouble() < 1`, which always holds. */
    method EndTxn()
      requires Valid() && Started()
      modifies this`outbox, this`firstValue, this`secondValue
      ensures Valid()
      ensures outbox == old(outbox) + [Send(currentCoordinator.value, TxnEndMsg(clientId, true))]
      ensures firstValue == None && secondValue == None
    {
      outbox := outbox + [Send(currentCoordinator.value, TxnEndMsg(clientId, true))];
      firstValue := None;
      secondValue := None;
    }

    /** `readTwo`: pick two distinct keys and ask for both, forgetting the
        values read before. `nextInt` rejects a bound that is not positive,
        so fewer than three keys make it throw. */
    method ReadTwo(firstDraw: int, offsetDraw: int) returns (o: Outcome)
      requires Valid() && Started()
      requires maxKey >= 0 ==> 0 <= firstDraw <= maxKey
      requires maxKey >= 2 ==> 0 <= offsetDraw < maxKey - 1
      modifies this`firstKey, this`secondKey, this`firstValue, this`secondValue, this`outbox
      ensures Valid()
      ensures o == Done <==> maxKey >= 2
      ensures o != Done ==>
        && o == Threw(IllegalArgument) && outbox == old(outbox) && secondKey == old(secondKey)
        && firstValue == old(firstValue) && secondValue == old(secondValue)
      ensures o != Done && maxKey < 0 ==> firstKey == old(firstKey)
      ensures o != Done && maxKey >= 0 ==> firstKey == Some(firstDraw)
      ensures o == Done ==>
        && firstKey == Some(firstDraw)
        && secondKey == Some(SecondKey(maxKey, firstDraw, offsetDraw))
        && firstValue == None && secondValue == None
        && outbox == old(outbox) + [Send(currentCoordinator.value, ReadMsg(clientId, firstDraw)),
                                    Send(currentCoordinator.value, ReadMsg(clientId, SecondKey(maxKey, firstDraw, offsetDraw)))]
    {
      if maxKey < 0 {
        return Threw(IllegalArgument);
      }
      firstKey := Some(firstDraw);
      if maxKey < 2 {
        return Threw(IllegalArgument);
      }
      var second := SecondKey(maxKey, firstDraw, offsetDraw);
      secondKey := Some(second);
      outbox := outbox + [Send(currentCoordinator.value, ReadMsg(clientId, firstDraw)),
                          Send(currentCoordinator.value, ReadMsg(clientId, second))];
      firstValue := None;
      secondValue := None;
      o := Done;
    }

    /** `writeTwo`: write the transferred values back to the two keys. */
    method WriteTwo(amountDraw: int)
      requires Valid() && Started() && firstValue.Some? && secondValue.Some?
      requires firstValue.value >= 1 ==> 0 <= amountDraw < firstValue.value
      modifies this`outbox
      ensures var w := Transfer(firstValue.value, secondValue.value, amountDraw);
        outbox == old(outbox) + [Send(currentCoordinator.value, WriteMsg(clientId, firstKey.value, w.0)),
                                 Send(currentCoordinator.value, WriteMsg(clientId, secondKey.value, w.1))]
    {
      var w := Transfer(firstValue.value, secondValue.value, amountDraw);
      outbox := outbox + [Send(currentCoordinator.value, WriteMsg(clientId, firstKey.value, w.0)),
                          Send(currentCoordinator.value, WriteMsg(clientId, secondKey.value, w.1))];
    }

    /** `onWelcomeMsg`: learn the coordinators and the key range, then begin. */
    method OnWelcomeMsg(group: seq<ActorRef>, maxKey: int, coordDraw: int, extraDraw: int) returns (o: Outcome)
      requires Valid()
      requires group != [] ==> 0 <= coordDraw < |group|
      requires 0 <= extraDraw < RAND_LENGTH_RANGE
      modifies this
      ensures Valid()
      ensures coordinators == group && this.maxKey == maxKey
      ensures numAttemptedTxn == old(numAttemptedTxn) + 1 && !acceptedTxn
      ensures o == Done <==> group != []
      ensures o == Done ==>
        && currentCoordinator == Some(group[coordDraw])
        && outbox == old(outbox) + [Send(group[coordDraw], TxnBeginMsg(clientId, numAttemptedTxn))]
        && numOpTotal == TxnLength(extraDraw) && numOpDone == 0
    {
      coordinators := group;
      this.maxKey := maxKey;
      o := BeginTxn(coordDraw, extraDraw);
    }

    /** `onTxnAcceptMsg`: the coordinator accepted; start the first operation. */
    method OnTxnAcceptMsg(firstDraw: int, offsetDraw: int) returns (o: Outcome)
      requires Valid() && Started()
      requires maxKey >= 0 ==> 0 <= firstDraw <= maxKey
      requires maxKey >= 2 ==> 0 <= offsetDraw < maxKey - 1
      modifies this`acceptedTxn, this`firstKey, this`secondKey, this`firstValue, this`secondValue, this`outbox
      ensures Valid() && acceptedTxn
      ensures o == Done <==> maxKey >= 2
      ensures o == Done ==>
        && firstKey == Some(firstDraw)
        && secondKey == Some(SecondKey(maxKey, firstDraw, offsetDraw))
        && firstValue == None && secondValue == None
        && outbox == old(outbox) + [Send(currentCoordinator.value, ReadMsg(clientId, firstDraw)),
                                    Send(currentCoordinator.value, ReadMsg(clientId, SecondKey(maxKey, firstDraw, offsetDraw)))]
    {
      acceptedTxn := true;
      o := ReadTwo(firstDraw, offsetDraw);
    }

    /** The rest of `onReadResultMsg`, once the reply is stored: count the
        operation if both values are in, write when the draw says so, then
        end the transaction or read the next two keys. */
    method FinishOperation(doWrite: bool, amountDraw: int, firstDraw: int, offsetDraw: int) returns (o: Outcome)
      requires Valid() && Started()
      requires firstValue.Some? && firstValue.value >= 1 ==> 0 <= amountDraw < firstValue.value
      requires maxKey >= 0 ==> 0 <= firstDraw <= maxKey
      requires maxKey >= 2 ==> 0 <= offsetDraw < maxKey - 1
      modifies this`firstKey, this`secondKey, this`firstValue, this`secondValue, this`outbox, this`numOpDone
      ensures Valid()
      ensures var fv := old(firstValue);
        var sv := old(secondValue);
        var opDone := fv.Some? && sv.Some?;
        var writes := if opDone && doWrite then
          var w := Transfer(fv.value, sv.value, amountDraw);
          [Send(currentCoordinator.value, WriteMsg(clientId, old(firstKey).value, w.0)),
           Send(currentCoordinator.value, WriteMsg(clientId, old(secondKey).value, w.1))]
        else [];
        && numOpDone == (if opDone then old(numOpDone) + 1 else old(numOpDone))
        && (numOpDone >= numOpTotal ==>
              && o == Done && firstValue == None && secondValue == None
              && firstKey == old(firstKey) && secondKey == old(secondKey)
              && outbox == old(outbox) + writes + [Send(currentCoordinator.value, TxnEndMsg(clientId, true))])
        && (!opDone && numOpDone < numOpTotal ==>
              && o == Done && firstValue == fv && secondValue == sv && outbox == old(outbox)
              && firstKey == old(firstKey) && secondKey == old(secondKey))
        && (opDone && numOpDone < numOpTotal ==>
              && (o == Done <==> maxKey >= 2)
              && (o == Done ==>
                   && firstKey == Some(firstDraw)
                   && secondKey == Some(SecondKey(maxKey, firstDraw, offsetDraw))
                   && firstValue == None && secondValue == None
                   && outbox == old(outbox) + writes +
                        [Send(currentCoordinator.value, ReadMsg(clientId, firstDraw)),
                         Send(currentCoordinator.value, ReadMsg(clientId, SecondKey(maxKey, firstDraw, offsetDraw)))])
              && (o != Done ==>
                   && o == Threw(IllegalArgument)
                   && firstKey == (if maxKey < 0 then old(firstKey) else Some(firstDraw))
                   && secondKey == old(secondKey)
                   && firstValue == fv && secondValue == sv
                   && outbox == old(outbox) + writes))
    {
      var opDone := firstValue.Some? && secondValue.Some?;
      ghost var writes: seq<Envelope> := [];
      if doWrite && opDone {
        ghost var w := Transfer(firstValue.value, secondValue.value, amountDraw);
        writes := [Send(currentCoordinator.value, WriteMsg(clientId, firstKey.value, w.0)),
                   Send(currentCoordinator.value, WriteMsg(clientId, secondKey.value, w.1))];
        WriteTwo(amountDraw);
      }
      assert outbox == old(outbox) + writes;
      if opDone {
        numOpDone := numOpDone + 1;
      }
      o := Done;
      if numOpDone >= numOpTotal {
        EndTxn();
      } else if opDone {
        o := ReadTwo(firstDraw, offsetDraw);
      }
    }

    /** `onReadResultMsg`: store the value under whichever of the two keys it
        answers. Once both values are in, the operation counts as done, is
        followed by a write when `doWrite` (the write draw) says so, and then
        either the transaction ends or the next operation starts. */
    method OnReadResultMsg(key: int, value: int, doWrite: bool, amountDraw: int, firstDraw: int, offsetDraw: int)
      returns (o: Outcome)
      requires Valid() && Started()
      requires var fv := if firstKey == Some(key) then Some(value) else firstValue;
        fv.Some? && fv.value >= 1 ==> 0 <= amountDraw < fv.value
      requires maxKey >= 0 ==> 0 <= firstDraw <= maxKey
      requires maxKey >= 2 ==> 0 <= offsetDraw < maxKey - 1
      modifies this`firstKey, this`secondKey, this`firstValue, this`secondValue, this`outbox, this`numOpDone
      ensures Valid()
      ensures var fv := if old(firstKey) == Some(key) then Some(value) else old(firstValue);
        var sv := if old(secondKey) == Some(key) then Some(value) else old(secondValue);
        var opDone := fv.Some? && sv.Some?;
        var writes := if opDone && doWrite then
          var w := Transfer(fv.value, sv.value, amountDraw);
          [Send(currentCoordinator.value, WriteMsg(clientId, old(firstKey).value, w.0)),
           Send(currentCoordinator.value, WriteMsg(clientId, old(secondKey).value, w.1))]
        else [];
        && numOpDone == (if opDone then old(numOpDone) + 1 else old(numOpDone))
        && (numOpDone >= numOpTotal ==>
              && o == Done && firstValue == None && secondValue == None
              && firstKey == old(firstKey) && secondKey == old(secondKey)
              && outbox == old(outbox) + writes + [Send(currentCoordinator.value, TxnEndMsg(clientId, true))])
        && (!opDone && numOpDone < numOpTotal ==>
              && o == Done && firstValue == fv && secondValue == sv && outbox == old(outbox)
              && firstKey == old(firstKey) && secondKey == old(secondKey))
        && (opDone && numOpDone < numOpTotal ==>
              && (o == Done <==> maxKey >= 2)
              && (o == Done ==>
                   && firstKey == Some(firstDraw)
                   && secondKey == Some(SecondKey(maxKey, firstDraw, offsetDraw))
                   && firstValue == None && secondValue == None
                   && outbox == old(outbox) + writes +
                        [Send(currentCoordinator.value, ReadMsg(clientId, firstDraw)),
                         Send(currentCoordinator.value, ReadMsg(clientId, SecondKey(maxKey, firstDraw, offsetDraw)))])
              && (o != Done ==>
                   && o == Threw(IllegalArgument)
                   && firstKey == (if maxKey < 0 then old(firstKey) else Some(firstDraw))
                   && secondKey == old(secondKey)
                   && firstValue == fv && secondValue == sv
                   && outbox == old(outbox) + writes))
    {
      firstValue := if firstKey == Some(key) then Some(value) else firstValue;
      secondValue := if secondKey == Some(key) then Some(value) else secondValue;
      o := FinishOperation(doWrite, amountDraw, firstDraw, offsetDraw);
    }

    /** `onTxnResultMsg` with the attempt compared by value: the result of
        the current attempt counts a commit if there was one and begins the
        next attempt; a result for any other attempt is ignored. */
    method OnTxnResultMsg(commit: bool, msgAttempt: int, coordDraw: int, extraDraw: int) returns (o: Outcome)
      requires Valid()
      requires coordinators != [] ==> 0 <= coordDraw < |coordinators|
      requires 0 <= extraDraw < RAND_LENGTH_RANGE
      modifies this
      ensures Valid()
      ensures msgAttempt != old(numAttemptedTxn) ==>
        o == Done && numAttemptedTxn == old(numAttemptedTxn) && numCommittedTxn == old(numCommittedTxn)
        && outbox == old(outbox) && acceptedTxn == old(acceptedTxn)
      ensures coordinators == old(coordinators)
      ensures msgAttempt == old(numAttemptedTxn) ==>
        && numCommittedTxn == (if commit then old(numCommittedTxn) + 1 else old(numCommittedTxn))
        && numAttemptedTxn == old(numAttemptedTxn) + 1 && !acceptedTxn
        && (o == Done <==> coordinators != [])
        && (o == Done ==>
              && currentCoordinator == Some(coordinators[coordDraw])
              && outbox == old(outbox) + [Send(coordinators[coordDraw], TxnBeginMsg(clientId, numAttemptedTxn))])
    {
      o := Done;
      if msgAttempt == numAttemptedTxn {
        if commit {
          numCommittedTxn := numCommittedTxn + 1;
        }
        o := BeginTxn(coordDraw, extraDraw);
      }
    }

    /** `onTxnAcceptTimeoutMsg`: restart only if the coordinator never accepted. */
    method OnTxnAcceptTimeoutMsg(coordDraw: int, extraDraw: int) returns (o: Outcome)
      requires Valid()
      requires coordinators != [] ==> 0 <= coordDraw < |coordinators|
      requires 0 <= extraDraw < RAND_LENGTH_RANGE
      modifies this
      ensures Valid()
      ensures old(acceptedTxn) ==> o == Done && unchanged(this)
      ensures !old(acceptedTxn) ==> BeganTxn(coordDraw, extraDraw) && (o == Done <==> coordinators != [])
    {
      o := Done;
      if !acceptedTxn {
        o := BeginTxn(coordDraw, extraDraw);
      }
    }

    /** `onTxnOperationTimeoutMsg`: give up on the transaction and begin another. */
    method OnTxnOperationTimeoutMsg(coordDraw: int, extraDraw: int) returns (o: Outcome)
      requires Valid()
      requires coordinators != [] ==> 0 <= coordDraw < |coordinators|
      requires 0 <= extraDraw < RAND_LENGTH_RANGE
      modifies this
      ensures Valid() && BeganTxn(coordDraw, extraDraw)
      ensures o == Done <==> coordinators != []
    {
      o := BeginTxn(coordDraw, extraDraw);
    }
  }
}
