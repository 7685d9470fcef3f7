/** The role-agnostic transaction record of it/unitn/ds1/transactions/Transaction.java:
    an id pair, a lifecycle state, and two variants, one whose state can be
    set and one whose state is fixed at construction. */
module Transactions {
  import opened Common
  import opened TransactionIds

  datatype State = INIT | READY | DECIDED

  /** How the base class's `equals` ends: it returns, or its unchecked cast
      `(Transaction) o` throws on an object of another class. */
  datatype EqualsResult = Returns(equal: bool) | ClassCastException

  /** The base class's `equals`. It looks only at the id pair: a variant's
      class and state never enter into it. */
  function BaseEquals(self: Transaction, o: Object): (r: EqualsResult)
    ensures r.ClassCastException? <==> o.OtherClass?
    ensures r == Returns(true) <==> o.Txn? && o.txn.clientId == self.clientId && o.txn.numAttemptedTxn == self.numAttemptedTxn
    ensures o.Null? ==> r == Returns(false)
  {
    match o
    case Null => Returns(false)
    case OtherClass => ClassCastException
    case Txn(that) => Returns(that == self)
  }

  /** Whenever the base `equals` answers true, the two hash codes agree
      (the base `hashCode` is the id pair's, as in `TransactionIds.HashCode`). */
  lemma BaseEqualsAgreesWithHashCode(self: Transaction, o: Object)
    requires BaseEquals(self, o) == Returns(true)
    ensures o.Txn? && HashCode(o.txn) == HashCode(self)
  {
  }

  /** `ModifiableTransaction`. Java gives the base class a private `state`
      field and this subclass a second, shadowing `state`; only the second is
      ever assigned. */
  class ModifiableTransaction {
    const txnId: Transaction
    /** The base class's `state`: no code assigns it, so it stays `null`. */
    const baseState: Option<State> := None
    /** The subclass's own `state`. */
    var state: State

    constructor (clientId: int, numAttemptedTxn: int)
      ensures txnId.clientId == clientId && txnId.numAttemptedTxn == numAttemptedTxn
      ensures state == INIT
    {
      txnId := Transaction(clientId, numAttemptedTxn);
      state := INIT;
    }

    /** `setState` writes the subclass's field. */
    method SetState(s: State)
      modifies this
      ensures state == s
      ensures CurrentState() == s
    {
      state := s;
    }

    /** `getState` as written: it is declared in the base class and reads the
        base class's field, so it returns `null` whatever `setState` did. */
    function GetState(): (s: Option<State>)
      ensures s == None
    {
      baseState
    }

    /** The state `getState` is evidently meant to return. */
    function CurrentState(): (s: State)
      reads this
      ensures s == state
    {
      state
    }
  }

  /** `UnmodifiableTransaction`: a frozen copy of a transaction. Its
      constructor copies `t.state` through the base-class type, so it copies
      the base field, which is `null`. */
  class UnmodifiableTransaction {
    const txnId: Transaction
    const baseState: Option<State> := None
    const state: Option<State>

    constructor (t: ModifiableTransaction)
      ensures txnId == t.txnId
      ensures state == t.baseState == None
      ensures BaseEquals(txnId, Txn(t.txnId)) == Returns(true)
      ensures BaseEquals(t.txnId, Txn(txnId)) == Returns(true)
    {
      txnId := t.txnId;
      state := t.baseState;
    }
  }

  /** A transaction created, then moved to `s`, reports `s` through the
      corrected getter and `null` through the getter as written. */
  method SetStateThenRead(clientId: int, numAttemptedTxn: int, s: State)
    returns (t: ModifiableTransaction)
    ensures fresh(t)
    ensures t.CurrentState() == s && t.GetState() == None
    ensures t.txnId == Transaction(clientId, numAttemptedTxn)
  {
    t := new ModifiableTransaction(clientId, numAttemptedTxn);
    assert t.CurrentState() == INIT;
    t.SetState(s);
  }
}
