/** The transaction identity the actors use (it/unitn/ds1/Transaction.java):
    a `(clientId, numAttemptedTxn)` pair, compared and hashed by that pair. */
module TransactionIds {

  /** A transaction of client `clientId`, at its `numAttemptedTxn`-th attempt.
      The pair is set by the constructor and never changes. */
  datatype Transaction = Transaction(clientId: int, numAttemptedTxn: int)

  /** What `equals(Object o)` can be handed: `null`, a `Transaction`, or an
      object of some other class. */
  datatype Object = Null | Txn(txn: Transaction) | OtherClass

  /** `Transaction.equals`: same class and equal id pairs. */
  predicate Equals(self: Transaction, o: Object)
  {
    match o
    case Null => false
    case OtherClass => false
    case Txn(that) => that.clientId == self.clientId && that.numAttemptedTxn == self.numAttemptedTxn
  }

  /** `equals` is exactly value equality of the pair, so a Dafny map keyed by
      `Transaction` finds the same entries as the Java `HashMap`. */
  lemma EqualsIsPairEquality(self: Transaction, o: Object)
    ensures Equals(self, o) <==> o == Txn(self)
    ensures !Equals(self, Null)
  {
  }

  /** The 32-bit two's-complement pattern of a Java `int`. */
  function Bits(x: int): bv32
  {
    (x % 0x1_0000_0000) as bv32
  }

  /** The Java `int` whose bit pattern is `b`. */
  function Signed(b: bv32): (x: int)
    ensures -0x8000_0000 <= x < 0x8000_0000
    ensures Bits(x) == b
  {
    var n := b as int;
    var x := if n < 0x8000_0000 then n else n - 0x1_0000_0000;
    SignedBits(b, n, x);
    x
  }

  lemma SignedBits(b: bv32, n: int, x: int)
    requires n == b as int
    requires x == if n < 0x8000_0000 then n else n - 0x1_0000_0000
    ensures Bits(x) == b
  {
    BitsRange(b, n);
    ModWraps(n, x);
    BitsOf(x, n, b);
  }

  lemma BitsRange(b: bv32, n: int)
    requires n == b as int
    ensures 0 <= n < 0x1_0000_0000 && n as bv32 == b
  {
  }

  lemma ModWraps(n: int, x: int)
    requires 0 <= n < 0x1_0000_0000
    requires x == if n < 0x8000_0000 then n else n - 0x1_0000_0000
    ensures x % 0x1_0000_0000 == n
  {
  }

  lemma BitsOf(x: int, n: int, b: bv32)
    requires 0 <= n < 0x1_0000_0000 && x % 0x1_0000_0000 == n && n as bv32 == b
    ensures Bits(x) == b
  {
  }

  /** `Transaction.hashCode`, which is `Map.Entry.hashCode` of the pair: the
      exclusive or of the two `Integer` hash codes (each its own value). */
  function HashCode(t: Transaction): (h: int)
    ensures -0x8000_0000 <= h < 0x8000_0000
    ensures Bits(h) == Bits(t.clientId) ^ Bits(t.numAttemptedTxn)
  {
    Signed(Bits(t.clientId) ^ Bits(t.numAttemptedTxn))
  }

  /** Equal transactions have equal hash codes. */
  lemma EqualsImpliesEqualHashCode(a: Transaction, b: Transaction)
    requires Equals(a, Txn(b))
    ensures HashCode(a) == HashCode(b)
  {
  }

  /** `Transaction.clone`: a new transaction built from the same pair. */
  function Clone(t: Transaction): (c: Transaction)
    ensures Equals(t, Txn(c)) && Equals(c, Txn(t))
    ensures HashCode(c) == HashCode(t)
  {
    Transaction(t.clientId, t.numAttemptedTxn)
  }
}
