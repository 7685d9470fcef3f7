/** Small vocabulary shared by every actor of the model: optional values, how a
    handler can stop early, and the two pieces of Java integer semantics the
    actors depend on. */
module Common {

  datatype Option<+T> = None | Some(value: T)

  /** The unchecked Java exceptions a handler can run into. */
  datatype Fault = NullPointer | IndexOutOfBounds | IllegalArgument

  /** How a message handler ends. A handler that throws keeps every effect it
      performed before the throwing statement and performs nothing after it. */
  datatype Outcome = Done | Threw(fault: Fault)

  /** Java's `/` on `int`: rounds toward zero (Dafny's `/` is Euclidean). */
  function JavaDiv(a: int, b: int): (q: int)
    requires b > 0
    ensures a >= 0 ==> q >= 0 && q * b <= a < q * b + b
    ensures a < 0 ==> q <= 0 && a <= q * b < a + b
  {
    if a >= 0 then a / b else -((-a) / b)
  }

  /** Bounds of the cache behind `Integer.valueOf` in a default JVM. */
  const INTEGER_CACHE_LOW: int := -128
  const INTEGER_CACHE_HIGH: int := 127

  /** Java's `x == y` on two `java.lang.Integer` boxes that were produced by
      separate autoboxing: it compares references, and separate boxes are the
      same object only when `Integer.valueOf` served both from its cache. */
  predicate BoxedIdentical(x: int, y: int)
  {
    x == y && INTEGER_CACHE_LOW <= x <= INTEGER_CACHE_HIGH
  }

  /** Some element of a non-empty set: one step of iterating a Java
      collection whose iteration order the model leaves open. */
  method Pick<T>(s: set<T>) returns (x: T)
    requires s != {}
    ensures x in s
  {
    x :| x in s;
  }
}
