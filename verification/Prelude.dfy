/** Shared vocabulary: the exceptions of the program as values, and Python's number conversions. */
module Prelude {

  datatype Option<+T> = None | Some(value: T)

  /** The exceptions that the modelled code can raise. */
  datatype Error =
    | IndexError
    | ValueError
    | ZeroDivisionError
    | OverflowError
    | AssertionError
    | EncodingError

  datatype Result<+T> = Success(value: T) | Failure(error: Error) {
    predicate IsFailure() {
      Failure?
    }

    function PropagateFailure<U>(): Result<U>
      requires Failure?
    {
      Failure(error)
    }

    function Extract(): T
      requires Success?
    {
      value
    }
  }

  /** Python's `int(x)` on a number: truncation towards zero. */
  function Trunc(x: real): int {
    if x >= 0.0 then x.Floor else -((-x).Floor)
  }

  /** The whole units of an amount; none of a negative one. */
  function Whole(x: real): nat {
    if x < 0.0 then 0 else x.Floor
  }

  /** What a part of a total gets of an amount that is split in proportion. */
  function ShareOf(amount: real, part: real, total: real): real {
    if total == 0.0 then 0.0 else amount * part / total
  }

  /** Publishing and re-reading: a whole amount passes through truncation, whatever is added to it. */
  lemma TruncAddInt(n: int, x: real)
    requires n >= 0 && x >= 0.0
    ensures Trunc(n as real + x) == n + Trunc(x)
  {
  }

  /** The last element of a concatenation is that of its right part. */
  lemma SplitLast<T>(a: seq<T>, b: seq<T>)
    requires b != []
    ensures (a + b)[..|a + b| - 1] == a + b[..|b| - 1]
    ensures (a + b)[|a + b| - 1] == b[|b| - 1]
  {
  }

  lemma MultisetCancel<T>(a: multiset<T>, b: multiset<T>, c: multiset<T>)
    requires a + c == b + c
    ensures a == b
  {
    assert a == (a + c) - c;
    assert b == (b + c) - c;
  }

  // ----- products and quotients -----

  function Times(x: real, y: real): real {
    x * y
  }

  function Quotient(x: real, y: real): real
    requires y != 0.0
  {
    x / y
  }

  lemma ProductNonNegative(x: real, y: real)
    requires x >= 0.0 && y >= 0.0
    ensures Times(x, y) >= 0.0
  {
  }

  lemma TimesOfSum(x: real, y: real, z: real)
    ensures Times(x, y + z) == Times(x, y) + Times(x, z)
  {
  }

  lemma {:induction false} MultiplyStep(d: nat, q: int, q': int)
    requires q < q'
    ensures q' * d >= q * d + d
    decreases q' - q
  {
    assert q' * d == (q' - 1) * d + d;
    if q' <= q + 1 {
    } else {
      MultiplyStep(d, q, q' - 1);
    }
  }

  lemma DivisionMonotone(a: nat, b: nat, d: nat)
    requires a <= b && d > 0
    ensures a / d <= b / d
  {
    var q, r, q', r' := a / d, a % d, b / d, b % d;
    assert a == q * d + r && b == q' * d + r';
    if q' < q {
      MultiplyStep(d, q', q);
    }
  }

  /** A product of at least `n * d` has a quotient of at least `n`. */
  lemma DivisionReaches(n: nat, k: nat, d: nat)
    requires d > 0 && k >= d
    ensures n * k / d >= n
  {
    var q, r := n * k / d, n * k % d;
    assert n * k == q * d + r;
    assert n * k >= n * d by {
      ProductMonotone(n, d, k);
    }
    if q < n {
      MultiplyStep(d, q, n);
    }
  }

  lemma ProductMonotone(n: nat, a: int, b: int)
    requires a <= b
    ensures n * a <= n * b
  {
  }

  function Multiple(n: nat, x: int): int {
    n * x
  }

  lemma MultipleStep(n: nat, x: int)
    ensures Multiple(n + 1, x) == Multiple(n, x) + x && Multiple(0, x) == 0
  {
  }

  lemma OnceAtMost(n: nat, x: nat)
    requires n <= 1
    ensures 0 <= Multiple(n, x) <= x
  {
    MultipleStep(0, x);
  }
}
