/**
 * The task each worker runs on a job's number. Any argument at most 1,
 * negative ones included, is its own result; larger arguments follow the
 * two-term recurrence. Integers are mathematical here, so every claim is
 * about the recurrence itself and not about Go's 64-bit `int`.
 */
module Fib {

  function Fibonacci(n: int): (r: int)
    decreases n
    ensures 0 <= n ==> 0 <= r
    ensures 1 <= n ==> 1 <= r
  {
    if n <= 1 then n else Fibonacci(n - 1) + Fibonacci(n - 2)
  }

  /** An argument at most 1 is returned unchanged; it never reaches the recurrence. */
  lemma FibonacciBase(n: int)
    requires n <= 1
    ensures Fibonacci(n) == n
  {
  }

  /** From 2 on, each value is the sum of the two before it. */
  lemma FibonacciRecurrence(n: int)
    requires 2 <= n
    ensures Fibonacci(n) == Fibonacci(n - 1) + Fibonacci(n - 2)
  {
  }

  /** On non-negative arguments the sequence never decreases. */
  lemma {:induction false} FibonacciMonotone(m: int, n: int)
    requires 0 <= m <= n
    ensures Fibonacci(m) <= Fibonacci(n)
  {
    if m < n {
      FibonacciMonotone(m, n - 1);
      assert Fibonacci(n - 1) <= Fibonacci(n) by {
        if 2 <= n {
          assert 0 <= Fibonacci(n - 2);
        }
      }
    }
  }

  /** Consecutive pairs, computed in linear time; an independent definition of the same sequence. */
  function FibonacciPair(n: nat): (int, int)
  {
    if n == 0 then (0, 1)
    else
      var p := FibonacciPair(n - 1);
      (p.1, p.0 + p.1)
  }

  /** The doubly recursive definition agrees with the pairwise one on every non-negative argument. */
  lemma {:induction false} FibonacciAgreesWithPair(n: nat)
    ensures FibonacciPair(n) == (Fibonacci(n), Fibonacci(n + 1))
  {
    if n > 0 {
      FibonacciAgreesWithPair(n - 1);
    }
  }
}
