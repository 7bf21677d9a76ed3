/** The mathematics behind the Fibonacci stream: the sequence itself, the
    two-register step that one poll performs, the registers after k polls
    from a fresh stream, and the boundary of 64-bit unsigned arithmetic. */
module Fibonacci {

  /** 2^64: one more than the largest value a u64 register can hold. */
  const U64_MODULUS: nat := 0x1_0000_0000_0000_0000

  /** How many polls of a fresh stream stay within u64 arithmetic. */
  const MAX_POLLS_IN_RANGE: nat := 92

  /** The Fibonacci sequence with Fib(0) = 0 and Fib(1) = 1. */
  function Fib(n: nat): nat
  {
    if n < 2 then n else Fib(n - 1) + Fib(n - 2)
  }

  /** The two registers of a stream, over unbounded naturals. */
  datatype Registers = Registers(prev: nat, num: nat)

  /** The registers of a freshly created stream. */
  function New(): Registers
  {
    Registers(0, 1)
  }

  /** One poll: the sum becomes the new `num`, the old `num` the new `prev`. */
  function Step(s: Registers): Registers
  {
    Registers(s.num, s.prev + s.num)
  }

  /** The registers after k polls of a fresh stream. */
  function Run(k: nat): Registers
  {
    if k == 0 then New() else Step(Run(k - 1))
  }

  /** The value returned by the k-th poll (counting from 1) of a fresh stream. */
  function Output(k: nat): nat
    requires k >= 1
  {
    Run(k).num
  }

  /** The addition one poll performs fits in a u64. */
  predicate Fits(s: Registers)
  {
    s.prev + s.num < U64_MODULUS
  }

  /** The two registers hold consecutive terms in non-decreasing order, the larger positive. */
  predicate Ordered(s: Registers)
  {
    s.prev <= s.num && s.num >= 1
  }

  lemma {:induction false} FibPositive(n: nat)
    requires n >= 1
    ensures Fib(n) >= 1
  {
    if n > 2 {
      FibPositive(n - 1);
    }
  }

  lemma {:induction false} FibMonotone(i: nat, j: nat)
    requires i <= j
    ensures Fib(i) <= Fib(j)
  {
    if i < j {
      FibMonotone(i, j - 1);
    }
  }

  lemma {:induction false} FibStrictlyIncreasing(i: nat, j: nat)
    requires 2 <= i < j
    ensures Fib(i) < Fib(j)
  {
    FibPositive(j - 2);
    FibMonotone(i, j - 1);
  }

  /** After k polls of a fresh stream the registers hold Fib(k) and Fib(k + 1). */
  lemma {:induction false} RunIsFib(k: nat)
    ensures Run(k) == Registers(Fib(k), Fib(k + 1))
  {
    if k > 0 {
      RunIsFib(k - 1);
    }
  }

  /** The k-th poll returns Fib(k + 1): 1, 2, 3, 5, 8, ... */
  lemma OutputIsFib(k: nat)
    requires k >= 1
    ensures Output(k) == Fib(k + 1)
  {
    RunIsFib(k);
  }

  /** The registers of a polled fresh stream are always ordered. */
  lemma {:induction false} RunOrdered(k: nat)
    ensures Ordered(Run(k))
  {
    RunIsFib(k);
    FibMonotone(k, k + 1);
    FibPositive(k + 1);
  }

  /** A poll keeps the registers ordered and never decreases `num`. */
  lemma StepPreservesOrdered(s: Registers)
    requires Ordered(s)
    ensures Ordered(Step(s)) && Step(s).num >= s.num
  {
  }

  /** Successive returned values strictly increase. */
  lemma OutputsStrictlyIncrease(k: nat)
    requires k >= 1
    ensures Output(k) < Output(k + 1)
  {
    OutputIsFib(k);
    OutputIsFib(k + 1);
    FibStrictlyIncreasing(k + 1, k + 2);
  }

  /** Each returned value from the third on is the sum of the two before it. */
  lemma OutputRecurrence(k: nat)
    requires k >= 3
    ensures Output(k) == Output(k - 1) + Output(k - 2)
  {
    OutputIsFib(k);
    OutputIsFib(k - 1);
    OutputIsFib(k - 2);
  }

  /** The first five polls of a fresh stream return 1, 2, 3, 5 and 8. */
  lemma FirstOutputs()
    ensures Output(1) == 1 && Output(2) == 2 && Output(3) == 3
    ensures Output(4) == 5 && Output(5) == 8
  {
    OutputIsFib(1);
    OutputIsFib(2);
    OutputIsFib(3);
    OutputIsFib(4);
    OutputIsFib(5);
  }

  // Literal checkpoints of the sequence, twenty terms apart: each is small
  // enough for the verifier to evaluate from the one before.

  lemma FibAt20()
    ensures Fib(20) == 6765 && Fib(21) == 10946
  {
  }

  lemma FibAt40()
    ensures Fib(40) == 102334155 && Fib(41) == 165580141
  {
    FibAt20();
  }

  lemma FibAt60()
    ensures Fib(60) == 1548008755920 && Fib(61) == 2504730781961
  {
    FibAt40();
  }

  lemma FibAt80()
    ensures Fib(80) == 23416728348467685 && Fib(81) == 37889062373143906
  {
    FibAt60();
  }

  /** Fib(93) is the last term below 2^64; Fib(94) is not. */
  lemma FibU64Boundary()
    ensures Fib(93) == 12200160415121876738 < U64_MODULUS
    ensures Fib(94) == 19740274219868223167 >= U64_MODULUS
  {
    FibAt80();
  }

  /** Poll number k + 1 of a fresh stream fits in u64 exactly when k < 92:
      the first 92 polls are in range and the 93rd overflows. */
  lemma PollInRange(k: nat)
    ensures Fits(Run(k)) <==> k < MAX_POLLS_IN_RANGE
  {
    RunIsFib(k);
    FibU64Boundary();
    if k < MAX_POLLS_IN_RANGE {
      FibMonotone(k + 2, 93);
    } else {
      FibMonotone(94, k + 2);
    }
  }
}
