# Fibonacci stream, modelled in Dafny

The crate offers `FibStream`, a lazily evaluated stream of Fibonacci numbers.
A stream holds two `u64` registers, `prev` and `num`. `FibStream::new` seeds them with
0 and 1. Each poll computes `res = prev + num`, moves the registers to
`(num, res)` and returns `res`. So a fresh stream yields 1, 2, 3, 5, 8, …
The same step is implemented twice: once for the `Stream` trait (returning
`Ready(Some(res))`) and once for the `Future` trait (returning `Ready(res)`).

The project has two modules:

- `Fibonacci` (`fibonacci.dfy`) holds the mathematics.
  - `Fib` is the sequence, with `Fib(0) = 0` and `Fib(1) = 1`.
  - `Step` is one poll on unbounded registers.
  - `Run(k)` is the registers after `k` polls of a fresh stream.
  - `Output(k)` is the value returned by the `k`-th poll.
  - The lemmas tie these together and locate the `u64` overflow boundary.
- `FibonacciStream` (`fib_stream.dfy`) models `src/lib.rs` itself.
  - `FibStream` is a class with the fields `prev` and `num`, of a `u64` newtype.
  - A ghost poll counter `polls` records how many polls have happened.
  - `Valid()` states that the registers equal `Run(polls)`.
  - Both poll methods keep `Valid()`.

Overflow is an explicit choice. The source adds two `u64` values without a guard.
Rust panics on that overflow in debug builds and wraps in release builds. The model
does not wrap. Both poll methods require `prev + num < 2^64`, which is the condition
under which the source's addition is defined. `PollInRange` proves that a
fresh stream meets this condition for exactly its first 92 polls. The 92nd poll
returns `Fib(93)`, and the 93rd poll would overflow.

## Model

| member | source | states |
|---|---|---|
| `FibonacciStream.FibStream.constructor` | src/lib.rs:66-68 | a new stream has `prev == 0`, `num == 1`, no polls yet, and satisfies the register invariant |
| `FibonacciStream.FibStream.StreamPoll` | src/lib.rs:75-80 | while `prev + num` fits in u64: the new registers are `(old num, old prev + old num)`, the result is `Ready(Some(new num))` (never the end of the stream), the invariant is kept, the returned value is `Fib(polls + 1)` and the registers stay ordered |
| `FibonacciStream.FibStream.FuturePoll` | src/lib.rs:87-92 | the same effect on the registers and the same value as `StreamPoll`, wrapped as `Ready(res)` |
| `FibonacciStream.DocExample` | src/lib.rs:43-48 | polling a fresh stream twice returns `Ready(Some(1))` and then `Ready(Some(2))` |
| `Fibonacci.RunIsFib` | src/lib.rs:66-78 | after `k` polls from `new()` the registers are `(Fib(k), Fib(k+1))` |
| `Fibonacci.OutputIsFib` | src/lib.rs:75-79 | the `k`-th poll of a fresh stream returns `Fib(k+1)` |
| `Fibonacci.RunOrdered` | src/lib.rs:76-78 | after any number of polls from `new()`, `prev <= num` and `num >= 1` |
| `Fibonacci.StepPreservesOrdered` | src/lib.rs:76-78 | a poll preserves `prev <= num` and `num >= 1`, and never decreases `num` |
| `Fibonacci.OutputsStrictlyIncrease` | src/lib.rs:75-79 | each returned value is strictly smaller than the next |
| `Fibonacci.OutputRecurrence` | src/lib.rs:76-79 | from the third poll on, each returned value is the sum of the two returned before it |
| `Fibonacci.FirstOutputs` | src/lib.rs:12-17 | a fresh stream returns 1, 2, 3, 5, 8 on its first five polls |
| `Fibonacci.FibU64Boundary` | src/lib.rs:57-58 | `Fib(93)` is below 2^64 and `Fib(94)` is not |
| `Fibonacci.PollInRange` | src/lib.rs:76 | from `new()`, the addition in poll number `k+1` fits in u64 if and only if `k < 92` |

## Left out

- The `futures` plumbing is not modelled. This covers the `Poll`/`Result` wrapper and the `Box<Error>` error type (src/lib.rs:71-73, src/lib.rs:83-85). Neither poll ever produces an error, so each method returns its `Async` value directly.
- `NotReady` is declared in `Async` but never returned, because the stream never blocks.
- Wrap-around of the u64 addition is not modelled. Release builds wrap there and debug builds panic. Both poll methods instead require that `prev + num` fits, and `PollInRange` states how long that holds. There is no overflow error result, because the source has none.
- examples/infinite-log.rs is not part of this model. It is a console driver that prints every value forever. That is I/O with no logic of its own, and it imports a `FibError` that the library does not define.
- Concurrent or asynchronous use is not modelled. `poll` never suspends, and a stream is owned by a single caller.
- `#[derive(Debug)]` formatting is not modelled.
