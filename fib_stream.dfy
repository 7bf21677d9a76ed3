/** The `FibStream` generator of src/lib.rs: two u64 registers that every
    poll advances in place. */
module FibonacciStream {
  import opened Fibonacci

  /** Rust's u64. Additions are checked against the range, never wrapped. */
  newtype u64 = x: int | 0 <= x < 0x1_0000_0000_0000_0000

  datatype Option<T> = None | Some(value: T)

  /** The readiness of a poll; this stream is always `Ready`. */
  datatype Async<T> = Ready(value: T) | NotReady

  class FibStream {
    var prev: u64
    var num: u64

    /** How many times the stream has been polled since `new`. */
    ghost var polls: nat

    /** The registers as unbounded naturals. */
    function Regs(): Registers
      reads this
    {
      Registers(prev as nat, num as nat)
    }

    /** The registers are those a fresh stream reaches after `polls` polls. */
    ghost predicate Valid()
      reads this
    {
      Regs() == Run(polls)
    }

    /** `FibStream::new`: starts the registers at 0 and 1. */
    constructor ()
      ensures Valid() && polls == 0
      ensures prev == 0 && num == 1
    {
      prev := 0;
      num := 1;
      polls := 0;
    }

    /** `Stream::poll`: returns `prev + num` and shifts the registers. The
        addition must not leave u64 (Rust panics there in debug builds). */
    method StreamPoll() returns (r: Async<Option<u64>>)
      requires Valid()
      requires prev as int + num as int < U64_MODULUS
      modifies this
      ensures Valid() && polls == old(polls) + 1
      ensures Regs() == Step(old(Regs()))
      ensures r == Ready(Some(num))
      ensures num as nat == Fib(polls + 1) && Ordered(Regs())
    {
      var res := prev + num;
      prev := num;
      num := res;
      polls := polls + 1;
      RunIsFib(polls);
      RunOrdered(polls);
      r := Ready(Some(res));
    }

    /** `Future::poll`: the same step as `StreamPoll`, with the value wrapped
        as `Ready(res)` instead of `Ready(Some(res))`. */
    method FuturePoll() returns (r: Async<u64>)
      requires Valid()
      requires prev as int + num as int < U64_MODULUS
      modifies this
      ensures Valid() && polls == old(polls) + 1
      ensures Regs() == Step(old(Regs()))
      ensures r == Ready(num)
      ensures num as nat == Fib(polls + 1) && Ordered(Regs())
    {
      var res := prev + num;
      prev := num;
      num := res;
      polls := polls + 1;
      RunIsFib(polls);
      RunOrdered(polls);
      r := Ready(res);
    }
  }

  /** The documented usage: a fresh stream polled twice yields 1 then 2. */
  method DocExample() returns (first: Async<Option<u64>>, second: Async<Option<u64>>)
    ensures first == Ready(Some(1)) && second == Ready(Some(2))
  {
    var stream := new FibStream();
    first := stream.StreamPoll();
    second := stream.StreamPoll();
  }
}
