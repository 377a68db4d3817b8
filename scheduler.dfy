/** The cooperative run loop and its idle-sleep rule (main.c:75-94).

    Every pass calls the USB host stack, the downstream SPI processor and the
    disconnect-reply check, in that order. If the USB interrupt has set
    `UsbInterruptHasHappened` since the last pass, the flag is cleared and
    `IterationCount` zeroed. The counter is then tested and post-incremented
    (`IterationCount++ > 4`), and a pass whose tested value exceeds 4 ends
    in `__WFI()`. The counter is a `uint8_t` and wraps at 256. */
module Scheduler {
  import opened Hardware
  import opened Traces

  /** The loop's two globals. */
  datatype LoopState = LoopState(interruptFlag: bool, iterationCount: Uint8)

  /** Both globals are zero-initialised (main.c:52-53). */
  const Reset := LoopState(false, 0)

  /** Passes since the last interrupt that do not sleep. */
  const SleepThreshold: Uint8 := 4

  const ServiceCalls: seq<Event> :=
    [CallUsbHostProcess, CallDownstreamSpiProcess, CallCheckNotifyDisconnectReply]

  /** `irq`: the USB interrupt fired since the previous pass's flag check. */
  predicate Observes(s: LoopState, irq: bool) {
    s.interruptFlag || irq
  }

  /** The counter's value as the sleep test reads it, before the increment. */
  function TestedCount(s: LoopState, irq: bool): Uint8 {
    if Observes(s, irq) then 0 else s.iterationCount
  }

  predicate Sleeps(s: LoopState, irq: bool) {
    TestedCount(s, irq) > SleepThreshold
  }

  /** The globals after one pass. */
  function Next(s: LoopState, irq: bool): LoopState {
    LoopState(false, (TestedCount(s, irq) + 1) % 256)
  }

  /** The calls one pass makes. */
  function Iteration(s: LoopState, irq: bool): seq<Event> {
    ServiceCalls + if Sleeps(s, irq) then [Wfi] else []
  }

  /** The globals after one pass per element of `irqs`. */
  function After(s: LoopState, irqs: seq<bool>): LoopState
    decreases |irqs|
  {
    if irqs == [] then s else Next(After(s, irqs[..|irqs| - 1]), irqs[|irqs| - 1])
  }

  /** The calls made by one pass per element of `irqs`. */
  function Run(s: LoopState, irqs: seq<bool>): seq<Event>
    decreases |irqs|
  {
    if irqs == [] then []
    else Run(s, irqs[..|irqs| - 1]) + Iteration(After(s, irqs[..|irqs| - 1]), irqs[|irqs| - 1])
  }

  /** Pass `j` sees an interrupt: one fired just before it, or, for the first
      pass, the flag was already set when the loop was entered. */
  predicate InterruptSeen(s: LoopState, irqs: seq<bool>, j: nat)
    requires j < |irqs|
  {
    irqs[j] || (j == 0 && s.interruptFlag)
  }

  /** One pass: the three services once each and first; a pass that sees an
      interrupt clears the flag, zeroes the counter and does not sleep; every
      pass sleeps exactly when the tested count exceeds 4 and advances the
      counter by one modulo 256 from it. */
  lemma IterationContract(s: LoopState, irq: bool)
    ensures var ev := Iteration(s, irq);
            ev[..3] == ServiceCalls &&
            (forall e :: e in ServiceCalls ==> Count(ev, e) == 1) &&
            (Wfi in ev <==> TestedCount(s, irq) > 4) &&
            (ev == ServiceCalls || ev == ServiceCalls + [Wfi])
    ensures var t := Next(s, irq);
            !t.interruptFlag &&
            t.iterationCount == (TestedCount(s, irq) + 1) % 256 &&
            (Observes(s, irq) ==> Wfi !in Iteration(s, irq) && t.iterationCount == 1) &&
            (!Observes(s, irq) ==> t.iterationCount == (s.iterationCount + 1) % 256)
  {
    var tail := if Sleeps(s, irq) then [Wfi] else [];
    forall e | e in ServiceCalls ensures Count(Iteration(s, irq), e) == 1 {
      CountAppend(ServiceCalls, tail, e);
      assert Count(tail, e) == 0;
    }
  }

  /** The loop carries nothing from one pass to the next but its state:
      running `a` then `b` is running `a + b`. */
  lemma {:induction false} RunAppend(s: LoopState, a: seq<bool>, b: seq<bool>)
    ensures After(s, a + b) == After(After(s, a), b)
    ensures Run(s, a + b) == Run(s, a) + Run(After(s, a), b)
    decreases |b|
  {
    if b == [] {
      assert a + b == a;
    } else {
      var b' := b[..|b| - 1];
      assert (a + b)[..|a + b| - 1] == a + b';
      RunAppend(s, a, b');
    }
  }

  /** Pass `i` of a run is `Iteration` from the state the first `i` passes
      leave behind. */
  lemma PrefixStep(s: LoopState, irqs: seq<bool>, i: nat)
    requires i < |irqs|
    ensures After(s, irqs[..i + 1]) == Next(After(s, irqs[..i]), irqs[i])
    ensures Run(s, irqs[..i + 1]) == Run(s, irqs[..i]) + Iteration(After(s, irqs[..i]), irqs[i])
  {
    assert irqs[..i + 1][..i] == irqs[..i];
  }

  /** The flag is always clear after a pass, so a pass sees an interrupt
      exactly when `InterruptSeen` says so. */
  lemma SeenIsObserved(s: LoopState, irqs: seq<bool>, j: nat)
    requires j < |irqs|
    ensures Observes(After(s, irqs[..j]), irqs[j]) <==> InterruptSeen(s, irqs, j)
  {
    if j > 0 {
      PrefixStep(s, irqs, j - 1);
    }
  }

  /** Every pass calls each of the three services exactly once, whatever the
      interrupts; at most one WFI per pass. */
  lemma {:induction false} ServicesEveryIteration(s: LoopState, irqs: seq<bool>)
    ensures forall e :: e in ServiceCalls ==> Count(Run(s, irqs), e) == |irqs|
    ensures Count(Run(s, irqs), Wfi) <= |irqs|
    decreases |irqs|
  {
    if irqs != [] {
      var init := irqs[..|irqs| - 1];
      var last := Iteration(After(s, init), irqs[|irqs| - 1]);
      ServicesEveryIteration(s, init);
      IterationContract(After(s, init), irqs[|irqs| - 1]);
      forall e | e in ServiceCalls + [Wfi]
        ensures Count(Run(s, irqs), e) == Count(Run(s, init), e) + Count(last, e)
      {
        CountAppend(Run(s, init), last, e);
      }
      assert Count(last, Wfi) <= 1 by {
        if last != ServiceCalls {
          CountAppend(ServiceCalls, [Wfi], Wfi);
        }
      }
    }
  }

  /** The loop makes no call but its three services and WFI. */
  lemma {:induction false} RunEvents(s: LoopState, irqs: seq<bool>)
    ensures forall e :: e in Run(s, irqs) ==> e in ServiceCalls || e == Wfi
    decreases |irqs|
  {
    if irqs != [] {
      RunEvents(s, irqs[..|irqs| - 1]);
      IterationContract(After(s, irqs[..|irqs| - 1]), irqs[|irqs| - 1]);
    }
  }

  /** After a pass that sees an interrupt, and only quiet passes since, the
      counter holds the number of passes made since that one (modulo 256). */
  lemma {:induction false} CountSinceInterrupt(s: LoopState, irqs: seq<bool>, j: nat, i: nat)
    requires j < i <= |irqs|
    requires InterruptSeen(s, irqs, j)
    requires forall t :: j < t < i ==> !irqs[t]
    ensures After(s, irqs[..i]) == LoopState(false, (i - j) % 256)
    decreases i
  {
    PrefixStep(s, irqs, i - 1);
    SeenIsObserved(s, irqs, i - 1);
    if i > j + 1 {
      CountSinceInterrupt(s, irqs, j, i - 1);
      WrapIncrement(i - 1 - j);
    }
  }

  /** After a pass that sees an interrupt, a later pass with no interrupt
      since sleeps if and only if it is more than four passes later (modulo
      256): the next four quiet passes stay awake and the fifth sleeps. */
  lemma SleepAfterInterrupt(s: LoopState, irqs: seq<bool>, j: nat, i: nat)
    requires j < i < |irqs|
    requires InterruptSeen(s, irqs, j)
    requires forall t :: j < t <= i ==> !irqs[t]
    ensures Wfi in Iteration(After(s, irqs[..i]), irqs[i]) <==> (i - j) % 256 > 4
  {
    CountSinceInterrupt(s, irqs, j, i);
    IterationContract(After(s, irqs[..i]), irqs[i]);
  }

  /** Within 255 passes of one that saw an interrupt the counter is at most
      the distance to it, however many more interrupts came in between. */
  lemma {:induction false} CountBoundSinceInterrupt(s: LoopState, irqs: seq<bool>, j: nat, i: nat)
    requires j < i <= |irqs| && i - j <= 255
    requires InterruptSeen(s, irqs, j)
    ensures !After(s, irqs[..i]).interruptFlag
    ensures After(s, irqs[..i]).iterationCount <= i - j
    decreases i
  {
    PrefixStep(s, irqs, i - 1);
    SeenIsObserved(s, irqs, i - 1);
    if i > j + 1 {
      CountBoundSinceInterrupt(s, irqs, j, i - 1);
    }
  }

  /** The loop never sleeps in a pass that sees an interrupt, nor in the
      four passes after it. */
  lemma NoSleepNearInterrupt(s: LoopState, irqs: seq<bool>, j: nat, i: nat)
    requires j <= i < |irqs| && i - j <= SleepThreshold
    requires InterruptSeen(s, irqs, j)
    ensures Wfi !in Iteration(After(s, irqs[..i]), irqs[i])
  {
    if j < i {
      CountBoundSinceInterrupt(s, irqs, j, i);
    } else {
      SeenIsObserved(s, irqs, i);
    }
    IterationContract(After(s, irqs[..i]), irqs[i]);
  }

  /** With no interrupt at all, pass `i` tests the starting count plus `i`,
      wrapped at 256. */
  lemma {:induction false} QuietCount(s: LoopState, irqs: seq<bool>, i: nat)
    requires i <= |irqs|
    requires !s.interruptFlag
    requires forall t :: 0 <= t < i ==> !irqs[t]
    ensures After(s, irqs[..i]) == LoopState(false, (s.iterationCount + i) % 256)
    decreases i
  {
    if i > 0 {
      QuietCount(s, irqs, i - 1);
      PrefixStep(s, irqs, i - 1);
      WrapIncrement(s.iterationCount + i - 1);
    } else {
      assert irqs[..0] == [];
    }
  }

  lemma WrapIncrement(c: nat)
    ensures (c % 256 + 1) % 256 == (c + 1) % 256
  {
  }

  /** The counter wraps: an idle pass starting at 255 sleeps and leaves 0,
      and the five idle passes after it (testing 0 to 4) stay awake. */
  lemma WrapAround(irqs: seq<bool>)
    requires |irqs| == 6 && forall t :: 0 <= t < 6 ==> !irqs[t]
    ensures var s := LoopState(false, 255);
            Next(s, false) == LoopState(false, 0) &&
            forall i :: 0 <= i < 6 ==> (Wfi in Iteration(After(s, irqs[..i]), irqs[i]) <==> i == 0)
  {
    var s := LoopState(false, 255);
    forall i | 0 <= i < 6
      ensures Wfi in Iteration(After(s, irqs[..i]), irqs[i]) <==> i == 0
    {
      QuietCount(s, irqs, i);
      IterationContract(After(s, irqs[..i]), irqs[i]);
    }
  }

  /** The calls of a quiet pass `k` passes after one that saw an interrupt. */
  lemma PassAfterInterrupt(s: LoopState, irqs: seq<bool>, j: nat, k: nat)
    requires j < k < |irqs|
    requires InterruptSeen(s, irqs, j)
    requires forall t :: j < t <= k ==> !irqs[t]
    ensures Iteration(After(s, irqs[..k]), irqs[k]) ==
            if (k - j) % 256 > 4 then ServiceCalls + [Wfi] else ServiceCalls
  {
    SleepAfterInterrupt(s, irqs, j, k);
    IterationContract(After(s, irqs[..k]), irqs[k]);
  }

  /** `n` copies of `s`, one after the other. */
  function Repeat(s: seq<Event>, n: nat): seq<Event> {
    if n == 0 then [] else Repeat(s, n - 1) + s
  }

  /** From a pass that saw an interrupt to four passes after it, the loop
      only calls its three services. */
  lemma {:induction false} AwakeAfterInterrupt(s: LoopState, irqs: seq<bool>, k: nat)
    requires 0 < k <= 5 && k <= |irqs|
    requires InterruptSeen(s, irqs, 0)
    requires forall t :: 0 < t < k ==> !irqs[t]
    ensures Run(s, irqs[..k]) == Repeat(ServiceCalls, k)
    decreases k
  {
    PrefixStep(s, irqs, k - 1);
    if k == 1 {
      assert irqs[..0] == [];
      SeenIsObserved(s, irqs, 0);
      IterationContract(s, irqs[0]);
    } else {
      AwakeAfterInterrupt(s, irqs, k - 1);
      PassAfterInterrupt(s, irqs, 0, k - 1);
    }
  }

  /** Interrupt, then five quiet passes: only the last pass sleeps. */
  lemma InterruptThenFiveIdle(s: LoopState, irqs: seq<bool>)
    requires |irqs| == 6 && irqs[0] && forall t :: 0 < t < 6 ==> !irqs[t]
    ensures Run(s, irqs) == Repeat(ServiceCalls, 6) + [Wfi]
  {
    var before := Repeat(ServiceCalls, 5);
    assert Repeat(ServiceCalls, 6) == before + ServiceCalls;
    AwakeAfterInterrupt(s, irqs, 5);
    PrefixStep(s, irqs, 5);
    PassAfterInterrupt(s, irqs, 0, 5);
    AppendAssoc(before, ServiceCalls, [Wfi]);
    assert irqs[..6] == irqs;
  }

  /** After that interrupt and five quiet passes the counter holds 6. */
  lemma CounterAfterFiveIdle(s: LoopState, irqs: seq<bool>)
    requires |irqs| == 6 && irqs[0] && forall t :: 0 < t < 6 ==> !irqs[t]
    ensures After(s, irqs) == LoopState(false, 6)
  {
    CountSinceInterrupt(s, irqs, 0, 6);
    assert irqs[..6] == irqs;
  }
}
