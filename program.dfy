/** The whole of `main` (main.c:56-94): the boot sequence, then the run loop
    for as many passes as the interrupt pattern given. */
module Program {
  import opened Hardware
  import opened Traces
  import Flash
  import Identity
  import Boot
  import Scheduler

  /** `main`: the boot sequence and, unless it halted, one pass of the run
      loop, from zero-initialised globals, per element of `irqs`. */
  function Execution(cfg: BoardConfig, inp: Boot.BootInputs, irqs: seq<bool>): Outcome {
    var b := Boot.Boot(cfg, inp);
    if b.halted then Outcome(b.events, true)
    else Outcome(b.events + Scheduler.Run(Scheduler.Reset, irqs), false)
  }

  /** A trace recorded from power-on is just what was recorded. */
  lemma FromEmptyTrace(events: seq<Event>)
    ensures [] + events == events
  {
  }

  /** A halt during boot is final: nothing the USB interrupt does afterwards
      changes what the device did, and it never makes a loop call. */
  lemma HaltIsTerminal(cfg: BoardConfig, inp: Boot.BootInputs, irqs: seq<bool>)
    requires Boot.Boot(cfg, inp).halted
    ensures Execution(cfg, inp, irqs) == Execution(cfg, inp, [])
    ensures var x := Execution(cfg, inp, irqs);
            x.halted &&
            (forall e :: e in Scheduler.ServiceCalls ==> e !in x.events) && Wfi !in x.events
  {
    Boot.EventsFromEnteredStages(cfg, inp);
    NoLoopEventsInBoot(Boot.Boot(cfg, inp));
  }

  /** The boot makes none of the loop's calls. */
  lemma NoLoopEventsInBoot(b: Boot.Progress)
    requires Boot.Traceable(b)
    ensures forall e :: e in Scheduler.ServiceCalls + [Wfi] ==> e !in b.events && Count(b.events, e) == 0
  {
    forall e | e in Scheduler.ServiceCalls + [Wfi] ensures e !in b.events {
      Boot.NotEmitted(b, e);
    }
  }

  /** The loop's calls: none unless every boot call has returned, and then
      each service exactly once per pass. */
  lemma LoopRunsOnlyAfterFullBoot(cfg: BoardConfig, inp: Boot.BootInputs, irqs: seq<bool>)
    ensures var x := Execution(cfg, inp, irqs);
            var b := Boot.Boot(cfg, inp);
            b.entered <= |Boot.BootOrder| &&
            (forall e :: e in Scheduler.ServiceCalls ==>
               Count(x.events, e) == if b.halted then 0 else |irqs|) &&
            (CallUsbHostProcess in x.events ==> Boot.Entered(b) == Boot.BootOrder)
  {
    var b := Boot.Boot(cfg, inp);
    var x := Execution(cfg, inp, irqs);
    Boot.EventsFromEnteredStages(cfg, inp);
    Boot.BootOrderRespected(cfg, inp);
    NoLoopEventsInBoot(b);
    Scheduler.ServicesEveryIteration(Scheduler.Reset, irqs);
    forall e | e in Scheduler.ServiceCalls
      ensures Count(x.events, e) == if b.halted then 0 else |irqs|
    {
      if !b.halted {
        CountAppend(b.events, Scheduler.Run(Scheduler.Reset, irqs), e);
      }
    }
  }

  /** The flash key register is written only by the flash lockout: over the
      whole life of the device it sees 999, then FLASH_KEY1 and FLASH_KEY2
      only when the lock held after the invalid key. */
  lemma KeyWritesOnlyInLockout(cfg: BoardConfig, inp: Boot.BootInputs, irqs: seq<bool>)
    ensures Flash.KeyWrites(Execution(cfg, inp, irqs).events) ==
            if Flash.LockBitSet(inp.flashCrAfterInvalidKey) then [Flash.InvalidKey, Flash.FlashKey1, Flash.FlashKey2]
            else [Flash.InvalidKey]
  {
    var b := Boot.Boot(cfg, inp);
    Boot.BootKeyWrites(cfg, inp);
    if !b.halted {
      var loop := Scheduler.Run(Scheduler.Reset, irqs);
      Scheduler.RunEvents(Scheduler.Reset, irqs);
      assert Flash.KeyWrites(loop) == [] by {
        forall i | 0 <= i < |loop| ensures !loop[i].FlashKeyrWrite? {
          assert loop[i] in Scheduler.ServiceCalls || loop[i] == Wfi;
        }
      }
      Flash.KeyWritesAppend(b.events, loop);
    }
  }

  /** The device reaches its run loop if and only if every check passed. */
  lemma ReachesLoopIff(cfg: BoardConfig, inp: Boot.BootInputs, irqs: seq<bool>)
    ensures !Execution(cfg, inp, irqs).halted <==>
            Flash.LockBitSet(inp.flashCrAfterInvalidKey) && Flash.LockBitSet(inp.flashCrAfterKey2) &&
            Identity.DeviceIdMatches(inp.dbgmcuIdcode) && Identity.PullUpSensed(cfg, inp.faultLedIdr) &&
            inp.oscConfigStatus == HalOk && inp.clockConfigStatus == HalOk
  {
    Boot.BootSucceedsIff(cfg, inp);
  }
}
