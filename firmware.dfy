/** The firmware as it runs: main.c's two globals, plus the trace of
    register accesses and calls the device has made and whether it is stuck
    in a `while (1);` halt loop. Each procedure of main.c is a method that
    changes this state step by step, and is proved to do what the matching
    function of the `Flash`, `Identity`, `Clock`, `Gpio`, `Boot`,
    `Scheduler` and `Program` modules says. */
module Firmware {
  import opened Hardware
  import Traces
  import Flash
  import Identity
  import Clock
  import Gpio
  import Boot
  import Scheduler
  import Program

  class Mcu {
    /** `UsbInterruptHasHappened`, set by the USB interrupt handler. */
    var usbInterruptHasHappened: bool
    /** `IterationCount`, a `uint8_t`. */
    var iterationCount: Uint8
    /** Every register access and outside call made so far. */
    var trace: seq<Event>
    /** The device is spinning in a `while (1);` halt loop. */
    var halted: bool

    /** The run loop's view of the globals. */
    function State(): Scheduler.LoopState
      reads this
    {
      Scheduler.LoopState(usbInterruptHasHappened, iterationCount)
    }

    /** Power-on: both globals zero-initialised (main.c:52-53). */
    constructor ()
      ensures State() == Scheduler.Reset && trace == [] && !halted
    {
      usbInterruptHasHappened := false;
      iterationCount := 0;
      trace := [];
      halted := false;
    }

    /** `DisableFlashWrites`, with the two values FLASH->CR reads back. */
    method DisableFlashWrites(crAfterInvalidKey: bv32, crAfterKey2: bv32)
      requires !halted
      modifies this`trace, this`halted
      ensures var o := Flash.DisableFlashWrites(crAfterInvalidKey, crAfterKey2);
              trace == old(trace) + o.events && halted == o.halted
    {
      ghost var t0 := trace;
      trace := trace + [EnableOneBusFault];
      trace := trace + [FlashKeyrWrite(Flash.InvalidKey)];
      trace := trace + [FlashCrRead];
      assert trace == t0 + [EnableOneBusFault, FlashKeyrWrite(Flash.InvalidKey), FlashCrRead];
      if !Flash.LockBitSet(crAfterInvalidKey) {
        halted := true;
        return;
      }
      ghost var t1 := trace;
      trace := trace + [EnableOneBusFault];
      trace := trace + [FlashKeyrWrite(Flash.FlashKey1)];
      trace := trace + [EnableOneBusFault];
      trace := trace + [FlashKeyrWrite(Flash.FlashKey2)];
      trace := trace + [FlashCrRead];
      assert trace == t1 + [EnableOneBusFault, FlashKeyrWrite(Flash.FlashKey1),
                            EnableOneBusFault, FlashKeyrWrite(Flash.FlashKey2), FlashCrRead];
      Traces.AppendAssoc(t0, [EnableOneBusFault, FlashKeyrWrite(Flash.InvalidKey), FlashCrRead],
                         [EnableOneBusFault, FlashKeyrWrite(Flash.FlashKey1),
                          EnableOneBusFault, FlashKeyrWrite(Flash.FlashKey2), FlashCrRead]);
      if !Flash.LockBitSet(crAfterKey2) {
        halted := true;
      }
    }

    /** `CheckFirmwareMatchesHardware`, with the DBGMCU ID code, the fault
        LED port's IDR after the probe, and what the uninitialised
        `GPIO_InitStruct` held on the stack. */
    method CheckFirmwareMatchesHardware(cfg: BoardConfig, idcode: bv32, idr: bv16, stack: GpioInitStruct)
      requires !halted
      modifies this`trace, this`halted
      ensures var o := Identity.CheckFirmwareMatchesHardware(cfg, idcode, idr, stack);
              trace == old(trace) + o.events && halted == o.halted
    {
      ghost var t0 := trace;
      ghost var start := [RccGpioClkEnable(GPIOC), DbgmcuIdcodeRead];
      var init := stack;
      trace := trace + [RccGpioClkEnable(GPIOC)];
      trace := trace + [DbgmcuIdcodeRead];
      ghost var probe: seq<Event> := [];
      if Identity.DeviceIdMatches(idcode) {
        init := ProbeFaultLedPin(cfg, init);
        probe := Identity.ProbeEvents(cfg);
        if Identity.PullUpSensed(cfg, idr) {
          Traces.AppendAssoc(t0, start, probe);
          return;
        }
      }
      assert trace == t0 + start + probe;
      ghost var fault := [HalGpioInit(cfg.faultLed.port, Identity.FaultLedOutputs(cfg, init)), FaultLedOn, H405FaultLedOn];
      LightFaultLeds(cfg, init);
      Traces.AppendAssoc(t0, start, probe);
      Traces.AppendAssoc(t0, start + probe, fault);
    }

    /** The pull-up probe: the fault LED pin as an input with the pull-down
        on, then with no pull, and its port's IDR read. */
    method ProbeFaultLedPin(cfg: BoardConfig, init0: GpioInitStruct) returns (init: GpioInitStruct)
      modifies this`trace
      ensures trace == old(trace) + Identity.ProbeEvents(cfg)
      ensures init == Identity.Probe(cfg, NoPull)
    {
      init := init0.(pin := cfg.faultLed.pin, mode := Input, pull := PullDown, speed := SpeedLow, alternate := 0);
      trace := trace + [HalGpioInit(cfg.faultLed.port, init)];
      init := init.(pull := NoPull);
      trace := trace + [HalGpioInit(cfg.faultLed.port, init)];
      trace := trace + [GpioIdrRead(cfg.faultLed.port)];
    }

    /** Both fault LED pins become outputs, both LEDs go on, and the device
        halts. */
    method LightFaultLeds(cfg: BoardConfig, init0: GpioInitStruct)
      modifies this`trace, this`halted
      ensures trace == old(trace) + [HalGpioInit(cfg.faultLed.port, Identity.FaultLedOutputs(cfg, init0)), FaultLedOn, H405FaultLedOn]
      ensures halted
    {
      var init := init0.(pin := cfg.faultLed.pin | cfg.h405FaultLedPin, mode := OutputPushPull, pull := NoPull);
      trace := trace + [HalGpioInit(cfg.faultLed.port, init)];
      trace := trace + [FaultLedOn];
      trace := trace + [H405FaultLedOn];
      halted := true;
    }

    /** `SystemClock_Config`, with the two HAL return codes. */
    method SystemClockConfig(oscStatus: HalStatus, clockStatus: HalStatus)
      requires !halted
      modifies this`trace, this`halted
      ensures var o := Clock.SystemClockConfig(oscStatus, clockStatus);
              trace == old(trace) + o.events && halted == o.halted
    {
      trace := trace + [PwrClkEnable];
      trace := trace + [PwrVoltageScale2];
      trace := trace + [HalRccOscConfig];
      if oscStatus != HalOk {
        halted := true;
        return;
      }
      trace := trace + [HalRccClockConfig];
      if clockStatus != HalOk {
        halted := true;
        return;
      }
      trace := trace + [HalSysTickClkSourceHclk];
    }

    /** `GPIO_Init`: one `GPIO_InitStruct`, reused field by field through
        the five steps below. */
    method GpioInit(cfg: BoardConfig)
      modifies this`trace
      ensures trace == old(trace) + Gpio.GpioInit(cfg)
    {
      EnablePortClocks();
      var init := BulkPullUpPass();
      init := VbusSenseAnalog(cfg, init);
      init := VbusSwitchOutputs(cfg, init);
      IndicatorOutputs(cfg, init);
    }

    method EnablePortClocks()
      modifies this`trace
      ensures trace == old(trace) + Gpio.ClockEnables()
    {
      trace := trace + [RccGpioClkEnable(GPIOA)];
      trace := trace + [RccGpioClkEnable(GPIOB)];
      trace := trace + [RccGpioClkEnable(GPIOC)];
      trace := trace + [RccGpioClkEnable(GPIOD)];
      trace := trace + [RccGpioClkEnable(GPIOE)];
      trace := trace + [RccGpioClkEnable(GPIOF)];
      trace := trace + [RccGpioClkEnable(GPIOG)];
    }

    method BulkPullUpPass() returns (init: GpioInitStruct)
      modifies this`trace
      ensures trace == old(trace) + Gpio.BulkPass()
      ensures init == Gpio.BulkInput(GpioPinAll)
    {
      init := GpioInitStruct(GpioPinAll & !(Gpio.PaJtms | Gpio.PaJtck | Gpio.PaJtdi), Input, PullUp, SpeedLow, 0);
      trace := trace + [HalGpioInit(GPIOA, init)];
      init := init.(pin := GpioPinAll & !(Gpio.PbJtdo | Gpio.PbNjtrst));
      trace := trace + [HalGpioInit(GPIOB, init)];
      init := init.(pin := GpioPinAll);
      trace := trace + [HalGpioInit(GPIOC, init)];
      trace := trace + [HalGpioInit(GPIOD, init)];
      trace := trace + [HalGpioInit(GPIOE, init)];
      trace := trace + [HalGpioInit(GPIOF, init)];
      trace := trace + [HalGpioInit(GPIOG, init)];
    }

    method VbusSenseAnalog(cfg: BoardConfig, init0: GpioInitStruct) returns (init: GpioInitStruct)
      requires init0 == Gpio.BulkInput(GpioPinAll)
      modifies this`trace
      ensures trace == old(trace) + Gpio.VbusSense(cfg)
      ensures init == Gpio.AnalogInput(cfg.usbHsVbus.pin)
    {
      init := init0.(mode := Analog);
      init := init.(pin := cfg.usbFsVbus.pin);
      trace := trace + [HalGpioInit(cfg.usbFsVbus.port, init)];
      init := init.(pin := cfg.usbHsVbus.pin);
      trace := trace + [HalGpioInit(cfg.usbHsVbus.port, init)];
    }

    method VbusSwitchOutputs(cfg: BoardConfig, init0: GpioInitStruct) returns (init: GpioInitStruct)
      requires init0 == Gpio.AnalogInput(cfg.usbHsVbus.pin)
      modifies this`trace
      ensures trace == old(trace) + Gpio.VbusSwitches(cfg)
      ensures init == Gpio.Output(cfg.usbHsVbusOn.pin)
    {
      trace := trace + [GpioBsrrWrite(cfg.usbFsVbusOn.port, (cfg.usbFsVbusOn.pin as bv32) << Gpio.BsrrShiftHigh)];
      init := init0.(mode := OutputPushPull);
      init := init.(pull := NoPull);
      init := init.(pin := cfg.usbFsVbusOn.pin);
      trace := trace + [HalGpioInit(cfg.usbFsVbusOn.port, init)];
      trace := trace + [GpioBsrrWrite(cfg.usbHsVbusOn.port, (cfg.usbHsVbusOn.pin as bv32) << Gpio.BsrrShiftLow)];
      init := init.(pin := cfg.usbHsVbusOn.pin);
      trace := trace + [HalGpioInit(cfg.usbHsVbusOn.port, init)];
    }

    method IndicatorOutputs(cfg: BoardConfig, init0: GpioInitStruct)
      requires init0 == Gpio.Output(cfg.usbHsVbusOn.pin)
      modifies this`trace
      ensures trace == old(trace) + Gpio.Indicators(cfg)
    {
      trace := trace + [FaultLedOff];
      var init := init0.(pin := cfg.faultLed.pin);
      trace := trace + [HalGpioInit(cfg.faultLed.port, init)];
      init := init.(pin := cfg.intActive.pin);
      trace := trace + [HalGpioInit(cfg.intActive.port, init)];
      trace := trace + [IntActiveOff];
    }

    /** The boot sequence of `main`, given what the hardware reads back. */
    method BootSequence(cfg: BoardConfig, inp: Boot.BootInputs)
      requires !halted
      modifies this`trace, this`halted
      ensures var b := Boot.Boot(cfg, inp);
              trace == old(trace) + b.events && halted == b.halted
    {
      StagedBoot(cfg, inp);
      Boot.BootIsStaged(cfg, inp);
    }

    /** The boot sequence, call by call. */
    method StagedBoot(cfg: BoardConfig, inp: Boot.BootInputs)
      requires !halted
      modifies this`trace, this`halted
      ensures var b := Boot.Staged(cfg, inp);
              trace == old(trace) + b.events && halted == b.halted
    {
      ghost var t0 := trace;
      DisableFlashWrites(inp.flashCrAfterInvalidKey, inp.flashCrAfterKey2);
      if !halted {
        FromIdentityGate(cfg, inp);
        Boot.ThenAppends(t0, Boot.FlashOutcome(inp), Boot.FromIdentityGate(cfg, inp));
      }
    }

    /** The boot sequence from the identity gate on. */
    method FromIdentityGate(cfg: BoardConfig, inp: Boot.BootInputs)
      requires !halted
      modifies this`trace, this`halted
      ensures var b := Boot.FromIdentityGate(cfg, inp);
              trace == old(trace) + b.events && halted == b.halted
    {
      ghost var t0 := trace;
      CheckFirmwareMatchesHardware(cfg, inp.dbgmcuIdcode, inp.faultLedIdr, inp.uninitialisedInitStruct);
      if !halted {
        FromClockConfig(cfg, inp);
        Boot.ThenAppends(t0, Boot.IdentityOutcome(cfg, inp), Boot.FromClockConfig(cfg, inp));
      }
    }

    /** The boot sequence from the clock configuration on. */
    method FromClockConfig(cfg: BoardConfig, inp: Boot.BootInputs)
      requires !halted
      modifies this`trace, this`halted
      ensures var b := Boot.FromClockConfig(cfg, inp);
              trace == old(trace) + b.events && halted == b.halted
    {
      ghost var t0 := trace;
      SystemClockConfig(inp.oscConfigStatus, inp.clockConfigStatus);
      if !halted {
        StartUp(cfg);
        Boot.ThenAppends(t0, Boot.ClockOutcome(inp), Outcome(Boot.StartUp(cfg), false));
      }
    }

    /** `HAL_Init`, `GPIO_Init`, `LED_Init`, `USB_Host_Init` and
        `Downstream_InitStateMachine`, which always return. */
    method StartUp(cfg: BoardConfig)
      modifies this`trace
      ensures trace == old(trace) + Boot.StartUp(cfg)
    {
      trace := trace + [CallHalInit];
      GpioInit(cfg);
      trace := trace + [CallLedInit];
      trace := trace + [CallUsbHostInit];
      trace := trace + [CallDownstreamInitStateMachine];
    }

    /** One pass of `main`'s loop. `irq`: the USB interrupt fired since the
        previous pass checked the flag. */
    method Pass(irq: bool)
      modifies this`trace, this`usbInterruptHasHappened, this`iterationCount
      ensures trace == old(trace) + Scheduler.Iteration(old(State()), irq)
      ensures State() == Scheduler.Next(old(State()), irq)
    {
      trace := trace + [CallUsbHostProcess];
      trace := trace + [CallDownstreamSpiProcess];
      trace := trace + [CallCheckNotifyDisconnectReply];
      if irq {
        usbInterruptHasHappened := true;
      }
      if usbInterruptHasHappened {
        usbInterruptHasHappened := false;
        iterationCount := 0;
      }
      var tested := iterationCount;
      iterationCount := (iterationCount + 1) % 256;
      if tested > 4 {
        trace := trace + [Wfi];
      }
    }

    /** The loop of `main`, for one pass per element of `irqs`. */
    method RunLoop(irqs: seq<bool>)
      modifies this`trace, this`usbInterruptHasHappened, this`iterationCount
      ensures trace == old(trace) + Scheduler.Run(old(State()), irqs)
      ensures State() == Scheduler.After(old(State()), irqs)
    {
      var i := 0;
      while i < |irqs|
        invariant 0 <= i <= |irqs|
        invariant trace == old(trace) + Scheduler.Run(old(State()), irqs[..i])
        invariant State() == Scheduler.After(old(State()), irqs[..i])
      {
        Scheduler.PrefixStep(old(State()), irqs, i);
        Pass(irqs[i]);
        i := i + 1;
      }
      assert irqs[..i] == irqs;
    }

    /** `main` from power-on: boot, then the loop unless boot halted. */
    method Execute(cfg: BoardConfig, inp: Boot.BootInputs, irqs: seq<bool>)
      requires State() == Scheduler.Reset && trace == [] && !halted
      modifies this
      ensures var x := Program.Execution(cfg, inp, irqs);
              trace == x.events && halted == x.halted
      ensures halted ==> State() == Scheduler.Reset
      ensures !halted ==> State() == Scheduler.After(Scheduler.Reset, irqs)
    {
      BootSequence(cfg, inp);
      Program.FromEmptyTrace(Boot.Boot(cfg, inp).events);
      if !halted {
        RunLoop(irqs);
      }
    }
  }
}
