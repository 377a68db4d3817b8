# USG downstream firmware: boot hardening and run loop

This project models `main.c` of the downstream microcontroller (an
STM32F407) in the USG USB firewall, and proves properties about it. The file
does four things:

- **Flash lockout** (`DisableFlashWrites`). Each write to the flash key
  register is expected to bus-fault, so each one is preceded by
  `EnableOneBusFault`. The code writes the invalid key 999 and checks that
  the `FLASH->CR` lock bit still reads set. It then writes `FLASH_KEY1` and
  `FLASH_KEY2` and checks the bit again. A clear bit at either check halts
  the device in `while (1);`.
- **Identity gate** (`CheckFirmwareMatchesHardware`). The device ID in
  `DBGMCU_IDCODE` must be the STM32F405/407/415/417 family's. The fault LED
  pin must also read high once the internal pull-down is switched off, which shows the
  board's external pull-up. If either test fails, both fault LED pins are
  driven as outputs, both LEDs are turned on, and the device halts.
- **Bring-up**:
  - `SystemClock_Config` halts unless both HAL clock calls return `HAL_OK`.
  - `HAL_Init` is called.
  - `GPIO_Init` enables all seven port clocks. A bulk pass makes every pin a
    pulled-up input except the JTAG pins. The VBUS sense pins become analog
    inputs. The full-speed VBUS switch is driven high and the high-speed one
    low, each through BSRR before its pin becomes an output. The fault LED
    is switched off, then the fault LED and interrupt indicator pins become
    outputs.
  - `LED_Init`, `USB_Host_Init` and `Downstream_InitStateMachine` are called.
- **Run loop**. Each pass calls the USB host stack, the SPI processor and the
  disconnect-reply check. A set `UsbInterruptHasHappened` flag is cleared and
  zeroes `IterationCount`. The pass then executes WFI when
  `IterationCount++ > 4`. The counter is a `uint8_t` and wraps at 256.

The model has two layers:

- **Specification functions** (modules `Flash`, `Identity`, `Clock`,
  `Gpio`, `Boot`, `Scheduler`, `Program`). Each procedure is a function of
  the values the hardware reads back. It returns an `Outcome`: the events
  the procedure produces and whether it halted. The events stand for
  register accesses and calls into code outside the model.
- **Imperative model** (class `Firmware.Mcu`). It holds the two globals of
  `main.c`, the trace of events so far, and a `halted` flag for
  `while (1);`. Each procedure of `main.c` is a method that changes this
  state step by step, and is proved to match its specification function.

The boot is modelled twice, and `Boot.BootIsStaged` proves the two agree:

- as `main`'s eight calls run in order until one halts (`Boot.Boot`);
- as the straight-line code: each check either halts or falls through into
  the rest (`Boot.Staged`).

Points where the model follows the code:

- **Lockout before identity gate.** The flash lockout runs before the
  identity gate, as `main` calls them (main.c:59-60).
- **Uninitialised fields on the mismatch path.** When the device ID does not
  match, the fault LED outputs are configured from a `GPIO_InitStruct` whose
  speed and alternate fields were never assigned. The model takes the
  uninitialised stack contents as an input (`uninitialisedInitStruct`) and
  keeps them in the configuration it records.
- **Analog VBUS pins keep the pull-up.** The analog VBUS sense pins keep the
  pull-up field set by the bulk pass, because the code changes only the mode
  and the pin.
- **Counter wrap.** The loop counter wraps: an idle pass that tests 255
  sleeps and leaves 0, so the next five idle passes stay awake.

## Model

| member | source | states |
|---|---|---|
| Flash.DisableFlashWrites | Downstream/Src/main.c:98-113 | The lockout's register accesses and halt, computed from the two lock-bit read-backs (after the invalid key, after `FLASH_KEY2`); its properties are stated by the three lemmas below. |
| Flash.LockoutContract | Downstream/Src/main.c:98-113 | The lockout returns if and only if the lock bit reads set at both checks. The key register sees 999, `FLASH_KEY1`, `FLASH_KEY2` in that order, or only 999 when the first check fails. |
| Flash.KeyWriteDiscipline | Downstream/Src/main.c:102-112 | `EnableOneBusFault` comes immediately before every key write. Every lock-bit read comes immediately after a key write. The procedure always ends on a lock-bit read. |
| Flash.LockClearAfterInvalidKeyHalts | Downstream/Src/main.c:103-107 | A clear lock bit after the invalid key halts, and neither valid key half is ever written. |
| Identity.CheckFirmwareMatchesHardware | Downstream/Src/main.c:116-153 | The gate's events and halt, computed from the board's pins, the DBGMCU ID code read-back, the fault LED port's IDR read-back and the uninitialised init record; its properties are stated by the three lemmas below. |
| Identity.ReturnsIffBothFactorsMatch | Downstream/Src/main.c:125-152 | The gate returns if and only if the masked device ID is 0x413 and the fault LED pin reads high. The fault LEDs are lit exactly when it halts. |
| Identity.ProbeOnlyOnIdMatch | Downstream/Src/main.c:123-138 | The port C clock is enabled and the ID code read first. The pin is probed (pull-down, no pull, IDR read, in that order) if and only if the device ID matches. |
| Identity.HaltLightsFaultLeds | Downstream/Src/main.c:145-152 | A halt ends with both fault LED pins configured as push-pull outputs without pull, then both LEDs turned on. |
| Clock.SystemClockConfig | Downstream/Src/main.c:158-189 | The clock set-up's events and halt, computed from the statuses returned by `HAL_RCC_OscConfig` and `HAL_RCC_ClockConfig`; its properties are stated by `Clock.ClockConfigContract`. |
| Clock.ClockConfigContract | Downstream/Src/main.c:158-189 | Returns if and only if both HAL calls report `HAL_OK`. A failed oscillator configuration never touches the bus clocks. The SysTick source is switched only on success. The power interface is set up before the oscillator. |
| Gpio.GpioInit | Downstream/Src/main.c:194-253 | The fixed sequence of clock enables, pin configurations and BSRR writes, computed from the board's pin assignments alone; its properties are stated by the lemmas below. |
| Gpio.BulkMaskSparesJtag | Downstream/Src/main.c:208-216 | The bulk pass covers every pin except exactly the port's JTAG pins: PA13-15 on port A, PB3-4 on port B, none elsewhere. |
| Gpio.BsrrDrives | Downstream/Src/main.c:233-240 | A pin shifted by `BSRR_SHIFT_HIGH` only sets it; one shifted by `BSRR_SHIFT_LOW` only resets it. |
| Gpio.BulkPullUpPass | Downstream/Src/main.c:198-223 | `GPIO_Init` first enables the seven port clocks in order. It then configures each port's bulk mask as a pulled-up, low-speed input. |
| Gpio.ClockBeforeConfigure | Downstream/Src/main.c:198-252 | No pin is configured before its port's clock is enabled. |
| Gpio.OutputConfigurations | Downstream/Src/main.c:225-252 | The only output configurations are the four function pins, at fixed positions. Each VBUS level is written to BSRR just before its pin becomes an output. |
| Gpio.FsVbusOnLevelBeforeOutput | Downstream/Src/main.c:232-237 | The full-speed VBUS switch is driven high before any event configures it as an output. |
| Gpio.HsVbusOnLevelBeforeOutput | Downstream/Src/main.c:239-242 | The high-speed VBUS switch is driven low before any event configures it as an output. |
| Gpio.FaultLedOffBeforeOutput | Downstream/Src/main.c:244-247 | The fault LED is switched off before its pin becomes an output. |
| Boot.RunInOrder | Downstream/Src/main.c:56-73 | Runs a list of call outcomes until one halts, recording how many were entered, their events and the halt; its properties are stated by `Boot.EnteredIffEarlierReturned` and `Boot.InMainOrder`. |
| Boot.Boot | Downstream/Src/main.c:56-73 | `main`'s eight calls run in order, from the board and the boot read-backs; its properties are stated by the Boot lemmas below. |
| Boot.Staged | Downstream/Src/main.c:56-73 | The boot as straight-line code: the lockout, then the gate, then the clock set-up, each either halting or falling through to the rest; `Boot.BootIsStaged` equates it with `Boot.Boot`. |
| Boot.Position | Downstream/Src/main.c:59-73 | Every boot call has a place in `main`'s order. |
| Boot.BootOrderDistinct | Downstream/Src/main.c:59-73 | Each call appears once in `main`'s order. |
| Boot.EnteredIffEarlierReturned | Downstream/Src/main.c:56-73 | For calls run in order: a call is entered if and only if every earlier one returned. The events are those of the entered calls. The run halts exactly when the last entered call halted. |
| Boot.InMainOrder | Downstream/Src/main.c:59-73 | Calls run in `main`'s order are entered at most once each. A call is entered if and only if all earlier calls returned. The run ends without a halt exactly when all eight were entered and returned. |
| Boot.BootOrderRespected | Downstream/Src/main.c:59-73 | The same facts for the boot sequence itself. |
| Boot.StageEmits | Downstream/Src/main.c:59-73 | Each boot call produces only its own kinds of events. |
| Boot.EventsFromEnteredStages | Downstream/Src/main.c:56-73 | Every boot event comes from a call that was entered. |
| Boot.NotEmitted | Downstream/Src/main.c:56-73 | An event none of whose producing calls was entered does not occur. |
| Boot.FlashLockoutFailureStopsBoot | Downstream/Src/main.c:59-107 | A clear lock bit after the invalid key ends the boot inside the lockout. Only 999 reaches the key register, and the device ID is never read. |
| Boot.IdentityFailureStopsBoot | Downstream/Src/main.c:59-73 | A passing lockout and a failing identity check end the boot in the gate with both fault LEDs lit. The oscillator is never configured, and neither the USB host nor the downstream state machine is initialised. |
| Boot.StoppedInIdentityGate | Downstream/Src/main.c:60-73 | A boot that stopped in the identity gate never configures clocks or starts the USB host or downstream modules. |
| Boot.LaterCallsReturn | Downstream/Src/main.c:63-73 | Every call returns if and only if the first three do: the calls from `HAL_Init` on never halt. |
| Boot.ChecksPass | Downstream/Src/main.c:59-63 | The lockout, the gate and the clock configuration each return exactly when their own check passes. |
| Boot.BootSucceedsIff | Downstream/Src/main.c:56-73 | The boot completes if and only if both lock checks, both identity factors and both HAL clock calls pass. It has then entered all eight calls in order. |
| Boot.NoKeyWritesAfterLockout | Downstream/Src/main.c:60-73 | No boot call other than the lockout writes the flash key register. |
| Boot.BootKeyWrites | Downstream/Src/main.c:59-73 | Over the whole boot the key register sees 999, `FLASH_KEY1`, `FLASH_KEY2`, or only 999 if the first lock check fails. |
| Boot.BootStopsInLockout | Downstream/Src/main.c:59 | A halting lockout is the whole boot. |
| Boot.BootStopsInIdentityGate | Downstream/Src/main.c:59-60 | A halting gate after a passing lockout ends the boot after those two calls. |
| Boot.BootStopsInClockConfig | Downstream/Src/main.c:59-63 | A halting clock configuration ends the boot after three calls. |
| Boot.BootReturns | Downstream/Src/main.c:59-73 | When all three checks pass, the boot is their events followed by the start-up calls, with all eight calls entered. |
| Boot.BootIsStaged | Downstream/Src/main.c:56-73 | The run-in-order reading of the eight calls and the straight-line reading produce the same events and the same halt. |
| Scheduler.Next | Downstream/Src/main.c:82-92 | The loop state after one pass: flag cleared, counter reset to 1 after an interrupt or advanced modulo 256; stated by `Scheduler.IterationContract`. |
| Scheduler.Iteration | Downstream/Src/main.c:75-94 | The calls of one pass, from the loop state and whether an interrupt fired before it; stated by `Scheduler.IterationContract`. |
| Scheduler.RunAppend | Downstream/Src/main.c:75-94 | The loop carries nothing between passes but its state: running two interrupt patterns one after the other is running their concatenation, in both the final state and the calls made. |
| Scheduler.IterationContract | Downstream/Src/main.c:75-94 | A pass calls the three services first, once each. It sleeps if and only if the tested count exceeds 4. It clears the flag and advances the counter by one modulo 256 from the tested value. A pass that sees an interrupt does not sleep and leaves the counter at 1. |
| Scheduler.SeenIsObserved | Downstream/Src/main.c:82-86 | The flag is clear after every pass, so a pass sees an interrupt exactly when one fired before it, or, for the first pass, when the flag was already set. |
| Scheduler.ServicesEveryIteration | Downstream/Src/main.c:75-79 | After n passes each service has been called exactly n times, and WFI at most n times, whatever the interrupts. |
| Scheduler.RunEvents | Downstream/Src/main.c:75-94 | The loop makes no call other than the three services and WFI. |
| Scheduler.CountSinceInterrupt | Downstream/Src/main.c:82-90 | After a pass that saw an interrupt and quiet passes since, the counter equals the number of passes since then, modulo 256. |
| Scheduler.SleepAfterInterrupt | Downstream/Src/main.c:88-92 | A quiet pass after an interrupt sleeps if and only if it is more than four passes later, modulo 256. |
| Scheduler.CountBoundSinceInterrupt | Downstream/Src/main.c:82-90 | Within 255 passes of one that saw an interrupt, the counter is at most the distance to it, even if more interrupts came in between. |
| Scheduler.NoSleepNearInterrupt | Downstream/Src/main.c:82-92 | No pass sleeps if it sees an interrupt or comes within four passes after one that did. |
| Scheduler.QuietCount | Downstream/Src/main.c:90 | With no interrupts, the counter advances by one per pass, modulo 256. |
| Scheduler.WrapAround | Downstream/Src/main.c:90-92 | An idle pass testing 255 sleeps and leaves 0; the next five idle passes stay awake. |
| Scheduler.PassAfterInterrupt | Downstream/Src/main.c:75-92 | A quiet pass k passes after an interrupt makes the three service calls, followed by WFI exactly when (k - j) mod 256 > 4. |
| Scheduler.AwakeAfterInterrupt | Downstream/Src/main.c:75-92 | From a pass that saw an interrupt through four quiet passes after it, the loop makes only service calls. |
| Scheduler.InterruptThenFiveIdle | Downstream/Src/main.c:75-92 | An interrupt then five quiet passes: only the sixth pass executes WFI. |
| Scheduler.CounterAfterFiveIdle | Downstream/Src/main.c:82-90 | After that interrupt and five quiet passes the counter holds 6. |
| Program.Execution | Downstream/Src/main.c:56-94 | The device's whole run: the boot, then, only if it did not halt, the loop from the reset state over the given interrupt pattern; its properties are stated by the Program lemmas below. |
| Program.HaltIsTerminal | Downstream/Src/main.c:56-94 | A halt during boot is final. Later interrupts change nothing, and no loop call or WFI ever happens. |
| Program.NoLoopEventsInBoot | Downstream/Src/main.c:56-79 | The boot makes none of the loop's calls. |
| Program.LoopRunsOnlyAfterFullBoot | Downstream/Src/main.c:56-94 | Each service is called once per pass if the boot completed, and never otherwise. A call to the USB host stack implies that all eight boot calls were entered. |
| Program.KeyWritesOnlyInLockout | Downstream/Src/main.c:56-113 | Over the device's whole run the key register sees only the lockout's writes. |
| Program.ReachesLoopIff | Downstream/Src/main.c:56-94 | The device reaches its run loop if and only if every check passed. |
| Firmware.Mcu.constructor | Downstream/Src/main.c:52-53 | Both globals start at zero, with an empty trace and no halt. |
| Firmware.Mcu.DisableFlashWrites | Downstream/Src/main.c:98-113 | The register writes and reads, step by step, extend the trace by `Flash.DisableFlashWrites`, with its halt. |
| Firmware.Mcu.CheckFirmwareMatchesHardware | Downstream/Src/main.c:116-153 | Reusing one init record, extends the trace by `Identity.CheckFirmwareMatchesHardware`, with its halt. |
| Firmware.Mcu.ProbeFaultLedPin | Downstream/Src/main.c:129-138 | Records the pull-down probe, the no-pull probe and the IDR read, and leaves the record in its no-pull probe form. |
| Firmware.Mcu.LightFaultLeds | Downstream/Src/main.c:146-152 | Configures both fault LED pins from the record as it stands, turns both LEDs on, and halts. |
| Firmware.Mcu.SystemClockConfig | Downstream/Src/main.c:158-189 | Extends the trace by `Clock.SystemClockConfig`, with its halt. |
| Firmware.Mcu.GpioInit | Downstream/Src/main.c:194-253 | Reusing one init record, extends the trace by `Gpio.GpioInit`. |
| Firmware.Mcu.EnablePortClocks | Downstream/Src/main.c:198-206 | Enables the seven port clocks in order. |
| Firmware.Mcu.BulkPullUpPass | Downstream/Src/main.c:208-223 | Records the bulk pass and leaves the record as a pulled-up input on all pins. |
| Firmware.Mcu.VbusSenseAnalog | Downstream/Src/main.c:225-230 | Makes both VBUS sense pins analog. The record is left on the high-speed pin with its pull-up. |
| Firmware.Mcu.VbusSwitchOutputs | Downstream/Src/main.c:232-242 | Sets each VBUS switch level through BSRR, then makes the pin an output. |
| Firmware.Mcu.IndicatorOutputs | Downstream/Src/main.c:244-252 | Switches the fault LED off, makes both indicator pins outputs, then switches the interrupt indicator off. |
| Firmware.Mcu.BootSequence | Downstream/Src/main.c:56-73 | The boot changes the trace and the halt flag as `Boot.Boot` says. |
| Firmware.Mcu.StagedBoot | Downstream/Src/main.c:59-73 | The boot, call by call, as `Boot.Staged` says. |
| Firmware.Mcu.FromIdentityGate | Downstream/Src/main.c:60-73 | The boot from the identity gate on. |
| Firmware.Mcu.FromClockConfig | Downstream/Src/main.c:63-73 | The boot from the clock configuration on. |
| Firmware.Mcu.StartUp | Downstream/Src/main.c:66-73 | `HAL_Init`, `GPIO_Init`, `LED_Init`, `USB_Host_Init` and `Downstream_InitStateMachine`, in order. |
| Firmware.Mcu.Pass | Downstream/Src/main.c:75-94 | One pass updates the flag, the counter and the trace as `Scheduler.Next` and `Scheduler.Iteration` say. |
| Firmware.Mcu.RunLoop | Downstream/Src/main.c:75-94 | One pass per interrupt indication, with a loop invariant tying the state and the trace to `Scheduler.After` and `Scheduler.Run`. |
| Firmware.Mcu.Execute | Downstream/Src/main.c:56-94 | From power-on, the device's trace and halt are those of `Program.Execution`. |

## Left out

- What the HAL, RCC, PWR and GPIO driver calls do to the hardware. Each is
  one event, and its return code or read-back value is an input.
- The PLL and bus-divider settings of `SystemClock_Config`
  (main.c:168-185). Only the rule "halt unless both HAL calls return
  `HAL_OK`" is modelled.
- The bus-fault handler behind `EnableOneBusFault` is one event.
- The USB interrupt handler that sets `UsbInterruptHasHappened` is not
  modelled as code. Whether it fired before a pass's flag check is that
  pass's `irq` input.
- `volatile` semantics and interrupts arriving inside a pass are not
  modelled. Firing before the flag check and firing just after it are
  indistinguishable here.
- What `USB_Host_Process`, `Downstream_SPIProcess`, the packet processor,
  `LED_Init` and `USB_Host_Init` do inside. They appear only as calls.
- The power-state semantics of `__WFI()`. It is one event.
- `assert_failed` (compiled only with `USE_FULL_ASSERT`, main.c:257-273).
- board_config.h is not part of this model. The pin assignments are a
  `BoardConfig` parameter. `BSRR_SHIFT_HIGH = 0` and `BSRR_SHIFT_LOW = 16`
  are taken from the BSRR layout (section 8.4.7 of RM0090). The JTAG pin
  masks `PA_JTMS`, `PA_JTCK`, `PA_JTDI`, `PB_JTDO` and `PB_NJTRST`
  (main.c:210, main.c:216) are fixed as PA13, PA14, PA15, PB3 and PB4, the
  JTAG pins of section 38.3 of RM0090.
- Firmware.Mcu.RunLoop: the source loop never ends. The model runs one pass
  per element of the interrupt pattern it is given, so its properties hold
  for every finite prefix of the loop.
- Firmware.Mcu.Execute: a halt is a flag, not a spinning loop. The boot
  methods require it clear, and `Execute` enters the loop only if it is
  still clear after the boot.
