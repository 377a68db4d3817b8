/** Vocabulary of the STM32F407 downstream firmware model: the C integer
    widths it relies on, the GPIO driver's configuration record, the board's
    pin assignments, the HAL status codes, and the events that stand for each
    register access or call into code this model treats as opaque. */
module Hardware {

  /** C's `uint8_t`: arithmetic on it wraps modulo 256. */
  type Uint8 = x: int | 0 <= x < 256

  datatype Port = GPIOA | GPIOB | GPIOC | GPIOD | GPIOE | GPIOF | GPIOG

  /** The fields of the HAL's `GPIO_InitTypeDef` that main.c sets. */
  datatype GpioMode = Input | OutputPushPull | Analog
  datatype GpioPull = NoPull | PullUp | PullDown
  datatype GpioSpeed = SpeedLow | SpeedMedium | SpeedFast | SpeedHigh
  datatype GpioInitStruct = GpioInitStruct(
    pin: bv16, mode: GpioMode, pull: GpioPull, speed: GpioSpeed, alternate: bv32)

  /** `GPIO_PIN_All`: all sixteen pins of a port. */
  const GpioPinAll: bv16 := 0xFFFF

  /** A pin (or set of pins) on one port. */
  datatype PinRef = PinRef(port: Port, pin: bv16)

  /** The board's pin assignments (board_config.h). The H405 fault LED sits
      on the same port as the main fault LED, so only its pin is given. */
  datatype BoardConfig = BoardConfig(
    faultLed: PinRef,
    h405FaultLedPin: bv16,
    usbFsVbus: PinRef,
    usbHsVbus: PinRef,
    usbFsVbusOn: PinRef,
    usbHsVbusOn: PinRef,
    intActive: PinRef)

  /** `HAL_StatusTypeDef`. */
  datatype HalStatus = HalOk | HalError | HalBusy | HalTimeout

  /** One observable step: a register read or write, or a call into the
      HAL, the LED driver, the USB host stack or the downstream modules. */
  datatype Event =
    // flash lockout
    | EnableOneBusFault
    | FlashKeyrWrite(key: bv32)
    | FlashCrRead
    // identity gate
    | DbgmcuIdcodeRead
    | GpioIdrRead(port: Port)
    // clocks and pins
    | RccGpioClkEnable(clkPort: Port)
    | PwrClkEnable
    | PwrVoltageScale2
    | HalRccOscConfig
    | HalRccClockConfig
    | HalSysTickClkSourceHclk
    | HalGpioInit(initPort: Port, init: GpioInitStruct)
    | GpioBsrrWrite(bsrrPort: Port, value: bv32)
    | FaultLedOn
    | FaultLedOff
    | H405FaultLedOn
    | IntActiveOff
    // module start-up
    | CallHalInit
    | CallLedInit
    | CallUsbHostInit
    | CallDownstreamInitStateMachine
    // run loop
    | CallUsbHostProcess
    | CallDownstreamSpiProcess
    | CallCheckNotifyDisconnectReply
    | Wfi

  /** What one procedure does: the events it produces, and whether it ended
      in a `while (1);` halt loop instead of returning. */
  datatype Outcome = Outcome(events: seq<Event>, halted: bool)
}

/** Counting and filtering of event traces. */
module Traces {

  /** Number of occurrences of `x` in `s`. */
  function Count<T(==)>(s: seq<T>, x: T): (n: nat)
    ensures n <= |s|
    ensures n == 0 <==> x !in s
  {
    if s == [] then 0 else (if s[0] == x then 1 else 0) + Count(s[1..], x)
  }

  lemma AppendAssoc<T>(a: seq<T>, b: seq<T>, c: seq<T>)
    ensures a + b + c == a + (b + c)
  {
  }

  lemma {:induction false} CountAppend<T>(a: seq<T>, b: seq<T>, x: T)
    ensures Count(a + b, x) == Count(a, x) + Count(b, x)
  {
    if a == [] {
      assert a + b == b;
    } else {
      assert (a + b)[1..] == a[1..] + b;
      CountAppend(a[1..], b, x);
    }
  }
}
