/** GPIO bring-up (`GPIO_Init`, main.c:194-253).

    Every port's clock is switched on; a bulk pass makes every pin a
    pulled-up, low-speed input except the JTAG pins of ports A and B; then the
    pins with a function are reconfigured: the two VBUS sense pins as analog
    inputs, the two VBUS power switches, the fault LED and the SPI interrupt
    indicator as push-pull outputs. */
module Gpio {
  import opened Hardware

  const Ports: seq<Port> := [GPIOA, GPIOB, GPIOC, GPIOD, GPIOE, GPIOF, GPIOG]

  /** The STM32F4's JTAG pins: JTMS, JTCK, JTDI on PA13..PA15, JTDO and NJTRST
      on PB3 and PB4 (section 38.3 of RM0090). */
  const PaJtms: bv16 := 0x2000
  const PaJtck: bv16 := 0x4000
  const PaJtdi: bv16 := 0x8000
  const PbJtdo: bv16 := 0x0008
  const PbNjtrst: bv16 := 0x0010

  function JtagPins(p: Port): bv16 {
    match p
    case GPIOA => PaJtms | PaJtck | PaJtdi
    case GPIOB => PbJtdo | PbNjtrst
    case _ => 0
  }

  /** The pins the bulk pass configures on port `p`. */
  function BulkMask(p: Port): bv16 {
    match p
    case GPIOA => GpioPinAll & !(PaJtms | PaJtck | PaJtdi)
    case GPIOB => GpioPinAll & !(PbJtdo | PbNjtrst)
    case _ => GpioPinAll
  }

  /** The bulk pass leaves out exactly the port's JTAG pins. */
  lemma BulkMaskSparesJtag(p: Port)
    ensures BulkMask(p) & JtagPins(p) == 0 && BulkMask(p) | JtagPins(p) == GpioPinAll
    ensures p == GPIOA ==> BulkMask(p) == 0x1FFF
    ensures p == GPIOB ==> BulkMask(p) == 0xFFE7
    ensures p != GPIOA && p != GPIOB ==> BulkMask(p) == GpioPinAll
  {
    match p
    case GPIOA =>
    case GPIOB =>
    case _ =>
  }

  /** BSRR_SHIFT_HIGH and BSRR_SHIFT_LOW: a BSRR write sets the pins in its
      low half-word and resets the pins in its high half-word (section 8.4.7
      of RM0090). */
  const BsrrShiftHigh: bv32 := 0
  const BsrrShiftLow: bv32 := 16

  /** The pins a BSRR value drives high, and those it drives low. */
  function BsrrSetBits(value: bv32): bv16 {
    (value & 0xFFFF) as bv16
  }

  function BsrrResetBits(value: bv32): bv16 {
    (value >> 16) as bv16
  }

  function BsrrDriveHigh(pin: bv16): bv32 {
    (pin as bv32) << BsrrShiftHigh
  }

  function BsrrDriveLow(pin: bv16): bv32 {
    (pin as bv32) << BsrrShiftLow
  }

  /** A BSRR value shifted by BSRR_SHIFT_HIGH drives exactly its pins high
      and none low; one shifted by BSRR_SHIFT_LOW the reverse. */
  lemma BsrrDrives(pin: bv16)
    ensures BsrrSetBits(BsrrDriveHigh(pin)) == pin && BsrrResetBits(BsrrDriveHigh(pin)) == 0
    ensures BsrrResetBits(BsrrDriveLow(pin)) == pin && BsrrSetBits(BsrrDriveLow(pin)) == 0
  {
  }

  /** The successive contents of the one `GPIO_InitStruct` GPIO_Init reuses. */
  function BulkInput(mask: bv16): GpioInitStruct {
    GpioInitStruct(mask, Input, PullUp, SpeedLow, 0)
  }

  function AnalogInput(pin: bv16): GpioInitStruct {
    // the pull field still holds the bulk pass's pull-up
    GpioInitStruct(pin, Analog, PullUp, SpeedLow, 0)
  }

  function Output(pin: bv16): GpioInitStruct {
    GpioInitStruct(pin, OutputPushPull, NoPull, SpeedLow, 0)
  }

  function ClockEnables(): seq<Event> {
    [RccGpioClkEnable(GPIOA), RccGpioClkEnable(GPIOB), RccGpioClkEnable(GPIOC),
     RccGpioClkEnable(GPIOD), RccGpioClkEnable(GPIOE), RccGpioClkEnable(GPIOF),
     RccGpioClkEnable(GPIOG)]
  }

  function BulkPass(): seq<Event> {
    [HalGpioInit(GPIOA, BulkInput(BulkMask(GPIOA))), HalGpioInit(GPIOB, BulkInput(BulkMask(GPIOB))),
     HalGpioInit(GPIOC, BulkInput(GpioPinAll)), HalGpioInit(GPIOD, BulkInput(GpioPinAll)),
     HalGpioInit(GPIOE, BulkInput(GpioPinAll)), HalGpioInit(GPIOF, BulkInput(GpioPinAll)),
     HalGpioInit(GPIOG, BulkInput(GpioPinAll))]
  }

  /** The VBUS sense pins become analog inputs. */
  function VbusSense(cfg: BoardConfig): seq<Event> {
    [HalGpioInit(cfg.usbFsVbus.port, AnalogInput(cfg.usbFsVbus.pin)),
     HalGpioInit(cfg.usbHsVbus.port, AnalogInput(cfg.usbHsVbus.pin))]
  }

  /** The full-speed port's power switch is driven high and the high-speed
      port's low, each before its pin becomes an output. */
  function VbusSwitches(cfg: BoardConfig): seq<Event> {
    [GpioBsrrWrite(cfg.usbFsVbusOn.port, BsrrDriveHigh(cfg.usbFsVbusOn.pin)),
     HalGpioInit(cfg.usbFsVbusOn.port, Output(cfg.usbFsVbusOn.pin)),
     GpioBsrrWrite(cfg.usbHsVbusOn.port, BsrrDriveLow(cfg.usbHsVbusOn.pin)),
     HalGpioInit(cfg.usbHsVbusOn.port, Output(cfg.usbHsVbusOn.pin))]
  }

  /** The fault LED and the SPI interrupt indicator become outputs. */
  function Indicators(cfg: BoardConfig): seq<Event> {
    [FaultLedOff,
     HalGpioInit(cfg.faultLed.port, Output(cfg.faultLed.pin)),
     HalGpioInit(cfg.intActive.port, Output(cfg.intActive.pin)),
     IntActiveOff]
  }

  function FunctionPins(cfg: BoardConfig): seq<Event> {
    VbusSense(cfg) + VbusSwitches(cfg) + Indicators(cfg)
  }

  /** `GPIO_Init` on a board with pin assignments `cfg`. */
  function GpioInit(cfg: BoardConfig): seq<Event> {
    ClockEnables() + BulkPass() + FunctionPins(cfg)
  }

  /** Event `e` configures exactly the pins of `p` as a push-pull output. */
  predicate ConfiguresOutput(e: Event, p: PinRef) {
    e.HalGpioInit? && e.initPort == p.port && e.init.pin == p.pin && e.init.mode == OutputPushPull
  }

  /** The bulk pass: after all seven port clocks, port after port in order,
      every pin but the JTAG ones becomes a pulled-up low-speed input. */
  lemma BulkPullUpPass(cfg: BoardConfig)
    ensures var ev := GpioInit(cfg);
            |ev| == 24 &&
            (forall k :: 0 <= k < 7 ==> ev[k] == RccGpioClkEnable(Ports[k])) &&
            (forall k :: 0 <= k < 7 ==>
               ev[7 + k] == HalGpioInit(Ports[k], GpioInitStruct(BulkMask(Ports[k]), Input, PullUp, SpeedLow, 0)))
  {
    var ev := GpioInit(cfg);
    assert ev[..7] == ClockEnables();
    assert ev[7..14] == BulkPass();
  }

  /** No pin is configured before its port's clock is enabled. */
  lemma ClockBeforeConfigure(cfg: BoardConfig)
    ensures var ev := GpioInit(cfg);
            forall j :: 0 <= j < |ev| && ev[j].HalGpioInit? ==> RccGpioClkEnable(ev[j].initPort) in ev[..j]
  {
    var ev := GpioInit(cfg);
    assert ev[..7] == ClockEnables();
    forall j | 0 <= j < |ev| && ev[j].HalGpioInit?
      ensures RccGpioClkEnable(ev[j].initPort) in ev[..j]
    {
      assert ev[..j][..7] == ev[..7];
      match ev[j].initPort
      case GPIOA => assert ev[..j][0] == RccGpioClkEnable(GPIOA);
      case GPIOB => assert ev[..j][1] == RccGpioClkEnable(GPIOB);
      case GPIOC => assert ev[..j][2] == RccGpioClkEnable(GPIOC);
      case GPIOD => assert ev[..j][3] == RccGpioClkEnable(GPIOD);
      case GPIOE => assert ev[..j][4] == RccGpioClkEnable(GPIOE);
      case GPIOF => assert ev[..j][5] == RccGpioClkEnable(GPIOF);
      case GPIOG => assert ev[..j][6] == RccGpioClkEnable(GPIOG);
    }
  }

  predicate IsOutputConfig(e: Event) {
    e.HalGpioInit? && e.init.mode == OutputPushPull
  }

  /** GPIO_Init's outputs are exactly the last four pin configurations, at
      positions 17, 19, 21 and 22. */
  lemma OutputConfigurations(cfg: BoardConfig)
    ensures var ev := GpioInit(cfg);
            |ev| == 24 &&
            (forall j :: 0 <= j < |ev| && IsOutputConfig(ev[j]) ==> j in {17, 19, 21, 22}) &&
            ev[16] == GpioBsrrWrite(cfg.usbFsVbusOn.port, BsrrDriveHigh(cfg.usbFsVbusOn.pin)) &&
            ev[17] == HalGpioInit(cfg.usbFsVbusOn.port, Output(cfg.usbFsVbusOn.pin)) &&
            ev[18] == GpioBsrrWrite(cfg.usbHsVbusOn.port, BsrrDriveLow(cfg.usbHsVbusOn.pin)) &&
            ev[19] == HalGpioInit(cfg.usbHsVbusOn.port, Output(cfg.usbHsVbusOn.pin)) &&
            ev[20] == FaultLedOff &&
            ev[21] == HalGpioInit(cfg.faultLed.port, Output(cfg.faultLed.pin)) &&
            ev[22] == HalGpioInit(cfg.intActive.port, Output(cfg.intActive.pin)) &&
            ev[23] == IntActiveOff
  {
    var ev := GpioInit(cfg);
    assert ev[..7] == ClockEnables();
    assert ev[7..14] == BulkPass();
    assert ev[14..] == FunctionPins(cfg);
    forall j | 0 <= j < |ev| && j !in {17, 19, 21, 22} ensures !IsOutputConfig(ev[j]) {
      if j < 7 {
        assert ev[..7][j] == ev[j];
      } else if j < 14 {
        assert ev[7..14][j - 7] == ev[j];
      } else {
        assert ev[14..][j - 14] == ev[j];
      }
    }
  }

  /** The full-speed VBUS switch is driven high through BSRR before its pin
      becomes an output, so the port is powered from the first instant. */
  lemma FsVbusOnLevelBeforeOutput(cfg: BoardConfig)
    ensures var ev := GpioInit(cfg);
            var fsOn := cfg.usbFsVbusOn;
            (exists j :: 0 <= j < |ev| && ConfiguresOutput(ev[j], fsOn)) &&
            forall j :: 0 <= j < |ev| && ConfiguresOutput(ev[j], fsOn) ==>
              GpioBsrrWrite(fsOn.port, BsrrDriveHigh(fsOn.pin)) in ev[..j]
  {
    var ev := GpioInit(cfg);
    OutputConfigurations(cfg);
    assert ConfiguresOutput(ev[17], cfg.usbFsVbusOn);
    forall j | 0 <= j < |ev| && ConfiguresOutput(ev[j], cfg.usbFsVbusOn)
      ensures ev[16] in ev[..j]
    {
      assert IsOutputConfig(ev[j]);
      assert ev[..j][16] == ev[16];
    }
  }

  /** The high-speed VBUS switch is driven low through BSRR before its pin
      becomes an output, so that port stays unpowered. */
  lemma HsVbusOnLevelBeforeOutput(cfg: BoardConfig)
    requires cfg.usbHsVbusOn != cfg.usbFsVbusOn
    ensures var ev := GpioInit(cfg);
            var hsOn := cfg.usbHsVbusOn;
            (exists j :: 0 <= j < |ev| && ConfiguresOutput(ev[j], hsOn)) &&
            forall j :: 0 <= j < |ev| && ConfiguresOutput(ev[j], hsOn) ==>
              GpioBsrrWrite(hsOn.port, BsrrDriveLow(hsOn.pin)) in ev[..j]
  {
    var ev := GpioInit(cfg);
    OutputConfigurations(cfg);
    assert ConfiguresOutput(ev[19], cfg.usbHsVbusOn);
    forall j | 0 <= j < |ev| && ConfiguresOutput(ev[j], cfg.usbHsVbusOn)
      ensures ev[18] in ev[..j]
    {
      assert IsOutputConfig(ev[j]);
      assert j != 17;
      assert ev[..j][18] == ev[18];
    }
  }

  /** The fault LED is switched off before its pin becomes an output. */
  lemma FaultLedOffBeforeOutput(cfg: BoardConfig)
    requires cfg.faultLed != cfg.usbFsVbusOn && cfg.faultLed != cfg.usbHsVbusOn
    ensures var ev := GpioInit(cfg);
            (exists j :: 0 <= j < |ev| && ConfiguresOutput(ev[j], cfg.faultLed)) &&
            forall j :: 0 <= j < |ev| && ConfiguresOutput(ev[j], cfg.faultLed) ==> FaultLedOff in ev[..j]
  {
    var ev := GpioInit(cfg);
    OutputConfigurations(cfg);
    assert ConfiguresOutput(ev[21], cfg.faultLed);
    forall j | 0 <= j < |ev| && ConfiguresOutput(ev[j], cfg.faultLed)
      ensures FaultLedOff in ev[..j]
    {
      assert IsOutputConfig(ev[j]);
      assert j != 17 && j != 19;
      assert ev[..j][20] == ev[20];
    }
  }
}
