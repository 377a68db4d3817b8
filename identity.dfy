/** Hardware identity gate (`CheckFirmwareMatchesHardware`, main.c:116-153).

    Two factors: the silicon family in the DBGMCU ID code, and an external
    pull-up on the fault LED pin, which is sensed by configuring the pin with
    the internal pull-down, then with no pull, and reading it back. Any
    mismatch lights both fault LEDs and halts. */
module Identity {
  import opened Hardware

  /** DBGMCU_IDCODE_DEV_ID: bits 11:0 of DBGMCU_IDCODE. */
  const DevIdMask: bv32 := 0x0000_0FFF
  /** The device ID of the STM32F405/407/415/417 family (section 38.6.1 of RM0090). */
  const DevId405_407_415_417: bv32 := 0x413

  predicate DeviceIdMatches(idcode: bv32) {
    idcode & DevIdMask == DevId405_407_415_417
  }

  /** The fault LED pin reads high in the port's input data register. */
  predicate PullUpSensed(cfg: BoardConfig, idr: bv16) {
    idr & cfg.faultLed.pin != 0
  }

  /** The probe configuration of the fault LED pin, with the given pull. */
  function Probe(cfg: BoardConfig, pull: GpioPull): GpioInitStruct {
    GpioInitStruct(cfg.faultLed.pin, Input, pull, SpeedLow, 0)
  }

  /** Pull-down, then no pull, then read the pin. */
  function ProbeEvents(cfg: BoardConfig): seq<Event> {
    [HalGpioInit(cfg.faultLed.port, Probe(cfg, PullDown)),
     HalGpioInit(cfg.faultLed.port, Probe(cfg, NoPull)),
     GpioIdrRead(cfg.faultLed.port)]
  }

  /** Both fault LED pins as push-pull outputs, starting from whatever the
      init record holds at that point. */
  function FaultLedOutputs(cfg: BoardConfig, held: GpioInitStruct): GpioInitStruct {
    held.(pin := cfg.faultLed.pin | cfg.h405FaultLedPin, mode := OutputPushPull, pull := NoPull)
  }

  /** `CheckFirmwareMatchesHardware`, given the DBGMCU ID code, the fault LED
      port's input data register as read after the probe, and the contents
      of the uninitialised `GPIO_InitStruct` on the stack. When the device ID
      does not match, the record's speed and alternate fields are never
      assigned before the fault LEDs are configured, so they keep `stack`'s. */
  function CheckFirmwareMatchesHardware(cfg: BoardConfig, idcode: bv32, idr: bv16, stack: GpioInitStruct): Outcome
  {
    var start := [RccGpioClkEnable(GPIOC), DbgmcuIdcodeRead];
    var probe := if DeviceIdMatches(idcode) then ProbeEvents(cfg) else [];
    if DeviceIdMatches(idcode) && PullUpSensed(cfg, idr) then
      Outcome(start + probe, false)
    else
      var held := if DeviceIdMatches(idcode) then Probe(cfg, NoPull) else stack;
      var fault := [HalGpioInit(cfg.faultLed.port, FaultLedOutputs(cfg, held)), FaultLedOn, H405FaultLedOn];
      Outcome(start + probe + fault, true)
  }

  /** The gate returns if and only if both factors match, and the fault
      LEDs are lit only on the halt path. */
  lemma ReturnsIffBothFactorsMatch(cfg: BoardConfig, idcode: bv32, idr: bv16, stack: GpioInitStruct)
    ensures var r := CheckFirmwareMatchesHardware(cfg, idcode, idr, stack);
            (!r.halted <==> DeviceIdMatches(idcode) && PullUpSensed(cfg, idr)) &&
            (FaultLedOn in r.events <==> r.halted)
  {
  }

  /** The port C clock is turned on and the ID code read first; the pin is
      probed, in this order, exactly when the device ID matches. */
  lemma ProbeOnlyOnIdMatch(cfg: BoardConfig, idcode: bv32, idr: bv16, stack: GpioInitStruct)
    ensures var r := CheckFirmwareMatchesHardware(cfg, idcode, idr, stack);
            |r.events| >= 2 && r.events[..2] == [RccGpioClkEnable(GPIOC), DbgmcuIdcodeRead] &&
            (GpioIdrRead(cfg.faultLed.port) in r.events <==> DeviceIdMatches(idcode)) &&
            (DeviceIdMatches(idcode) ==> |r.events| >= 5 && r.events[2..5] == ProbeEvents(cfg))
  {
  }

  /** A halt first drives both fault LED pins as outputs, then turns both
      LEDs on. */
  lemma HaltLightsFaultLeds(cfg: BoardConfig, idcode: bv32, idr: bv16, stack: GpioInitStruct)
    ensures var r := CheckFirmwareMatchesHardware(cfg, idcode, idr, stack);
            r.halted ==>
              |r.events| >= 5 &&
              r.events[|r.events| - 2..] == [FaultLedOn, H405FaultLedOn] &&
              var last := r.events[|r.events| - 3];
              last.HalGpioInit? && last.initPort == cfg.faultLed.port &&
              last.init.pin == cfg.faultLed.pin | cfg.h405FaultLedPin &&
              last.init.mode == OutputPushPull && last.init.pull == NoPull
  {
  }
}
