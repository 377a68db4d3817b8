/** System clock configuration (`SystemClock_Config`, main.c:158-189): only
    the order of the calls and the rule that either HAL clock call failing
    halts for good. The oscillator and PLL settings are not modelled. */
module Clock {
  import opened Hardware

  /** `SystemClock_Config`, given the return codes of `HAL_RCC_OscConfig`
      and `HAL_RCC_ClockConfig`. */
  function SystemClockConfig(oscStatus: HalStatus, clockStatus: HalStatus): Outcome
  {
    var osc := [PwrClkEnable, PwrVoltageScale2, HalRccOscConfig];
    if oscStatus != HalOk then
      Outcome(osc, true)
    else if clockStatus != HalOk then
      Outcome(osc + [HalRccClockConfig], true)
    else
      Outcome(osc + [HalRccClockConfig, HalSysTickClkSourceHclk], false)
  }

  /** What `SystemClock_Config` promises about its two HAL calls. */
  lemma ClockConfigContract(oscStatus: HalStatus, clockStatus: HalStatus)
    ensures var r := SystemClockConfig(oscStatus, clockStatus);
            // returns if and only if both HAL calls report HAL_OK
            (!r.halted <==> oscStatus == HalOk && clockStatus == HalOk) &&
            // a failed oscillator configuration stops before the bus clocks are touched
            (oscStatus != HalOk ==> HalRccClockConfig !in r.events) &&
            // the SysTick source is switched only when both calls succeeded
            (HalSysTickClkSourceHclk in r.events <==> !r.halted) &&
            // the oscillator is configured after the power interface is set up
            |r.events| >= 3 && r.events[..3] == [PwrClkEnable, PwrVoltageScale2, HalRccOscConfig]
  {
  }
}
