/** The boot sequence of `main` (main.c:56-73): eight calls in a fixed order,
    each of which either returns or halts for good. The first three carry the
    checks; the other five always return. */
module Boot {
  import opened Hardware
  import Flash
  import Identity
  import Clock
  import Gpio

  /** The calls `main` makes before its loop, named after the C functions. */
  datatype Stage =
    | DisableFlashWrites
    | CheckFirmwareMatchesHardware
    | SystemClockConfig
    | HalInit
    | GpioInit
    | LedInit
    | UsbHostInit
    | DownstreamInitStateMachine

  /** The order of the calls in `main`: flash lockout first, then the
      identity gate, then clocks, HAL, pins and the modules. */
  const BootOrder: seq<Stage> := [
    DisableFlashWrites, CheckFirmwareMatchesHardware, SystemClockConfig, HalInit,
    GpioInit, LedInit, UsbHostInit, DownstreamInitStateMachine]

  /** Every value the boot sequence reads from the hardware. */
  datatype BootInputs = BootInputs(
    flashCrAfterInvalidKey: bv32,          // FLASH->CR after the invalid key
    flashCrAfterKey2: bv32,                // FLASH->CR after FLASH_KEY2
    dbgmcuIdcode: bv32,                    // the DBGMCU ID code register
    faultLedIdr: bv16,                     // the fault LED port's IDR after the probe
    uninitialisedInitStruct: GpioInitStruct, // stack contents of the identity gate's init record
    oscConfigStatus: HalStatus,            // HAL_RCC_OscConfig's result
    clockConfigStatus: HalStatus)          // HAL_RCC_ClockConfig's result

  /** What one call of the boot sequence does. */
  function RunStage(cfg: BoardConfig, inp: BootInputs, st: Stage): Outcome {
    match st
    case DisableFlashWrites =>
      Flash.DisableFlashWrites(inp.flashCrAfterInvalidKey, inp.flashCrAfterKey2)
    case CheckFirmwareMatchesHardware =>
      Identity.CheckFirmwareMatchesHardware(cfg, inp.dbgmcuIdcode, inp.faultLedIdr, inp.uninitialisedInitStruct)
    case SystemClockConfig =>
      Clock.SystemClockConfig(inp.oscConfigStatus, inp.clockConfigStatus)
    case HalInit => Outcome([CallHalInit], false)
    case GpioInit => Outcome(Gpio.GpioInit(cfg), false)
    case LedInit => Outcome([CallLedInit], false)
    case UsbHostInit => Outcome([CallUsbHostInit], false)
    case DownstreamInitStateMachine => Outcome([CallDownstreamInitStateMachine], false)
  }

  /** How far a run of calls got: how many were entered, the events they
      produced, and whether the last one entered halted. */
  datatype Progress = Progress(entered: nat, events: seq<Event>, halted: bool)

  /** Make the calls in order until one halts; the rest are never entered. */
  function RunInOrder(calls: seq<Outcome>): Progress
    decreases |calls|
  {
    if calls == [] then Progress(0, [], false)
    else if calls[0].halted then Progress(1, calls[0].events, true)
    else
      var rest := RunInOrder(calls[1..]);
      Progress(1 + rest.entered, calls[0].events + rest.events, rest.halted)
  }

  /** The events of the calls, one after the other. */
  function Concat(calls: seq<Outcome>): seq<Event>
    decreases |calls|
  {
    if calls == [] then [] else calls[0].events + Concat(calls[1..])
  }

  /** None of the first `i` calls halts. */
  predicate AllReturned(calls: seq<Outcome>, i: nat)
    requires i <= |calls|
  {
    forall k :: 0 <= k < i ==> !calls[k].halted
  }

  /** A call is entered if and only if every earlier call returned; the trace
      is the events of the calls entered, and the run halts exactly when the
      last call entered halts, so it enters every call when none halts. */
  lemma {:induction false} EnteredIffEarlierReturned(calls: seq<Outcome>)
    ensures var r := RunInOrder(calls);
            r.entered <= |calls| &&
            r.events == Concat(calls[..r.entered]) &&
            (forall i :: 0 <= i < |calls| ==> (i < r.entered <==> AllReturned(calls, i))) &&
            (r.halted <==> r.entered > 0 && calls[r.entered - 1].halted) &&
            (!r.halted ==> r.entered == |calls|)
    decreases |calls|
  {
    if calls != [] {
      var r := RunInOrder(calls);
      if calls[0].halted {
        assert calls[..1] == [calls[0]];
        assert Concat(calls[..1]) == calls[0].events + Concat([]);
        forall i | 0 <= i < |calls|
          ensures i < r.entered <==> AllReturned(calls, i)
        {
          if i > 0 {
            assert !AllReturned(calls, i) by { assert calls[0].halted; }
          }
        }
      } else {
        var rest := RunInOrder(calls[1..]);
        EnteredIffEarlierReturned(calls[1..]);
        assert calls[..r.entered][1..] == calls[1..][..rest.entered];
        forall i | 0 <= i < |calls|
          ensures i < r.entered <==> AllReturned(calls, i)
        {
          if i > 0 {
            assert AllReturned(calls, i) <==> AllReturned(calls[1..], i - 1) by {
              if AllReturned(calls[1..], i - 1) {
                forall k | 0 <= k < i ensures !calls[k].halted {
                  if k > 0 { assert calls[k] == calls[1..][k - 1]; }
                }
              }
            }
          }
        }
      }
    }
  }

  /** What each boot call does, in the order of `main`. */
  function BootCalls(cfg: BoardConfig, inp: BootInputs): seq<Outcome> {
    Outcomes(cfg, inp, BootOrder)
  }

  /** The boot sequence of `main`. */
  function Boot(cfg: BoardConfig, inp: BootInputs): Progress {
    RunInOrder(BootCalls(cfg, inp))
  }

  /** The calls of `main` that were entered. */
  function Entered(b: Progress): seq<Stage>
    requires b.entered <= |BootOrder|
  {
    BootOrder[..b.entered]
  }

  /** Where a call stands in `main`. */
  function Position(st: Stage): (i: nat)
    ensures i < |BootOrder| && BootOrder[i] == st
  {
    match st
    case DisableFlashWrites => 0
    case CheckFirmwareMatchesHardware => 1
    case SystemClockConfig => 2
    case HalInit => 3
    case GpioInit => 4
    case LedInit => 5
    case UsbHostInit => 6
    case DownstreamInitStateMachine => 7
  }

  /** No call appears twice in `main`'s order. */
  lemma BootOrderDistinct()
    ensures forall i :: 0 <= i < |BootOrder| ==> Position(BootOrder[i]) == i
  {
    forall i | 0 <= i < |BootOrder| ensures Position(BootOrder[i]) == i {
      if i == 0 {} else if i == 1 {} else if i == 2 {} else if i == 3 {}
      else if i == 4 {} else if i == 5 {} else if i == 6 {} else {}
    }
  }

  /** Run `main`'s calls, given what each does: each runs at most once, in
      the order of `main`; a call is entered if and only if every earlier
      one returned, and the run ends without a halt exactly when every call
      has been entered and returned. */
  lemma InMainOrder(calls: seq<Outcome>)
    requires |calls| == |BootOrder|
    ensures var b := RunInOrder(calls);
            b.entered <= |BootOrder| &&
            (forall x, y :: 0 <= x < y < b.entered ==> Entered(b)[x] != Entered(b)[y]) &&
            (forall i :: 0 <= i < |BootOrder| ==> (BootOrder[i] in Entered(b) <==> AllReturned(calls, i))) &&
            (!b.halted <==> AllReturned(calls, |BootOrder|)) &&
            (!b.halted ==> b.entered == |BootOrder| && Entered(b) == BootOrder)
  {
    var b := RunInOrder(calls);
    EnteredIffEarlierReturned(calls);
    BootOrderDistinct();
    var e := Entered(b);
    forall x, y | 0 <= x < y < b.entered ensures e[x] != e[y] {
      assert Position(e[x]) == x && Position(e[y]) == y;
    }
    forall i | 0 <= i < |BootOrder|
      ensures BootOrder[i] in e <==> i < b.entered
    {
      if BootOrder[i] in e {
        var x :| 0 <= x < b.entered && e[x] == BootOrder[i];
        assert Position(BootOrder[x]) == x;
      }
    }
    if !b.halted {
      assert !calls[7].halted;
      assert AllReturned(calls, 7);
    }
    if AllReturned(calls, |BootOrder|) {
      assert AllReturned(calls, 7);
      assert b.entered == 8;
      assert !calls[7].halted;
    }
  }

  /** The boot sequence itself runs its calls in `main`'s order, as above. */
  lemma BootOrderRespected(cfg: BoardConfig, inp: BootInputs)
    ensures var b := Boot(cfg, inp);
            b.entered <= |BootOrder| &&
            (forall x, y :: 0 <= x < y < b.entered ==> Entered(b)[x] != Entered(b)[y]) &&
            (forall i :: 0 <= i < |BootOrder| ==>
               (BootOrder[i] in Entered(b) <==> AllReturned(BootCalls(cfg, inp), i))) &&
            (!b.halted <==> AllReturned(BootCalls(cfg, inp), |BootOrder|)) &&
            (!b.halted ==> b.entered == |BootOrder| && Entered(b) == BootOrder)
  {
    InMainOrder(BootCalls(cfg, inp));
  }

  /** The boot calls that can produce event `e`. */
  function Emitters(e: Event): set<Stage> {
    match e
    case EnableOneBusFault | FlashKeyrWrite(_) | FlashCrRead => {DisableFlashWrites}
    case DbgmcuIdcodeRead | GpioIdrRead(_) | FaultLedOn | H405FaultLedOn => {CheckFirmwareMatchesHardware}
    case RccGpioClkEnable(_) | HalGpioInit(_, _) => {CheckFirmwareMatchesHardware, GpioInit}
    case PwrClkEnable | PwrVoltageScale2 | HalRccOscConfig | HalRccClockConfig | HalSysTickClkSourceHclk =>
      {SystemClockConfig}
    case GpioBsrrWrite(_, _) | FaultLedOff | IntActiveOff => {GpioInit}
    case CallHalInit => {HalInit}
    case CallLedInit => {LedInit}
    case CallUsbHostInit => {UsbHostInit}
    case CallDownstreamInitStateMachine => {DownstreamInitStateMachine}
    case CallUsbHostProcess | CallDownstreamSpiProcess | CallCheckNotifyDisconnectReply | Wfi => {}
  }

  /** Each boot call produces only its own kinds of events. */
  lemma StageEmits(cfg: BoardConfig, inp: BootInputs, st: Stage)
    ensures forall e :: e in RunStage(cfg, inp, st).events ==> st in Emitters(e)
  {
    match st
    case DisableFlashWrites => FlashEmits(inp);
    case CheckFirmwareMatchesHardware => IdentityEmits(cfg, inp);
    case SystemClockConfig => ClockEmits(inp);
    case GpioInit => GpioEmits(cfg);
    case _ =>
  }

  lemma FlashEmits(inp: BootInputs)
    ensures forall e :: e in Flash.DisableFlashWrites(inp.flashCrAfterInvalidKey, inp.flashCrAfterKey2).events ==>
              DisableFlashWrites in Emitters(e)
  {
  }

  lemma IdentityEmits(cfg: BoardConfig, inp: BootInputs)
    ensures forall e :: e in Identity.CheckFirmwareMatchesHardware(cfg, inp.dbgmcuIdcode, inp.faultLedIdr, inp.uninitialisedInitStruct).events ==>
              CheckFirmwareMatchesHardware in Emitters(e)
  {
    var id, idr, stack := inp.dbgmcuIdcode, inp.faultLedIdr, inp.uninitialisedInitStruct;
    var ev := Identity.CheckFirmwareMatchesHardware(cfg, id, idr, stack).events;
    var start := [RccGpioClkEnable(GPIOC), DbgmcuIdcodeRead];
    var probe := if Identity.DeviceIdMatches(id) then Identity.ProbeEvents(cfg) else [];
    var held := if Identity.DeviceIdMatches(id) then Identity.Probe(cfg, NoPull) else stack;
    var fault := [HalGpioInit(cfg.faultLed.port, Identity.FaultLedOutputs(cfg, held)), FaultLedOn, H405FaultLedOn];
    assert ev == start + probe || ev == start + probe + fault;
    ProbeEmits(cfg);
    FaultEmits(fault);
  }

  lemma ProbeEmits(cfg: BoardConfig)
    ensures forall e :: e in [RccGpioClkEnable(GPIOC), DbgmcuIdcodeRead] + Identity.ProbeEvents(cfg) ==>
              CheckFirmwareMatchesHardware in Emitters(e)
  {
  }

  lemma FaultEmits(fault: seq<Event>)
    requires |fault| == 3 && fault[0].HalGpioInit? && fault[1..] == [FaultLedOn, H405FaultLedOn]
    ensures forall e :: e in fault ==> CheckFirmwareMatchesHardware in Emitters(e)
  {
    forall e | e in fault ensures CheckFirmwareMatchesHardware in Emitters(e) {
      var j :| 0 <= j < 3 && fault[j] == e;
      if j > 0 {
        assert e == fault[1..][j - 1];
      }
    }
  }

  lemma ClockEmits(inp: BootInputs)
    ensures forall e :: e in Clock.SystemClockConfig(inp.oscConfigStatus, inp.clockConfigStatus).events ==>
              SystemClockConfig in Emitters(e)
  {
  }

  lemma GpioEmits(cfg: BoardConfig)
    ensures forall e :: e in Gpio.GpioInit(cfg) ==> GpioInit in Emitters(e)
  {
    forall e | e in Gpio.GpioInit(cfg) ensures GpioInit in Emitters(e) {
      assert e in Gpio.ClockEnables() || e in Gpio.BulkPass() ||
             e in Gpio.VbusSense(cfg) || e in Gpio.VbusSwitches(cfg) || e in Gpio.Indicators(cfg);
    }
  }

  lemma {:induction false} ConcatMember(calls: seq<Outcome>, e: Event)
    requires e in Concat(calls)
    ensures exists i :: 0 <= i < |calls| && e in calls[i].events
    decreases |calls|
  {
    if e !in calls[0].events {
      ConcatMember(calls[1..], e);
      var i :| 0 <= i < |calls[1..]| && e in calls[1..][i].events;
      assert calls[1..][i] == calls[i + 1];
    }
  }

  /** Every event of `b` comes from a call that was entered. */
  predicate Traceable(b: Progress) {
    b.entered <= |BootOrder| &&
    forall e :: e in b.events ==> exists st :: st in Entered(b) && st in Emitters(e)
  }

  /** Every event of the boot comes from a call that was entered. */
  lemma EventsFromEnteredStages(cfg: BoardConfig, inp: BootInputs)
    ensures Traceable(Boot(cfg, inp))
  {
    var calls := BootCalls(cfg, inp);
    var b := Boot(cfg, inp);
    EnteredIffEarlierReturned(calls);
    forall e | e in b.events ensures exists st :: st in Entered(b) && st in Emitters(e) {
      ConcatMember(calls[..b.entered], e);
      var i :| 0 <= i < b.entered && e in calls[..b.entered][i].events;
      StageEmits(cfg, inp, BootOrder[i]);
      assert BootOrder[i] == Entered(b)[i];
    }
  }

  /** A run whose first call halts is that call alone. */
  lemma FirstHalts(calls: seq<Outcome>)
    requires |calls| > 0 && calls[0].halted
    ensures RunInOrder(calls) == Progress(1, calls[0].events, true)
  {
  }

  /** A run whose first call returns and whose second halts is those two. */
  lemma SecondHalts(calls: seq<Outcome>)
    requires |calls| > 1 && !calls[0].halted && calls[1].halted
    ensures RunInOrder(calls) == Progress(2, calls[0].events + calls[1].events, true)
  {
    assert calls[1..][0] == calls[1];
    FirstHalts(calls[1..]);
  }

  /** An event none of whose emitters was entered does not occur. */
  lemma NotEmitted(b: Progress, e: Event)
    requires Traceable(b)
    requires forall i :: 0 <= i < b.entered ==> BootOrder[i] !in Emitters(e)
    ensures e !in b.events
  {
    forall st | st in Entered(b) ensures st !in Emitters(e) {
      var i :| 0 <= i < b.entered && Entered(b)[i] == st;
    }
  }

  /** A clear lock bit after the invalid key stops the boot inside the
      flash lockout: only the invalid key was written, and the device ID is
      never read. */
  lemma FlashLockoutFailureStopsBoot(cfg: BoardConfig, inp: BootInputs)
    requires !Flash.LockBitSet(inp.flashCrAfterInvalidKey)
    ensures var b := Boot(cfg, inp);
            b.halted && b.entered == 1 && Entered(b) == [DisableFlashWrites] &&
            Flash.KeyWrites(b.events) == [Flash.InvalidKey] &&
            DbgmcuIdcodeRead !in b.events
  {
    var calls := BootCalls(cfg, inp);
    FirstHalts(calls);
    EventsFromEnteredStages(cfg, inp);
    NotEmitted(Boot(cfg, inp), DbgmcuIdcodeRead);
  }

  /** A flash lockout that passes but a device ID or pull-up that does not
      match stops the boot in the identity gate, with both fault LEDs lit:
      the clocks are never configured and neither the USB host nor the
      downstream state machine is initialised. */
  lemma IdentityFailureStopsBoot(cfg: BoardConfig, inp: BootInputs)
    requires Flash.LockBitSet(inp.flashCrAfterInvalidKey) && Flash.LockBitSet(inp.flashCrAfterKey2)
    requires !(Identity.DeviceIdMatches(inp.dbgmcuIdcode) && Identity.PullUpSensed(cfg, inp.faultLedIdr))
    ensures var b := Boot(cfg, inp);
            b.halted && b.entered == 2 && Entered(b) == [DisableFlashWrites, CheckFirmwareMatchesHardware] &&
            FaultLedOn in b.events && H405FaultLedOn in b.events &&
            HalRccOscConfig !in b.events &&
            CallUsbHostInit !in b.events && CallDownstreamInitStateMachine !in b.events
  {
    var calls := BootCalls(cfg, inp);
    SecondHalts(calls);
    var b := Boot(cfg, inp);
    assert Entered(b) == [DisableFlashWrites, CheckFirmwareMatchesHardware];
    var id := calls[1].events;
    assert id[|id| - 2..] == [FaultLedOn, H405FaultLedOn];
    assert H405FaultLedOn == id[|id| - 1];
    EventsFromEnteredStages(cfg, inp);
    StoppedInIdentityGate(b);
  }

  /** A boot that stops in the identity gate never configures the clocks or
      starts the USB host or downstream modules. */
  lemma StoppedInIdentityGate(b: Progress)
    requires Traceable(b) && b.entered == 2
    ensures HalRccOscConfig !in b.events &&
            CallUsbHostInit !in b.events && CallDownstreamInitStateMachine !in b.events
  {
    assert BootOrder[0] == DisableFlashWrites && BootOrder[1] == CheckFirmwareMatchesHardware;
    NotEmitted(b, HalRccOscConfig);
    NotEmitted(b, CallUsbHostInit);
    NotEmitted(b, CallDownstreamInitStateMachine);
  }

  /** Only the first three boot calls can halt. */
  lemma LaterCallsReturn(cfg: BoardConfig, inp: BootInputs)
    ensures var calls := BootCalls(cfg, inp);
            (AllReturned(calls, |BootOrder|) <==>
               !calls[0].halted && !calls[1].halted && !calls[2].halted)
  {
    var calls := BootCalls(cfg, inp);
    if !calls[0].halted && !calls[1].halted && !calls[2].halted {
      forall k | 0 <= k < |BootOrder| ensures !calls[k].halted {
        if k >= 3 { assert calls[k] == RunStage(cfg, inp, BootOrder[k]); }
      }
    }
  }

  /** The boot reaches the run loop if and only if the flash lock held at
      both checks, the device ID and the pull-up matched, and both HAL clock
      calls succeeded; it then has entered every call of `main`. */
  lemma BootSucceedsIff(cfg: BoardConfig, inp: BootInputs)
    ensures var b := Boot(cfg, inp);
            (!b.halted <==>
               Flash.LockBitSet(inp.flashCrAfterInvalidKey) && Flash.LockBitSet(inp.flashCrAfterKey2) &&
               Identity.DeviceIdMatches(inp.dbgmcuIdcode) && Identity.PullUpSensed(cfg, inp.faultLedIdr) &&
               inp.oscConfigStatus == HalOk && inp.clockConfigStatus == HalOk) &&
            (!b.halted ==> b.entered == |BootOrder| && Entered(b) == BootOrder)
  {
    var calls := BootCalls(cfg, inp);
    var b := Boot(cfg, inp);
    InMainOrder(calls);
    LaterCallsReturn(cfg, inp);
    ChecksPass(cfg, inp);
    assert !b.halted <==> !calls[0].halted && !calls[1].halted && !calls[2].halted;
  }

  /** The first three calls return exactly when their checks pass. */
  lemma ChecksPass(cfg: BoardConfig, inp: BootInputs)
    ensures var calls := BootCalls(cfg, inp);
            (!calls[0].halted <==> Flash.LockBitSet(inp.flashCrAfterInvalidKey) && Flash.LockBitSet(inp.flashCrAfterKey2)) &&
            (!calls[1].halted <==> Identity.DeviceIdMatches(inp.dbgmcuIdcode) && Identity.PullUpSensed(cfg, inp.faultLedIdr)) &&
            (!calls[2].halted <==> inp.oscConfigStatus == HalOk && inp.clockConfigStatus == HalOk)
  {
  }

  /** Only the flash lockout writes the flash key register. */
  lemma {:induction false} NoKeyWritesAfterLockout(cfg: BoardConfig, inp: BootInputs, stages: seq<Stage>)
    requires DisableFlashWrites !in stages
    ensures Flash.KeyWrites(Concat(Outcomes(cfg, inp, stages))) == []
    decreases |stages|
  {
    if stages != [] {
      var rest := Outcomes(cfg, inp, stages);
      assert rest[1..] == Outcomes(cfg, inp, stages[1..]);
      NoKeyWritesAfterLockout(cfg, inp, stages[1..]);
      StageEmits(cfg, inp, stages[0]);
      var ev := RunStage(cfg, inp, stages[0]).events;
      forall i | 0 <= i < |ev| ensures !ev[i].FlashKeyrWrite? {
        assert stages[0] in Emitters(ev[i]);
      }
      Flash.KeyWritesAppend(ev, Concat(rest[1..]));
    }
  }

  /** What each of `stages` does. */
  function Outcomes(cfg: BoardConfig, inp: BootInputs, stages: seq<Stage>): (calls: seq<Outcome>)
    ensures |calls| == |stages|
    ensures forall i :: 0 <= i < |stages| ==> calls[i] == RunStage(cfg, inp, stages[i])
    decreases |stages|
  {
    if stages == [] then [] else [RunStage(cfg, inp, stages[0])] + Outcomes(cfg, inp, stages[1..])
  }

  /** Dropping the first call of a prefix of outcomes is taking the
      outcomes of the matching slice of stages. */
  lemma OutcomesSlice(cfg: BoardConfig, inp: BootInputs, stages: seq<Stage>, n: nat)
    requires 0 < n <= |stages|
    ensures Outcomes(cfg, inp, stages)[..n][1..] == Outcomes(cfg, inp, stages[1..n])
  {
  }

  /** The flash key register is written only by the flash lockout, so the
      whole boot writes 999, then FLASH_KEY1 and FLASH_KEY2 only when the
      lock held after the invalid key. */
  lemma BootKeyWrites(cfg: BoardConfig, inp: BootInputs)
    ensures Flash.KeyWrites(Boot(cfg, inp).events) ==
            if Flash.LockBitSet(inp.flashCrAfterInvalidKey) then [Flash.InvalidKey, Flash.FlashKey1, Flash.FlashKey2]
            else [Flash.InvalidKey]
  {
    var calls := BootCalls(cfg, inp);
    var b := Boot(cfg, inp);
    var n := b.entered;
    assert 0 < n <= |BootOrder| && b.events == Concat(calls[..n]) by {
      EnteredIffEarlierReturned(calls);
    }
    var later := calls[..n][1..];
    assert b.events == calls[0].events + Concat(later);
    LaterCallsWriteNoKeys(cfg, inp, n);
    Flash.KeyWritesAppend(calls[0].events, Concat(later));
    Flash.LockoutContract(inp.flashCrAfterInvalidKey, inp.flashCrAfterKey2);
  }

  lemma LaterCallsWriteNoKeys(cfg: BoardConfig, inp: BootInputs, n: nat)
    requires 0 < n <= |BootOrder|
    ensures Flash.KeyWrites(Concat(BootCalls(cfg, inp)[..n][1..])) == []
  {
    OutcomesSlice(cfg, inp, BootOrder, n);
    assert DisableFlashWrites !in BootOrder[1..n] by {
      BootOrderDistinct();
      forall k | 1 <= k < n ensures BootOrder[k] != DisableFlashWrites {
        assert Position(BootOrder[k]) == k;
      }
    }
    NoKeyWritesAfterLockout(cfg, inp, BootOrder[1..n]);
  }

  /** The flash lockout's outcome. */
  function FlashOutcome(inp: BootInputs): Outcome {
    Flash.DisableFlashWrites(inp.flashCrAfterInvalidKey, inp.flashCrAfterKey2)
  }

  /** The identity gate's outcome. */
  function IdentityOutcome(cfg: BoardConfig, inp: BootInputs): Outcome {
    Identity.CheckFirmwareMatchesHardware(cfg, inp.dbgmcuIdcode, inp.faultLedIdr, inp.uninitialisedInitStruct)
  }

  /** The clock configuration's outcome. */
  function ClockOutcome(inp: BootInputs): Outcome {
    Clock.SystemClockConfig(inp.oscConfigStatus, inp.clockConfigStatus)
  }

  /** The calls after the clock configuration, which always return. */
  function StartUp(cfg: BoardConfig): seq<Event> {
    [CallHalInit] + Gpio.GpioInit(cfg) + [CallLedInit, CallUsbHostInit, CallDownstreamInitStateMachine]
  }

  /** Where the boot ends, call by call: in the flash lockout, the identity
      gate or the clock configuration if one of them halts, otherwise after
      all eight calls. */
  lemma BootStopsInLockout(cfg: BoardConfig, inp: BootInputs)
    requires FlashOutcome(inp).halted
    ensures Boot(cfg, inp) == Progress(1, FlashOutcome(inp).events, true)
  {
    FirstHalts(BootCalls(cfg, inp));
  }

  lemma BootStopsInIdentityGate(cfg: BoardConfig, inp: BootInputs)
    requires !FlashOutcome(inp).halted && IdentityOutcome(cfg, inp).halted
    ensures Boot(cfg, inp) == Progress(2, FlashOutcome(inp).events + IdentityOutcome(cfg, inp).events, true)
  {
    SecondHalts(BootCalls(cfg, inp));
  }

  lemma BootStopsInClockConfig(cfg: BoardConfig, inp: BootInputs)
    requires !FlashOutcome(inp).halted && !IdentityOutcome(cfg, inp).halted && ClockOutcome(inp).halted
    ensures Boot(cfg, inp) ==
            Progress(3, FlashOutcome(inp).events + IdentityOutcome(cfg, inp).events + ClockOutcome(inp).events, true)
  {
    ThirdHalts(BootCalls(cfg, inp));
  }

  lemma BootReturns(cfg: BoardConfig, inp: BootInputs)
    requires !FlashOutcome(inp).halted && !IdentityOutcome(cfg, inp).halted && !ClockOutcome(inp).halted
    ensures Boot(cfg, inp) ==
            Progress(|BootOrder|,
                     FlashOutcome(inp).events + IdentityOutcome(cfg, inp).events + ClockOutcome(inp).events + StartUp(cfg),
                     false)
  {
    var calls := BootCalls(cfg, inp);
    LaterCallsReturn(cfg, inp);
    EightReturn(calls);
  }

  /** The boot read as the straight-line code of `main`: each checking
      call either halts, ending the boot after it, or returns into the rest. */
  function Staged(cfg: BoardConfig, inp: BootInputs): Outcome {
    Then(FlashOutcome(inp), FromIdentityGate(cfg, inp))
  }

  /** The boot from the identity gate on. */
  function FromIdentityGate(cfg: BoardConfig, inp: BootInputs): Outcome {
    Then(IdentityOutcome(cfg, inp), FromClockConfig(cfg, inp))
  }

  /** The boot from the clock configuration on. */
  function FromClockConfig(cfg: BoardConfig, inp: BootInputs): Outcome {
    Then(ClockOutcome(inp), Outcome(StartUp(cfg), false))
  }

  /** A call followed, if it returns, by the rest. */
  function Then(first: Outcome, rest: Outcome): Outcome {
    if first.halted then first else Outcome(first.events + rest.events, rest.halted)
  }

  /** Appending a call's events and then the rest's is appending what
      `Then` records. */
  lemma ThenAppends(t: seq<Event>, first: Outcome, rest: Outcome)
    requires !first.halted
    ensures (t + first.events) + rest.events == t + Then(first, rest).events
    ensures rest.halted == Then(first, rest).halted
  {
    assert (t + first.events) + rest.events == t + (first.events + rest.events);
  }

  /** The run-in-order reading of the eight calls and the straight-line
      reading agree. */
  lemma BootIsStaged(cfg: BoardConfig, inp: BootInputs)
    ensures Boot(cfg, inp).events == Staged(cfg, inp).events
    ensures Boot(cfg, inp).halted == Staged(cfg, inp).halted
  {
    if FlashOutcome(inp).halted {
      BootStopsInLockout(cfg, inp);
    } else if IdentityOutcome(cfg, inp).halted {
      BootStopsInIdentityGate(cfg, inp);
    } else if ClockOutcome(inp).halted {
      BootStopsInClockConfig(cfg, inp);
      Reassociate(FlashOutcome(inp).events, IdentityOutcome(cfg, inp).events, ClockOutcome(inp).events, []);
    } else {
      BootReturns(cfg, inp);
      Reassociate(FlashOutcome(inp).events, IdentityOutcome(cfg, inp).events, ClockOutcome(inp).events, StartUp(cfg));
    }
  }

  lemma Reassociate(a: seq<Event>, b: seq<Event>, c: seq<Event>, d: seq<Event>)
    ensures a + b + c + d == a + (b + (c + d))
    ensures a + b + c == a + (b + c)
  {
  }

  lemma ThirdHalts(calls: seq<Outcome>)
    requires |calls| > 2 && !calls[0].halted && !calls[1].halted && calls[2].halted
    ensures RunInOrder(calls) == Progress(3, calls[0].events + calls[1].events + calls[2].events, true)
  {
    assert calls[1..][0] == calls[1] && calls[1..][1] == calls[2];
    SecondHalts(calls[1..]);
  }

  lemma {:induction false} AllReturn(calls: seq<Outcome>)
    requires AllReturned(calls, |calls|)
    ensures RunInOrder(calls) == Progress(|calls|, Concat(calls), false)
    decreases |calls|
  {
    if calls != [] {
      assert AllReturned(calls[1..], |calls| - 1) by {
        forall k | 0 <= k < |calls| - 1 ensures !calls[1..][k].halted {
          assert calls[1..][k] == calls[k + 1];
        }
      }
      assert !calls[0].halted;
      AllReturn(calls[1..]);
    }
  }

  lemma EightReturn(calls: seq<Outcome>)
    requires |calls| == 8 && AllReturned(calls, 8)
    ensures RunInOrder(calls) ==
            Progress(8, calls[0].events + calls[1].events + calls[2].events +
                        (calls[3].events + calls[4].events + (calls[5].events + calls[6].events + calls[7].events)),
                     false)
  {
    AllReturn(calls);
    var c := calls;
    assert Concat(c[7..]) == c[7].events by { assert Concat(c[7..][1..]) == []; }
    assert Concat(c[6..]) == c[6].events + Concat(c[7..]) by { assert c[6..][1..] == c[7..]; }
    assert Concat(c[5..]) == c[5].events + Concat(c[6..]) by { assert c[5..][1..] == c[6..]; }
    assert Concat(c[4..]) == c[4].events + Concat(c[5..]) by { assert c[4..][1..] == c[5..]; }
    assert Concat(c[3..]) == c[3].events + Concat(c[4..]) by { assert c[3..][1..] == c[4..]; }
    assert Concat(c[2..]) == c[2].events + Concat(c[3..]) by { assert c[2..][1..] == c[3..]; }
    assert Concat(c[1..]) == c[1].events + Concat(c[2..]) by { assert c[1..][1..] == c[2..]; }
  }
}
