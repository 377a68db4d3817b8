/** Flash write lockout (`DisableFlashWrites`, main.c:98-113).

    Every write to the flash key register is expected to raise a bus fault,
    which the fault handler absorbs once per `EnableOneBusFault`. The lock
    bit of FLASH->CR is read after the invalid key and again after the two
    valid key halves; a clear lock bit at either read halts for good. */
module Flash {
  import opened Hardware

  /** The deliberately invalid key written first. */
  const InvalidKey: bv32 := 999
  /** FLASH_KEY1 and FLASH_KEY2: the unlock sequence of the flash interface
      (section 3.5.1 of the STM32F405/407 reference manual, RM0090). */
  const FlashKey1: bv32 := 0x4567_0123
  const FlashKey2: bv32 := 0xCDEF_89AB
  /** FLASH_CR_LOCK: bit 31 of FLASH->CR. */
  const FlashCrLock: bv32 := 0x8000_0000

  predicate LockBitSet(cr: bv32) {
    cr & FlashCrLock != 0
  }

  /** The values written to the flash key register, in order. */
  function KeyWrites(events: seq<Event>): (keys: seq<bv32>)
    ensures |keys| <= |events|
    ensures keys == [] <==> forall i :: 0 <= i < |events| ==> !events[i].FlashKeyrWrite?
  {
    if events == [] then []
    else (if events[0].FlashKeyrWrite? then [events[0].key] else []) + KeyWrites(events[1..])
  }

  lemma {:induction false} KeyWritesAppend(a: seq<Event>, b: seq<Event>)
    ensures KeyWrites(a + b) == KeyWrites(a) + KeyWrites(b)
  {
    if a == [] {
      assert a + b == b;
    } else {
      assert (a + b)[1..] == a[1..] + b;
      KeyWritesAppend(a[1..], b);
    }
  }

  /** `DisableFlashWrites`, given the two values read back from FLASH->CR:
      after the invalid key, and after FLASH_KEY2. */
  function DisableFlashWrites(crAfterInvalidKey: bv32, crAfterKey2: bv32): Outcome
  {
    var first := [EnableOneBusFault, FlashKeyrWrite(InvalidKey), FlashCrRead];
    if !LockBitSet(crAfterInvalidKey) then
      Outcome(first, true)
    else
      var unlock := [EnableOneBusFault, FlashKeyrWrite(FlashKey1),
                     EnableOneBusFault, FlashKeyrWrite(FlashKey2), FlashCrRead];
      var events := first + unlock;
      Outcome(events, !LockBitSet(crAfterKey2))
  }

  /** The lockout returns only when the lock bit reads set at both checks,
      and the key register sees 999, then FLASH_KEY1 and FLASH_KEY2 --
      unless the first check halts. */
  lemma LockoutContract(crAfterInvalidKey: bv32, crAfterKey2: bv32)
    ensures var r := DisableFlashWrites(crAfterInvalidKey, crAfterKey2);
            (!r.halted <==> LockBitSet(crAfterInvalidKey) && LockBitSet(crAfterKey2)) &&
            KeyWrites(r.events) ==
              if LockBitSet(crAfterInvalidKey) then [InvalidKey, FlashKey1, FlashKey2] else [InvalidKey]
  {
    var first := [EnableOneBusFault, FlashKeyrWrite(InvalidKey), FlashCrRead];
    assert KeyWrites(first) == [InvalidKey] by {
      assert KeyWrites(first[1..][1..]) == [];
    }
    if LockBitSet(crAfterInvalidKey) {
      var unlock := [EnableOneBusFault, FlashKeyrWrite(FlashKey1),
                     EnableOneBusFault, FlashKeyrWrite(FlashKey2), FlashCrRead];
      assert KeyWrites(unlock) == [FlashKey1, FlashKey2] by {
        assert KeyWrites(unlock[2..]) == [FlashKey2] by {
          assert KeyWrites(unlock[2..][1..][1..]) == [];
        }
      }
      KeyWritesAppend(first, unlock);
    }
  }

  /** The order of the writes: each key write is immediately preceded by its
      own bus-fault permission, each lock-bit check immediately follows a key
      write, and the procedure always ends on a lock-bit check. */
  lemma KeyWriteDiscipline(crAfterInvalidKey: bv32, crAfterKey2: bv32)
    ensures var r := DisableFlashWrites(crAfterInvalidKey, crAfterKey2);
            (forall i :: 0 <= i < |r.events| && r.events[i].FlashKeyrWrite? ==>
               0 < i && r.events[i - 1] == EnableOneBusFault) &&
            (forall i :: 0 <= i < |r.events| && r.events[i] == FlashCrRead ==>
               0 < i && r.events[i - 1].FlashKeyrWrite?) &&
            |r.events| > 0 && r.events[|r.events| - 1] == FlashCrRead
  {
  }

  /** The lock bit reads clear after the invalid key.
      The procedure halts and neither valid key half is ever written. */
  lemma LockClearAfterInvalidKeyHalts(crAfterInvalidKey: bv32, crAfterKey2: bv32)
    requires !LockBitSet(crAfterInvalidKey)
    ensures var r := DisableFlashWrites(crAfterInvalidKey, crAfterKey2);
            r.halted && FlashKeyrWrite(FlashKey1) !in r.events && FlashKeyrWrite(FlashKey2) !in r.events
  {
    var r := DisableFlashWrites(crAfterInvalidKey, crAfterKey2);
    assert r.events == [EnableOneBusFault, FlashKeyrWrite(InvalidKey), FlashCrRead];
  }
}
