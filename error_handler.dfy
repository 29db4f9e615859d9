/**
 * The error handler: the 32-bit notification word that other components OR codes into,
 * the task that dispatches a received word to the on-board LED, and the battery task that
 * averages ten ADC samples and raises one of the two battery warnings.
 *
 * The ADC is injected: one battery round takes its ten calibrated samples (mV) as input.
 */
module ErrorHandler {
  import opened CInt

  /** `socketsense_error_t`: bits 0-15 are errors, bits 16-31 warnings. */
  type Code = bv32

  const ErrorBme280NotFound: Code := 1 << 0
  const WarningBatteryLevelNotOk: Code := 1 << 16
  const WarningBatteryLevelOk: Code := 1 << 17

  const ErrorMask: Code := 0x0000_FFFF
  const WarningMask: Code := 0xFFFF_0000

  const BatteryTaskPeriodMs := 30000
  const BatteryNoOfSamples := 10
  const BatteryWarningVoltage := 3300

  /** Every word splits into its error half and its warning half, and the halves are disjoint. */
  lemma ErrorAndWarningHalves(w: Code)
    ensures (w & ErrorMask) | (w & WarningMask) == w
    ensures (w & ErrorMask) & (w & WarningMask) == 0
    ensures ErrorBme280NotFound & WarningMask == 0
    ensures WarningBatteryLevelNotOk & ErrorMask == 0 && WarningBatteryLevelOk & ErrorMask == 0
  {
  }

  /** The pending word after a sequence of `error_handler_notify` calls, oldest first. */
  function Accumulate(w: Code, codes: seq<Code>): Code
  {
    if |codes| == 0 then w else Accumulate(w, codes[..|codes| - 1]) | codes[|codes| - 1]
  }

  /**
   * Notifications combine: every bit already pending and every bit of every code sent
   * since is set in the word the handler eventually receives, and no other bit is.
   */
  lemma {:induction false} AccumulateKeepsEveryBit(w: Code, codes: seq<Code>, i: nat)
    requires i < |codes|
    ensures Accumulate(w, codes) & w == w
    ensures Accumulate(w, codes) & codes[i] == codes[i]
  {
    var n := |codes| - 1;
    if i < n {
      AccumulateKeepsEveryBit(w, codes[..n], i);
      assert codes[..n][i] == codes[i];
    } else if n > 0 {
      AccumulateKeepsPending(w, codes[..n]);
    }
  }

  lemma {:induction false} AccumulateKeepsPending(w: Code, codes: seq<Code>)
    ensures Accumulate(w, codes) & w == w
  {
    if |codes| > 0 {
      AccumulateKeepsPending(w, codes[..|codes| - 1]);
    }
  }

  /**
   * The received word is exactly the pending word OR the union of the codes sent: the
   * notifications add no bit that none of them carried.
   */
  lemma {:induction false} AccumulateIsUnion(w: Code, codes: seq<Code>)
    ensures Accumulate(w, codes) == w | Accumulate(0, codes)
  {
    if |codes| > 0 {
      var n := |codes| - 1;
      AccumulateIsUnion(w, codes[..n]);
      OrAssociative(w, Accumulate(0, codes[..n]), codes[n]);
    }
  }

  lemma OrAssociative(x: Code, y: Code, z: Code)
    ensures (x | y) | z == x | (y | z)
  {
  }

  /** Sum of the samples, as an unbounded integer. */
  function Sum(s: seq<u32>): nat
  {
    if |s| == 0 then 0 else Sum(s[..|s| - 1]) + s[|s| - 1]
  }

  /**
   * One battery reading: `value` accumulates the samples in a `uint32_t` (so modulo 2^32),
   * is divided by 10 and doubled (the voltage divider halves the battery voltage).
   */
  function BatteryVoltage(samples: seq<u32>): u32
    requires |samples| == BatteryNoOfSamples
  {
    ToU32((Sum(samples) % 0x1_0000_0000) / BatteryNoOfSamples * 2)
  }

  /**
   * Without wrap-around, the reading is twice the integer mean of the ten samples: an even
   * value whose half `m` satisfies 10m <= sum < 10m + 10.
   */
  lemma BatteryVoltageIsDoubledMean(samples: seq<u32>)
    requires |samples| == BatteryNoOfSamples && Sum(samples) < 0x1_0000_0000
    ensures var v := BatteryVoltage(samples);
      v % 2 == 0 && 10 * (v / 2) <= Sum(samples) < 10 * (v / 2) + 10
  {
  }

  /** The warning a battery round sends: exactly one of the two battery bits. */
  function BatteryWarning(voltage: u32): (code: Code)
    ensures code == WarningBatteryLevelNotOk || code == WarningBatteryLevelOk
    ensures code == WarningBatteryLevelNotOk <==> voltage < BatteryWarningVoltage
    ensures code & WarningMask == code
  {
    if voltage < BatteryWarningVoltage then WarningBatteryLevelNotOk else WarningBatteryLevelOk
  }

  /**
   * The LED level after the handler has processed `word`. A BME280_NOT_FOUND word never
   * reaches the warning checks: the handler blinks the on-board LED forever, which the
   * model records as `halted`; the level returned is the one given, the last level an earlier
   * dispatch set.
   */
  function DispatchLed(word: Code, led: Level): (r: Level)
    ensures word & ErrorBme280NotFound != 0 ==> r == led
    ensures word & ErrorBme280NotFound == 0 ==>
      (word & WarningBatteryLevelOk != 0 ==> r == 0)
      && (word & WarningBatteryLevelOk == 0 && word & WarningBatteryLevelNotOk != 0 ==> r == 1)
      && (word & (WarningBatteryLevelOk | WarningBatteryLevelNotOk) == 0 ==> r == led)
  {
    if word & ErrorBme280NotFound != 0 then led
    else
      var afterNotOk := if word & WarningBatteryLevelNotOk != 0 then 1 else led;
      if word & WarningBatteryLevelOk != 0 then 0 else afterNotOk
  }

  /** Both battery bits in one word: OK is handled last and the LED ends off. */
  lemma BothBatteryWarningsEndOff(led: Level)
    ensures DispatchLed(WarningBatteryLevelNotOk | WarningBatteryLevelOk, led) == 0
  {
  }

  /** The codes sent from a battery reading are never the halting error. */
  lemma BatteryWarningNeverHalts(voltage: u32, led: Level)
    ensures BatteryWarning(voltage) & ErrorBme280NotFound == 0
    ensures DispatchLed(BatteryWarning(voltage), led) == (if voltage < BatteryWarningVoltage then 1 else 0)
  {
  }

  lemma ModAdd(a: int, b: int, m: int)
    requires m > 0
    ensures (a % m + b) % m == (a + b) % m
  {
    DivUnique(a + b, m, a / m + (a % m + b) / m, (a % m + b) % m);
  }

  class Handler {
    /** The error task's notification value and whether a notification is pending. */
    var notificationValue: Code
    var pending: bool
    /** The global `battery_voltage` (mV). */
    var batteryVoltage: u32
    /** The on-board LED. */
    var led: Level
    /** The error task is in its endless blink loop. */
    var halted: bool

    /** `error_handler_init`: LED off; the globals start zeroed. */
    constructor ()
      ensures notificationValue == 0 && !pending && batteryVoltage == 0 && led == 0 && !halted
    {
      notificationValue := 0;
      pending := false;
      batteryVoltage := 0;
      led := 0;
      halted := false;
    }

    /** `error_handler_notify`: `xTaskNotify(..., eSetBits)`. */
    method Notify(code: Code)
      modifies this`notificationValue, this`pending
      ensures notificationValue == old(notificationValue) | code
      ensures pending
    {
      notificationValue := notificationValue | code;
      pending := true;
    }

    /** `getBatteryVoltage`: the last value the battery loop stored. */
    method GetBatteryVoltage() returns (v: u32)
      ensures v == batteryVoltage
    {
      v := batteryVoltage;
    }

    /** One iteration of the `battery_task` loop, with the ten ADC samples as input. */
    method BatteryRound(samples: seq<u32>)
      requires |samples| == BatteryNoOfSamples
      modifies this`batteryVoltage, this`notificationValue, this`pending
      ensures batteryVoltage == BatteryVoltage(samples)
      ensures notificationValue == old(notificationValue) | BatteryWarning(batteryVoltage)
      ensures pending
    {
      var value: u32 := 0;
      for i := 0 to BatteryNoOfSamples
        invariant value == Sum(samples[..i]) % 0x1_0000_0000
        invariant notificationValue == old(notificationValue) && pending == old(pending)
      {
        var tmp := samples[i];
        assert samples[..i + 1][..i] == samples[..i];
        ModAdd(Sum(samples[..i]), tmp, 0x1_0000_0000);
        value := (value + tmp) % 0x1_0000_0000;
      }
      assert samples[..BatteryNoOfSamples] == samples;
      value := value / BatteryNoOfSamples;
      var voltage: u32 := value;
      voltage := ToU32(voltage * 2);
      batteryVoltage := voltage;
      if voltage < BatteryWarningVoltage {
        assert BatteryWarning(voltage) == WarningBatteryLevelNotOk;
        Notify(WarningBatteryLevelNotOk);
      } else {
        assert BatteryWarning(voltage) == WarningBatteryLevelOk;
        Notify(WarningBatteryLevelOk);
      }
    }

    /**
     * One return of `xTaskNotifyWait` in `error_handler_task`: the word is read and cleared,
     * a BME280_NOT_FOUND bit sends the task into its blink loop, and otherwise the battery
     * warnings set the LED.
     */
    method HandleNotification()
      requires pending && !halted
      modifies this`notificationValue, this`pending, this`led, this`halted
      ensures notificationValue == 0 && !pending
      ensures halted <==> old(notificationValue) & ErrorBme280NotFound != 0
      ensures led == DispatchLed(old(notificationValue), old(led))
    {
      var errorValue := notificationValue;
      notificationValue := 0;
      pending := false;
      if errorValue & ErrorBme280NotFound > 0 {
        halted := true;
        return;
      }
      if errorValue & WarningBatteryLevelNotOk > 0 {
        led := 1;
      }
      if errorValue & WarningBatteryLevelOk > 0 {
        led := 0;
      }
    }
  }
}
