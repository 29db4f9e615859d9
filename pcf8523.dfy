/**
 * The PCF8523 real-time clock codec: BCD decoding of the time registers, the mapping of the
 * seven registers read from address 0x03 onto a broken-down calendar time, and the
 * microsecond timestamp composed from the system time.
 *
 * The I2C transfer, `mktime`, `settimeofday` and `gettimeofday` are injected: the transfer's
 * status and data bytes, and the success of `settimeofday`, are parameters.
 */
module Pcf8523 {
  import opened CInt

  /** The 7-bit I2C address of the PCF8523. */
  const Address := 0x68
  /** The first time register (Seconds); Minutes, Hours, Days, Weekdays, Months, Years follow. */
  const RegSeconds: u8 := 0x03

  /** `(ADDRESS_PCF8523 << 1) | rw`: the address byte of a write (rw = 0) or a read (rw = 1). */
  function AddressByte(read: bool): (b: u8)
    ensures b / 2 == Address
    ensures b % 2 == (if read then 1 else 0)
  {
    Address * 2 + (if read then 1 else 0)
  }

  /** The bytes the register read sends: address (write), register 0x03, repeated start, address (read). */
  function TimeReadPreamble(): seq<u8>
  {
    [AddressByte(false), RegSeconds, AddressByte(true)]
  }

  /** On the wire: 0xD0 (write to 0x68), register 0x03, then 0xD1 (read from 0x68). */
  lemma TimeReadPreambleBytes()
    ensures TimeReadPreamble() == [0xD0, 0x03, 0xD1]
  {
  }

  /** `bcdToInt`: tens digit in the high nibble, units in the low one. */
  function BcdToInt(bcd: u8): (r: u8)
    ensures r <= 165
    ensures bcd / 16 <= 9 && bcd % 16 <= 9 ==> r <= 99 && r / 10 == bcd / 16 && r % 10 == bcd % 16
  {
    var r := (bcd / 16) * 10 + bcd % 16;
    assert bcd % 16 <= 9 ==> r / 10 == bcd / 16 && r % 10 == bcd % 16 by {
      if bcd % 16 <= 9 {
        DivUnique(r, 10, bcd / 16, bcd % 16);
      }
    }
    r
  }

  /** Whether both nibbles are decimal digits. */
  predicate IsBcd(b: u8)
  {
    b / 16 <= 9 && b % 16 <= 9
  }

  /** BCD encoding of a two-digit number, the inverse of BcdToInt on valid BCD. */
  function IntToBcd(n: int): (b: u8)
    requires 0 <= n <= 99
    ensures IsBcd(b)
  {
    (n / 10) * 16 + n % 10
  }

  lemma DecodeEncode(n: int)
    requires 0 <= n <= 99
    ensures BcdToInt(IntToBcd(n)) == n
  {
    var b := IntToBcd(n);
    DivUnique(b, 16, n / 10, n % 10);
  }

  lemma EncodeDecode(b: u8)
    requires IsBcd(b)
    ensures IntToBcd(BcdToInt(b)) == b
  {
    var n := BcdToInt(b);
    DivUnique(n, 10, b / 16, b % 16);
  }

  /** The fields of `struct tm` that `pcf8523_setRtcTime` fills. */
  datatype CalendarTime = CalendarTime(year: int, mon: int, mday: int, hour: int, min: int, sec: int)

  /**
   * The register-to-field mapping: years since 1900 from the two-digit year, a zero-based
   * month, and the remaining fields as read. The weekday register (data[4]) is not used and
   * no control bit is masked off.
   */
  function RegistersToCalendar(data: seq<u8>): (t: CalendarTime)
    requires |data| == 7
    ensures t.sec == BcdToInt(data[0]) && t.min == BcdToInt(data[1]) && t.hour == BcdToInt(data[2])
    ensures t.mday == BcdToInt(data[3])
    ensures t.mon + 1 == BcdToInt(data[5]) && t.year - 100 == BcdToInt(data[6])
    ensures 100 <= t.year <= 265 && -1 <= t.mon <= 164
  {
    CalendarTime(100 + BcdToInt(data[6]), BcdToInt(data[5]) - 1, BcdToInt(data[3]),
                 BcdToInt(data[2]), BcdToInt(data[1]), BcdToInt(data[0]))
  }

  /** The weekday register does not influence the calendar time. */
  lemma WeekdayIgnored(data: seq<u8>, weekday: u8)
    requires |data| == 7
    ensures RegistersToCalendar(data[4 := weekday]) == RegistersToCalendar(data)
  {
  }

  /** Years 2000-2099 and months 1-12 stored in BCD decode to `tm_year` 100-199 and `tm_mon` 0-11. */
  lemma ValidRegistersGiveValidFields(data: seq<u8>)
    requires |data| == 7 && IsBcd(data[5]) && IsBcd(data[6])
    requires 1 <= BcdToInt(data[5]) <= 12
    ensures var t := RegistersToCalendar(data); 100 <= t.year <= 199 && 0 <= t.mon <= 11
  {
  }

  /** With the oscillator-stop flag (bit 7 of Seconds) set, the unmasked seconds field is at least 80. */
  lemma UnmaskedOscillatorStopFlag(data: seq<u8>)
    requires |data| == 7 && data[0] >= 0x80
    ensures RegistersToCalendar(data).sec >= 80
  {
  }

  /** The time zone `pcf8523_setRtcTime` installs (Stockholm). */
  const StockholmTz := "CET-1CEST,M3.5.0,M10.5.0/3"

  /** The ESP32's system clock as far as `pcf8523_setRtcTime` sets it. */
  class SystemClock {
    /** The calendar time last handed to `mktime`/`settimeofday`, if any. */
    var calendar: Option<CalendarTime>
    /** The `TZ` environment variable. */
    var timezone: string
    /** The write part of every I2C command issued, one entry per `i2c_master_cmd_begin`. */
    var transactions: seq<seq<u8>>

    constructor ()
      ensures calendar == None && timezone == "" && transactions == []
    {
      calendar := None;
      timezone := "";
      transactions := [];
    }

    /**
     * `pcf8523_setRtcTime`: the command addresses the clock for writing, selects register
     * 0x03 and, after a repeated start, reads the seven time registers. An I2C failure is
     * returned as it is, before any field is computed or the clock is touched; a failing `settimeofday` gives ESP_FAIL with the time zone not
     * yet set; otherwise the clock is set from the registers and the time zone installed.
     */
    method SetRtcTime(i2cStatus: EspErr, data: seq<u8>, settimeofdayOk: bool) returns (r: EspErr)
      requires |data| == 7
      modifies this
      ensures transactions == old(transactions) + [TimeReadPreamble()]
      ensures i2cStatus != EspOk ==> r == i2cStatus && calendar == old(calendar) && timezone == old(timezone)
      ensures i2cStatus == EspOk && !settimeofdayOk ==>
        r == EspFail && calendar == old(calendar) && timezone == old(timezone)
      ensures i2cStatus == EspOk && settimeofdayOk ==>
        r == EspOk && calendar == Some(RegistersToCalendar(data)) && timezone == StockholmTz
    {
      transactions := transactions + [TimeReadPreamble()];
      if i2cStatus != EspOk {
        return i2cStatus;
      }
      var tm := CalendarTime(0, 0, 0, 0, 0, 0);
      tm := tm.(year := 100 + BcdToInt(data[6]));
      tm := tm.(mon := BcdToInt(data[5]) - 1);
      tm := tm.(mday := BcdToInt(data[3]));
      tm := tm.(hour := BcdToInt(data[2]));
      tm := tm.(min := BcdToInt(data[1]));
      tm := tm.(sec := BcdToInt(data[0]));
      if !settimeofdayOk {
        return EspFail;
      }
      calendar := Some(tm);
      timezone := StockholmTz;
      r := EspOk;
    }
  }

  /** `pcf8523_getEspTimestamp`: microseconds since the epoch, computed in `uint64_t`. */
  function EspTimestamp(sec: int, usec: int): (r: int)
    ensures 0 <= r < 0x1_0000_0000_0000_0000
    ensures (1000000 * sec + usec - r) % 0x1_0000_0000_0000_0000 == 0
  {
    var x := 1000000 * ToU64(sec) + ToU64(usec);
    TimestampCongruent(sec, usec, x, ToU64(x));
    ToU64(x)
  }

  /** Reducing the operands and the result modulo 2^64 keeps the value congruent to the exact one. */
  lemma TimestampCongruent(sec: int, usec: int, x: int, r: int)
    requires x == 1000000 * ToU64(sec) + ToU64(usec) && r == ToU64(x)
    ensures (1000000 * sec + usec - r) % 0x1_0000_0000_0000_0000 == 0
  {
    var m := 0x1_0000_0000_0000_0000;
    var ks := (sec - ToU64(sec)) / m;
    var ku := (usec - ToU64(usec)) / m;
    var kx := (x - r) / m;
    assert sec - ToU64(sec) == ks * m;
    assert usec - ToU64(usec) == ku * m;
    assert x - r == kx * m;
    assert 1000000 * sec + usec - r == (1000000 * ks + ku + kx) * m;
    DivUnique(1000000 * sec + usec - r, m, 1000000 * ks + ku + kx, 0);
  }

  /** For a normalised time value the timestamp splits back into seconds and microseconds. */
  lemma TimestampSplits(sec: int, usec: int)
    requires 0 <= usec < 1000000 && 0 <= sec && 1000000 * sec + usec < 0x1_0000_0000_0000_0000
    ensures EspTimestamp(sec, usec) / 1000000 == sec && EspTimestamp(sec, usec) % 1000000 == usec
  {
    DivUnique(EspTimestamp(sec, usec), 1000000, sec, usec);
  }
}
