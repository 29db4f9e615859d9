/**
 * The BME280 driver: SPI register framing, byte assembly, the calibration loader and the
 * Bosch integer compensation formulas (BME280 datasheet, section 4.2.3), together with
 * the driver state the C code keeps in globals (`_bme280_calib`, `_t_fine`).
 *
 * The SPI bus is injected: a read of register `reg` returns `regs(reg)` (and the following
 * addresses for multi-byte reads, as the sensor auto-increments), and the burst read of the
 * data registers returns a 9-byte receive buffer given by the caller.
 */
module Bme280 {
  import opened CInt

  // Register addresses (bme280.h).
  const RegDigT1: u8 := 0x88
  const RegDigT2: u8 := 0x8A
  const RegDigT3: u8 := 0x8C
  const RegDigP1: u8 := 0x8E
  const RegDigP2: u8 := 0x90
  const RegDigP3: u8 := 0x92
  const RegDigP4: u8 := 0x94
  const RegDigP5: u8 := 0x96
  const RegDigP6: u8 := 0x98
  const RegDigP7: u8 := 0x9A
  const RegDigP8: u8 := 0x9C
  const RegDigP9: u8 := 0x9E
  const RegDigH1: u8 := 0xA1
  const RegDigH2: u8 := 0xE1
  const RegDigH3: u8 := 0xE3
  const RegDigH4: u8 := 0xE4
  const RegDigH5: u8 := 0xE5
  const RegDigH6: u8 := 0xE7
  const RegChipId: u8 := 0xD0
  const RegControlHumid: u8 := 0xF2
  const RegControl: u8 := 0xF4
  const RegPressureData: u8 := 0xF7

  /** The identity every BME280 reports in register 0xD0. */
  const ChipIdBme280: u8 := 0x60

  /** The register file as the bus presents it: the byte held at each address. */
  type Registers = u8 -> u8

  /* ---------------------------------------------------------------------------------
   * SPI framing (BME280 datasheet, section 6.3: bit 7 of the control byte is 1 for a
   * read and 0 for a write; the other seven bits address the register).
   * ------------------------------------------------------------------------------- */

  /** `reg | 0x80`: the control byte of a read. */
  function ReadCommand(reg: u8): (c: u8)
    ensures c >= 0x80
    ensures c % 0x80 == reg % 0x80
  {
    0x80 + reg % 0x80
  }

  /** `reg & 0x7F`: the control byte of a write. */
  function WriteCommand(reg: u8): (c: u8)
    ensures c < 0x80
    ensures c % 0x80 == reg % 0x80
  {
    reg % 0x80
  }

  /** A read and a write of the same register differ only in the read/write bit. */
  lemma ReadAndWriteAddressSameRegister(reg: u8)
    ensures ReadCommand(reg) == WriteCommand(reg) + 0x80
  {
  }

  function Zeros(n: nat): (z: seq<u8>)
    ensures |z| == n && forall i :: 0 <= i < n ==> z[i] == 0
  {
    if n == 0 then [] else Zeros(n - 1) + [0]
  }

  /** The transmit bytes of a read of `n` data bytes starting at `reg`. */
  function ReadFrame(reg: u8, n: nat): seq<u8>
  {
    [ReadCommand(reg)] + Zeros(n)
  }

  /** The transmit bytes of a one-byte write. */
  function WriteFrame(reg: u8, data: u8): seq<u8>
  {
    [WriteCommand(reg), data]
  }

  /** The burst read sends the pressure-data address unmodified, followed by 8 dummy bytes. */
  function BurstFrame(): seq<u8>
  {
    [RegPressureData] + Zeros(8)
  }

  /** 0xF7 already has bit 7 set, so the burst's control byte is a read of 0xF7. */
  lemma BurstFrameIsARead()
    ensures BurstFrame() == ReadFrame(RegPressureData, 8)
  {
  }

  /* ---------------------------------------------------------------------------------
   * Byte assembly.
   * ------------------------------------------------------------------------------- */

  /** `(rx1 << 8) | rx2`: the two lanes do not overlap, so the OR is a sum. */
  function Be16(hi: u8, lo: u8): (r: u16)
    ensures r / 0x100 == hi && r % 0x100 == lo
  {
    hi * 0x100 + lo
  }

  /**
   * `(temp >> 8) | (temp << 8)` returned as `uint16_t`: the lanes are disjoint, and the
   * conversion on return keeps the low 16 bits.
   */
  function Swap16(x: u16): (r: u16)
    ensures r / 0x100 == x % 0x100 && r % 0x100 == x / 0x100
  {
    var r := (x / 0x100 + x * 0x100) % 0x1_0000;
    assert x * 0x100 == (x / 0x100) * 0x1_0000 + (x % 0x100) * 0x100;
    assert x / 0x100 + x * 0x100 == (x / 0x100) * 0x1_0000 + ((x % 0x100) * 0x100 + x / 0x100);
    DivUnique(x / 0x100 + x * 0x100, 0x1_0000, x / 0x100, (x % 0x100) * 0x100 + x / 0x100);
    DivUnique(r, 0x100, x % 0x100, x / 0x100);
    r
  }

  /** A 16-bit value is determined by its two bytes. */
  lemma BytesDetermineWord(x: u16, y: u16)
    requires x / 0x100 == y / 0x100 && x % 0x100 == y % 0x100
    ensures x == y
  {
  }

  /** Swapping the bytes twice gives the original word back. */
  lemma Swap16Involution(x: u16)
    ensures Swap16(Swap16(x)) == x
  {
    BytesDetermineWord(Swap16(Swap16(x)), x);
  }

  /** The little-endian word at `lo, hi` is the byte swap of the big-endian word. */
  lemma LittleEndianIsSwappedBigEndian(lo: u8, hi: u8)
    ensures Swap16(Be16(lo, hi)) == Be16(hi, lo)
  {
    BytesDetermineWord(Swap16(Be16(lo, hi)), Be16(hi, lo));
  }

  /** `(rx1 << 16) | (rx2 << 8) | rx3`, three disjoint lanes. */
  function Be24(a: u8, b: u8, c: u8): (r: int)
    ensures 0 <= r < 0x100_0000
    ensures r / 0x1_0000 == a && (r / 0x100) % 0x100 == b && r % 0x100 == c
  {
    var r := a * 0x1_0000 + b * 0x100 + c;
    DivUnique(r, 0x100, a * 0x100 + b, c);
    DivUnique(a * 0x100 + b, 0x100, a, b);
    DivUnique(r, 0x1_0000, a, b * 0x100 + c);
    r
  }

  /** `(readRegister8(0xE4) << 4) | (readRegister8(0xE5) & 0xF)`. */
  function PackedH4(e4: u8, e5: u8): (r: int)
    ensures 0 <= r < 0x1000
    ensures r / 0x10 == e4 && r % 0x10 == e5 % 0x10
  {
    e4 * 0x10 + e5 % 0x10
  }

  /** `(readRegister8(0xE6) << 4) | (readRegister8(0xE5) >> 4)`. */
  function PackedH5(e6: u8, e5: u8): (r: int)
    ensures 0 <= r < 0x1000
    ensures r / 0x10 == e6 && r % 0x10 == e5 / 0x10
  {
    e6 * 0x10 + e5 / 0x10
  }

  /* ---------------------------------------------------------------------------------
   * Calibration data (BME280 datasheet, section 4.2.2, Table 16).
   * ------------------------------------------------------------------------------- */

  datatype CalibData = CalibData(
    t1: u16, t2: s16, t3: s16,
    p1: u16, p2: s16, p3: s16, p4: s16, p5: s16, p6: s16, p7: s16, p8: s16, p9: s16,
    h1: u8, h2: s16, h3: u8, h4: s16, h5: s16, h6: s8)

  /** The zero-initialised global before the calibration is read. */
  const ZeroCalib := CalibData(0, 0, 0, 0, 0, 0, 0, 0, 0, 0, 0, 0, 0, 0, 0, 0, 0, 0)

  /** The little-endian word stored at `reg` (low byte) and `reg + 1` (high byte). */
  function LeWord(regs: Registers, reg: u8): (r: u16)
    requires reg < 0xFF
    ensures r % 0x100 == regs(reg) && r / 0x100 == regs(reg + 1)
  {
    Swap16(Be16(regs(reg), regs(reg + 1)))
  }

  /** What `readCoefficients` loads from the register file. */
  function DecodeCalibration(regs: Registers): (c: CalibData)
    ensures c.t1 == LeWord(regs, RegDigT1) && c.p1 == LeWord(regs, RegDigP1)
    ensures (c.t2 + 0x1_0000) % 0x1_0000 == LeWord(regs, RegDigT2)
    ensures (c.p9 + 0x1_0000) % 0x1_0000 == LeWord(regs, RegDigP9)
    ensures (c.h2 + 0x1_0000) % 0x1_0000 == LeWord(regs, RegDigH2)
    ensures c.h1 == regs(RegDigH1) && c.h3 == regs(RegDigH3)
    ensures 0 <= c.h4 < 0x1000 && 0 <= c.h5 < 0x1000
    ensures c.h4 / 0x10 == regs(0xE4) && c.h4 % 0x10 == regs(0xE5) % 0x10
    ensures c.h5 / 0x10 == regs(0xE6) && c.h5 % 0x10 == regs(0xE5) / 0x10
    ensures (c.h6 + 0x100) % 0x100 == regs(RegDigH6)
  {
    CalibData(
      LeWord(regs, RegDigT1), ToS16(LeWord(regs, RegDigT2)), ToS16(LeWord(regs, RegDigT3)),
      LeWord(regs, RegDigP1), ToS16(LeWord(regs, RegDigP2)), ToS16(LeWord(regs, RegDigP3)),
      ToS16(LeWord(regs, RegDigP4)), ToS16(LeWord(regs, RegDigP5)), ToS16(LeWord(regs, RegDigP6)),
      ToS16(LeWord(regs, RegDigP7)), ToS16(LeWord(regs, RegDigP8)), ToS16(LeWord(regs, RegDigP9)),
      regs(RegDigH1), ToS16(LeWord(regs, RegDigH2)), regs(RegDigH3),
      PackedH4(regs(RegDigH4), regs(RegDigH4 + 1)), PackedH5(regs(RegDigH5 + 1), regs(RegDigH5)),
      ToS8(regs(RegDigH6)))
  }

  /** The transmit frames of `readCoefficients`, in the order the C code issues them. */
  function CoefficientFrames(): seq<seq<u8>>
  {
    TemperatureCoefficientFrames() + PressureCoefficientFrames() + HumidityCoefficientFrames()
  }

  function TemperatureCoefficientFrames(): seq<seq<u8>>
  {
    [ReadFrame(RegDigT1, 2), ReadFrame(RegDigT2, 2), ReadFrame(RegDigT3, 2)]
  }

  function PressureCoefficientFrames(): seq<seq<u8>>
  {
    [ReadFrame(RegDigP1, 2), ReadFrame(RegDigP2, 2), ReadFrame(RegDigP3, 2),
     ReadFrame(RegDigP4, 2), ReadFrame(RegDigP5, 2), ReadFrame(RegDigP6, 2),
     ReadFrame(RegDigP7, 2), ReadFrame(RegDigP8, 2), ReadFrame(RegDigP9, 2)]
  }

  /**
   * H4 and H5 share register 0xE5, which is read once for each of them. C leaves the order
   * in which the operands of `|` are evaluated unspecified; this is the left-to-right
   * order, one of the orders a compiler may choose.
   */
  function HumidityCoefficientFrames(): seq<seq<u8>>
  {
    [ReadFrame(RegDigH1, 1), ReadFrame(RegDigH2, 2), ReadFrame(RegDigH3, 1),
     ReadFrame(RegDigH4, 1), ReadFrame(RegDigH4 + 1, 1),
     ReadFrame(RegDigH5 + 1, 1), ReadFrame(RegDigH5, 1),
     ReadFrame(RegDigH6, 1)]
  }

  /* ---------------------------------------------------------------------------------
   * Raw measurement (burst read of 0xF7..0xFE).
   * ------------------------------------------------------------------------------- */

  /** The three raw ADC words of one burst, as the `adc_data` view of the union holds them. */
  datatype AdcData = AdcData(adcP: int, adcT: int, adcH: int)

  /**
   * The union in `burstReadMeasurement`: the bytes are stored xlsb, lsb, msb, xmsb, which
   * the little-endian ESP32 reads back as `xmsb<<24 | msb<<16 | lsb<<8 | xlsb`.
   */
  function Unpack(rx: seq<u8>): (adc: AdcData)
    requires |rx| == 9
    ensures 0 <= adc.adcP < 0x100_0000 && 0 <= adc.adcT < 0x100_0000 && 0 <= adc.adcH < 0x1_0000
    ensures adc.adcP / 0x1_0000 == rx[1] && (adc.adcP / 0x100) % 0x100 == rx[2] && adc.adcP % 0x100 == rx[3]
    ensures adc.adcT / 0x1_0000 == rx[4] && (adc.adcT / 0x100) % 0x100 == rx[5] && adc.adcT % 0x100 == rx[6]
    ensures adc.adcH / 0x100 == rx[7] && adc.adcH % 0x100 == rx[8]
  {
    AdcData(Be24(rx[1], rx[2], rx[3]), Be24(rx[4], rx[5], rx[6]), Be16(rx[7], rx[8]))
  }

  /** `adc_T >>= 4` / `adc_P >>= 4`: the 20-bit conversion result in the upper bits of the 24-bit word. */
  function Raw20(word: int): (r: s32)
    requires 0 <= word < 0x100_0000
    ensures 0 <= r < 0x10_0000
    ensures word - 0x10 < r * 0x10 <= word
  {
    word / 0x10
  }

  /* ---------------------------------------------------------------------------------
   * Temperature compensation (`compensate_T`), 32-bit signed arithmetic.
   * ------------------------------------------------------------------------------- */

  /** Every intermediate of `compensate_T`, named after the C sub-expressions. */
  datatype TSteps = TSteps(diff1: int, prod1: int, var1: int, diff2: int, square: int, prod2: int,
                           var2: int, tFine: int, scaled: int)

  function TStepsOf(adcT: s32, c: CalibData): TSteps
  {
    var diff1 := adcT / 8 - c.t1 * 2;               // (adc_T>>3) - (T1<<1)
    var prod1 := diff1 * c.t2;
    var var1 := prod1 / 0x800;                      // >> 11
    var diff2 := adcT / 16 - c.t1;                  // (adc_T>>4) - T1
    var square := diff2 * diff2;
    var prod2 := (square / 0x1000) * c.t3;          // (... >> 12) * T3
    var var2 := prod2 / 0x4000;                     // >> 14
    var tFine := var1 + var2;
    TSteps(diff1, prod1, var1, diff2, square, prod2, var2, tFine, tFine * 5 + 128)
  }

  /** No intermediate of `compensate_T` leaves the 32-bit signed range (C signed overflow is undefined). */
  predicate NoOverflowT(adcT: s32, c: CalibData)
  {
    var s := TStepsOf(adcT, c);
    InS32(s.diff1) && InS32(s.prod1) && InS32(s.diff2) && InS32(s.square) && InS32(s.prod2)
    && InS32(s.tFine) && InS32(s.tFine * 5) && InS32(s.scaled)
  }

  /** The compensated temperature in 0.01 degC and the fine temperature the other formulas need. */
  datatype Temperature = Temperature(centiCelsius: s32, tFine: s32)

  /**
   * `compensate_T`, returning `t_fine` instead of writing the global. The datasheet defines
   * T = t_fine * 5 / 256 (0.01 degC) rounded to the nearest unit, halves upward.
   */
  function CompensateT(adcT: s32, c: CalibData): (r: Temperature)
    requires NoOverflowT(adcT, c)
    ensures -128 < 256 * r.centiCelsius - 5 * r.tFine <= 128
  {
    var s := TStepsOf(adcT, c);
    Temperature(s.scaled / 0x100, s.tFine)
  }

  /**
   * A sufficient, easily checked condition for `compensate_T` to stay within 32 bits: a
   * 20-bit reading within 2^16 of twice T1 (after >>3) and a T3 below 2^13 in magnitude.
   */
  lemma {:induction false} NoOverflowTInRange(adcT: s32, c: CalibData)
    requires 0 <= adcT < 0x10_0000
    requires -0x1_0000 < adcT / 8 - c.t1 * 2 < 0x1_0000
    requires -0x2000 < c.t3 < 0x2000
    ensures NoOverflowT(adcT, c)
  {
    var s := TStepsOf(adcT, c);
    MulBound(s.diff1, c.t2, 0xFFFF, 0x8000);
    assert adcT / 16 == (adcT / 8) / 2;
    assert -0x8000 <= s.diff2 <= 0x8000;
    MulBound(s.diff2, s.diff2, 0x8000, 0x8000);
    assert 0 <= s.square / 0x1000 <= 0x4_0000;
    MulBound(s.square / 0x1000, c.t3, 0x4_0000, 0x1FFF);
  }

  /* ---------------------------------------------------------------------------------
   * Pressure compensation (`compensate_P`), 64-bit signed arithmetic.
   * ------------------------------------------------------------------------------- */

  datatype PSteps = PSteps(
    v1: int, square: int, prod6: int, prod5: int, shift5: int, sum65: int, shift4: int, var2: int,
    prod3: int, prod2: int, shift2: int, var1a: int, offset: int, prod1: int, var1: int,
    p0: int, shift31: int, numer: int, scaled: int, p1: int, q13: int, prod9: int, prod99: int, var1c: int,
    prod8: int, var2c: int, sum: int, shift7: int, p: int)

  /** Every intermediate of `compensate_P`; the part after the division is 0 when `var1` is 0. */
  function PStepsOf(adcP: s32, tFine: s32, c: CalibData): PSteps
  {
    var v1 := tFine - 128000;
    var square := v1 * v1;
    var prod6 := square * c.p6;                      // var1 * var1 * P6
    var prod5 := v1 * c.p5;
    var shift5 := prod5 * 0x2_0000;                  // << 17
    var sum65 := prod6 + shift5;
    var shift4 := c.p4 * 0x8_0000_0000;              // P4 << 35
    var var2 := sum65 + shift4;
    var prod3 := square * c.p3;                      // var1 * var1 * P3
    var prod2 := v1 * c.p2;
    var shift2 := prod2 * 0x1000;                    // << 12
    var var1a := prod3 / 0x100 + shift2;             // (... >> 8) + (... << 12)
    var offset := 0x8000_0000_0000 + var1a;          // (1 << 47) + var1
    var prod1 := offset * c.p1;
    var var1 := prod1 / 0x2_0000_0000;               // >> 33
    if var1 == 0 then
      PSteps(v1, square, prod6, prod5, shift5, sum65, shift4, var2, prod3, prod2, shift2, var1a,
             offset, prod1, var1, 0, 0, 0, 0, 0, 0, 0, 0, 0, 0, 0, 0, 0, 0)
    else
      var p0 := 1048576 - adcP;
      var shift31 := p0 * 0x8000_0000;               // p << 31
      var numer := shift31 - var2;
      var scaled := numer * 3125;
      var p1 := TruncDiv(scaled, var1);              // C division truncates toward zero
      var q13 := p1 / 0x2000;                        // p >> 13
      var prod9 := c.p9 * q13;
      var prod99 := prod9 * q13;
      var var1c := prod99 / 0x200_0000;              // >> 25
      var prod8 := c.p8 * p1;
      var var2c := prod8 / 0x8_0000;                 // >> 19
      var sum := p1 + var1c + var2c;
      var shift7 := c.p7 * 0x10;                     // P7 << 4
      var p := sum / 0x100 + shift7;                 // (... >> 8) + (P7 << 4)
      PSteps(v1, square, prod6, prod5, shift5, sum65, shift4, var2, prod3, prod2, shift2, var1a,
             offset, prod1, var1, p0, shift31, numer, scaled, p1, q13, prod9, prod99, var1c,
             prod8, var2c, sum, shift7, p)
  }

  /**
   * No intermediate of `compensate_P` leaves its signed range: 64 bits for the `int64_t`
   * variables, 32 bits for `p = 1048576 - adc_P`, which is computed in `int32_t`.
   */
  predicate NoOverflowP(adcP: s32, tFine: s32, c: CalibData)
  {
    var s := PStepsOf(adcP, tFine, c);
    InS64(s.square) && InS64(s.prod6) && InS64(s.prod5) && InS64(s.shift5) && InS64(s.sum65)
    && InS64(s.var2) && InS64(s.prod3) && InS64(s.prod2) && InS64(s.shift2) && InS64(s.var1a)
    && InS64(s.offset) && InS64(s.prod1)
    && (s.var1 != 0 ==>
          InS32(s.p0) && InS64(s.shift31) && InS64(s.numer) && InS64(s.scaled) && InS64(s.prod9) && InS64(s.prod99)
          && InS64(s.prod8) && InS64(s.p1 + s.var1c) && InS64(s.sum) && InS64(s.p))
  }

  /** The normalisation term (`var1` after line 309) that the pressure is divided by. */
  function PNormalisation(tFine: s32, c: CalibData): int
  {
    PStepsOf(0, tFine, c).var1
  }

  lemma PNormalisationIndependentOfReading(adcP: s32, tFine: s32, c: CalibData)
    ensures PStepsOf(adcP, tFine, c).var1 == PNormalisation(tFine, c)
  {
  }

  /**
   * `compensate_P`: Pa in Q24.8. A zero normalisation term returns 0 without dividing;
   * otherwise the 64-bit polynomial result is returned truncated to its low 32 bits.
   */
  function CompensateP(adcP: s32, tFine: s32, c: CalibData): (r: u32)
    requires NoOverflowP(adcP, tFine, c)
    ensures PNormalisation(tFine, c) == 0 ==> r == 0
    ensures PNormalisation(tFine, c) != 0 ==> (PStepsOf(adcP, tFine, c).p - r) % 0x1_0000_0000 == 0
  {
    var s := PStepsOf(adcP, tFine, c);
    if s.var1 == 0 then 0 else ToU32(s.p)
  }

  /** An all-zero P1 (as in the zero-initialised calibration) makes every pressure 0. */
  lemma ZeroP1GivesZeroPressure(adcP: s32, tFine: s32, c: CalibData)
    requires c.p1 == 0 && NoOverflowP(adcP, tFine, c)
    ensures CompensateP(adcP, tFine, c) == 0
  {
  }

  /* ---------------------------------------------------------------------------------
   * Humidity compensation (`compensate_H`), 32-bit signed arithmetic.
   * ------------------------------------------------------------------------------- */

  datatype HSteps = HSteps(
    v: int, shiftH: int, shift4: int, prod5: int, diff: int, diff2: int, rounded: int, x15: int,
    prod6: int, prod3: int, term3: int, prodY: int, termY: int, prod2: int, termZ: int, z14: int,
    v2: int, w15: int, square: int, sq7: int, prod1: int, v3: int)

  function HStepsOf(adcH: s32, tFine: s32, c: CalibData): HSteps
  {
    var v := tFine - 76800;
    var shiftH := adcH * 0x4000;                     // adc_H << 14
    var shift4 := c.h4 * 0x10_0000;                  // H4 << 20
    var prod5 := c.h5 * v;
    var diff := shiftH - shift4;
    var diff2 := diff - prod5;
    var rounded := diff2 + 16384;
    var x15 := rounded / 0x8000;                     // >> 15
    var prod6 := v * c.h6;
    var prod3 := v * c.h3;
    var term3 := prod3 / 0x800 + 32768;              // (... >> 11) + 32768
    var prodY := (prod6 / 0x400) * term3;            // ((... >> 10) * (...))
    var termY := prodY / 0x400 + 2097152;            // (... >> 10) + 2097152
    var prod2 := termY * c.h2;
    var termZ := prod2 + 8192;
    var z14 := termZ / 0x4000;                       // >> 14
    var v2 := x15 * z14;
    var w15 := v2 / 0x8000;                          // v >> 15
    var square := w15 * w15;
    var sq7 := square / 0x80;                        // >> 7
    var prod1 := sq7 * c.h1;
    var v3 := v2 - prod1 / 0x10;                     // v - (... >> 4)
    HSteps(v, shiftH, shift4, prod5, diff, diff2, rounded, x15, prod6, prod3, term3, prodY, termY,
           prod2, termZ, z14, v2, w15, square, sq7, prod1, v3)
  }

  /** No intermediate of `compensate_H` leaves the 32-bit signed range. */
  predicate NoOverflowH(adcH: s32, tFine: s32, c: CalibData)
  {
    var s := HStepsOf(adcH, tFine, c);
    InS32(s.v) && InS32(s.shiftH) && InS32(s.shift4) && InS32(s.prod5) && InS32(s.diff)
    && InS32(s.diff2) && InS32(s.rounded) && InS32(s.prod6) && InS32(s.prod3) && InS32(s.term3)
    && InS32(s.prodY) && InS32(s.termY) && InS32(s.prod2) && InS32(s.termZ) && InS32(s.v2)
    && InS32(s.square) && InS32(s.prod1) && InS32(s.v3)
  }

  /** The clamp of lines 338-339. */
  function Clamp(v: int, lo: int, hi: int): (r: int)
    requires lo <= hi
    ensures lo <= r <= hi
    ensures lo <= v <= hi ==> r == v
    ensures v < lo ==> r == lo
    ensures v > hi ==> r == hi
  {
    if v < lo then lo else if v > hi then hi else v
  }

  const HumidityClampMax := 419430400

  /**
   * `compensate_H`: %RH in Q22.10. The value is clamped to [0, 419430400] before the final
   * `>> 12`, so the result never exceeds 100 %RH (102400 = 100 * 1024).
   */
  function CompensateH(adcH: s32, tFine: s32, c: CalibData): (r: u32)
    requires NoOverflowH(adcH, tFine, c)
    ensures 0 <= r <= 102400
    ensures var v3 := HStepsOf(adcH, tFine, c).v3;
      (0 <= v3 <= HumidityClampMax ==> r == v3 / 0x1000)
      && (v3 < 0 ==> r == 0)
      && (v3 > HumidityClampMax ==> r == 102400)
  {
    var s := HStepsOf(adcH, tFine, c);
    Clamp(s.v3, 0, HumidityClampMax) / 0x1000
  }

  /* ---------------------------------------------------------------------------------
   * One reading (`bme280_readSensorData`), integer parts of `convertUncompensated*`.
   * ------------------------------------------------------------------------------- */

  /** The integer outputs: 0.01 degC, Pa in Q24.8 and %RH in Q22.10. */
  datatype Reading = Reading(temperature: int, pressure: int, humidity: int)

  /** All three formulas stay within their widths for this burst. */
  predicate ReadingDefined(adc: AdcData, c: CalibData)
    requires 0 <= adc.adcP < 0x100_0000 && 0 <= adc.adcT < 0x100_0000 && 0 <= adc.adcH < 0x1_0000
  {
    NoOverflowT(Raw20(adc.adcT), c)
    && NoOverflowP(Raw20(adc.adcP), CompensateT(Raw20(adc.adcT), c).tFine, c)
    && NoOverflowH(adc.adcH, CompensateT(Raw20(adc.adcT), c).tFine, c)
  }

  /**
   * The reading of one burst: temperature first, then pressure and humidity from the
   * fine temperature of this same burst.
   */
  function SensorReading(adc: AdcData, c: CalibData): (r: Reading)
    requires 0 <= adc.adcP < 0x100_0000 && 0 <= adc.adcT < 0x100_0000 && 0 <= adc.adcH < 0x1_0000
    requires ReadingDefined(adc, c)
    ensures 0 <= r.humidity <= 102400 && 0 <= r.pressure < 0x1_0000_0000
  {
    var t := CompensateT(Raw20(adc.adcT), c);
    Reading(t.centiCelsius, CompensateP(Raw20(adc.adcP), t.tFine, c), CompensateH(adc.adcH, t.tFine, c))
  }

  /* ---------------------------------------------------------------------------------
   * Reference values: the worked example of the Bosch datasheets (same formulas for
   * temperature and pressure in the BMP280 and BME280).
   * ------------------------------------------------------------------------------- */

  const ReferenceCalib := CalibData(27504, 26435, -1000,
                                    36477, -10685, 3024, 2855, 140, -7, 15500, -14600, 6000,
                                    75, 362, 0, 324, 50, 30)

  /** adc_T = 519888 gives 25.08 degC and t_fine = 128422. */
  lemma ReferenceTemperature()
    ensures NoOverflowT(519888, ReferenceCalib)
    ensures CompensateT(519888, ReferenceCalib) == Temperature(2508, 128422)
  {
    assert TStepsOf(519888, ReferenceCalib)
        == TSteps(9978, 263768430, 128793, 4989, 24890121, -6076000, -371, 128422, 642238);
  }

  /** adc_P = 415148 at t_fine = 128422 gives 25767233 / 256 = 100653.25 Pa. */
  lemma ReferencePressure()
    ensures NoOverflowP(415148, 128422, ReferenceCalib)
    ensures CompensateP(415148, 128422, ReferenceCalib) == 25767233
  {
    var c := ReferenceCalib;
    assert c.p1 == 36477 && c.p2 == -10685 && c.p3 == 3024 && c.p4 == 2855 && c.p5 == 140;
    assert c.p6 == -7 && c.p7 == 15500 && c.p8 == -14600 && c.p9 == 6000;
    assert TruncDiv(3944285864554787500, 597560748) == 6600644165 by {
      TruncDivOfNonNegative(3944285864554787500, 597560748);
    }
    assert PStepsOf(415148, 128422, c)
        == PSteps(422, 178084, -1246588, 59080, 7743733760, 7742487172, 98097053040640,
                  98104795527812, 538526016, -4509070, -18469150720, -18467047103,
                  140719021308225, 5133007740260123325, 597560748, 633428, 1360276272185344,
                  1262171476657532, 3944285864554787500, 6600644165, 805742, 4834452000,
                  3895321023384000, 116089612, -96369404809000, -183810053, 6532923724, 248000,
                  25767233);
  }

  /** adc_H = 30000 at t_fine = 128422 with the H1..H6 of ReferenceCalib gives 52306 / 1024 = 51.08 %RH. */
  lemma ReferenceHumidity()
    ensures NoOverflowH(30000, 128422, ReferenceCalib)
    ensures CompensateH(30000, 128422, ReferenceCalib) == 52306
  {
    var c := ReferenceCalib;
    assert c.h1 == 75 && c.h2 == 362 && c.h3 == 0 && c.h4 == 324 && c.h5 == 50 && c.h6 == 30;
    assert HStepsOf(30000, 128422, c)
        == HSteps(51622, 491520000, 339738624, 2581100, 151781376, 149200276, 149216660, 4553,
                  1548660, 0, 32768, 49545216, 2145536, 776684032, 776692224, 47405, 215834965,
                  6586, 43375396, 338870, 25415250, 214246512);
  }

  /* ---------------------------------------------------------------------------------
   * The driver with its globals: the calibration, the fine temperature and the SPI
   * transactions issued so far (their transmit bytes).
   * ------------------------------------------------------------------------------- */

  class Device {
    var calib: CalibData
    var tFine: s32
    var transactions: seq<seq<u8>>

    /** C globals start zeroed. */
    constructor ()
      ensures calib == ZeroCalib && tFine == 0 && transactions == []
    {
      calib := ZeroCalib;
      tFine := 0;
      transactions := [];
    }

    /** `readRegister8`. */
    method ReadRegister8(regs: Registers, reg: u8) returns (v: u8)
      modifies this`transactions
      ensures v == regs(reg)
      ensures transactions == old(transactions) + [ReadFrame(reg, 1)]
    {
      transactions := transactions + [ReadFrame(reg, 1)];
      v := regs(reg);
    }

    /** `read16BitBigEndianRegister`: rx[1] is the register, rx[2] the next one. */
    method Read16BitBigEndianRegister(regs: Registers, reg: u8) returns (v: u16)
      requires reg < 0xFF
      modifies this`transactions
      ensures v == Be16(regs(reg), regs(reg + 1))
      ensures transactions == old(transactions) + [ReadFrame(reg, 2)]
    {
      transactions := transactions + [ReadFrame(reg, 2)];
      v := Be16(regs(reg), regs(reg + 1));
    }

    /** `read16BitLittleEndianRegister`. */
    method Read16BitLittleEndianRegister(regs: Registers, reg: u8) returns (v: u16)
      requires reg < 0xFF
      modifies this`transactions
      ensures v == LeWord(regs, reg)
      ensures transactions == old(transactions) + [ReadFrame(reg, 2)]
    {
      var temp := Read16BitBigEndianRegister(regs, reg);
      v := Swap16(temp);
    }

    /** `read16BitSignedLittleEndianRegister`. */
    method Read16BitSignedLittleEndianRegister(regs: Registers, reg: u8) returns (v: s16)
      requires reg < 0xFF
      modifies this`transactions
      ensures v == ToS16(LeWord(regs, reg))
      ensures transactions == old(transactions) + [ReadFrame(reg, 2)]
    {
      var w := Read16BitLittleEndianRegister(regs, reg);
      v := ToS16(w);
    }

    /** `readRegister24`. */
    method ReadRegister24(regs: Registers, reg: u8) returns (v: int)
      requires reg < 0xFE
      modifies this`transactions
      ensures v == Be24(regs(reg), regs(reg + 1), regs(reg + 2))
      ensures transactions == old(transactions) + [ReadFrame(reg, 3)]
    {
      transactions := transactions + [ReadFrame(reg, 3)];
      v := Be24(regs(reg), regs(reg + 1), regs(reg + 2));
    }

    /** `writeRegister8`: always reports success (a bus failure aborts, see README). */
    method WriteRegister8(reg: u8, data: u8) returns (r: EspErr)
      modifies this`transactions
      ensures r == EspOk
      ensures transactions == old(transactions) + [WriteFrame(reg, data)]
    {
      transactions := transactions + [WriteFrame(reg, data)];
      r := EspOk;
    }

    /** `bme280_readChipId`. */
    method ReadChipId(regs: Registers) returns (id: u8)
      modifies this`transactions
      ensures id == regs(RegChipId)
      ensures transactions == old(transactions) + [ReadFrame(RegChipId, 1)]
    {
      id := ReadRegister8(regs, RegChipId);
    }

    /** `readCoefficients`: fills the calibration field by field. */
    method ReadCoefficients(regs: Registers)
      modifies this`calib, this`transactions
      ensures calib == DecodeCalibration(regs)
      ensures transactions == old(transactions) + CoefficientFrames()
    {
      var t1, t2, t3 := ReadTemperatureCoefficients(regs);
      var p1, p2, p3, p4, p5, p6, p7, p8, p9 := ReadPressureCoefficients(regs);
      var h1, h2, h3, h4, h5, h6 := ReadHumidityCoefficients(regs);
      calib := CalibData(t1, t2, t3, p1, p2, p3, p4, p5, p6, p7, p8, p9, h1, h2, h3, h4, h5, h6);
    }

    method ReadTemperatureCoefficients(regs: Registers) returns (t1: u16, t2: s16, t3: s16)
      modifies this`transactions
      ensures t1 == LeWord(regs, RegDigT1)
      ensures t2 == ToS16(LeWord(regs, RegDigT2)) && t3 == ToS16(LeWord(regs, RegDigT3))
      ensures transactions == old(transactions) + TemperatureCoefficientFrames()
    {
      t1 := Read16BitLittleEndianRegister(regs, RegDigT1);
      t2 := Read16BitSignedLittleEndianRegister(regs, RegDigT2);
      t3 := Read16BitSignedLittleEndianRegister(regs, RegDigT3);
    }

    method ReadPressureCoefficients(regs: Registers)
      returns (p1: u16, p2: s16, p3: s16, p4: s16, p5: s16, p6: s16, p7: s16, p8: s16, p9: s16)
      modifies this`transactions
      ensures p1 == LeWord(regs, RegDigP1)
      ensures p2 == ToS16(LeWord(regs, RegDigP2)) && p3 == ToS16(LeWord(regs, RegDigP3))
      ensures p4 == ToS16(LeWord(regs, RegDigP4)) && p5 == ToS16(LeWord(regs, RegDigP5))
      ensures p6 == ToS16(LeWord(regs, RegDigP6)) && p7 == ToS16(LeWord(regs, RegDigP7))
      ensures p8 == ToS16(LeWord(regs, RegDigP8)) && p9 == ToS16(LeWord(regs, RegDigP9))
      ensures transactions == old(transactions) + PressureCoefficientFrames()
    {
      p1 := Read16BitLittleEndianRegister(regs, RegDigP1);
      p2 := Read16BitSignedLittleEndianRegister(regs, RegDigP2);
      p3 := Read16BitSignedLittleEndianRegister(regs, RegDigP3);
      p4 := Read16BitSignedLittleEndianRegister(regs, RegDigP4);
      p5 := Read16BitSignedLittleEndianRegister(regs, RegDigP5);
      p6 := Read16BitSignedLittleEndianRegister(regs, RegDigP6);
      p7 := Read16BitSignedLittleEndianRegister(regs, RegDigP7);
      p8 := Read16BitSignedLittleEndianRegister(regs, RegDigP8);
      p9 := Read16BitSignedLittleEndianRegister(regs, RegDigP9);
    }

    method ReadHumidityCoefficients(regs: Registers)
      returns (h1: u8, h2: s16, h3: u8, h4: s16, h5: s16, h6: s8)
      modifies this`transactions
      ensures h1 == regs(RegDigH1) && h2 == ToS16(LeWord(regs, RegDigH2)) && h3 == regs(RegDigH3)
      ensures h4 == PackedH4(regs(RegDigH4), regs(RegDigH4 + 1))
      ensures h5 == PackedH5(regs(RegDigH5 + 1), regs(RegDigH5))
      ensures h6 == ToS8(regs(RegDigH6))
      ensures transactions == old(transactions) + HumidityCoefficientFrames()
    {
      h1 := ReadRegister8(regs, RegDigH1);
      h2 := Read16BitSignedLittleEndianRegister(regs, RegDigH2);
      h3 := ReadRegister8(regs, RegDigH3);
      var e4 := ReadRegister8(regs, RegDigH4);
      var e5 := ReadRegister8(regs, RegDigH4 + 1);
      h4 := PackedH4(e4, e5);
      var e6 := ReadRegister8(regs, RegDigH5 + 1);
      e5 := ReadRegister8(regs, RegDigH5);
      h5 := PackedH5(e6, e5);
      var raw6 := ReadRegister8(regs, RegDigH6);
      h6 := ToS8(raw6);
    }

    /**
     * `bme280_init`: a wrong chip ID fails after that single read, before any coefficient
     * read or register write; otherwise the coefficients are loaded and the sensor is
     * configured (0x01 to ctrl_hum, then 0xB7 to ctrl_meas).
     */
    method Init(regs: Registers) returns (r: EspErr)
      modifies this`calib, this`transactions
      ensures r == EspOk <==> regs(RegChipId) == ChipIdBme280
      ensures r == EspFail ==>
        calib == old(calib) && transactions == old(transactions) + [ReadFrame(RegChipId, 1)]
      ensures r == EspOk ==>
        calib == DecodeCalibration(regs)
        && transactions == old(transactions) + [ReadFrame(RegChipId, 1)] + CoefficientFrames()
                           + [WriteFrame(RegControlHumid, 0x01), WriteFrame(RegControl, 0xB7)]
    {
      var chipId := ReadChipId(regs);
      if chipId != ChipIdBme280 {
        return EspFail;
      }
      ReadCoefficients(regs);
      var _ := WriteRegister8(RegControlHumid, 0x01);
      var _ := WriteRegister8(RegControl, 0xB7);
      r := EspOk;
    }

    /** `burstReadMeasurement`: one 9-byte transaction. */
    method BurstReadMeasurement(rx: seq<u8>) returns (adc: AdcData)
      requires |rx| == 9
      modifies this`transactions
      ensures adc == Unpack(rx)
      ensures transactions == old(transactions) + [BurstFrame()]
    {
      transactions := transactions + [BurstFrame()];
      adc := Unpack(rx);
    }

    /** `convertUncompensatedTemperature` (integer part): writes the fine-temperature global. */
    method ConvertTemperature(adcT: int) returns (t: s32)
      requires 0 <= adcT < 0x100_0000 && NoOverflowT(Raw20(adcT), calib)
      modifies this`tFine
      ensures t == CompensateT(Raw20(adcT), calib).centiCelsius
      ensures tFine == CompensateT(Raw20(adcT), calib).tFine
    {
      var r := CompensateT(Raw20(adcT), calib);
      tFine := r.tFine;
      t := r.centiCelsius;
    }

    /** `convertUncompensatedPressure` (integer part): reads whatever the global holds. */
    method ConvertPressure(adcP: int) returns (p: u32)
      requires 0 <= adcP < 0x100_0000 && NoOverflowP(Raw20(adcP), tFine, calib)
      ensures p == CompensateP(Raw20(adcP), tFine, calib)
    {
      p := CompensateP(Raw20(adcP), tFine, calib);
    }

    /** `convertUncompensatedHumidity` (integer part): reads whatever the global holds. */
    method ConvertHumidity(adcH: s32) returns (h: u32)
      requires NoOverflowH(adcH, tFine, calib)
      ensures h == CompensateH(adcH, tFine, calib)
    {
      h := CompensateH(adcH, tFine, calib);
    }

    /**
     * `bme280_readSensorData`: because temperature is converted first, pressure and
     * humidity read the fine temperature of this burst; the previous value of the
     * global plays no part in the result.
     */
    method ReadSensorData(rx: seq<u8>) returns (reading: Reading)
      requires |rx| == 9 && ReadingDefined(Unpack(rx), calib)
      modifies this`tFine, this`transactions
      ensures reading == SensorReading(Unpack(rx), calib)
      ensures tFine == CompensateT(Raw20(Unpack(rx).adcT), calib).tFine
      ensures transactions == old(transactions) + [BurstFrame()]
    {
      var adc := BurstReadMeasurement(rx);
      var t := ConvertTemperature(adc.adcT);
      var p := ConvertPressure(adc.adcP);
      var h := ConvertHumidity(adc.adcH);
      reading := Reading(t, p, h);
    }
  }
}
