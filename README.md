# SocketSense firmware and test bench, modelled in Dafny

SocketSense is a wearable prosthetic-socket sensor. An ESP32 samples a BME280 (temperature, pressure, humidity) and up to four pressure-sensing strips. Each strip is an MCP3208 12-bit ADC behind its own chip-select line. Every five seconds the firmware stamps a sample with the PCF8523 real-time clock and the last battery voltage, and hands it to an upload task through a queue of ten entries. A button starts and stops the measurement; a green LED shows the Wi-Fi state and a red LED the measuring state. An error-handler task collects error and warning bits from the other components and drives the on-board LED. A separate Raspberry Pi test bench (Python 2) drives a linear actuator toward a list of target forces read from a CSV file.

This project models, in Dafny 4.11:

| file | module | what it models |
|---|---|---|
| `cint.dfy` | `CInt` | the C integer widths, casts and truncating division the firmware relies on |
| `bme280.dfy` | `Bme280` | SPI framing, byte assembly, calibration loading and the Bosch integer compensation formulas (BME280 datasheet, sections 4.2.2, 4.2.3 and 6.3), with the driver's globals as the fields of `Device` |
| `socketsense_sensor.dfy` | `SocketSenseSensor` | the MCP3208 command bytes and result decoding (MCP3204/3208 datasheet, section 6), the chip-select lines, and the strip-by-strip fill of the 2-D sample array |
| `pcf8523.dfy` | `Pcf8523` | BCD decoding, the register-to-calendar mapping of `pcf8523_setRtcTime`, and the 64-bit microsecond timestamp |
| `error_handler.dfy` | `ErrorHandler` | the OR-accumulated 32-bit notification word, the battery average and warning, and the handler's dispatch to the LED |
| `data_collector.dfy` | `DataCollector` | initialisation, start/stop/resume, and one pass of the acquisition task: notification slot, suspend state, resume point, bounded FIFO, absolute wake schedule |
| `main_app.dfy` | `App` | the Wi-Fi event handler and the button/LED loop of `app_main` |
| `py_runtime.dfy` | `PyRuntime` | the Python 2 values and outcomes (return, `quit()`, uncaught exception) the bench scripts need |
| `load_cell.dfy`, `forces.dfy`, `bench_main.dfy` | `BenchLoadCell`, `BenchForces`, `BenchMain` | the two cyclic `getNextForce` cursors, `load_forces`/`load_csv`, and the force-tracking rule of `Main.py` |

Modelling conventions:
- **Widths and bit operations.** Fixed-width integers are bounded `int` subset types. A shift left by k is a multiplication by 2^k. A signed shift right is floor division, which is what GCC does for the ESP32. An OR of bit lanes that do not overlap is a sum. A mask with 2^k - 1 is `% 2^k`. Casts wrap explicitly (`ToU32`, `ToU64`, `ToS16`, `ToS8`). C's `/` is `TruncDiv`.
- **Overflow.** C signed overflow is undefined behaviour. Each compensation formula therefore names every intermediate value, and a `NoOverflow` predicate requires each of them to stay in the range of the C type it is computed in (for pressure, `int64_t` except `p = 1048576 - adc_P`, which is `int32_t`).
- **The bus.** SPI and I2C are injected. The BME280 register file is a function `u8 -> u8`. A burst read is its 9 received bytes. A strip answers a command with two bytes. The clock readings, the ADC samples and the button levels are parameters. Each driver records the transactions it issues (transmit bytes, chip-select edges), so their order is part of the contracts.
- **Imperative code.** The C globals become fields of classes (`Device`, `Strips`, `Handler`, `Collector`, `Controller`), and each C function becomes a method over them. Loops stay loops with invariants, and the 2-D sample array stays an `array2`. The bench classes keep `self.index` as a field. The class-level list `Forces.force_values`, shared by all instances, is a separate `ForceStore` object.
- **The Python version.** The bench scripts are Python 2: `Forces.py` mixes tabs and spaces in a way Python 3 rejects. So a `str` compares greater than any `int` (`PyRuntime.Greater`). `Settings.quit_prog`, called by `LoadCell.getNextForce` on an empty list, does not exist, so that path raises `AttributeError`.

Behaviour the model keeps from the code:
- A full queue drops the sample and only logs it; no drop counter is kept.
- The sampling time subtracts only the microsecond fields, modulo 2^32.
- The fine temperature is a global written by `compensate_T`. `Bme280.CompensateT` returns it as data. `Device.ReadSensorData` proves that the pressure and humidity of a burst use that burst's value.
- A missing BME280 fails the initialisation and raises BME280_NOT_FOUND. That bit sends the error-handler task into its endless blink loop.

## Model

| member | source | states |
|---|---|---|
| CInt.ToU32 | KTH_SocketSense/components/bme280/bme280.c:322 | the cast result is in [0, 2^32), congruent to the input modulo 2^32, and the input itself when it already fits |
| CInt.ToU64 | KTH_SocketSense/components/pcf8523/pcf8523.c:107 | the same for `uint64_t`: in [0, 2^64), congruent modulo 2^64, identity on values that fit |
| CInt.ToS16 | KTH_SocketSense/components/bme280/bme280.c:194 | the two's-complement reading: congruent to the 16-bit pattern, and negative exactly when bit 15 is set |
| CInt.ToS8 | KTH_SocketSense/components/bme280/bme280.c:404 | the two's-complement reading of a byte: congruent modulo 256, negative exactly when bit 7 is set |
| CInt.TruncDiv | KTH_SocketSense/components/bme280/bme280.c:317 | C division: the remainder `a - q*b` is smaller than `b` in magnitude and has the sign of `a` |
| CInt.TruncDivUnique | KTH_SocketSense/components/bme280/bme280.c:317 | any two quotients satisfying that remainder condition are equal, so TruncDiv is exactly C's quotient |
| CInt.TruncDivOfNonNegative | KTH_SocketSense/components/bme280/bme280.c:317 | for non-negative operands C division agrees with floor division |
| Bme280.ReadCommand | KTH_SocketSense/components/bme280/bme280.c:153 | `reg \| 0x80`: bit 7 set, and the low seven bits address the register |
| Bme280.WriteCommand | KTH_SocketSense/components/bme280/bme280.c:226 | `reg & 0x7F`: bit 7 clear, and the same seven address bits |
| Bme280.ReadAndWriteAddressSameRegister | KTH_SocketSense/components/bme280/bme280.c:226 | a read and a write of the same register differ only by the read bit 0x80 |
| Bme280.BurstFrameIsARead | KTH_SocketSense/components/bme280/bme280.c:245-247 | the burst sends 0xF7 unmodified followed by 8 zero bytes, which is a read frame of 0xF7 |
| Bme280.Be16 | KTH_SocketSense/components/bme280/bme280.c:178 | `rx1<<8 \| rx2`: the high byte is rx1 and the low byte rx2 |
| Bme280.Swap16 | KTH_SocketSense/components/bme280/bme280.c:187 | the two bytes of the 16-bit result are those of the argument, exchanged |
| Bme280.Swap16Involution | KTH_SocketSense/components/bme280/bme280.c:187 | swapping twice gives the original word |
| Bme280.LittleEndianIsSwappedBigEndian | KTH_SocketSense/components/bme280/bme280.c:184-188 | the byte swap of the big-endian word at (lo, hi) is the word with low byte lo and high byte hi |
| Bme280.Be24 | KTH_SocketSense/components/bme280/bme280.c:213 | `rx1<<16 \| rx2<<8 \| rx3` is below 2^24 and its three bytes are rx1, rx2, rx3 |
| Bme280.PackedH4 | KTH_SocketSense/components/bme280/bme280.c:400-401 | H4 is in [0, 4095]: the upper 8 bits are register 0xE4, the low nibble is the low nibble of 0xE5 |
| Bme280.PackedH5 | KTH_SocketSense/components/bme280/bme280.c:402-403 | H5 is in [0, 4095]: the upper 8 bits are register 0xE6, the low nibble is the high nibble of 0xE5 |
| Bme280.LeWord | KTH_SocketSense/components/bme280/bme280.c:184-188 | the little-endian word at reg: low byte from reg, high byte from reg+1 |
| Bme280.DecodeCalibration | KTH_SocketSense/components/bme280/bme280.c:368-405 | the calibration record: T1 and P1 unsigned little-endian words; T2, P9 and H2 congruent to their words modulo 2^16; H1 and H3 the unsigned bytes; H4 and H5 packed 12-bit values with no sign extension; H6 the signed byte at 0xE7 |
| Bme280.Unpack | KTH_SocketSense/components/bme280/bme280.c:261-274 | pressure from rx[1..3], temperature from rx[4..6], humidity from rx[7..8]; the extra high bytes are zero, so P and T are below 2^24 and H below 2^16 |
| Bme280.Raw20 | KTH_SocketSense/components/bme280/bme280.c:344-353 | `>>= 4` keeps the 20-bit reading: the result is below 2^20 and 16 times it lies within 16 below the word |
| Bme280.CompensateT | KTH_SocketSense/components/bme280/bme280.c:283-295 | returns `(T, t_fine)` with `T = (t_fine*5+128)>>8`, meaning 256*T lies within (-128, 128] of 5*t_fine: T is t_fine*5/256 rounded to the nearest hundredth of a degree |
| Bme280.NoOverflowTInRange | KTH_SocketSense/components/bme280/bme280.c:286-292 | a reading within 2^16 of twice T1 (after `>>3`) and a T3 below 2^13 in magnitude keep every 32-bit intermediate of `compensate_T` in range |
| Bme280.PNormalisationIndependentOfReading | KTH_SocketSense/components/bme280/bme280.c:304-309 | the normalisation term `var1` depends only on t_fine and the calibration, not on the pressure reading |
| Bme280.CompensateP | KTH_SocketSense/components/bme280/bme280.c:301-323 | a zero normalisation term returns exactly 0 without dividing; otherwise the result is the 64-bit polynomial value reduced modulo 2^32 |
| Bme280.ZeroP1GivesZeroPressure | KTH_SocketSense/components/bme280/bme280.c:309-314 | with P1 = 0, as in the zeroed calibration before `readCoefficients`, every pressure is 0 |
| Bme280.Clamp | KTH_SocketSense/components/bme280/bme280.c:338-339 | the result lies in [lo, hi], is v inside the range, and is the nearer bound outside it |
| Bme280.CompensateH | KTH_SocketSense/components/bme280/bme280.c:329-342 | the result is in [0, 102400] (at most 100 %RH in Q22.10): `v>>12` inside the clamp range, 0 below it, 102400 above it |
| Bme280.SensorReading | KTH_SocketSense/components/bme280/bme280.c:90-99 | a burst's reading has humidity in [0, 102400] and pressure in [0, 2^32) |
| Bme280.ReferenceTemperature | KTH_SocketSense/components/bme280/bme280.c:283-295 | the worked example of the Bosch datasheets (T1 = 27504, T2 = 26435, T3 = -1000, adc_T = 519888) stays in range and gives 2508 (25.08 °C) with t_fine = 128422 |
| Bme280.ReferencePressure | KTH_SocketSense/components/bme280/bme280.c:301-323 | the datasheets' pressure example (P1..P9, adc_P = 415148, t_fine = 128422) stays in 64 bits and gives 25767233 (100653.25 Pa) |
| Bme280.ReferenceHumidity | KTH_SocketSense/components/bme280/bme280.c:329-342 | adc_H = 30000 at t_fine = 128422 with H1..H6 = 75, 362, 0, 324, 50, 30 stays in 32 bits and gives 52306 (51.08 %RH) |
| Bme280.Device.constructor | KTH_SocketSense/components/bme280/bme280.c:34-39 | the globals start zeroed and no transaction has been issued |
| Bme280.Device.ReadRegister8 | KTH_SocketSense/components/bme280/bme280.c:146-160 | returns the addressed byte and issues one read frame of one data byte |
| Bme280.Device.Read16BitBigEndianRegister | KTH_SocketSense/components/bme280/bme280.c:165-179 | returns Be16 of the register and the next one, in one two-byte read frame |
| Bme280.Device.Read16BitLittleEndianRegister | KTH_SocketSense/components/bme280/bme280.c:184-188 | returns the little-endian word, in one two-byte read frame |
| Bme280.Device.Read16BitSignedLittleEndianRegister | KTH_SocketSense/components/bme280/bme280.c:193-195 | returns the two's-complement reading of the little-endian word |
| Bme280.Device.ReadRegister24 | KTH_SocketSense/components/bme280/bme280.c:200-214 | returns Be24 of three consecutive registers, in one three-byte read frame |
| Bme280.Device.WriteRegister8 | KTH_SocketSense/components/bme280/bme280.c:219-234 | issues the write frame `[reg & 0x7F, data]` and returns ESP_OK |
| Bme280.Device.ReadChipId | KTH_SocketSense/components/bme280/bme280.c:135-139 | returns register 0xD0 after a single read frame |
| Bme280.Device.ReadCoefficients | KTH_SocketSense/components/bme280/bme280.c:368-405 | the calibration field becomes DecodeCalibration of the registers, with the frames issued in the statement order and, within one expression, the operands of `\|` evaluated left to right (one order the compiler may choose) |
| Bme280.Device.ReadTemperatureCoefficients | KTH_SocketSense/components/bme280/bme280.c:369-371 | T1 unsigned and T2, T3 signed little-endian words from 0x88, 0x8A, 0x8C |
| Bme280.Device.ReadPressureCoefficients | KTH_SocketSense/components/bme280/bme280.c:376-384 | P1 unsigned and P2..P9 signed little-endian words from 0x8E..0x9E |
| Bme280.Device.ReadHumidityCoefficients | KTH_SocketSense/components/bme280/bme280.c:397-404 | H1..H6 as packed above; 0xE5 is read twice, once for H4 and once for H5 |
| Bme280.Device.Init | KTH_SocketSense/components/bme280/bme280.c:63-85 | ESP_OK exactly when register 0xD0 holds 0x60. On failure only the chip-ID read was issued and the calibration is unchanged. On success the calibration is loaded, then 0x01 is written to 0xF2 and 0xB7 to 0xF4 |
| Bme280.Device.BurstReadMeasurement | KTH_SocketSense/components/bme280/bme280.c:240-277 | one 9-byte burst frame, unpacked as Unpack says |
| Bme280.Device.ConvertTemperature | KTH_SocketSense/components/bme280/bme280.c:344-349 | returns the compensated temperature of the 20-bit reading and stores its t_fine in the global |
| Bme280.Device.ConvertPressure | KTH_SocketSense/components/bme280/bme280.c:351-356 | returns CompensateP of the 20-bit reading with whatever t_fine the global holds |
| Bme280.Device.ConvertHumidity | KTH_SocketSense/components/bme280/bme280.c:358-362 | returns CompensateH of the unshifted reading with the global t_fine |
| Bme280.Device.ReadSensorData | KTH_SocketSense/components/bme280/bme280.c:90-99 | the reading equals SensorReading of this burst: because temperature is converted first, pressure and humidity use this burst's t_fine, whatever the global held before |
| SocketSenseSensor.CommandBits | KTH_SocketSense/components/socketsense_sensor/socketsense_sensor.c:86-87 | tx0 has the start and single-ended bits (bits 2-1 = 0b11), bit 0 is bit 2 of the sensel id, and the shifted id spills above for sensels of 8 or more; tx1 holds the two low id bits in bits 7-6 |
| SocketSenseSensor.CommandSelectsChannel | KTH_SocketSense/components/socketsense_sensor/socketsense_sensor.c:86-87 | for sensel < 8, tx0 = 0x06 \| (sensel>>2) and `((tx0&1)<<2) \| (tx1>>6)` is the sensel id |
| SocketSenseSensor.DecodeResult | KTH_SocketSense/components/socketsense_sensor/socketsense_sensor.c:94 | the result is in [0, 4095]: its high byte is the low nibble of rx1 and its low byte is rx2 |
| SocketSenseSensor.DecodeRecoversResult | KTH_SocketSense/components/socketsense_sensor/socketsense_sensor.c:94 | whatever the strip drives in the high nibble of rx1, a 12-bit result is decoded back exactly |
| SocketSenseSensor.RowEventsLength | KTH_SocketSense/components/socketsense_sensor/socketsense_sensor.c:68-70 | reading n sensels of a strip is 3n bus events |
| SocketSenseSensor.RowEventsTransfer | KTH_SocketSense/components/socketsense_sensor/socketsense_sensor.c:68-70 | the middle event of the e-th reading of a strip is the transfer of sensel e's command |
| SocketSenseSensor.AllEventsLength | KTH_SocketSense/components/socketsense_sensor/socketsense_sensor.c:67-71 | the events of the first nS strips number RowStart(nS, nE) = 3 * nS * nE |
| SocketSenseSensor.AllEventsRowMajor | KTH_SocketSense/components/socketsense_sensor/socketsense_sensor.c:62-72 | row-major order: the transfer of sensel e on strip s is at position 3*(s*nE + e) + 1 of the whole read |
| SocketSenseSensor.Strips.Init | KTH_SocketSense/components/socketsense_sensor/socketsense_sensor.c:41-57 | all four chip-select lines end high, raised in order 0..3, and the result is ESP_OK |
| SocketSenseSensor.Strips.Read | KTH_SocketSense/components/socketsense_sensor/socketsense_sensor.c:80-95 | the selected line goes low, the command is transferred and the line goes high again, in that order; the result is the decoded bus answer |
| SocketSenseSensor.Strips.ReadStrip | KTH_SocketSense/components/socketsense_sensor/socketsense_sensor.c:68-70 | every entry of row s holds its reading, other rows are unchanged, and the row's events are issued in sensel order |
| SocketSenseSensor.Strips.ReadSensorData | KTH_SocketSense/components/socketsense_sensor/socketsense_sensor.c:62-72 | every entry [s][e] holds Reading(s, e), the bus sees AllEvents (each entry read once, row-major), and the strips read end deselected while unread lines keep their level |
| Pcf8523.AddressByte | KTH_SocketSense/components/pcf8523/pcf8523.c:62-65 | `(0x68 << 1) \| rw`: the upper 7 bits are the address and bit 0 the read flag |
| Pcf8523.TimeReadPreambleBytes | KTH_SocketSense/components/pcf8523/pcf8523.c:60-66 | the register read sends 0xD0, 0x03, then 0xD1 after the repeated start |
| Pcf8523.BcdToInt | KTH_SocketSense/components/pcf8523/pcf8523.c:31-33 | the result is at most 165 for any byte; for decimal nibbles it is at most 99, with tens digit = high nibble and units digit = low nibble |
| Pcf8523.DecodeEncode | KTH_SocketSense/components/pcf8523/pcf8523.c:31-33 | BcdToInt inverts BCD encoding on 0..99 |
| Pcf8523.EncodeDecode | KTH_SocketSense/components/pcf8523/pcf8523.c:31-33 | BCD encoding inverts BcdToInt on bytes whose nibbles are decimal digits |
| Pcf8523.RegistersToCalendar | KTH_SocketSense/components/pcf8523/pcf8523.c:74-80 | sec, min, hour and mday come from d0..d3; mon = d5 - 1; year = 100 + d6; so year is in [100, 265] and mon in [-1, 164] |
| Pcf8523.WeekdayIgnored | KTH_SocketSense/components/pcf8523/pcf8523.c:75-80 | the weekday register d4 does not affect the calendar time |
| Pcf8523.ValidRegistersGiveValidFields | KTH_SocketSense/components/pcf8523/pcf8523.c:75-76 | BCD years and months 1-12 give a year in [100, 199] and a month in [0, 11] |
| Pcf8523.UnmaskedOscillatorStopFlag | KTH_SocketSense/components/pcf8523/pcf8523.c:80 | no control bit is masked: with bit 7 of Seconds set, the seconds field is at least 80 |
| Pcf8523.SystemClock.SetRtcTime | KTH_SocketSense/components/pcf8523/pcf8523.c:53-92 | one I2C command is logged: 0xD0, register 0x03, then 0xD1 after the repeated start. An I2C error is returned unchanged and the clock is untouched; a failed `settimeofday` gives ESP_FAIL with no time zone set; otherwise the clock gets the decoded time and the Stockholm zone |
| Pcf8523.EspTimestamp | KTH_SocketSense/components/pcf8523/pcf8523.c:104-108 | the timestamp is in [0, 2^64) and congruent to 1000000*sec + usec modulo 2^64 |
| Pcf8523.TimestampSplits | KTH_SocketSense/components/pcf8523/pcf8523.c:107 | for usec < 10^6 and no wrap, `/ 10^6` and `% 10^6` recover sec and usec |
| ErrorHandler.ErrorAndWarningHalves | KTH_SocketSense/components/error_handler/include/error_handler.h:14-46 | every word is the disjoint union of its error half (bits 0-15) and warning half (bits 16-31); BME280_NOT_FOUND is an error bit, both battery codes are warning bits |
| ErrorHandler.AccumulateKeepsEveryBit | KTH_SocketSense/components/error_handler/error_handler.c:82-84 | after any sequence of notifications, the pending bits and every bit of every code sent are set |
| ErrorHandler.AccumulateKeepsPending | KTH_SocketSense/components/error_handler/error_handler.c:82-84 | notifications never clear a pending bit |
| ErrorHandler.AccumulateIsUnion | KTH_SocketSense/components/error_handler/error_handler.c:82-84 | the received word is exactly the pending word OR the union of the codes: no other bit appears |
| ErrorHandler.BatteryVoltageIsDoubledMean | KTH_SocketSense/components/error_handler/error_handler.c:55-67 | without wrap-around, the voltage is even and half of it is the integer mean of the ten samples |
| ErrorHandler.BatteryWarning | KTH_SocketSense/components/error_handler/error_handler.c:72-76 | exactly one of the two battery bits: NOT_OK (1<<16) exactly when the voltage is below 3300 mV, otherwise OK (1<<17) |
| ErrorHandler.BatteryWarningNeverHalts | KTH_SocketSense/components/error_handler/error_handler.c:72-76 | a battery code never carries the halting error bit, and it leaves the LED on exactly when the voltage is low |
| ErrorHandler.DispatchLed | KTH_SocketSense/components/error_handler/error_handler.c:95-157 | a BME280_NOT_FOUND word sends the task into its endless blink loop, which `halted` stands for, and the level returned is the one the LED last had from an earlier dispatch; otherwise OK turns it off, NOT_OK alone turns it on, and neither leaves it unchanged |
| ErrorHandler.BothBatteryWarningsEndOff | KTH_SocketSense/components/error_handler/error_handler.c:152-157 | when both battery bits arrive in one word, OK is handled last and the LED ends off |
| ErrorHandler.Handler.constructor | KTH_SocketSense/components/error_handler/error_handler.c:203-206 | the LED starts off, nothing is pending and the battery global is zero |
| ErrorHandler.Handler.Notify | KTH_SocketSense/components/error_handler/error_handler.c:82-84 | the code is ORed into the pending notification word |
| ErrorHandler.Handler.GetBatteryVoltage | KTH_SocketSense/components/error_handler/error_handler.c:215-217 | returns exactly the value the battery loop stored last |
| ErrorHandler.Handler.BatteryRound | KTH_SocketSense/components/error_handler/error_handler.c:54-79 | the sum starts from 0 and accumulates modulo 2^32; the stored voltage is BatteryVoltage of the samples; the matching warning is ORed into the word |
| ErrorHandler.Handler.HandleNotification | KTH_SocketSense/components/error_handler/error_handler.c:89-157 | the word is read and cleared; the task halts exactly when BME280_NOT_FOUND is set; the LED becomes DispatchLed of the word |
| DataCollector.SamplingTime | KTH_SocketSense/components/data_collector/data_collector.c:167 | congruent to `stop.usec - start.usec` modulo 2^32, and equal to it when that difference is in range; the seconds are ignored |
| DataCollector.SamplingTimeAcrossSecondBoundary | KTH_SocketSense/components/data_collector/data_collector.c:167 | a sample that crosses a second boundary is reported as 2^32 + stop.usec - start.usec, which is more than 2^32 - 10^6 |
| DataCollector.PushAllKeepsEarliest | KTH_SocketSense/components/data_collector/data_collector.c:170-174 | the queue never exceeds 10 entries and holds the earliest samples sent while there was room, in order; later ones are dropped |
| DataCollector.StripReadings | KTH_SocketSense/components/data_collector/data_collector.c:162-163 | the table copied into the sample has SENSOR_COUNT rows of SENSEL_COUNT readings, entry [s][e] being Reading(s, e) |
| DataCollector.Collector.constructor | KTH_SocketSense/components/data_collector/data_collector.c:40-42 | before init: not initialised, no task, no queue, nothing pending |
| DataCollector.Collector.Init | KTH_SocketSense/components/data_collector/data_collector.c:47-126 | ESP_OK exactly when the BME280 answers with its chip ID. On failure BME280_NOT_FOUND is notified and the flag is not set; on success the calibration is loaded. Either way the chip selects go high and an empty queue is created |
| DataCollector.Collector.Start | KTH_SocketSense/components/data_collector/data_collector.c:184-194 | only when initialised and no task exists yet, the task is created and suspended at its loop top; otherwise a no-op; always ESP_OK |
| DataCollector.Collector.Stop | KTH_SocketSense/components/data_collector/data_collector.c:216-226 | when initialised the slot is overwritten with STOP (=1), so repeated stops leave one STOP pending, and nothing is suspended yet; otherwise ESP_FAIL with no effect |
| DataCollector.Collector.Resume | KTH_SocketSense/components/data_collector/data_collector.c:204-214 | when initialised, a suspended task runs again with its schedule re-anchored at `now`; a running task is unaffected; the slot is untouched; otherwise ESP_FAIL with no effect |
| DataCollector.Collector.RunCycle | KTH_SocketSense/components/data_collector/data_collector.c:144-178 | at the loop top a pending value is consumed: STOP suspends the task before measuring, with no BME280 or strip transaction and the chip selects, queue and schedule unchanged; any other value is ignored. The queue stays created. A run resumed after STOP continues past the check. Otherwise one sample is pushed (or dropped when full), the bus sees one burst and one read of every strip, and the next wake is lastWake + period |
| DataCollector.Collector.SampleAndWait | KTH_SocketSense/components/data_collector/data_collector.c:155-177 | the queue becomes Push(queue, this cycle's sample), the wake time advances by exactly one period from the previous wake time, wrapping in 32-bit ticks, and the bus sees one BME280 burst and one row-major read of every strip |
| DataCollector.Collector.TakeSample | KTH_SocketSense/components/data_collector/data_collector.c:155-168 | the sample is the RTC timestamp taken before the reads, the burst's BME280 reading, every strip reading, the usec-only sampling time and the cached battery value; the BME280 log gains exactly one burst frame and the strip log exactly AllEvents |
| DataCollector.Collector.Receive | KTH_SocketSense/components/influxdb/influxdb.c:142 | the consumer gets the oldest sample, or nothing from an empty queue |
| DataCollector.Collector.Drain | KTH_SocketSense/components/influxdb/influxdb.c:142-165 | the drain loop receives every queued sample in FIFO order and leaves the queue empty |
| App.Presses | KTH_SocketSense/main/main.c:130-146 | the number of falling edges seen is at most the number of passes |
| App.PressesAppend | KTH_SocketSense/main/main.c:130-146 | edge counting carries only `button_state` between passes: the presses of two stretches add up, the second starting from the level the first ended with |
| App.ToggledParity | KTH_SocketSense/main/main.c:127 | a level toggled n times equals (level + n) mod 2 |
| App.Controller.constructor | KTH_SocketSense/main/main.c:71-91 | both LEDs off, `led_level`, `measuring` and `button_state` zero, not connected |
| App.Controller.EventHandler | KTH_SocketSense/main/main.c:49-67 | GOT_IP: connection active, green LED on, the upload enabled and the collector started (the task exists once initialised); on a reconnect or an uninitialised collector the task state is unchanged, so a running measurement is left alone. DISCONNECTED: connection inactive and one reconnect. Any other event changes nothing. Always ESP_OK |
| App.Controller.LoopIteration | KTH_SocketSense/main/main.c:124-147 | without a connection the green LED takes `led_level` and `led_level` flips. Only a falling edge acts: a measuring controller stops the collector and clears the flag; an idle one resumes it and sets the flag only on ESP_OK. `button_state` takes the second read |
| App.Controller.RunLoop | KTH_SocketSense/main/main.c:124-148 | over any stretch of passes the flag ends toggled once per press (0 while uninitialised), `button_state` is the last read, and without a connection `led_level` toggles once per pass |
| BenchLoadCell.IndexAfterCalls | test_bench/bin/LoadCell.py:27-43 | after k >= 1 calls from 0 the cursor is (k-1) mod len + 1, so in [1, len], and the next value returned sits at position k mod len |
| BenchLoadCell.LoadCell.constructor | test_bench/bin/LoadCell.py:12-13 | the cursor starts at 0 over the given list (the class list is DefaultForces) |
| BenchLoadCell.LoadCell.GetNextForce | test_bench/bin/LoadCell.py:27-43 | an empty list raises (the undefined `Settings.quit_prog`) and returns nothing. Otherwise it returns `forces[index mod len]`, the cursor moves to NextIndex (to 1 after the end), and it ends in [1, len] |
| BenchForces.ForceStore.constructor | test_bench/bin/Forces.py:8 | the class-level list starts empty |
| BenchForces.RowCells | test_bench/bin/Forces.py:17-19 | one `str` per cell of a row, in order |
| BenchForces.Cells | test_bench/bin/Forces.py:17-19 | every cell is a `str`, and there are none exactly when every row is empty |
| BenchForces.CursorAfterCalls | test_bench/bin/Forces.py:37-46 | after k calls from 0 the cursor is k mod (len + 1): the cycle is one call longer than the list |
| BenchForces.CycleOrder | test_bench/bin/Forces.py:37-46 | in each cycle the values come out in list order, and after each wrap the first value is returned twice in a row |
| BenchForces.CursorInCycle | test_bench/bin/Forces.py:37-46 | j calls into the m-th cycle the cursor stands at j |
| BenchForces.PrintedPositionPastEnd | test_bench/bin/Forces.py:38-40 | the debug message reads one past the returned value inside the list, so it runs past the end exactly when the last value is fetched |
| BenchForces.LastIndex | test_bench/bin/Forces.py:66 | the last occurrence of a character, or -1 when there is none |
| BenchForces.Extension | test_bench/bin/Forces.py:66 | `os.path.splitext(p)[1]` (POSIX): empty, or a dot-led suffix of p with no further dot or slash |
| BenchForces.ByExtension | test_bench/bin/Forces.py:66-72 | `.csv` picks load_csv, `.txt` picks load_txt, anything else loads nothing |
| BenchForces.DispatchAsWritten | test_bench/bin/Forces.py:53-72 | as written: a non-`str` quits; an existing file with DEBUG off is reported missing; a missing file is skipped silently; only DEBUG on dispatches by extension |
| BenchForces.Dispatch | test_bench/bin/Forces.py:53-72 | as intended: a non-`str` or a missing file quits, an existing one dispatches by extension, and nothing is ever skipped |
| BenchForces.DispatchDiscrepancy | test_bench/bin/Forces.py:58-63 | the two dispatches differ exactly for a `str` path when the file is missing or DEBUG is off |
| BenchForces.Forces.constructor | test_bench/bin/Forces.py:48-51 | the cursor starts at 0 over the shared list |
| BenchForces.Forces.GetNextForceAsWritten | test_bench/bin/Forces.py:30-46 | as written with the debug message: the last value raises IndexError when DEBUG is on; otherwise it behaves as GetNextForce |
| BenchForces.Forces.GetNextForce | test_bench/bin/Forces.py:30-46 | an empty list quits. Otherwise it returns the value at Position(index) and the cursor moves to NextCursor: up by one inside the list, to 0 after the end, where the first value is returned without advancing |
| BenchForces.Forces.LoadCsv | test_bench/bin/Forces.py:12-23 | every cell of every row is appended in order to the shared list, and the call quits exactly when the list is still empty |
| BenchForces.Forces.LoadForces | test_bench/bin/Forces.py:53-75 | under Dispatch: a wrong type or missing file quits with the list unchanged, `.csv` appends the file's cells, and any other file loads nothing |
| BenchMain.Decide | test_bench/bin/Main.py:27-39 | extend only when target > current; retract only when target <= current; for a direction in {0, 1}, fetch exactly when the direction does not match the side the target is on |
| BenchMain.DirectionFor | test_bench/bin/Main.py:36-39 | the new direction is 0 or 1 for any target, and for an `int` target it is 0 (extend) exactly when the target is above the reading |
| BenchMain.FetchedTargetIsPursued | test_bench/bin/Main.py:35-39 | right after a fetch, an `int` target is pursued: at the same reading the motor moves and extends exactly when the target is above |
| BenchMain.Bench.constructor | test_bench/bin/Main.py:14 | the direction starts at 0 (extend) and no motor command has been issued |
| BenchMain.Bench.Start | test_bench/bin/Main.py:13-14 | the first target is fetched with the direction set to extend; an empty list quits with nothing changed |
| BenchMain.Bench.Iterate | test_bench/bin/Main.py:16-47 | the reading comes from the load cell's list (an empty one raises). A non-`int` target or one at or above MAX_FORCE = 1000 quits. Otherwise it steps 10 mm in the chosen direction, or it fetches the next target and turns toward it. The direction stays in {0, 1} |

## Left out

- The floating-point outputs are not modelled: `bme280_altitudeOfPressure`, `bme280_seaLevelForAltitude` and the final float divisions of `convertUncompensated*`. The model covers only their integer inputs.
- Bme280.CompensateT, Bme280.CompensateP, Bme280.CompensateH: each requires that no intermediate leaves its signed width. C signed overflow is undefined behaviour, so inputs that overflow are outside the model. Only the temperature formula carries a checked range that implies the precondition (NoOverflowTInRange).
- Bme280.Device: `assert(ret == ESP_OK)` after each SPI transfer aborts the program. The model takes every transfer to succeed.
- SocketSenseSensor.Strips.Read, SocketSenseSensor.Strips.ReadSensorData: also take every transfer to succeed. They require a strip id below 4, because `cs_line` has four entries. They require SENSEL_COUNT below 256, because the `uint8_t` loop counter would never reach 256.
- DataCollector.Collector.Stop, DataCollector.Collector.Resume, App.Controller.LoopIteration: they pass a possibly-NULL task handle to FreeRTOS. The model requires the task to exist whenever the collector is initialised and the call is made.
- RTOS scheduling is not modelled:
  - task creation, core pinning and preemption;
  - preemption between `start`'s task creation and its `vTaskSuspend`;
  - `vTaskDelay(300 ms)` between loop passes;
  - the accuracy of `vTaskDelayUntil`.
  
  `lastWake` records the schedule, and the tick rate is a constructor parameter.
- `main.c` calls `data_collector_start` from the event handler even before `data_collector_init` has run. The model's Start then does nothing, as the code does, but the concurrent interleaving itself is not modelled.
- `esp_wifi_connect` failing inside the event handler aborts; the model counts the reconnect and takes it to succeed. `influxdb_enable` is a flag and the upload task is not modelled.
- Only the drain loop of the consumer is modelled (DataCollector.Collector.Drain). HTTP formatting and posting are left out.
- The creation of the queue (`xQueueCreate`) is taken to succeed. Its failure is only logged by the code.
- The CONFIG switches (`CONFIG_BME280_SENSOR_ACTIVE`, `CONFIG_SOCKETSENSE_SENSOR_ACTIVE`, `CONFIG_GAIT_SENSOR_ACTIVE`) are taken as enabled. SENSOR_COUNT and SENSEL_COUNT are constructor parameters.
- `gait_monitor` is not part of this model. Its initialisation only stores a handle and returns ESP_OK.
- Pcf8523.SystemClock.SetRtcTime: `EspErr` has only ESP_OK and ESP_FAIL, so every error code of `i2c_master_cmd_begin` is collapsed to ESP_FAIL. "Returned unchanged" holds only in that sense.
- The rest of `pcf8523.c` uses library time calls that are not modelled: `mktime`, `settimeofday` (its success is a parameter), `tzset` and `pcf8523_getEspTimeString`. The last calls `strftime` with `sizeof` of a `char *` as the buffer length.
- ADC characterisation and the EFUSE check of `battery_task` are not modelled: the ten calibrated samples are its input.
- `sd_logging.c` and everything else in `influxdb.c` (file and network I/O) are not modelled.
- `LoadCell.getMeasurement` needs float HX711 readings and the undefined `Settings.ALLOWED_*` constants. The HX711 set-up in `LoadCell.__init__` is not modelled either.
- The motor scripts `Motor.py`, `LinearActuator.py` and `MoveMotor.py` are not modelled. Their calls are logged as `Move` records.
- `newmailing.py` and `GPIO-cleanup.py` are not modelled.
- BenchForces.Forces.LoadCsv: opening the file is not modelled. The rows that `csv.reader` yields are a parameter, and a file that cannot be opened is left out. `load_txt` loads nothing.
- BenchMain.Bench.Iterate: Python 2's `long` integers count as `int`. A target too large for `int` would count as non-`int` in the source; the model does not distinguish the two types.
- There is no drop counter for full queues, because the code only logs the drop.

## Findings

| source | as written | input that shows it | evidently intended | confidence | as-written member | corrected member |
|---|---|---|---|---|---|---|
| test_bench/bin/Forces.py:38-40 | with DEBUG on (the shipped setting, Settings.py line 6), the message after the increment prints `force_values[self.index]`, one past the value returned | a loaded list of n >= 1 values, DEBUG on, n-1 earlier calls: the n-th call indexes `force_values[n]` and raises IndexError instead of returning the last value | print the value being returned, `force_values[self.index - 1]` | high (not executed) | BenchForces.Forces.GetNextForceAsWritten | BenchForces.Forces.GetNextForce |
| test_bench/bin/Forces.py:58-63 | the `else` that reports "Could not find the file path!" and quits belongs to `if(Settings.DEBUG)`, not to `if(os.path.exists(...))` | an existing `.csv` path with DEBUG off is reported missing and the program quits; a missing path with DEBUG on is passed over silently and the program later quits for an empty list | report and quit for a missing file; load an existing one whatever the debug setting | high (not executed) | BenchForces.DispatchAsWritten | BenchForces.Dispatch |

The rest of the model uses the corrected members. BenchForces.Forces.LoadForces dispatches with BenchForces.Dispatch, and BenchMain.Bench calls BenchForces.Forces.GetNextForce. BenchForces.DispatchDiscrepancy proves exactly where the two dispatches differ. The contract of GetNextForceAsWritten, with BenchForces.PrintedPositionPastEnd, pins down when it raises.
