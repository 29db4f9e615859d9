/**
 * The SocketSense sensor strips: each strip carries an MCP3208 12-bit ADC with its own
 * chip-select line. One reading is a 3-byte SPI transfer (MCP3204/3208 datasheet, section 6:
 * start bit, SGL/DIFF bit and channel bits D2 D1 D0, then the 12-bit result right-aligned
 * in the last two received bytes).
 *
 * The SPI bus is injected: `Bus` gives the two result bytes a strip answers to a command.
 */
module SocketSenseSensor {
  import opened CInt

  /** The number of chip-select lines (`cs_line`). */
  const MaxSensorStrips := 4

  /**
   * `(0x01 << 2) | (0x01 << 1) | (senselId >> 2)`: start and single-ended bits set, and
   * D2 in bit 0 (the bit lanes are disjoint, so `|` is `+`).
   */
  function CommandByte0(sensel: u8): u8
  {
    var x := sensel / 4;
    (x / 8) * 8 + 6 + x % 2
  }

  /** `(senselId << 6)` stored in a byte: D1 D0 in the two top bits. */
  function CommandByte1(sensel: u8): u8
  {
    (sensel * 64) % 256
  }

  /** The three transmit bytes of one reading (the third is zero from the `memset`). */
  function Command(sensel: u8): seq<u8>
  {
    [CommandByte0(sensel), CommandByte1(sensel), 0]
  }

  /**
   * The bit fields of the command: bits 1-2 of the first byte are the start and
   * single-ended bits, bit 0 is bit 2 of the sensel id, and for sensels of 8 and more the
   * shifted id spills into the bits above; the second byte holds the two low id bits on top.
   */
  lemma CommandBits(sensel: u8)
    ensures (CommandByte0(sensel) / 2) % 4 == 3
    ensures CommandByte0(sensel) % 2 == (sensel / 4) % 2
    ensures CommandByte0(sensel) / 8 == sensel / 32
    ensures CommandByte1(sensel) % 64 == 0 && CommandByte1(sensel) / 64 == sensel % 4
  {
    var x := sensel / 4;
    var b := CommandByte0(sensel);
    DivUnique(b, 8, x / 8, 6 + x % 2);
    DivUnique(b, 2, (x / 8) * 4 + 3, x % 2);
  }

  /** For the eight channels of an MCP3208 the channel bits D2 D1 D0 spell the sensel id. */
  lemma CommandSelectsChannel(sensel: u8)
    requires sensel < 8
    ensures CommandByte0(sensel) == 6 + sensel / 4
    ensures (CommandByte0(sensel) % 2) * 4 + CommandByte1(sensel) / 64 == sensel
  {
    CommandBits(sensel);
  }

  /** `((rx_data[1] & 0x0F) << 8) | rx_data[2]`: the 12-bit result. */
  function DecodeResult(rx1: u8, rx2: u8): (v: u16)
    ensures 0 <= v < 4096
    ensures v / 256 == rx1 % 16 && v % 256 == rx2
  {
    (rx1 % 16) * 256 + rx2
  }

  /** Whatever the strip drives in the high nibble of the second byte, the 12-bit result is recovered. */
  lemma DecodeRecoversResult(v: int, high: u8)
    requires 0 <= v < 4096 && high < 16
    ensures DecodeResult(high * 16 + v / 256, v % 256) == v
  {
    DivUnique(high * 16 + v / 256, 16, high, v / 256);
  }

  /** The result bytes (rx_data[1], rx_data[2]) the strip on `line` answers to `tx`. */
  type Bus = (int, seq<u8>) -> (u8, u8)

  /** The reading of sensel `e` on strip `s`. */
  function Reading(bus: Bus, s: int, e: u8): u16
  {
    var rx := bus(s, Command(e));
    DecodeResult(rx.0, rx.1)
  }

  /** What the driver does on the wires: drive a chip-select line, or transfer on a strip. */
  datatype Event = ChipSelect(line: int, level: Level) | Transfer(line: int, tx: seq<u8>)

  /** One `socketsense_sensor_read`: select, transfer, deselect. */
  function ReadEvents(s: int, e: u8): seq<Event>
  {
    [ChipSelect(s, 0), Transfer(s, Command(e)), ChipSelect(s, 1)]
  }

  /** The readings of sensels 0 .. n-1 of strip s, in order. */
  function RowEvents(s: int, n: nat): seq<Event>
    requires n <= 256
  {
    if n == 0 then [] else RowEvents(s, n - 1) + ReadEvents(s, (n - 1) as u8)
  }

  /** The readings of strips 0 .. nS-1, each over sensels 0 .. nE-1: row-major order. */
  function AllEvents(nS: nat, nE: nat): seq<Event>
    requires nE <= 256
  {
    if nS == 0 then [] else AllEvents(nS - 1, nE) + RowEvents(nS - 1, nE)
  }

  lemma {:induction false} RowEventsLength(s: int, n: nat)
    requires n <= 256
    ensures |RowEvents(s, n)| == 3 * n
  {
    if n > 0 {
      RowEventsLength(s, n - 1);
    }
  }

  lemma {:induction false} RowEventsTransfer(s: int, n: nat, e: nat)
    requires n <= 256 && e < n
    ensures |RowEvents(s, n)| == 3 * n
    ensures RowEvents(s, n)[3 * e + 1] == Transfer(s, Command(e as u8))
  {
    RowEventsLength(s, n);
    RowEventsLength(s, n - 1);
    if e < n - 1 {
      RowEventsTransfer(s, n - 1, e);
    }
  }

  /** The position of the first event of strip s: three events per sensel of each earlier strip. */
  function RowStart(s: nat, nE: nat): nat
  {
    if s == 0 then 0 else RowStart(s - 1, nE) + 3 * nE
  }

  lemma {:induction false} RowStartClosedForm(s: nat, nE: nat)
    ensures RowStart(s, nE) == 3 * s * nE
  {
    if s > 0 {
      RowStartClosedForm(s - 1, nE);
      assert 3 * s * nE == 3 * (s - 1) * nE + 3 * nE;
    }
  }

  lemma {:induction false} AllEventsLength(nS: nat, nE: nat)
    requires nE <= 256
    ensures |AllEvents(nS, nE)| == RowStart(nS, nE)
  {
    if nS > 0 {
      AllEventsLength(nS - 1, nE);
      RowEventsLength(nS - 1, nE);
    }
  }

  /**
   * Every sensel of every strip is transferred exactly once, in row-major order: the
   * transfer of sensel e on strip s is the middle event of reading number s * nE + e
   * (RowStart(s, nE) is 3 * s * nE).
   */
  lemma {:induction false} AllEventsRowMajor(nS: nat, nE: nat, s: nat, e: nat)
    requires nE <= 256 && s < nS && e < nE
    ensures var i := RowStart(s, nE) + 3 * e + 1;
      i < |AllEvents(nS, nE)| && AllEvents(nS, nE)[i] == Transfer(s, Command(e as u8))
  {
    if s < nS - 1 {
      AllEventsRowMajor(nS - 1, nE, s, e);
      AllEventsPrefix(nS, nE, RowStart(s, nE) + 3 * e + 1);
    } else {
      RowEventsTransfer(s, nE, e);
      AllEventsLastRow(nS, nE, 3 * e + 1);
    }
  }

  /** Adding a strip leaves the events of the earlier strips where they were. */
  lemma AllEventsPrefix(nS: nat, nE: nat, i: nat)
    requires nE <= 256 && nS > 0 && i < |AllEvents(nS - 1, nE)|
    ensures i < |AllEvents(nS, nE)| && AllEvents(nS, nE)[i] == AllEvents(nS - 1, nE)[i]
  {
    IndexLeftOfAppend(AllEvents(nS - 1, nE), RowEvents(nS - 1, nE), i);
  }

  /** The events of the last strip follow the events of all earlier strips. */
  lemma AllEventsLastRow(nS: nat, nE: nat, j: nat)
    requires nE <= 256 && nS > 0 && j < |RowEvents(nS - 1, nE)|
    ensures RowStart(nS - 1, nE) + j < |AllEvents(nS, nE)|
    ensures AllEvents(nS, nE)[RowStart(nS - 1, nE) + j] == RowEvents(nS - 1, nE)[j]
  {
    AllEventsLength(nS - 1, nE);
    IndexRightOfAppend(AllEvents(nS - 1, nE), RowEvents(nS - 1, nE), RowStart(nS - 1, nE) + j);
  }

  lemma IndexLeftOfAppend<T>(a: seq<T>, b: seq<T>, i: nat)
    requires i < |a|
    ensures i < |a + b| && (a + b)[i] == a[i]
  {
  }

  lemma IndexRightOfAppend<T>(a: seq<T>, b: seq<T>, i: nat)
    requires |a| <= i < |a| + |b|
    ensures i < |a + b| && (a + b)[i] == b[i - |a|]
  {
  }

  function InitEvents(n: nat): seq<Event>
  {
    if n == 0 then [] else InitEvents(n - 1) + [ChipSelect(n - 1, 1)]
  }

  lemma AppendAssociative<T>(a: seq<T>, b: seq<T>, c: seq<T>)
    ensures a + (b + c) == (a + b) + c
  {
  }

  /** The chip-select lines after the first k have been raised (deselected) one by one. */
  function RaiseLines(levels: seq<Level>, k: nat): (r: seq<Level>)
    requires k <= |levels|
    ensures |r| == |levels|
    ensures forall s :: 0 <= s < |levels| ==> r[s] == if s < k then 1 else levels[s]
  {
    if k == 0 then levels else RaiseLines(levels, k - 1)[k - 1 := 1]
  }

  /** The chip-select lines and the bus activity of the driver. */
  class Strips {
    var csLevel: seq<Level>
    var events: seq<Event>

    /** Before `socketsense_sensor_init` the lines are not driven; the model starts them low. */
    constructor ()
      ensures csLevel == [0, 0, 0, 0] && events == []
    {
      csLevel := [0, 0, 0, 0];
      events := [];
    }

    /** `socketsense_sensor_init`: every chip-select line is driven high (deselected). */
    method Init() returns (r: EspErr)
      requires |csLevel| == MaxSensorStrips
      modifies this
      ensures r == EspOk
      ensures csLevel == [1, 1, 1, 1]
      ensures events == old(events) + InitEvents(MaxSensorStrips)
    {
      for i := 0 to MaxSensorStrips
        invariant |csLevel| == MaxSensorStrips
        invariant forall j :: 0 <= j < i ==> csLevel[j] == 1
        invariant events == old(events) + InitEvents(i)
      {
        csLevel := csLevel[i := 1];
        events := events + [ChipSelect(i, 1)];
      }
      r := EspOk;
    }

    /** `socketsense_sensor_read` (a failing transfer aborts, so the transfer is taken to succeed). */
    method Read(bus: Bus, sensorId: int, senselId: u8) returns (v: u16)
      requires 0 <= sensorId < MaxSensorStrips && |csLevel| == MaxSensorStrips
      modifies this
      ensures v == Reading(bus, sensorId, senselId)
      ensures csLevel == old(csLevel)[sensorId := 1]
      ensures events == old(events) + ReadEvents(sensorId, senselId)
    {
      var tx := [CommandByte0(senselId), CommandByte1(senselId), 0];
      csLevel := csLevel[sensorId := 0];
      events := events + [ChipSelect(sensorId, 0)];
      var rx := bus(sensorId, tx);
      events := events + [Transfer(sensorId, tx)];
      csLevel := csLevel[sensorId := 1];
      events := events + [ChipSelect(sensorId, 1)];
      v := DecodeResult(rx.0, rx.1);
    }

    /**
     * `socketsense_sensor_readSensorData`: fills `data[s, e]` with the reading of sensel e on
     * strip s for every entry, strip by strip; the `uint8_t` loop counters need fewer than
     * 256 sensels and `cs_line` at most four strips.
     */
    method ReadSensorData(bus: Bus, data: array2<u16>)
      requires data.Length0 <= MaxSensorStrips && data.Length1 < 256
      requires |csLevel| == MaxSensorStrips
      modifies this, data
      ensures forall s, e :: 0 <= s < data.Length0 && 0 <= e < data.Length1 ==>
        data[s, e] == Reading(bus, s, e as u8)
      ensures events == old(events) + AllEvents(data.Length0, data.Length1)
      ensures |csLevel| == MaxSensorStrips
      ensures forall s :: 0 <= s < MaxSensorStrips ==>
        csLevel[s] == (if s < data.Length0 && data.Length1 > 0 then 1 else old(csLevel)[s])
    {
      var sensorId := 0;
      while sensorId < data.Length0
        invariant 0 <= sensorId <= data.Length0
        invariant |csLevel| == MaxSensorStrips
        invariant forall s, e :: 0 <= s < sensorId && 0 <= e < data.Length1 ==>
          data[s, e] == Reading(bus, s, e as u8)
        invariant events == old(events) + AllEvents(sensorId, data.Length1)
        invariant csLevel == RaiseLines(old(csLevel), if data.Length1 > 0 then sensorId else 0)
      {
        label before:
        ReadStrip(bus, data, sensorId);
        forall s, e | 0 <= s <= sensorId && 0 <= e < data.Length1
          ensures data[s, e] == Reading(bus, s, e as u8)
        {
          if s < sensorId {
            assert data[s, e] == old@before(data[s, e]);
          }
        }
        AppendAssociative(old(events), AllEvents(sensorId, data.Length1), RowEvents(sensorId, data.Length1));
        sensorId := sensorId + 1;
      }
    }

    /** The inner loop of `socketsense_sensor_readSensorData`: all sensels of one strip. */
    method ReadStrip(bus: Bus, data: array2<u16>, sensorId: nat)
      requires sensorId < data.Length0 <= MaxSensorStrips && data.Length1 < 256
      requires |csLevel| == MaxSensorStrips
      modifies this, data
      ensures forall e :: 0 <= e < data.Length1 ==> data[sensorId, e] == Reading(bus, sensorId, e as u8)
      ensures forall s, e :: 0 <= s < data.Length0 && s != sensorId && 0 <= e < data.Length1 ==>
        data[s, e] == old(data[s, e])
      ensures events == old(events) + RowEvents(sensorId, data.Length1)
      ensures |csLevel| == MaxSensorStrips
      ensures csLevel == if data.Length1 > 0 then old(csLevel)[sensorId := 1] else old(csLevel)
    {
      var senselId := 0;
      while senselId < data.Length1
        invariant 0 <= senselId <= data.Length1
        invariant |csLevel| == MaxSensorStrips
        invariant forall e :: 0 <= e < senselId ==> data[sensorId, e] == Reading(bus, sensorId, e as u8)
        invariant forall s, e :: 0 <= s < data.Length0 && s != sensorId && 0 <= e < data.Length1 ==>
          data[s, e] == old(data[s, e])
        invariant events == old(events) + RowEvents(sensorId, senselId)
        invariant csLevel == if senselId > 0 then old(csLevel)[sensorId := 1] else old(csLevel)
      {
        AppendAssociative(old(events), RowEvents(sensorId, senselId), ReadEvents(sensorId, senselId as u8));
        var v := Read(bus, sensorId, senselId as u8);
        data[sensorId, senselId] := v;
        senselId := senselId + 1;
      }
    }
  }
}
