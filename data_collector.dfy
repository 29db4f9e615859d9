/**
 * The data collector: initialisation of the sensors, the periodic acquisition task and
 * the calls that start, stop and resume it.
 *
 * The FreeRTOS primitives become state: the task exists or not, is suspended or not, and
 * continues either at the top of its loop (where the notification is checked) or, after a
 * STOP, just past that check; its notification slot holds at most one value; the data queue
 * is a bounded FIFO; `lastWake` is the absolute schedule of `vTaskDelayUntil`. One pass of
 * the task's loop is one call of `RunCycle`, which takes the clock readings, the BME280 burst
 * and the strips' bus as inputs.
 */
module DataCollector {
  import opened CInt
  import Bme280
  import SocketSenseSensor
  import ErrorHandler
  import Pcf8523

  const TaskPeriodMs := 5000
  const NotifyStop: u32 := 1
  const QueueCapacity := 10

  /** `struct timeval`. */
  datatype TimeVal = TimeVal(sec: int, usec: int)

  /** `SocketSense_Sample_t` with the integer outputs of the BME280. */
  datatype Sample = Sample(timestampUsec: int, bme280: Bme280.Reading, strips: seq<seq<u16>>,
                           samplingTime: u32, batteryVoltage: u32)

  /** `(uint32_t)(stop.tv_usec - start.tv_usec)`: only the microsecond fields take part. */
  function SamplingTime(start: TimeVal, stop: TimeVal): (r: u32)
    ensures (stop.usec - start.usec - r) % 0x1_0000_0000 == 0
    ensures 0 <= stop.usec - start.usec < 0x1_0000_0000 ==> r == stop.usec - start.usec
  {
    ToU32(stop.usec - start.usec)
  }

  /**
   * A sample that straddles a second boundary is reported as almost 2^32 microseconds:
   * with normalised time values and a later microsecond field at the start, the result is
   * at least 2^32 - 10^6.
   */
  lemma SamplingTimeAcrossSecondBoundary(start: TimeVal, stop: TimeVal)
    requires 0 <= start.usec < 1000000 && 0 <= stop.usec < 1000000 && stop.usec < start.usec
    ensures SamplingTime(start, stop) == 0x1_0000_0000 + stop.usec - start.usec
    ensures SamplingTime(start, stop) > 0x1_0000_0000 - 1000000
  {
    DivUnique(stop.usec - start.usec, 0x1_0000_0000, -1, 0x1_0000_0000 + stop.usec - start.usec);
  }

  /** `xQueueSend(data_queue, &sample, 0)`: a full queue drops the sample. */
  function Push<T>(q: seq<T>, x: T): seq<T>
  {
    if |q| < QueueCapacity then q + [x] else q
  }

  /** The queue after the samples `xs` were sent, oldest first, with nothing received meanwhile. */
  function PushAll<T>(q: seq<T>, xs: seq<T>): seq<T>
  {
    if |xs| == 0 then q else Push(PushAll(q, xs[..|xs| - 1]), xs[|xs| - 1])
  }

  function Min(a: int, b: int): int { if a < b then a else b }

  /**
   * The queue never exceeds its capacity, and the samples it accepts are the earliest ones
   * sent while there was room, kept in the order they were sent; the rest are dropped.
   */
  lemma {:induction false} PushAllKeepsEarliest<T>(q: seq<T>, xs: seq<T>)
    requires |q| <= QueueCapacity
    ensures PushAll(q, xs) == q + xs[..Min(|xs|, QueueCapacity - |q|)]
    ensures |PushAll(q, xs)| <= QueueCapacity
  {
    if |xs| > 0 {
      var n := |xs| - 1;
      PushAllKeepsEarliest(q, xs[..n]);
      assert xs[..n][..Min(n, QueueCapacity - |q|)] == xs[..Min(n, QueueCapacity - |q|)];
      if n < QueueCapacity - |q| {
        assert xs[..n] + [xs[n]] == xs[..n + 1];
      }
    }
  }

  /** The strip readings of one cycle, strip-major. */
  function StripReadings(bus: SocketSenseSensor.Bus, sensorCount: nat, senselCount: nat): (r: seq<seq<u16>>)
    requires senselCount < 256
    ensures |r| == sensorCount
    ensures forall s :: 0 <= s < sensorCount ==> |r[s]| == senselCount
    ensures forall s, e :: 0 <= s < sensorCount && 0 <= e < senselCount ==>
      r[s][e] == SocketSenseSensor.Reading(bus, s, e as u8)
  {
    seq(sensorCount, s => seq(senselCount, e requires 0 <= e < senselCount => SocketSenseSensor.Reading(bus, s, e as u8)))
  }

  /**
   * The sample one cycle produces: the timestamp taken at the start of the cycle, the
   * BME280 reading of the burst, the strip readings, the sampling time and the battery value.
   */
  function CycleSample(start: TimeVal, stamp: TimeVal, stop: TimeVal, rx: seq<u8>, calib: Bme280.CalibData,
                       bus: SocketSenseSensor.Bus, sensorCount: nat, senselCount: nat, battery: u32): Sample
    requires |rx| == 9 && Bme280.ReadingDefined(Bme280.Unpack(rx), calib) && senselCount < 256
  {
    Sample(Pcf8523.EspTimestamp(stamp.sec, stamp.usec), Bme280.SensorReading(Bme280.Unpack(rx), calib),
           StripReadings(bus, sensorCount, senselCount), SamplingTime(start, stop), battery)
  }

  /** Two tables with the same rows lengths and entries are equal. */
  lemma SameTable(a: seq<seq<u16>>, b: seq<seq<u16>>, width: nat)
    requires |a| == |b|
    requires forall s :: 0 <= s < |a| ==> |a[s]| == width && |b[s]| == width
    requires forall s, e :: 0 <= s < |a| && 0 <= e < width ==> a[s][e] == b[s][e]
    ensures a == b
  {
    forall s | 0 <= s < |a|
      ensures a[s] == b[s]
    {
      assert forall e :: 0 <= e < width ==> a[s][e] == b[s][e];
    }
  }

  /** Where the task continues when it next runs. */
  datatype Point =
    | LoopTop   // the notification check at the top of the loop
    | Sampling  // just after the suspend in the STOP branch

  class Collector {
    const bme: Bme280.Device
    const strips: SocketSenseSensor.Strips
    const eh: ErrorHandler.Handler
    /** `sample.sensorstrip_data`, the array the strips are read into. */
    const stripData: array2<u16>
    /** `DATA_COLLECTOR_TASK_PERIOD_MS / portTICK_PERIOD_MS`. */
    const periodTicks: nat

    /** `dataCollector_initialized`. */
    var initialized: bool
    var queueCreated: bool
    /** `dataCollectionTask != NULL`. */
    var taskCreated: bool
    var suspended: bool
    var next: Point
    /** The task's notification value, if one is pending. */
    var slot: Option<u32>
    /** `data_queue`. */
    var queue: seq<Sample>
    /** `xLastWakeTime`, in ticks. */
    var lastWake: u32

    ghost predicate Valid()
      reads this, strips
    {
      |strips.csLevel| == SocketSenseSensor.MaxSensorStrips
      && stripData.Length0 <= SocketSenseSensor.MaxSensorStrips && stripData.Length1 < 256
      && |queue| <= QueueCapacity
      && (taskCreated ==> initialized)
      && (suspended ==> taskCreated)
    }

    /**
     * The component before `data_collector_init`, for `sensorCount` strips of `senselCount`
     * sensels (`CONFIG_SOCKETSENSE_SENSOR_COUNT`, `CONFIG_SOCKETSENSE_SENSEL_COUNT`).
     */
    constructor (handler: ErrorHandler.Handler, sensorCount: nat, senselCount: nat, tickPeriodMs: nat)
      requires sensorCount <= SocketSenseSensor.MaxSensorStrips && senselCount < 256 && tickPeriodMs > 0
      ensures Valid() && fresh(bme) && fresh(strips) && fresh(stripData)
      ensures eh == handler && stripData.Length0 == sensorCount && stripData.Length1 == senselCount
      ensures periodTicks == TaskPeriodMs / tickPeriodMs
      ensures !initialized && !queueCreated && !taskCreated && !suspended && slot == None && queue == []
    {
      bme := new Bme280.Device();
      strips := new SocketSenseSensor.Strips();
      eh := handler;
      stripData := new u16[sensorCount, senselCount];
      periodTicks := TaskPeriodMs / tickPeriodMs;
      initialized := false;
      queueCreated := false;
      taskCreated := false;
      suspended := false;
      next := LoopTop;
      slot := None;
      queue := [];
      lastWake := 0;
    }

    /**
     * `data_collector_init`: a BME280 that does not answer with its chip ID raises
     * BME280_NOT_FOUND and fails the initialisation; the strips' chip selects are driven
     * high and the queue is created either way.
     */
    method Init(regs: Bme280.Registers) returns (r: EspErr)
      requires Valid() && !taskCreated
      modifies this, bme, strips, eh
      ensures Valid() && !taskCreated && !suspended
      ensures r == EspOk <==> regs(Bme280.RegChipId) == Bme280.ChipIdBme280
      ensures initialized == (old(initialized) || r == EspOk)
      ensures queueCreated && queue == [] && slot == old(slot)
      ensures r == EspOk ==> bme.calib == Bme280.DecodeCalibration(regs)
      ensures r == EspFail ==>
        eh.notificationValue == old(eh.notificationValue) | ErrorHandler.ErrorBme280NotFound && eh.pending
      ensures r == EspOk ==> eh.notificationValue == old(eh.notificationValue) && eh.pending == old(eh.pending)
      ensures eh.batteryVoltage == old(eh.batteryVoltage) && eh.led == old(eh.led) && eh.halted == old(eh.halted)
      ensures strips.csLevel == [1, 1, 1, 1]
    {
      var retval := EspOk;
      var bmeStatus := bme.Init(regs);
      if bmeStatus != EspOk {
        eh.Notify(ErrorHandler.ErrorBme280NotFound);
        retval := EspFail;
      }
      var stripStatus := strips.Init();
      if stripStatus != EspOk {
        retval := EspFail;
      }
      // gait_monitor_init only stores its handle and reports ESP_OK.
      queue := [];
      queueCreated := true;
      if retval == EspOk {
        initialized := true;
      }
      r := retval;
    }

    /**
     * `data_collector_start`: creates the task once, and only after a successful
     * initialisation, and suspends it before it runs; always ESP_OK.
     */
    method Start() returns (r: EspErr)
      requires Valid()
      modifies this`taskCreated, this`suspended, this`next
      ensures Valid() && r == EspOk
      ensures old(initialized) && !old(taskCreated) ==> taskCreated && suspended && next == LoopTop
      ensures !(old(initialized) && !old(taskCreated)) ==>
        taskCreated == old(taskCreated) && suspended == old(suspended) && next == old(next)
    {
      if initialized {
        if !taskCreated {
          taskCreated := true;
          next := LoopTop;
          suspended := true;
        }
      }
      r := EspOk;
    }

    /**
     * `data_collector_stop`: overwrites the notification slot with STOP, so any number of
     * stops leave one STOP pending; the task suspends only when it next checks the slot.
     */
    method Stop() returns (r: EspErr)
      requires Valid() && (initialized ==> taskCreated)
      modifies this`slot
      ensures initialized ==> r == EspOk && slot == Some(NotifyStop)
      ensures !initialized ==> r == EspFail && slot == old(slot)
    {
      if initialized {
        slot := Some(NotifyStop);
      } else {
        return EspFail;
      }
      r := EspOk;
    }

    /**
     * `data_collector_resume`: a suspended task runs again and re-anchors its schedule at
     * the moment it wakes (`now`), without catching up on missed periods; a task that is
     * not suspended is unaffected. The notification slot is not touched.
     */
    method Resume(now: u32) returns (r: EspErr)
      requires Valid() && (initialized ==> taskCreated)
      modifies this`suspended, this`lastWake
      ensures Valid()
      ensures !initialized ==> r == EspFail && suspended == old(suspended) && lastWake == old(lastWake)
      ensures initialized ==> r == EspOk && !suspended
      ensures initialized && old(suspended) ==> lastWake == now
      ensures !old(suspended) ==> lastWake == old(lastWake)
    {
      if initialized {
        if suspended {
          suspended := false;
          lastWake := now;
        }
      } else {
        return EspFail;
      }
      r := EspOk;
    }

    /**
     * One run of the task's loop from where it stands. At the loop top a pending
     * notification is read and cleared: STOP suspends the task before anything is
     * measured, any other value is ignored. Otherwise one sample is taken, offered to the
     * queue without waiting, and the next wake-up is one period after the previous one.
     */
    method RunCycle(start: TimeVal, stamp: TimeVal, stop: TimeVal, rx: seq<u8>, bus: SocketSenseSensor.Bus)
      requires Valid() && taskCreated && !suspended
      requires |rx| == 9 && Bme280.ReadingDefined(Bme280.Unpack(rx), bme.calib)
      modifies this, bme, strips, stripData
      ensures Valid() && taskCreated && initialized == old(initialized) && bme.calib == old(bme.calib)
      ensures queueCreated == old(queueCreated)
      ensures old(next) == LoopTop && old(slot) == Some(NotifyStop) ==>
        suspended && next == Sampling && slot == None && queue == old(queue) && lastWake == old(lastWake)
        && bme.transactions == old(bme.transactions)
        && strips.events == old(strips.events) && strips.csLevel == old(strips.csLevel)
      ensures !(old(next) == LoopTop && old(slot) == Some(NotifyStop)) ==>
        !suspended && next == LoopTop
        && slot == (if old(next) == LoopTop then None else old(slot))
        && queue == Push(old(queue), CycleSample(start, stamp, stop, rx, old(bme.calib), bus,
                                                 stripData.Length0, stripData.Length1, eh.batteryVoltage))
        && lastWake == ToU32(old(lastWake) + periodTicks)
        && bme.transactions == old(bme.transactions) + [Bme280.BurstFrame()]
        && strips.events == old(strips.events) + SocketSenseSensor.AllEvents(stripData.Length0, stripData.Length1)
    {
      if next == LoopTop && slot.Some? {
        var notified := slot.value;
        slot := None;
        if notified == NotifyStop {
          suspended := true;
          next := Sampling;
          return;
        }
      }
      SampleAndWait(start, stamp, stop, rx, bus);
    }

    /**
     * Lines 155-177 of the loop: one sample is taken and offered to the queue without
     * waiting (dropped when the queue is full), and the task sleeps until one period after
     * its previous wake-up time.
     */
    method SampleAndWait(start: TimeVal, stamp: TimeVal, stop: TimeVal, rx: seq<u8>, bus: SocketSenseSensor.Bus)
      requires Valid()
      requires |rx| == 9 && Bme280.ReadingDefined(Bme280.Unpack(rx), bme.calib)
      modifies this`queue, this`lastWake, this`next, bme, strips, stripData
      ensures Valid() && bme.calib == old(bme.calib) && next == LoopTop
      ensures queue == Push(old(queue), CycleSample(start, stamp, stop, rx, old(bme.calib), bus,
                                                    stripData.Length0, stripData.Length1, eh.batteryVoltage))
      ensures lastWake == ToU32(old(lastWake) + periodTicks)
      ensures bme.transactions == old(bme.transactions) + [Bme280.BurstFrame()]
      ensures strips.events == old(strips.events) + SocketSenseSensor.AllEvents(stripData.Length0, stripData.Length1)
    {
      var sample := TakeSample(start, stamp, stop, rx, bus);
      if |queue| < QueueCapacity {
        queue := queue + [sample];
      }
      lastWake := ToU32(lastWake + periodTicks);
      next := LoopTop;
    }

    /** Lines 155-168 of the loop: the measurements of one sample. */
    method TakeSample(start: TimeVal, stamp: TimeVal, stop: TimeVal, rx: seq<u8>, bus: SocketSenseSensor.Bus)
      returns (sample: Sample)
      requires Valid()
      requires |rx| == 9 && Bme280.ReadingDefined(Bme280.Unpack(rx), bme.calib)
      modifies bme, strips, stripData
      ensures Valid() && bme.calib == old(bme.calib)
      ensures sample == CycleSample(start, stamp, stop, rx, old(bme.calib), bus,
                                    stripData.Length0, stripData.Length1, eh.batteryVoltage)
      ensures bme.transactions == old(bme.transactions) + [Bme280.BurstFrame()]
      ensures strips.events == old(strips.events) + SocketSenseSensor.AllEvents(stripData.Length0, stripData.Length1)
    {
      var timestamp := Pcf8523.EspTimestamp(stamp.sec, stamp.usec);
      var reading := bme.ReadSensorData(rx);
      strips.ReadSensorData(bus, stripData);
      var samplingTime := SamplingTime(start, stop);
      var battery := eh.GetBatteryVoltage();
      var copied := StripArray();
      var expected := StripReadings(bus, stripData.Length0, stripData.Length1);
      assert forall s, e :: 0 <= s < stripData.Length0 && 0 <= e < stripData.Length1 ==> copied[s][e] == expected[s][e];
      SameTable(copied, expected, stripData.Length1);
      sample := Sample(timestamp, reading, copied, samplingTime, battery);
    }

    /** The contents of the strip array, copied into the sample as `xQueueSend` copies the struct. */
    function StripArray(): (r: seq<seq<u16>>)
      reads stripData
      ensures |r| == stripData.Length0
      ensures forall s :: 0 <= s < stripData.Length0 ==> |r[s]| == stripData.Length1
      ensures forall s, e :: 0 <= s < stripData.Length0 && 0 <= e < stripData.Length1 ==> r[s][e] == stripData[s, e]
    {
      seq(stripData.Length0, s requires 0 <= s < stripData.Length0 reads stripData =>
        seq(stripData.Length1, e requires 0 <= e < stripData.Length1 reads stripData => stripData[s, e]))
    }

    /** One `xQueueReceive(data_queue, &data, 0)` of the consumer: the oldest sample, if any. */
    method Receive() returns (s: Option<Sample>)
      modifies this`queue
      ensures old(queue) == [] ==> s == None && queue == []
      ensures old(queue) != [] ==> s == Some(old(queue)[0]) && queue == old(queue)[1..]
    {
      if queue == [] {
        return None;
      }
      s := Some(queue[0]);
      queue := queue[1..];
    }

    /** The consumer's drain loop: receive until the queue is empty, getting every sample in FIFO order. */
    method Drain() returns (received: seq<Sample>)
      modifies this`queue
      ensures received == old(queue) && queue == []
    {
      received := [];
      while true
        invariant received + queue == old(queue)
        decreases |queue|
      {
        var s := Receive();
        if s.None? {
          break;
        }
        received := received + [s.value];
      }
    }
  }
}
