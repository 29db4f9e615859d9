/**
 * The application's controller (`main.c`): the Wi-Fi event handler that starts the data
 * collection once an IP address is assigned, and the polling loop that blinks the green
 * LED while there is no connection and toggles the measurement on each falling edge of
 * button 1.
 */
module App {
  import opened CInt
  import DataCollector

  /** The ESP system events the handler distinguishes. */
  datatype SystemEvent = StaGotIp | StaDisconnected | OtherEvent

  /**
   * The inputs of one pass of the `while (true)` loop: the two reads of button 1 (the edge
   * test and the `button_state` update are separate `gpio_get_level` calls) and the tick
   * count at which a resumed collector task wakes.
   */
  datatype Poll = Poll(first: Level, second: Level, now: u32)

  /** The button acts on a falling edge: low now, high at the previous update. */
  predicate FallingEdge(level: Level, previous: Level) {
    level == 0 && previous == 1
  }

  /** `button_state` after the given passes, starting from `initial`. */
  function LastButton(polls: seq<Poll>, initial: Level): Level {
    if polls == [] then initial else polls[|polls| - 1].second
  }

  /** The number of passes in which the loop saw a falling edge. */
  function Presses(polls: seq<Poll>, initial: Level): (n: nat)
    ensures n <= |polls|
  {
    if polls == [] then 0
    else
      var prior := polls[..|polls| - 1];
      Presses(prior, initial) + (if FallingEdge(polls[|polls| - 1].first, LastButton(prior, initial)) then 1 else 0)
  }

  /**
   * The edge detection carries nothing between passes but `button_state`: the presses of
   * two stretches of passes add up, the second starting from the level the first ended with.
   */
  lemma {:induction false} PressesAppend(a: seq<Poll>, b: seq<Poll>, initial: Level)
    ensures Presses(a + b, initial) == Presses(a, initial) + Presses(b, LastButton(a, initial))
    decreases |b|
  {
    if b == [] {
      assert a + b == a;
    } else {
      var b' := b[..|b| - 1];
      assert (a + b)[..|a + b| - 1] == a + b';
      PressesAppend(a, b', initial);
      assert LastButton(a + b', initial) == LastButton(b', LastButton(a, initial));
    }
  }

  /** A level toggled n times. */
  function Toggled(level: Level, n: nat): Level {
    if n == 0 then level else 1 - Toggled(level, n - 1)
  }

  /** Toggling n times lands on the parity of the start plus n. */
  lemma {:induction false} ToggledParity(level: Level, n: nat)
    ensures Toggled(level, n) == (level + n) % 2
  {
    if n > 0 {
      ToggledParity(level, n - 1);
      var q := (level + n - 1) / 2;
      DivUnique(level + n, 2, if (level + n - 1) % 2 == 0 then q else q + 1, if (level + n - 1) % 2 == 0 then 1 else 0);
    }
  }

  class Controller {
    /** The data collector component the controller drives. */
    const dc: DataCollector.Collector
    /** `wifi_active`. */
    var wifiActive: Level
    var greenLed: Level
    var redLed: Level
    /** `led_level`: the level the green LED takes at the next blink. */
    var ledLevel: Level
    var measuring: Level
    /** `button_state`: the level of button 1 at the end of the previous pass. */
    var buttonState: Level
    /** Whether `influxdb_enable` has created the upload task. */
    var influxEnabled: bool
    /** The number of `esp_wifi_connect` calls made by the handler. */
    var reconnects: nat

    /**
     * The red LED shows the measuring flag, and the flag is only ever set by a resume
     * that succeeded, that is, on an initialised collector.
     */
    ghost predicate Valid()
      reads this, dc, dc.strips
    {
      dc.Valid() && redLed == measuring && (measuring == 1 ==> dc.initialized)
    }

    /** The state `app_main` sets up before its loop: both LEDs off, nothing measured. */
    constructor (collector: DataCollector.Collector)
      requires collector.Valid()
      ensures Valid() && dc == collector
      ensures wifiActive == 0 && greenLed == 0 && redLed == 0 && ledLevel == 0
      ensures measuring == 0 && buttonState == 0 && !influxEnabled && reconnects == 0
    {
      dc := collector;
      wifiActive := 0;
      greenLed := 0;
      redLed := 0;
      ledLevel := 0;
      measuring := 0;
      buttonState := 0;
      influxEnabled := false;
      reconnects := 0;
    }

    /**
     * `event_handler`: an assigned IP marks the connection active, lights the green LED,
     * enables the upload and starts the collector; a lost connection marks it inactive
     * and reconnects. Every event is answered with ESP_OK.
     */
    method EventHandler(ev: SystemEvent) returns (r: EspErr)
      requires Valid()
      modifies this, dc`taskCreated, dc`suspended, dc`next
      ensures Valid() && r == EspOk
      ensures measuring == old(measuring) && ledLevel == old(ledLevel) && buttonState == old(buttonState)
      ensures ev == StaGotIp ==>
        wifiActive == 1 && greenLed == 1 && influxEnabled && reconnects == old(reconnects)
        && (dc.initialized ==> dc.taskCreated)
        && (old(dc.initialized) && !old(dc.taskCreated) ==> dc.suspended && dc.next == DataCollector.LoopTop)
        && (!(old(dc.initialized) && !old(dc.taskCreated)) ==>
              dc.taskCreated == old(dc.taskCreated) && dc.suspended == old(dc.suspended) && dc.next == old(dc.next))
      ensures ev == StaDisconnected ==>
        wifiActive == 0 && reconnects == old(reconnects) + 1
        && greenLed == old(greenLed) && influxEnabled == old(influxEnabled)
      ensures ev != StaGotIp ==>
        dc.taskCreated == old(dc.taskCreated) && dc.suspended == old(dc.suspended) && dc.next == old(dc.next)
      ensures ev == OtherEvent ==>
        wifiActive == old(wifiActive) && greenLed == old(greenLed)
        && influxEnabled == old(influxEnabled) && reconnects == old(reconnects)
    {
      r := EspOk;
      match ev
      case StaGotIp =>
        wifiActive := 1;
        greenLed := 1;
        influxEnabled := true;
        var _ := dc.Start();
      case StaDisconnected =>
        wifiActive := 0;
        reconnects := reconnects + 1;
      case OtherEvent =>
    }

    /**
     * One pass of the `app_main` loop. While there is no connection the green LED blinks.
     * On a falling edge of button 1 a measuring controller asks the collector to stop
     * and an idle one resumes it; the flag and the red LED follow only a call that
     * returned ESP_OK. Since the flag is only set on an initialised collector, a stop
     * always succeeds.
     */
    method LoopIteration(poll: Poll)
      requires Valid()
      requires FallingEdge(poll.first, buttonState) && dc.initialized ==> dc.taskCreated
      modifies this, dc`slot, dc`suspended, dc`lastWake
      ensures Valid()
      ensures wifiActive == old(wifiActive) && influxEnabled == old(influxEnabled) && reconnects == old(reconnects)
      ensures old(wifiActive) == 0 ==> greenLed == old(ledLevel) && ledLevel == 1 - old(ledLevel)
      ensures old(wifiActive) != 0 ==> greenLed == old(greenLed) && ledLevel == old(ledLevel)
      ensures buttonState == poll.second
      ensures measuring == if FallingEdge(poll.first, old(buttonState)) && dc.initialized then 1 - old(measuring) else old(measuring)
      ensures !FallingEdge(poll.first, old(buttonState)) ==>
        measuring == old(measuring)
        && dc.slot == old(dc.slot) && dc.suspended == old(dc.suspended) && dc.lastWake == old(dc.lastWake)
      ensures FallingEdge(poll.first, old(buttonState)) && old(measuring) == 1 ==>
        measuring == 0 && dc.slot == Some(DataCollector.NotifyStop)
        && dc.suspended == old(dc.suspended) && dc.lastWake == old(dc.lastWake)
      ensures FallingEdge(poll.first, old(buttonState)) && old(measuring) == 0 && dc.initialized ==>
        measuring == 1 && !dc.suspended && dc.slot == old(dc.slot)
        && (old(dc.suspended) ==> dc.lastWake == poll.now)
        && (!old(dc.suspended) ==> dc.lastWake == old(dc.lastWake))
      ensures FallingEdge(poll.first, old(buttonState)) && old(measuring) == 0 && !dc.initialized ==>
        measuring == 0
        && dc.slot == old(dc.slot) && dc.suspended == old(dc.suspended) && dc.lastWake == old(dc.lastWake)
    {
      if wifiActive == 0 {
        greenLed := ledLevel;
        ledLevel := 1 - ledLevel;
      }
      if poll.first == 0 && buttonState == 1 {
        if measuring == 1 {
          var r := dc.Stop();
          if r == EspOk {
            redLed := 0;
            measuring := 0;
          }
        } else {
          var r := dc.Resume(poll.now);
          if r == EspOk {
            redLed := 1;
            measuring := 1;
          }
        }
      }
      buttonState := poll.second;
    }

    /**
     * The loop run over a finite stretch of passes with no system event in between. After
     * the collector has been started, every falling edge toggles the measuring flag, so
     * it ends toggled once per press (at the parity of the presses, by ToggledParity); an
     * uninitialised collector keeps it at 0. Without a connection the green LED blinks
     * once per pass.
     */
    method RunLoop(polls: seq<Poll>)
      requires Valid() && (dc.initialized ==> dc.taskCreated)
      modifies this, dc`slot, dc`suspended, dc`lastWake
      ensures Valid() && dc.initialized == old(dc.initialized)
      ensures dc.initialized ==> measuring == Toggled(old(measuring), Presses(polls, old(buttonState)))
      ensures !dc.initialized ==> measuring == 0
      ensures buttonState == LastButton(polls, old(buttonState))
      ensures wifiActive == old(wifiActive)
      ensures old(wifiActive) == 0 ==> ledLevel == Toggled(old(ledLevel), |polls|)
      ensures old(wifiActive) != 0 ==> ledLevel == old(ledLevel) && greenLed == old(greenLed)
    {
      var i := 0;
      ghost var init := dc.initialized;
      ghost var b0 := buttonState;
      ghost var l0 := ledLevel;
      ghost var m0 := measuring;
      ghost var w0 := wifiActive;
      while i < |polls|
        invariant 0 <= i <= |polls|
        invariant Valid() && (init ==> dc.taskCreated) && dc.initialized == init
        invariant init ==> measuring == Toggled(m0, Presses(polls[..i], b0))
        invariant buttonState == LastButton(polls[..i], b0)
        invariant wifiActive == w0
        invariant w0 == 0 ==> ledLevel == Toggled(l0, i)
        invariant w0 != 0 ==> ledLevel == l0 && greenLed == old(greenLed)
      {
        assert polls[..i + 1][..i] == polls[..i];
        LoopIteration(polls[i]);
        i := i + 1;
      }
      assert polls[..i] == polls;
    }
  }
}
