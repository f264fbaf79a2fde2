/** Values shared by the sensor modules: sensor descriptions, events and the counting of wake-up events. */
module SensorTypes {
  import opened Handles

  datatype Option<+T> = None | Some(value: T)

  datatype Result = OK | BAD_VALUE | INVALID_OPERATION

  datatype OperationMode = NORMAL | DATA_INJECTION

  // Flag words are the sets of positions of their one bits; positions and type numbers are those of the
  // Android sensors HAL 1.0 interface.
  type Flags = set<nat>
  const WAKE_UP: nat := 0
  const ONE_SHOT_MODE: nat := 2
  const DATA_INJECTION_BIT: nat := 4
  // MASK_DIRECT_REPORT (bits 7 to 9) together with MASK_DIRECT_CHANNEL (bits 10 and 11).
  const DIRECT_MASK: Flags := {7, 8, 9, 10, 11}
  const PICK_UP_GESTURE: int := 25
  const ADDITIONAL_INFO: int := 33
  const WRIST_TILT_STRING: string := "android.sensor.wrist_tilt_gesture"
  const PICK_UP_STRING: string := "android.sensor.pick_up_gesture"

  datatype SensorInfo = SensorInfo(handle: Handle, flags: Flags, sensorType: int, typeAsString: string)

  // What a lookup of an unknown handle creates.
  const BLANK_SENSOR := SensorInfo(0, {}, 0, "")

  datatype Event = Event(handle: Handle, sensorType: int, scalar: real, timestamp: int)

  function Min(a: nat, b: nat): nat {
    if a < b then a else b
  }

  /** The handles whose description carries the wake-up flag. */
  function WakeHandles(sensors: map<Handle, SensorInfo>): set<Handle> {
    set h | h in sensors && WAKE_UP in sensors[h].flags
  }

  function CountWakeups(wake: set<Handle>, events: seq<Event>): nat {
    if events == [] then 0
    else CountWakeups(wake, events[..|events| - 1]) + (if events[|events| - 1].handle in wake then 1 else 0)
  }

  lemma {:induction false} CountWakeupsPush(wake: set<Handle>, events: seq<Event>, e: Event)
    ensures CountWakeups(wake, events + [e]) == CountWakeups(wake, events) + (if e.handle in wake then 1 else 0)
  {
    assert (events + [e])[..|events|] == events;
  }

  lemma {:induction false} CountWakeupsConcat(wake: set<Handle>, a: seq<Event>, b: seq<Event>)
    ensures CountWakeups(wake, a + b) == CountWakeups(wake, a) + CountWakeups(wake, b)
  {
    if b == [] {
      assert a + b == a;
    } else {
      var b' := b[..|b| - 1];
      assert (a + b)[..|a + b| - 1] == a + b';
      CountWakeupsConcat(wake, a, b');
    }
  }

  lemma {:induction false} CountWakeupsSplit(wake: set<Handle>, events: seq<Event>, n: nat)
    requires n <= |events|
    ensures CountWakeups(wake, events) == CountWakeups(wake, events[..n]) + CountWakeups(wake, events[n..])
  {
    assert events == events[..n] + events[n..];
    CountWakeupsConcat(wake, events[..n], events[n..]);
  }

  /** Counting against the table counts the events whose listed sensor has the wake-up flag, bit 0. */
  lemma {:induction false} WakeupsCounted(sensors: map<Handle, SensorInfo>, events: seq<Event>)
    ensures CountWakeups(WakeHandles(sensors), events) ==
            |set i | 0 <= i < |events| && events[i].handle in sensors && 0 in sensors[events[i].handle].flags|
  {
    var all := set i | 0 <= i < |events| && events[i].handle in sensors && 0 in sensors[events[i].handle].flags;
    if events != [] {
      var n := |events| - 1;
      var before := set i | 0 <= i < n && events[..n][i].handle in sensors && 0 in sensors[events[..n][i].handle].flags;
      WakeupsCounted(sensors, events[..n]);
      assert n !in before;
      assert all == if events[n].handle in WakeHandles(sensors) then before + {n} else before;
    }
  }

  function CountHandle(h: Handle, events: seq<Event>): nat {
    CountWakeups({h}, events)
  }
}
