/** The callback a sub-HAL posts through: packs handles, filters pick-up gestures and counts wake-up events
    before the batch reaches the event queue. */
module ProxyCallback {
  import opened Handles
  import opened SensorTypes
  import EventPipeline
  import ProxySystem
  import SensorList

  function InfoOf(sensors: map<Handle, SensorInfo>, h: Handle): SensorInfo {
    if h in sensors then sensors[h] else BLANK_SENSOR
  }

  function Packed(e: Event, index: nat): Event {
    e.(handle := SetSubHalIndex(e.handle, index))
  }

  // Pick-up gestures pass only with the value 1.
  predicate Passes(sensors: map<Handle, SensorInfo>, e: Event) {
    InfoOf(sensors, e.handle).sensorType == PICK_UP_GESTURE ==> e.scalar == 1.0
  }

  // What one event contributes to the processed batch.
  function ProcessedLast(sensors: map<Handle, SensorInfo>, index: nat, e: Event): seq<Event> {
    if Passes(sensors, Packed(e, index)) then [Packed(e, index)] else []
  }

  /** The posted events, packed for sub-HAL `index` and filtered, in their order. */
  function Processed(sensors: map<Handle, SensorInfo>, index: nat, events: seq<Event>): seq<Event> {
    if events == [] then []
    else
      Processed(sensors, index, events[..|events| - 1]) + ProcessedLast(sensors, index, events[|events| - 1])
  }

  lemma {:induction false} ProcessedPush(sensors: map<Handle, SensorInfo>, index: nat, events: seq<Event>, e: Event)
    ensures Processed(sensors, index, events + [e]) ==
            Processed(sensors, index, events) + ProcessedLast(sensors, index, e)
  {
    assert (events + [e])[..|events|] == events;
  }

  lemma {:induction false} ProcessedNext(sensors: map<Handle, SensorInfo>, index: nat, events: seq<Event>, i: nat)
    requires i < |events|
    ensures Processed(sensors, index, events[..i + 1]) ==
            Processed(sensors, index, events[..i]) + ProcessedLast(sensors, index, events[i])
  {
    assert events[..i + 1] == events[..i] + [events[i]];
    ProcessedPush(sensors, index, events[..i], events[i]);
  }

  class HalProxyCallback {
    const proxy: ProxySystem.HalProxy
    const table: SensorList.SensorProxy
    const subHalIndex: nat

    constructor (proxy: ProxySystem.HalProxy, table: SensorList.SensorProxy, subHalIndex: nat)
      ensures this.proxy == proxy && this.table == table && this.subHalIndex == subHalIndex
    {
      this.proxy, this.table, this.subHalIndex := proxy, table, subHalIndex;
    }

    /** The count is exactly the number of wake-up events in the output. */
    method ProcessEvents(events: seq<Event>) returns (eventsOut: seq<Event>, numWakeupEvents: nat)
      ensures eventsOut == Processed(table.sensors, subHalIndex, events)
      ensures numWakeupEvents == CountWakeups(WakeHandles(table.sensors), eventsOut)
    {
      eventsOut, numWakeupEvents := [], 0;
      var sensors := table.sensors;
      for i := 0 to |events|
        invariant eventsOut == Processed(sensors, subHalIndex, events[..i])
        invariant numWakeupEvents == CountWakeups(WakeHandles(sensors), eventsOut)
      {
        ProcessedNext(sensors, subHalIndex, events, i);
        var event := events[i].(handle := SetSubHalIndex(events[i].handle, subHalIndex));
        var sensor := InfoOf(sensors, event.handle);
        if !(sensor.sensorType == PICK_UP_GESTURE && event.scalar != 1.0) {
          if WAKE_UP in sensor.flags {
            numWakeupEvents := numWakeupEvents + 1;
          }
          CountWakeupsPush(WakeHandles(sensors), eventsOut, event);
          eventsOut := eventsOut + [event];
        }
      }
      assert events[..|events|] == events;
    }

    /** The processed batch is posted together with the scoped wakelock it came with. */
    method PostEvents(events: seq<Event>, locked: bool, available: nat, writeOk: bool, now: int)
      requires proxy.queue.Valid() && proxy.queue.config.wake == WakeHandles(table.sensors)
      requires proxy.clock <= now && (locked ==> proxy.holders != multiset{})
      modifies proxy, proxy.queue, proxy.wakelock
      ensures proxy.queue.Valid()
      ensures events == [] || !old(proxy.wakelock.threadsRun) ==> proxy.Contents() == old(proxy.Contents())
      ensures events != [] && old(proxy.wakelock.threadsRun) ==>
                var c, out := proxy.queue.config, Processed(table.sensors, subHalIndex, events);
                var post := EventPipeline.Post(out, CountWakeups(c.wake, out), available, writeOk);
                && old(ProxySystem.May(c, proxy.Contents(), ProxySystem.PostBatch(post, locked, now)))
                && proxy.Contents() ==
                   ProxySystem.Do(c, old(proxy.Contents()), ProxySystem.PostBatch(post, locked, now))
    {
      if events == [] || !proxy.wakelock.threadsRun {
        return;
      }
      var processedEvents, numWakeupEvents := ProcessEvents(events);
      proxy.PostEventsToMessageQueue(processedEvents, numWakeupEvents, locked, available, writeOk, now);
    }
  }

  /** A pick-up gesture of another value than 1. */
  predicate IsOtherPickUp(sensors: map<Handle, SensorInfo>, index: nat, e: Event) {
    var h := SetSubHalIndex(e.handle, index);
    h in sensors && sensors[h].sensorType == 25 && e.scalar != 1.0
  }

  lemma {:induction false} ProcessedOne(sensors: map<Handle, SensorInfo>, index: nat, e: Event)
    ensures Processed(sensors, index, [e]) ==
            if IsOtherPickUp(sensors, index, e) then []
            else [Event(SetSubHalIndex(e.handle, index), e.sensorType, e.scalar, e.timestamp)]
  {
    ProcessedPush(sensors, index, [], e);
    assert [] + [e] == [e];
  }

  lemma {:induction false} ConcatAssociates(a: seq<Event>, b: seq<Event>, c: seq<Event>)
    ensures (a + b) + c == a + (b + c)
  {
  }

  lemma {:induction false} ProcessedConcatPush(sensors: map<Handle, SensorInfo>, index: nat, a: seq<Event>,
                                               b: seq<Event>, e: Event)
    requires Processed(sensors, index, a + b) == Processed(sensors, index, a) + Processed(sensors, index, b)
    ensures Processed(sensors, index, a + (b + [e])) ==
            Processed(sensors, index, a) + Processed(sensors, index, b + [e])
  {
    ConcatAssociates(a, b, [e]);
    ProcessedPush(sensors, index, a + b, e);
    ProcessedPush(sensors, index, b, e);
    ConcatAssociates(Processed(sensors, index, a), Processed(sensors, index, b), ProcessedLast(sensors, index, e));
  }

  lemma {:induction false} ProcessedConcat(sensors: map<Handle, SensorInfo>, index: nat, a: seq<Event>, b: seq<Event>)
    ensures Processed(sensors, index, a + b) == Processed(sensors, index, a) + Processed(sensors, index, b)
  {
    if b == [] {
      assert a + b == a;
    } else {
      var n := |b| - 1;
      ProcessedConcat(sensors, index, a, b[..n]);
      ProcessedConcatPush(sensors, index, a, b[..n], b[n]);
      assert b[..n] + [b[n]] == b;
    }
  }

  /** Batches are processed event by event: such an event vanishes, any other becomes itself under its packed handle,
      and batches keep their order. */
  lemma {:induction false} ProcessedEventByEvent(sensors: map<Handle, SensorInfo>, index: nat, a: seq<Event>, e: Event,
                                                 b: seq<Event>)
    ensures Processed(sensors, index, [e]) ==
            if IsOtherPickUp(sensors, index, e) then []
            else [Event(SetSubHalIndex(e.handle, index), e.sensorType, e.scalar, e.timestamp)]
    ensures Processed(sensors, index, a + b) == Processed(sensors, index, a) + Processed(sensors, index, b)
  {
    ProcessedOne(sensors, index, e);
    ProcessedConcat(sensors, index, a, b);
  }

  /** Without such events nothing is filtered. */
  lemma {:induction false} NothingElseIsFiltered(sensors: map<Handle, SensorInfo>, index: nat, events: seq<Event>)
    requires forall i :: 0 <= i < |events| ==> !IsOtherPickUp(sensors, index, events[i])
    ensures |Processed(sensors, index, events)| == |events|
    ensures forall i :: 0 <= i < |events| ==>
              Processed(sensors, index, events)[i] == events[i].(handle := SetSubHalIndex(events[i].handle, index))
  {
    if events != [] {
      NothingElseIsFiltered(sensors, index, events[..|events| - 1]);
    }
  }

  /** A batch is filtered to nothing iff all its events are such; a locked one is then posted all the same. */
  lemma {:induction false} FilteredToNothingIff(sensors: map<Handle, SensorInfo>, index: nat, events: seq<Event>)
    ensures Processed(sensors, index, events) == [] <==>
              forall i :: 0 <= i < |events| ==> IsOtherPickUp(sensors, index, events[i])
  {
    if events != [] {
      FilteredToNothingIff(sensors, index, events[..|events| - 1]);
    }
  }

  /** Batches of other sensors, of this or another sub-HAL, never carry this sensor's packed handle as long as
      they are posted with clear first bytes. */
  lemma {:induction false} OthersNeverMatch(sensors: map<Handle, SensorInfo>, h: Handle, index: nat, other: nat,
                                            events: seq<Event>)
    requires SubHalIndexIsClear(h) && index < 256 && other < 256
    requires forall i :: 0 <= i < |events| ==>
               SubHalIndexIsClear(events[i].handle) && (other != index || events[i].handle != h)
    ensures CountHandle(SetSubHalIndex(h, index), Processed(sensors, other, events)) == 0
  {
    if events != [] {
      var n := |events| - 1;
      OthersNeverMatch(sensors, h, index, other, events[..n]);
      if SetSubHalIndex(h, index) == SetSubHalIndex(events[n].handle, other) {
        PackingInjective(h, index, events[n].handle, other);
        assert false;
      }
      var before := Processed(sensors, other, events[..n]);
      var last := Packed(events[n], other);
      CountWakeupsPush({SetSubHalIndex(h, index)}, before, last);
      assert before + [] == before;
    }
  }
}
