/** Dynamic sensors: the proxy's map and the callbacks that tell the framework about it. */
module DynamicSensors {
  import opened Handles
  import opened SensorTypes

  datatype Callback = Connected(sensors: seq<SensorInfo>) | Disconnected(handles: seq<Handle>)

  datatype Call =
    | Connect(added: seq<SensorInfo>, subHal: nat)
    | Disconnect(removed: seq<Handle>, subHal: nat)

  type SensorMap = map<Handle, SensorInfo>

  // ---- One call, one sensor at a time ----

  function Repacked(s: SensorInfo, subHal: nat): SensorInfo {
    s.(handle := SetSubHalIndex(s.handle, subHal))
  }

  function Added(m: SensorMap, added: seq<SensorInfo>, subHal: nat): (SensorMap, seq<SensorInfo>) {
    if added == [] then (m, [])
    else
      var (m', out) := Added(m, added[..|added| - 1], subHal);
      var s := added[|added| - 1];
      if !SubHalIndexIsClear(s.handle) then (m', out)
      else
        var packed := Repacked(s, subHal);
        (m'[packed.handle := packed], out + [packed])
  }

  function Removed(m: SensorMap, removed: seq<Handle>, subHal: nat): (SensorMap, seq<Handle>) {
    if removed == [] then (m, [])
    else
      var (m', out) := Removed(m, removed[..|removed| - 1], subHal);
      var h := removed[|removed| - 1];
      var packed := SetSubHalIndex(h, subHal);
      if SubHalIndexIsClear(h) && packed in m' then (m' - {packed}, out + [packed]) else (m', out)
  }

  function Answer(m: SensorMap, call: Call): (SensorMap, Callback) {
    match call
    case Connect(added, subHal) => var (m', out) := Added(m, added, subHal); (m', Connected(out))
    case Disconnect(removed, subHal) => var (m', out) := Removed(m, removed, subHal); (m', Disconnected(out))
  }

  /** The map and the callbacks after a serialised sequence of calls. */
  function AnswerAll(calls: seq<Call>): (SensorMap, seq<Callback>) {
    if calls == [] then (map[], [])
    else
      var (m, out) := AnswerAll(calls[..|calls| - 1]);
      var (m', callback) := Answer(m, calls[|calls| - 1]);
      (m', out + [callback])
  }

  class DynamicSensorTable {
    var dynamicSensors: SensorMap
    ghost var callbacks: seq<Callback>

    constructor ()
      ensures dynamicSensors == map[] && callbacks == []
    {
      dynamicSensors, callbacks := map[], [];
    }

    method OnDynamicSensorsConnected(added: seq<SensorInfo>, subHal: nat)
      modifies this
      ensures var (m, callback) := Answer(old(dynamicSensors), Connect(added, subHal));
              dynamicSensors == m && callbacks == old(callbacks) + [callback]
    {
      var sensors := [];
      for i := 0 to |added|
        invariant (dynamicSensors, sensors) == Added(old(dynamicSensors), added[..i], subHal)
        invariant callbacks == old(callbacks)
      {
        assert added[..i + 1][..i] == added[..i];
        var sensor := added[i];
        if SubHalIndexIsClear(sensor.handle) {
          sensor := sensor.(handle := SetSubHalIndex(sensor.handle, subHal));
          dynamicSensors := dynamicSensors[sensor.handle := sensor];
          sensors := sensors + [sensor];
        }
      }
      assert added[..|added|] == added;
      callbacks := callbacks + [Connected(sensors)];
    }

    method OnDynamicSensorsDisconnected(removed: seq<Handle>, subHal: nat)
      modifies this
      ensures var (m, callback) := Answer(old(dynamicSensors), Disconnect(removed, subHal));
              dynamicSensors == m && callbacks == old(callbacks) + [callback]
    {
      var handles := [];
      for i := 0 to |removed|
        invariant (dynamicSensors, handles) == Removed(old(dynamicSensors), removed[..i], subHal)
        invariant callbacks == old(callbacks)
      {
        assert removed[..i + 1][..i] == removed[..i];
        var sensorHandle := removed[i];
        if SubHalIndexIsClear(sensorHandle) {
          sensorHandle := SetSubHalIndex(sensorHandle, subHal);
          if sensorHandle in dynamicSensors {
            dynamicSensors := dynamicSensors - {sensorHandle};
            handles := handles + [sensorHandle];
          }
        }
      }
      assert removed[..|removed|] == removed;
      callbacks := callbacks + [Disconnected(handles)];
    }
  }

  // ---- What the framework knows ----

  /** The framework's picture: the handles it has been told of and not told to forget. */
  function Replay(known: set<Handle>, callback: Callback): set<Handle> {
    match callback
    case Connected(sensors) => known + (set s | s in sensors :: s.handle)
    case Disconnected(handles) => known - (set h | h in handles)
  }

  function ReplayAll(callbacks: seq<Callback>): set<Handle> {
    if callbacks == [] then {}
    else Replay(ReplayAll(callbacks[..|callbacks| - 1]), callbacks[|callbacks| - 1])
  }

  predicate Distinct(hs: seq<Handle>) {
    forall i, j :: 0 <= i < j < |hs| ==> hs[i] != hs[j]
  }

  lemma {:induction false} AddedKeys(m: SensorMap, added: seq<SensorInfo>, subHal: nat)
    ensures var (m', out) := Added(m, added, subHal);
            m'.Keys == m.Keys + (set s | s in out :: s.handle)
  {
    if added != [] {
      AddedKeys(m, added[..|added| - 1], subHal);
    }
  }

  lemma {:induction false} RemovedKeys(m: SensorMap, removed: seq<Handle>, subHal: nat)
    ensures var (m', out) := Removed(m, removed, subHal);
            && m'.Keys == m.Keys - (set h | h in out)
            && (forall h :: h in out ==> h in m)
            && Distinct(out)
  {
    if removed != [] {
      RemovedKeys(m, removed[..|removed| - 1], subHal);
    }
  }

  lemma {:induction false} ReplayPush(callbacks: seq<Callback>, callback: Callback)
    ensures ReplayAll(callbacks + [callback]) == Replay(ReplayAll(callbacks), callback)
  {
    assert (callbacks + [callback])[..|callbacks|] == callbacks;
  }

  lemma {:induction false} AnswerAgrees(m: SensorMap, call: Call)
    ensures var (m', callback) := Answer(m, call);
            m'.Keys == Replay(m.Keys, callback)
  {
    match call
    case Connect(added, subHal) => AddedKeys(m, added, subHal);
    case Disconnect(removed, subHal) => RemovedKeys(m, removed, subHal);
  }

  /** Agreement: after any serialised sequence of connect and disconnect calls, duplicates and bad handles
      included, replaying the callbacks gives exactly the keys of the map. */
  lemma {:induction false} FrameworkAgrees(calls: seq<Call>)
    ensures var (m, callbacks) := AnswerAll(calls);
            ReplayAll(callbacks) == m.Keys
  {
    if calls != [] {
      var n := |calls| - 1;
      FrameworkAgrees(calls[..n]);
      var (m, out) := AnswerAll(calls[..n]);
      ReplayPush(out, Answer(m, calls[n]).1);
      AnswerAgrees(m, calls[n]);
    }
  }

  /** A connection puts exactly the sensors with a clear first byte into the map and lists them in its callback,
      repacked and otherwise unchanged, one after the other. */
  lemma {:induction false} AddedOneByOne(m: SensorMap, a: seq<SensorInfo>, s: SensorInfo, subHal: nat)
    ensures var (m', out) := Added(m, a, subHal);
            var packed := s.(handle := SetSubHalIndex(s.handle, subHal));
            Added(m, a + [s], subHal) ==
            if 0 <= s.handle < 0x100_0000 then (m'[packed.handle := packed], out + [packed]) else (m', out)
    ensures Added(m, [], subHal) == (m, [])
  {
    assert (a + [s])[..|a|] == a;
    ClearIffSmall(s.handle);
  }

  /** A disconnection takes exactly the named sensors with a clear first byte that are still there out of the map and
      lists them in its callback, one after the other. */
  lemma {:induction false} RemovedOneByOne(m: SensorMap, a: seq<Handle>, h: Handle, subHal: nat)
    ensures var (m', out) := Removed(m, a, subHal);
            var packed := SetSubHalIndex(h, subHal);
            Removed(m, a + [h], subHal) ==
            if 0 <= h < 0x100_0000 && packed in m' then (m' - {packed}, out + [packed]) else (m', out)
    ensures Removed(m, [], subHal) == (m, [])
  {
    assert (a + [h])[..|a|] == a;
    ClearIffSmall(h);
  }

  // ---- Concurrent calls ----

  /** The framework is called back after the mutex is released: updates are the callbacks in the order of the map
      updates they belong to, inFlight those still to be made, delivered those made. */
  datatype Concurrent = Concurrent(sensors: SensorMap, updates: seq<Callback>, inFlight: seq<Callback>,
                                   delivered: seq<Callback>)

  const NOTHING_CALLED := Concurrent(map[], [], [], [])

  datatype Step = Update(call: Call) | CallBack(i: nat)

  predicate May(s: Concurrent, a: Step) {
    a.CallBack? ==> a.i < |s.inFlight|
  }

  function Do(s: Concurrent, a: Step): Concurrent
    requires May(s, a)
  {
    match a
    case Update(call) =>
      var (m, callback) := Answer(s.sensors, call);
      Concurrent(m, s.updates + [callback], s.inFlight + [callback], s.delivered)
    case CallBack(i) =>
      s.(inFlight := s.inFlight[..i] + s.inFlight[i + 1..], delivered := s.delivered + [s.inFlight[i]])
  }

  predicate IsRun(ss: seq<Concurrent>, steps: seq<Step>) {
    && |ss| == |steps| + 1
    && ss[0] == NOTHING_CALLED
    && (forall i {:trigger steps[i]} :: 0 <= i < |steps| ==> May(ss[i], steps[i]) && ss[i + 1] == Do(ss[i], steps[i]))
  }

  predicate Names(callback: Callback, h: Handle) {
    match callback
    case Connected(sensors) => exists s :: s in sensors && s.handle == h
    case Disconnected(handles) => h in handles
  }

  /** The last callback naming a handle. */
  function LastNaming(callbacks: seq<Callback>, h: Handle): Option<Callback> {
    if callbacks == [] then None
    else
      var last := callbacks[|callbacks| - 1];
      if Names(last, h) then Some(last) else LastNaming(callbacks[..|callbacks| - 1], h)
  }

  // Both are None, or both callbacks are of the same kind.
  predicate SameKind(a: Option<Callback>, b: Option<Callback>) {
    if a.Some? && b.Some? then a.value.Connected? == b.value.Connected? else a.None? && b.None?
  }

  lemma {:induction false} KnownIffLastConnected(callbacks: seq<Callback>, h: Handle)
    ensures var last := LastNaming(callbacks, h);
            h in ReplayAll(callbacks) <==> last.Some? && last.value.Connected?
  {
    if callbacks != [] {
      KnownIffLastConnected(callbacks[..|callbacks| - 1], h);
    }
  }

  lemma {:induction false} LastNamingFinds(callbacks: seq<Callback>, h: Handle)
    ensures LastNaming(callbacks, h).Some? <==> exists callback :: callback in callbacks && Names(callback, h)
  {
    if callbacks != [] {
      var n := |callbacks| - 1;
      LastNamingFinds(callbacks[..n], h);
      assert callbacks == callbacks[..n] + [callbacks[n]];
    }
  }

  // Replaying the updates in their own order gives the map; what is delivered is a reordering of them.
  predicate ConcurrentInv(s: Concurrent) {
    ReplayAll(s.updates) == s.sensors.Keys && multiset(s.updates) == multiset(s.delivered) + multiset(s.inFlight)
  }

  lemma {:induction false} UpdateKeepsInv(s: Concurrent, call: Call)
    requires ConcurrentInv(s)
    ensures ConcurrentInv(Do(s, Update(call)))
  {
    ReplayPush(s.updates, Answer(s.sensors, call).1);
    AnswerAgrees(s.sensors, call);
  }

  lemma {:induction false} CallBackKeepsInv(s: Concurrent, i: nat)
    requires ConcurrentInv(s) && i < |s.inFlight|
    ensures ConcurrentInv(Do(s, CallBack(i)))
  {
    assert s.inFlight == s.inFlight[..i] + [s.inFlight[i]] + s.inFlight[i + 1..];
  }

  lemma {:induction false} RunInv(ss: seq<Concurrent>, steps: seq<Step>, i: nat)
    requires IsRun(ss, steps) && i < |ss|
    ensures ConcurrentInv(ss[i])
  {
    if i != 0 {
      RunInv(ss, steps, i - 1);
      assert May(ss[i - 1], steps[i - 1]) && ss[i] == Do(ss[i - 1], steps[i - 1]);
      match steps[i - 1]
      case Update(call) => UpdateKeepsInv(ss[i - 1], call);
      case CallBack(j) => CallBackKeepsInv(ss[i - 1], j);
    }
  }

  lemma {:induction false} ReorderedNamesSame(a: seq<Callback>, b: seq<Callback>, h: Handle)
    requires multiset(a) == multiset(b)
    ensures LastNaming(a, h).Some? <==> LastNaming(b, h).Some?
  {
    LastNamingFinds(a, h);
    LastNamingFinds(b, h);
    assert forall callback :: callback in a <==> callback in multiset(a);
    assert forall callback :: callback in b <==> callback in multiset(b);
  }

  /** For each handle the last callbacks naming it are of the same kind. */
  predicate LastKindsAgree(a: seq<Callback>, b: seq<Callback>) {
    forall h: Handle :: SameKind(LastNaming(a, h), LastNaming(b, h))
  }

  lemma {:induction false} SameKindIff(a: seq<Callback>, b: seq<Callback>, h: Handle)
    requires multiset(a) == multiset(b)
    ensures SameKind(LastNaming(a, h), LastNaming(b, h)) <==> (h in ReplayAll(a) <==> h in ReplayAll(b))
  {
    KnownIffLastConnected(a, h);
    KnownIffLastConnected(b, h);
    ReorderedNamesSame(a, b, h);
  }

  lemma {:induction false} ReplaysAgreeIff(a: seq<Callback>, b: seq<Callback>)
    requires multiset(a) == multiset(b)
    ensures ReplayAll(a) == ReplayAll(b) <==> LastKindsAgree(a, b)
  {
    if ReplayAll(a) == ReplayAll(b) {
      forall h: Handle
        ensures SameKind(LastNaming(a, h), LastNaming(b, h))
      {
        SameKindIff(a, b, h);
      }
    } else {
      var h: Handle :| h in ReplayAll(a) <==> h !in ReplayAll(b);
      SameKindIff(a, b, h);
    }
  }

  /** With concurrent calls, once every callback has been made the framework agrees with the map exactly if, for
      each handle, the last callback naming it is of the same kind as the last update naming it. */
  lemma {:induction false} FrameworkAgreesIff(ss: seq<Concurrent>, steps: seq<Step>, i: nat)
    requires IsRun(ss, steps) && i < |ss| && ss[i].inFlight == []
    ensures ReplayAll(ss[i].delivered) == ss[i].sensors.Keys <==> LastKindsAgree(ss[i].delivered, ss[i].updates)
  {
    RunInv(ss, steps, i);
    assert multiset(ss[i].updates) == multiset(ss[i].delivered);
    ReplaysAgreeIff(ss[i].delivered, ss[i].updates);
  }

  // A connection and a disconnection of the same sensor, called back the other way round.
  function OvertakingSteps(s: SensorInfo, subHal: nat): seq<Step> {
    [Update(Connect([s], subHal)), Update(Disconnect([s.handle], subHal)), CallBack(1), CallBack(0)]
  }

  lemma {:induction false} OneSensorAdded(s: SensorInfo, subHal: nat)
    requires SubHalIndexIsClear(s.handle)
    ensures var packed := Repacked(s, subHal);
            Added(map[], [s], subHal) == (map[packed.handle := packed], [packed])
  {
    var none: seq<SensorInfo> := [];
    assert [s][..0] == none;
    assert Added(map[], none, subHal) == (map[], none);
    assert none + [Repacked(s, subHal)] == [Repacked(s, subHal)];
  }

  lemma {:induction false} OneSensorRemoved(m: SensorMap, h: Handle, subHal: nat)
    requires SubHalIndexIsClear(h) && m.Keys == {SetSubHalIndex(h, subHal)}
    ensures Removed(m, [h], subHal) == (map[], [SetSubHalIndex(h, subHal)])
  {
    var none: seq<Handle> := [];
    assert [h][..0] == none;
    assert Removed(m, none, subHal) == (m, none);
    assert m - {SetSubHalIndex(h, subHal)} == map[];
    assert none + [SetSubHalIndex(h, subHal)] == [SetSubHalIndex(h, subHal)];
  }

  // The five states they lead through.
  function OvertakingStates(packed: SensorInfo): seq<Concurrent> {
    var on, off := Connected([packed]), Disconnected([packed.handle]);
    [NOTHING_CALLED,
     Concurrent(map[packed.handle := packed], [on], [on], []),
     Concurrent(map[], [on, off], [on, off], []),
     Concurrent(map[], [on, off], [on], [off]),
     Concurrent(map[], [on, off], [], [off, on])]
  }

  lemma {:induction false} OvertakingStep(s: SensorInfo, subHal: nat, i: nat)
    requires SubHalIndexIsClear(s.handle) && i < 4
    ensures var ss, a := OvertakingStates(Repacked(s, subHal)), OvertakingSteps(s, subHal)[i];
            May(ss[i], a) && ss[i + 1] == Do(ss[i], a)
  {
    var packed := Repacked(s, subHal);
    var on, off := Connected([packed]), Disconnected([packed.handle]);
    if i == 0 {
      OneSensorAdded(s, subHal);
    } else if i == 1 {
      OneSensorRemoved(map[packed.handle := packed], s.handle, subHal);
    } else if i == 2 {
      assert [on, off][..1] + [on, off][2..] == [on];
    } else {
      assert [on][..0] + [on][1..] == [];
    }
  }

  lemma {:induction false} OvertakingIsRun(s: SensorInfo, subHal: nat)
    requires SubHalIndexIsClear(s.handle)
    ensures IsRun(OvertakingStates(Repacked(s, subHal)), OvertakingSteps(s, subHal))
  {
    var ss, steps := OvertakingStates(Repacked(s, subHal)), OvertakingSteps(s, subHal);
    forall i | 0 <= i < |steps|
      ensures May(ss[i], steps[i]) && ss[i + 1] == Do(ss[i], steps[i])
    {
      OvertakingStep(s, subHal, i);
    }
  }

  lemma {:induction false} ReplayOvertaken(packed: SensorInfo)
    ensures packed.handle in ReplayAll([Disconnected([packed.handle]), Connected([packed])])
  {
    ReplayPush([Disconnected([packed.handle])], Connected([packed]));
    assert packed in [packed];
  }

  /** It can fail: a callback that overtakes another leaves the framework with a sensor that is gone. */
  lemma {:induction false} OvertakingDisagrees(s: SensorInfo, subHal: nat)
    requires SubHalIndexIsClear(s.handle)
    ensures exists ss: seq<Concurrent> ::
      && IsRun(ss, OvertakingSteps(s, subHal)) && ss[4].inFlight == []
      && ss[4].sensors == map[] && SetSubHalIndex(s.handle, subHal) in ReplayAll(ss[4].delivered)
  {
    OvertakingIsRun(s, subHal);
    ReplayOvertaken(Repacked(s, subHal));
  }

  /** Each removal is reported once: a disconnection lists distinct handles, all of sensors that were there. */
  lemma {:induction false} RemovalsReportedOnce(m: SensorMap, removed: seq<Handle>, subHal: nat)
    ensures var callback := Answer(m, Disconnect(removed, subHal)).1;
            && callback.Disconnected? && Distinct(callback.handles)
            && (forall h :: h in callback.handles ==> h in m)
  {
    RemovedKeys(m, removed, subHal);
  }

  /** One sub-HAL never removes another's sensor: what a disconnection takes away was packed with its own
      index, whatever handles it is given. */
  lemma {:induction false} OnlyOwnSensorsRemoved(m: SensorMap, removed: seq<Handle>, subHal: nat, h: Handle, owner: nat)
    requires subHal < 256 && owner < 256 && subHal != owner
    requires SubHalIndexIsClear(h) && SetSubHalIndex(h, owner) in m
    ensures var (m', out) := Removed(m, removed, subHal);
            SetSubHalIndex(h, owner) in m' && m'[SetSubHalIndex(h, owner)] == m[SetSubHalIndex(h, owner)]
  {
    if removed != [] {
      OnlyOwnSensorsRemoved(m, removed[..|removed| - 1], subHal, h, owner);
      var last := removed[|removed| - 1];
      if SubHalIndexIsClear(last) && SetSubHalIndex(last, subHal) == SetSubHalIndex(h, owner) {
        PackingInjective(last, subHal, h, owner);
        assert false;
      }
    }
  }

  /** Exactly the named sensors of the calling sub-HAL go. */
  lemma {:induction false} NamedSensorsGo(m: SensorMap, removed: seq<Handle>, subHal: nat, h: Handle)
    requires h in m
    ensures h !in Removed(m, removed, subHal).0 <==>
              exists i :: 0 <= i < |removed| && SubHalIndexIsClear(removed[i]) &&
                          SetSubHalIndex(removed[i], subHal) == h
  {
    if removed != [] {
      var n := |removed| - 1;
      NamedSensorsGo(m, removed[..n], subHal, h);
      RemovedKeys(m, removed[..n], subHal);
    }
  }

  /** Every connected sensor with a clear handle is in the map afterwards, as last described. */
  lemma {:induction false} ConnectedSensorsListed(m: SensorMap, added: seq<SensorInfo>, subHal: nat, i: nat)
    requires i < |added| && SubHalIndexIsClear(added[i].handle)
    requires forall j :: i < j < |added| && SubHalIndexIsClear(added[j].handle) ==>
               SetSubHalIndex(added[j].handle, subHal) != SetSubHalIndex(added[i].handle, subHal)
    ensures var h := SetSubHalIndex(added[i].handle, subHal);
            h in Added(m, added, subHal).0 && Added(m, added, subHal).0[h] == Repacked(added[i], subHal)
  {
    var n := |added| - 1;
    if i < n {
      ConnectedSensorsListed(m, added[..n], subHal, i);
    }
  }
}
