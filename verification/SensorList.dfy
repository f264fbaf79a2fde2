/** The proxy's table of sensors: its construction from the sub-HALs' lists, the choice of the one sub-HAL
    that keeps direct-channel support, and the routing of handles back to sub-HALs. */
module SensorList {
  import opened Handles
  import opened SensorTypes

  datatype Table = Table(sensors: map<Handle, SensorInfo>, owner: Option<nat>)

  function DirectBits(flags: Flags): Flags {
    flags * DIRECT_MASK
  }

  predicate IsDirect(s: SensorInfo) {
    DirectBits(s.flags) != {}
  }

  function WithoutDirect(flags: Flags): Flags {
    flags - DIRECT_MASK
  }

  predicate Accepted(s: SensorInfo) {
    SubHalIndexIsClear(s.handle)
  }

  function Standardize(s: SensorInfo): SensorInfo {
    if s.typeAsString == WRIST_TILT_STRING
    then s.(sensorType := PICK_UP_GESTURE, typeAsString := PICK_UP_STRING)
    else s
  }

  // One sensor of sub-HAL `index`, added to the table the way the lists are walked.
  function AddSensor(t: Table, s: SensorInfo, index: nat): Table {
    if !Accepted(s) then t
    else
      var h := SetSubHalIndex(s.handle, index);
      var claims := t.owner.None? && IsDirect(s);
      var stripped := t.owner.Some? && t.owner.value != index;
      var entry := Standardize(s.(handle := h, flags := if stripped then WithoutDirect(s.flags) else s.flags));
      Table(t.sensors[h := entry], if claims then Some(index) else t.owner)
  }

  function AddList(t: Table, list: seq<SensorInfo>, k: nat, index: nat): Table
    requires k <= |list|
  {
    if k == 0 then t else AddSensor(AddList(t, list, k - 1, index), list[k - 1], index)
  }

  function AddLists(lists: seq<seq<SensorInfo>>, n: nat): Table
    requires n <= |lists|
  {
    if n == 0 then Table(map[], None) else AddList(AddLists(lists, n - 1), lists[n - 1], |lists[n - 1]|, n - 1)
  }

  // ---- What the finished table holds, said without following the walk ----

  predicate HasDirectSensor(list: seq<SensorInfo>, k: nat)
    requires k <= |list|
  {
    exists j :: 0 <= j < k && Accepted(list[j]) && IsDirect(list[j])
  }

  predicate SubHalHasDirect(lists: seq<seq<SensorInfo>>, i: nat) {
    i < |lists| && HasDirectSensor(lists[i], |lists[i]|)
  }

  /** `owner` is the first sub-HAL, in load order, with an accepted direct-capable sensor among the first n
      lists and the first k sensors of list n. */
  ghost predicate IsFirstDirect(owner: Option<nat>, lists: seq<seq<SensorInfo>>, n: nat, k: nat)
    requires n <= |lists| && (if n < |lists| then k <= |lists[n]| else k == 0)
  {
    match owner
    case Some(i) =>
      && (forall j: nat :: j < i ==> !SubHalHasDirect(lists, j))
      && ((i < n && SubHalHasDirect(lists, i)) || (i == n < |lists| && HasDirectSensor(lists[n], k)))
    case None =>
      && (forall j: nat :: j < n ==> !SubHalHasDirect(lists, j))
      && (n < |lists| ==> !HasDirectSensor(lists[n], k))
  }

  /** The description under which sensor s of sub-HAL i is listed once the owner is known. */
  function ListedAs(s: SensorInfo, i: nat, owner: Option<nat>): SensorInfo {
    Standardize(s.(handle := SetSubHalIndex(s.handle, i),
                   flags := if owner == Some(i) then s.flags else WithoutDirect(s.flags)))
  }

  ghost predicate ComesFrom(t: Table, h: Handle, lists: seq<seq<SensorInfo>>, i: nat, j: nat) {
    && i < |lists| && j < |lists[i]| && Accepted(lists[i][j])
    && h in t.sensors
    && h == SetSubHalIndex(lists[i][j].handle, i)
    && t.sensors[h] == ListedAs(lists[i][j], i, t.owner)
  }

  // The walk has covered the first n lists and the first k sensors of list n.
  predicate Covered(lists: seq<seq<SensorInfo>>, n: nat, k: nat, i: nat, j: nat) {
    i < |lists| && j < |lists[i]| && (i < n || (i == n && j < k))
  }

  predicate Later(i': nat, j': nat, i: nat, j: nat) {
    i < i' || (i == i' && j < j')
  }

  // No covered sensor after (i, j) is reported under handle h.
  ghost predicate IsLast(lists: seq<seq<SensorInfo>>, n: nat, k: nat, h: Handle, i: nat, j: nat) {
    forall i': nat, j': nat {:trigger Covered(lists, n, k, i', j')} ::
      Covered(lists, n, k, i', j') && Accepted(lists[i'][j']) && Later(i', j', i, j) ==>
        SetSubHalIndex(lists[i'][j'].handle, i') != h
  }

  ghost predicate IsSource(t: Table, lists: seq<seq<SensorInfo>>, n: nat, k: nat, h: Handle, i: nat, j: nat) {
    Covered(lists, n, k, i, j) && ComesFrom(t, h, lists, i, j) && IsLast(lists, n, k, h, i, j)
  }

  ghost predicate HasSource(t: Table, lists: seq<seq<SensorInfo>>, n: nat, k: nat, h: Handle) {
    exists i: nat, j: nat :: IsSource(t, lists, n, k, h, i, j)
  }

  ghost predicate AllSourced(t: Table, lists: seq<seq<SensorInfo>>, n: nat, k: nat) {
    forall h {:trigger HasSource(t, lists, n, k, h)} :: h in t.sensors ==> HasSource(t, lists, n, k, h)
  }

  ghost predicate AllListed(t: Table, lists: seq<seq<SensorInfo>>, n: nat, k: nat) {
    forall i: nat, j: nat {:trigger Covered(lists, n, k, i, j)} ::
      Covered(lists, n, k, i, j) && Accepted(lists[i][j]) ==> SetSubHalIndex(lists[i][j].handle, i) in t.sensors
  }

  ghost predicate TableInv(t: Table, lists: seq<seq<SensorInfo>>, n: nat, k: nat)
    requires n <= |lists| && (if n < |lists| then k <= |lists[n]| else k == 0)
  {
    IsFirstDirect(t.owner, lists, n, k) && AllSourced(t, lists, n, k) && AllListed(t, lists, n, k)
  }

  lemma {:induction false} StripNothing(flags: Flags)
    requires DirectBits(flags) == {}
    ensures WithoutDirect(flags) == flags
  {
    forall bit | bit in flags
      ensures bit !in DIRECT_MASK
    {
      assert bit !in DirectBits(flags);
    }
  }

  // Covered sensors of sub-HALs other than a new owner advertise nothing that stripping would remove.
  lemma {:induction false} ListedAsStable(lists: seq<seq<SensorInfo>>, n: nat, k: nat, i: nat, j: nat)
    requires n < |lists| && k <= |lists[n]|
    requires IsFirstDirect(None, lists, n, k)
    requires Covered(lists, n, k, i, j) && Accepted(lists[i][j])
    ensures ListedAs(lists[i][j], i, None) == ListedAs(lists[i][j], i, Some(n))
  {
    if i < n {
      assert !SubHalHasDirect(lists, i);
    } else {
      assert !HasDirectSensor(lists[n], k);
    }
    assert !IsDirect(lists[i][j]);
    StripNothing(lists[i][j].flags);
  }

  lemma {:induction false} AddSensorOwner(t: Table, lists: seq<seq<SensorInfo>>, n: nat, k: nat)
    requires n < |lists| && k < |lists[n]|
    requires IsFirstDirect(t.owner, lists, n, k)
    ensures IsFirstDirect(AddSensor(t, lists[n][k], n).owner, lists, n, k + 1)
  {
    var s := lists[n][k];
    if Accepted(s) && IsDirect(s) {
      assert HasDirectSensor(lists[n], k + 1);
    }
    assert HasDirectSensor(lists[n], k) ==> HasDirectSensor(lists[n], k + 1);
    assert HasDirectSensor(lists[n], k + 1) ==> HasDirectSensor(lists[n], k) || (Accepted(s) && IsDirect(s));
  }

  lemma {:induction false} NewEntry(t: Table, lists: seq<seq<SensorInfo>>, n: nat, k: nat)
    requires n < |lists| && k < |lists[n]| && Accepted(lists[n][k])
    requires IsFirstDirect(t.owner, lists, n, k)
    ensures IsSource(AddSensor(t, lists[n][k], n), lists, n, k + 1, SetSubHalIndex(lists[n][k].handle, n), n, k)
  {
    if !IsDirect(lists[n][k]) {
      StripNothing(lists[n][k].flags);
    }
  }

  lemma {:induction false} OldEntry(t: Table, lists: seq<seq<SensorInfo>>, n: nat, k: nat, h: Handle, i: nat, j: nat)
    requires n < |lists| && k < |lists[n]|
    requires IsFirstDirect(t.owner, lists, n, k)
    requires IsSource(t, lists, n, k, h, i, j)
    requires Accepted(lists[n][k]) ==> h != SetSubHalIndex(lists[n][k].handle, n)
    ensures IsSource(AddSensor(t, lists[n][k], n), lists, n, k + 1, h, i, j)
  {
    var t' := AddSensor(t, lists[n][k], n);
    assert h in t'.sensors && t'.sensors[h] == t.sensors[h];
    assert t'.owner == t.owner || (t.owner == None && t'.owner == Some(n));
    if t.owner.None? {
      ListedAsStable(lists, n, k, i, j);
    }
    assert ComesFrom(t', h, lists, i, j);
    forall i': nat, j': nat | Covered(lists, n, k + 1, i', j') && Accepted(lists[i'][j']) && Later(i', j', i, j)
      ensures SetSubHalIndex(lists[i'][j'].handle, i') != h
    {
      assert Covered(lists, n, k, i', j') || (i' == n && j' == k);
    }
  }

  lemma {:induction false} AddSensorKeepsInv(t: Table, lists: seq<seq<SensorInfo>>, n: nat, k: nat)
    requires n < |lists| && k < |lists[n]|
    requires TableInv(t, lists, n, k)
    ensures TableInv(AddSensor(t, lists[n][k], n), lists, n, k + 1)
  {
    var s := lists[n][k];
    var t' := AddSensor(t, s, n);
    AddSensorOwner(t, lists, n, k);
    forall h | h in t'.sensors
      ensures HasSource(t', lists, n, k + 1, h)
    {
      if Accepted(s) && h == SetSubHalIndex(s.handle, n) {
        NewEntry(t, lists, n, k);
      } else {
        assert HasSource(t, lists, n, k, h);
        var i: nat, j: nat :| IsSource(t, lists, n, k, h, i, j);
        OldEntry(t, lists, n, k, h, i, j);
      }
    }
    forall i: nat, j: nat | Covered(lists, n, k + 1, i, j) && Accepted(lists[i][j])
      ensures SetSubHalIndex(lists[i][j].handle, i) in t'.sensors
    {
      assert Covered(lists, n, k, i, j) || (i == n && j == k);
    }
  }

  lemma {:induction false} NextListCovers(lists: seq<seq<SensorInfo>>, n: nat)
    requires n < |lists|
    ensures forall i: nat, j: nat {:trigger Covered(lists, n + 1, 0, i, j)} ::
              Covered(lists, n + 1, 0, i, j) <==> Covered(lists, n, |lists[n]|, i, j)
  {
  }

  lemma {:induction false} NextListInv(t: Table, lists: seq<seq<SensorInfo>>, n: nat)
    requires n < |lists|
    requires TableInv(t, lists, n, |lists[n]|)
    ensures TableInv(t, lists, n + 1, 0)
  {
    forall h | h in t.sensors
      ensures HasSource(t, lists, n + 1, 0, h)
    {
      assert HasSource(t, lists, n, |lists[n]|, h);
      var i: nat, j: nat :| IsSource(t, lists, n, |lists[n]|, h, i, j);
      NextListCovers(lists, n);
      assert IsSource(t, lists, n + 1, 0, h, i, j);
    }
    NextListCovers(lists, n);
  }

  lemma {:induction false} AddListInv(lists: seq<seq<SensorInfo>>, n: nat, t: Table, k: nat)
    requires n < |lists| && k <= |lists[n]|
    requires TableInv(t, lists, n, 0)
    ensures TableInv(AddList(t, lists[n], k, n), lists, n, k)
  {
    if k > 0 {
      AddListInv(lists, n, t, k - 1);
      var t1 := AddList(t, lists[n], k - 1, n);
      var t2 := AddSensor(t1, lists[n][k - 1], n);
      AddSensorKeepsInv(t1, lists, n, k - 1);
      assert AddList(t, lists[n], k, n) == t2;
    }
  }

  lemma {:induction false} WholeListInv(lists: seq<seq<SensorInfo>>, n: nat, t: Table)
    requires n < |lists|
    requires TableInv(t, lists, n, 0)
    ensures TableInv(AddList(t, lists[n], |lists[n]|, n), lists, n + 1, 0)
  {
    AddListInv(lists, n, t, |lists[n]|);
    NextListInv(AddList(t, lists[n], |lists[n]|, n), lists, n);
  }

  lemma {:induction false} EmptyTableInv(lists: seq<seq<SensorInfo>>)
    ensures TableInv(Table(map[], None), lists, 0, 0)
  {
  }

  lemma {:induction false} AddListsInv(lists: seq<seq<SensorInfo>>, n: nat)
    requires n <= |lists|
    ensures TableInv(AddLists(lists, n), lists, n, 0)
  {
    if n == 0 {
      EmptyTableInv(lists);
    } else {
      AddListsInv(lists, n - 1);
      var t := AddLists(lists, n - 1);
      var t' := AddList(t, lists[n - 1], |lists[n - 1]|, n - 1);
      WholeListInv(lists, n - 1, t);
      assert AddLists(lists, n) == t';
    }
  }

  /** The direct-channel owner is the first sub-HAL with an accepted direct-capable sensor (none iff there is
      no such sensor). */
  lemma {:induction false} OwnerIsFirstDirect(lists: seq<seq<SensorInfo>>)
    ensures var owner := AddLists(lists, |lists|).owner;
            && (owner.Some? <==> exists i: nat :: SubHalHasDirect(lists, i))
            && (owner.Some? ==> SubHalHasDirect(lists, owner.value))
            && (owner.Some? ==> forall i: nat :: i < owner.value ==> !SubHalHasDirect(lists, i))
  {
    AddListsInv(lists, |lists|);
  }

  /** The direct-report and direct-channel flags are bits 7 to 11. */
  lemma {:induction false} DirectBitsAre(s: SensorInfo)
    ensures IsDirect(s) <==> exists bit :: bit in s.flags && 7 <= bit <= 11
    ensures forall bit :: bit in WithoutDirect(s.flags) <==> bit in s.flags && !(7 <= bit <= 11)
  {
    if IsDirect(s) {
      var bit :| bit in DirectBits(s.flags);
      assert bit in s.flags && 7 <= bit <= 11;
    } else {
      forall bit | bit in s.flags
        ensures !(7 <= bit <= 11)
      {
        assert bit !in DirectBits(s.flags);
      }
    }
  }

  /** Handle h is listed for the j-th sensor of sub-HAL i: an accepted one, the last reported under h.  The entry
      carries h as its handle, keeps all flags but the direct ones, keeps those exactly in the owner, and keeps its
      type unless it is a wrist-tilt sensor, which is listed as a pick-up gesture. */
  ghost predicate ListedFrom(lists: seq<seq<SensorInfo>>, h: Handle, i: nat, j: nat) {
    var t := AddLists(lists, |lists|);
    && i < |lists| && j < |lists[i]|
    && var s := lists[i][j];
    && 0 <= s.handle < 0x100_0000 && h == SetSubHalIndex(s.handle, i)
    && IsLast(lists, |lists|, 0, h, i, j)
    && h in t.sensors
    && var entry := t.sensors[h];
    && entry.handle == h
    && (forall bit :: bit in entry.flags <==> bit in s.flags && (t.owner == Some(i) || !(7 <= bit <= 11)))
    && (if s.typeAsString == "android.sensor.wrist_tilt_gesture"
        then entry.sensorType == 25 && entry.typeAsString == "android.sensor.pick_up_gesture"
        else entry.sensorType == s.sensorType && entry.typeAsString == s.typeAsString)
  }

  lemma {:induction false} ListedAsSaid(lists: seq<seq<SensorInfo>>, h: Handle, i: nat, j: nat)
    requires ComesFrom(AddLists(lists, |lists|), h, lists, i, j) && IsLast(lists, |lists|, 0, h, i, j)
    ensures ListedFrom(lists, h, i, j)
  {
    ClearIffSmall(lists[i][j].handle);
    DirectBitsAre(lists[i][j]);
  }

  lemma {:induction false} ListedSensor(lists: seq<seq<SensorInfo>>, h: Handle)
    requires h in AddLists(lists, |lists|).sensors
    ensures exists i: nat, j: nat :: ListedFrom(lists, h, i, j)
  {
    AddListsInv(lists, |lists|);
    var t := AddLists(lists, |lists|);
    assert HasSource(t, lists, |lists|, 0, h);
    var i: nat, j: nat :| IsSource(t, lists, |lists|, 0, h, i, j);
    ListedAsSaid(lists, h, i, j);
  }

  /** No accepted sensor is missing from the table. */
  lemma {:induction false} AcceptedSensorsAreListed(lists: seq<seq<SensorInfo>>, i: nat, j: nat)
    requires i < |lists| && j < |lists[i]| && Accepted(lists[i][j])
    ensures SetSubHalIndex(lists[i][j].handle, i) in AddLists(lists, |lists|).sensors
  {
    AddListsInv(lists, |lists|);
    assert Covered(lists, |lists|, 0, i, j);
  }

  // ---- Routing ----

  /** The sub-HAL a handle is sent to; None is the BAD_VALUE answer. */
  function Route(h: Handle, subHals: nat): Option<nat> {
    if ExtractSubHalIndex(h) < subHals then Some(ExtractSubHalIndex(h)) else None
  }

  /** Every handle either gets BAD_VALUE or indexes the sub-HAL list in range.  All negative handles get
      BAD_VALUE, whatever their low bits. */
  lemma {:induction false} RoutingIsTotal(h: Handle, subHals: nat)
    requires subHals <= SIZE_T_SPAN - 128
    ensures Route(h, subHals).Some? ==> Route(h, subHals).value == TopByte(h) < subHals
    ensures Route(h, subHals).None? <==> h < 0 || subHals <= TopByte(h)
  {
    HandleParts(h);
    AssembleParts(TopByte(h), LowBits(h));
  }

  /** A listed sensor is routed back to the sub-HAL that reported it, with the handle it was reported under,
      exactly when that sub-HAL's index is below 128. */
  lemma {:induction false} ListedSensorRoutesBack(lists: seq<seq<SensorInfo>>, h: Handle, i: nat, j: nat)
    requires |lists| <= SIZE_T_SPAN - 128
    requires i < |lists| && j < |lists[i]| && Accepted(lists[i][j]) && h == SetSubHalIndex(lists[i][j].handle, i)
    ensures Route(h, |lists|) == Some(i) <==> i < 128
    ensures ClearSubHalIndex(h) == lists[i][j].handle
  {
    PackingRoundTrip(lists[i][j].handle, i);
  }

  // ---- Direct reports ----

  datatype RateLevel = STOP | NORMAL_RATE | FAST | VERY_FAST

  datatype DirectRequest = Refused(result: Result) | Forwarded(subHal: nat, handle: Handle)

  function ConfigDirectReport(owner: Option<nat>, h: Handle, rate: RateLevel): DirectRequest {
    if owner.None? then Refused(INVALID_OPERATION)
    else if h == -1 && rate != STOP then Refused(BAD_VALUE)
    else Forwarded(owner.value, if h == -1 then h else ClearSubHalIndex(h))
  }

  /** A sensor listed with direct flags is the owner's, and a direct report for it reaches the owner with the
      handle the owner reported, at any rate, exactly when its packed handle is not the reserved -1. */
  lemma {:induction false} DirectReportReachesOwner(lists: seq<seq<SensorInfo>>, h: Handle, i: nat, j: nat,
                                                    rate: RateLevel)
    requires ListedFrom(lists, h, i, j)
    requires exists bit :: bit in AddLists(lists, |lists|).sensors[h].flags && 7 <= bit <= 11
    ensures AddLists(lists, |lists|).owner == Some(i)
    ensures ConfigDirectReport(Some(i), h, rate) == Forwarded(i, lists[i][j].handle) <==> h != -1
    ensures |lists| <= SIZE_T_SPAN - 128 ==> (Route(h, |lists|) == Some(i) <==> i < 128)
  {
    ClearIffSmall(lists[i][j].handle);
    PackedTopByteReadBack(lists[i][j].handle, i);
    ClearHandleIsItsLowBits(lists[i][j].handle);
    if |lists| <= SIZE_T_SPAN - 128 {
      ListedSensorRoutesBack(lists, h, i, j);
    }
  }

  /** Without an owner a direct report is refused; the handle -1 stands for all sensors, which can only be stopped,
      and reaches the owner as it is. */
  lemma {:induction false} DirectReportAnswers(owner: Option<nat>, h: Handle, rate: RateLevel)
    ensures owner.None? <==> ConfigDirectReport(owner, h, rate) == Refused(INVALID_OPERATION)
    ensures owner.Some? && h == -1 && rate != STOP <==> ConfigDirectReport(owner, h, rate) == Refused(BAD_VALUE)
    ensures owner.Some? && h == -1 && rate == STOP ==> ConfigDirectReport(owner, h, rate) == Forwarded(owner.value, -1)
  {
  }

  /** The request is not checked against the owner: a handle of any other sub-HAL is forwarded too, with its
      index cleared.  So the owner sees only its own sensors iff the caller's handle is routed to it. */
  lemma {:induction false} DirectReportIgnoresRouting(owner: nat, h: Handle, subHals: nat, rate: RateLevel)
    requires h != -1
    ensures ConfigDirectReport(Some(owner), h, rate) == Forwarded(owner, LowBits(h))
    ensures SetSubHalIndex(LowBits(h), owner) == h <==> owner % 256 == TopByte(h)
  {
    AssembleParts(0, LowBits(h));
    PackedParts(LowBits(h), owner);
    PackClear(LowBits(h), owner);
    HandleParts(h);
  }

  lemma {:induction false} BlankNeverWakes(sensors: map<Handle, SensorInfo>, h: Handle)
    requires h !in sensors
    ensures WakeHandles(sensors[h := BLANK_SENSOR]) == WakeHandles(sensors)
    ensures BLANK_SENSOR == SensorInfo(0, {}, 0, "")
  {
  }

  // ---- The proxy's fields ----

  class SensorProxy {
    var sensors: map<Handle, SensorInfo>
    var directOwner: Option<nat>

    ghost function Contents(): Table
      reads this
    {
      Table(sensors, directOwner)
    }

    constructor (lists: seq<seq<SensorInfo>>)
      ensures Contents() == AddLists(lists, |lists|)
    {
      sensors, directOwner := map[], None;
      new;
      InitializeSensorList(lists);
    }

    method InitializeSensorList(lists: seq<seq<SensorInfo>>)
      requires sensors == map[] && directOwner == None
      modifies this
      ensures Contents() == AddLists(lists, |lists|)
    {
      var subHalIndex := 0;
      while subHalIndex < |lists|
        invariant subHalIndex <= |lists|
        invariant Contents() == AddLists(lists, subHalIndex)
      {
        var list := lists[subHalIndex];
        var k := 0;
        while k < |list|
          invariant k <= |list|
          invariant Contents() == AddList(AddLists(lists, subHalIndex), list, k, subHalIndex)
        {
          var sensor := list[k];
          if SubHalIndexIsClear(sensor.handle) {
            sensor := sensor.(handle := SetSubHalIndex(sensor.handle, subHalIndex));
            sensor := SetDirectChannelFlags(sensor, subHalIndex);
            if sensor.typeAsString == WRIST_TILT_STRING {
              sensor := sensor.(sensorType := PICK_UP_GESTURE, typeAsString := PICK_UP_STRING);
            }
            sensors := sensors[sensor.handle := sensor];
          }
          k := k + 1;
        }
        subHalIndex := subHalIndex + 1;
      }
    }

    method SetDirectChannelFlags(sensor: SensorInfo, subHal: nat) returns (r: SensorInfo)
      modifies this`directOwner
      ensures old(directOwner).None? && IsDirect(sensor) ==> directOwner == Some(subHal) && r == sensor
      ensures old(directOwner).None? && !IsDirect(sensor) ==> directOwner.None? && r == sensor
      ensures old(directOwner) == Some(subHal) ==> directOwner == Some(subHal) && r == sensor
      ensures old(directOwner).Some? && old(directOwner).value != subHal ==>
                directOwner == old(directOwner) && r == sensor.(flags := WithoutDirect(sensor.flags))
    {
      r := sensor;
      if directOwner == None && sensor.flags * DIRECT_MASK != {} {
        directOwner := Some(subHal);
      } else if directOwner != None && directOwner != Some(subHal) {
        r := r.(flags := r.flags - DIRECT_MASK);
      }
    }

    /** Counting looks handles up with an inserting lookup: unknown handles of the counted events become
        blank sensors, which changes neither a known sensor nor the set of wake-up handles. */
    method CountNumWakeupEvents(events: seq<Event>, n: nat) returns (count: nat)
      requires n <= |events|
      modifies this`sensors
      ensures count == CountWakeups(WakeHandles(old(sensors)), events[..n])
      ensures WakeHandles(sensors) == WakeHandles(old(sensors))
      ensures sensors.Keys == old(sensors).Keys + (set k | 0 <= k < n :: events[k].handle)
      ensures forall h :: h in sensors ==>
                sensors[h] == if h in old(sensors) then old(sensors)[h] else SensorInfo(0, {}, 0, "")
    {
      ghost var wake := WakeHandles(sensors);
      count := 0;
      for i := 0 to n
        invariant count == CountWakeups(wake, events[..i])
        invariant WakeHandles(sensors) == wake
        invariant sensors.Keys == old(sensors).Keys + (set k | 0 <= k < i :: events[k].handle)
        invariant forall h :: h in sensors ==>
                    sensors[h] == if h in old(sensors) then old(sensors)[h] else BLANK_SENSOR
      {
        var sensorHandle := events[i].handle;
        if sensorHandle !in sensors {
          BlankNeverWakes(sensors, sensorHandle);
          sensors := sensors[sensorHandle := BLANK_SENSOR];
        }
        if WAKE_UP in sensors[sensorHandle].flags {
          count := count + 1;
        }
        assert events[..i + 1][..i] == events[..i];
      }
    }
  }
}
