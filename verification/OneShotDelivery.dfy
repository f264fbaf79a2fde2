/** A one-shot sensor behind the proxy: its run thread, the callback its events go through, the other posters
    and the writer thread interleaved. */
module OneShotDelivery {
  import opened Handles
  import opened SensorTypes
  import B = ProxyCallback
  import D = EventDelivery
  import P = EventPipeline
  import S = OneShotSensor

  /** The sensor under observation: the proxy's table, and its local handle in the sub-HAL at `index`. */
  datatype Setup = Setup(c: P.Config, sensors: map<Handle, SensorInfo>, local: Handle, index: nat)

  datatype Joint = Joint(sensor: S.Sensor, p: P.State)

  /** The sensor's thread or a caller moves, with the event its thread may post; another sensor of some sub-HAL
      posts a batch; or the writer thread moves. */
  datatype Action =
    | SensorMoves(step: S.Step, event: Event, available: nat, writeOk: bool)
    | OthersPost(batch: seq<Event>, subHal: nat, available: nat, writeOk: bool)
    | WriterMoves(move: P.Step)

  predicate IsSetup(u: Setup) {
    && u.c.capacity >= 1 && u.c.wake == WakeHandles(u.sensors)
    && SubHalIndexIsClear(u.local) && u.index < 256
  }

  // The handle the framework knows the sensor by.
  function Tracked(u: Setup): Handle {
    SetSubHalIndex(u.local, u.index)
  }

  predicate Fires(s: S.Sensor, a: S.Step) {
    a.Resume? && s.thread.Polled? && !s.thread.failed && s.thread.deviceReady && a.state
  }

  function PostOf(u: Setup, batch: seq<Event>, subHal: nat, available: nat, writeOk: bool): P.Step {
    var out := B.Processed(u.sensors, subHal, batch);
    P.Post(out, CountWakeups(u.c.wake, out), available, writeOk)
  }

  /** The thread posts an event of its own local handle; others post with clear handles that are not it. */
  predicate May(u: Setup, j: Joint, a: Action) {
    match a
    case SensorMoves(step, event, _, _) =>
      S.May(j.sensor, step) && (Fires(j.sensor, step) ==> event.handle == u.local)
    case OthersPost(batch, subHal, _, _) =>
      && subHal < 256
      && (forall i :: 0 <= i < |batch| ==>
            SubHalIndexIsClear(batch[i].handle) && (subHal != u.index || batch[i].handle != u.local))
    case WriterMoves(move) =>
      !move.Post? && P.Guard(u.c, j.p, move) && P.Defined(j.p, move)
  }

  function Do(u: Setup, j: Joint, a: Action): Joint
    requires May(u, j, a)
  {
    match a
    case SensorMoves(step, event, available, writeOk) =>
      Joint(S.Do(j.sensor, step),
            if Fires(j.sensor, step) then P.After(u.c, j.p, PostOf(u, [event], u.index, available, writeOk)) else j.p)
    case OthersPost(batch, subHal, available, writeOk) =>
      j.(p := P.After(u.c, j.p, PostOf(u, batch, subHal, available, writeOk)))
    case WriterMoves(move) =>
      j.(p := P.After(u.c, j.p, move))
  }

  predicate IsPath(u: Setup, js: seq<Joint>, acts: seq<Action>) {
    && IsSetup(u)
    && |js| == |acts| + 1
    && (forall i {:trigger acts[i]} :: 0 <= i < |acts| ==> May(u, js[i], acts[i]) && js[i + 1] == Do(u, js[i], acts[i]))
  }

  predicate IsRun(u: Setup, js: seq<Joint>, acts: seq<Action>) {
    IsPath(u, js, acts) && js[0] == Joint(S.INIT, P.INIT)
  }

  predicate JointInv(u: Setup, j: Joint) {
    S.Inv(j.sensor) && P.Inv(u.c, j.p) && CountHandle(Tracked(u), j.p.h.posted) <= S.Posts(j.sensor.log)
  }

  lemma {:induction false} PostedGrows(c: P.Config, h: Handle, s: P.State, a: P.Step)
    requires c.capacity >= 1 && P.Inv(c, s) && P.Guard(c, s, a) && P.Defined(s, a)
    ensures var s' := P.After(c, s, a);
            && P.Inv(c, s')
            && CountHandle(h, s'.h.posted) ==
               CountHandle(h, s.h.posted) + if a.Post? then CountHandle(h, a.events) else 0
  {
    P.StepKeepsInv(c, s, a, P.After(c, s, a));
    if a.Post? {
      CountWakeupsConcat({h}, s.h.posted, a.events);
    }
  }

  lemma {:induction false} SensorPostsIffFires(s: S.Sensor, a: S.Step)
    requires S.May(s, a)
    ensures S.Posts(S.Do(s, a).log) == S.Posts(s.log) + if Fires(s, a) then 1 else 0
  {
    var log' := S.Do(s, a).log;
    if log' != s.log {
      assert log'[..|log'| - 1] == s.log;
    }
  }

  // The callback passes at most the one event of the sensor on, under the tracked handle.
  lemma {:induction false} OwnEventPasses(u: Setup, event: Event)
    requires IsSetup(u) && event.handle == u.local
    ensures CountHandle(Tracked(u), B.Processed(u.sensors, u.index, [event])) <= 1
  {
    B.ProcessedEventByEvent(u.sensors, u.index, [], event, []);
    CountWakeupsPush({Tracked(u)}, [], B.Packed(event, u.index));
    assert [] + [B.Packed(event, u.index)] == [B.Packed(event, u.index)];
  }

  lemma {:induction false} SensorKeepsInv(u: Setup, j: Joint, a: Action)
    requires IsSetup(u) && JointInv(u, j) && May(u, j, a) && a.SensorMoves?
    ensures JointInv(u, Do(u, j, a))
  {
    S.StepKeepsInv(j.sensor, a.step);
    SensorPostsIffFires(j.sensor, a.step);
    if Fires(j.sensor, a.step) {
      OwnEventPasses(u, a.event);
      PostedGrows(u.c, Tracked(u), j.p, PostOf(u, [a.event], u.index, a.available, a.writeOk));
    }
  }

  lemma {:induction false} ActionKeepsInv(u: Setup, j: Joint, a: Action)
    requires IsSetup(u) && JointInv(u, j) && May(u, j, a)
    ensures JointInv(u, Do(u, j, a))
  {
    match a
    case SensorMoves(_, _, _, _) =>
      SensorKeepsInv(u, j, a);
    case OthersPost(batch, subHal, available, writeOk) =>
      B.OthersNeverMatch(u.sensors, u.local, u.index, subHal, batch);
      PostedGrows(u.c, Tracked(u), j.p, PostOf(u, batch, subHal, available, writeOk));
    case WriterMoves(move) =>
      PostedGrows(u.c, Tracked(u), j.p, move);
  }

  lemma {:induction false} PathStepKeepsInv(u: Setup, js: seq<Joint>, acts: seq<Action>, i: nat)
    requires IsPath(u, js, acts) && 0 < i < |js| && JointInv(u, js[i - 1])
    ensures JointInv(u, js[i])
  {
    assert May(u, js[i - 1], acts[i - 1]) && js[i] == Do(u, js[i - 1], acts[i - 1]);
    ActionKeepsInv(u, js[i - 1], acts[i - 1]);
  }

  lemma {:induction false} PathKeepsInv(u: Setup, js: seq<Joint>, acts: seq<Action>, i: nat)
    requires IsPath(u, js, acts) && i < |js| && JointInv(u, js[0])
    ensures JointInv(u, js[i])
  {
    var k := 0;
    while k != i
      invariant k <= i && JointInv(u, js[k])
    {
      k := k + 1;
      PathStepKeepsInv(u, js, acts, k);
    }
  }

  lemma {:induction false} StartKeepsInv(u: Setup)
    requires IsSetup(u)
    ensures JointInv(u, Joint(S.INIT, P.INIT))
  {
    P.InitKeepsInv(u.c);
  }

  lemma {:induction false} RunInv(u: Setup, js: seq<Joint>, acts: seq<Action>, i: nat)
    requires IsRun(u, js, acts) && i < |js|
    ensures JointInv(u, js[i])
  {
    StartKeepsInv(u);
    PathKeepsInv(u, js, acts, i);
  }

  lemma {:induction false} SurvivorsHaveFewer(h: Handle, posted: seq<Event>, lost: set<nat>)
    ensures CountHandle(h, D.Survivors(posted, lost)) <= CountHandle(h, posted)
  {
    if posted != [] {
      var last := |posted| - 1;
      SurvivorsHaveFewer(h, posted[..last], lost);
      CountWakeupsPush({h}, D.Survivors(posted[..last], lost), posted[last]);
      assert D.Survivors(posted[..last], lost) + [] == D.Survivors(posted[..last], lost);
    }
  }

  /** In every reachable state, the events of the sensor that reached the framework queue, or still may, never
      exceed its armings. */
  lemma {:induction false} DeliveredNeverExceedArmings(u: Setup, js: seq<Joint>, acts: seq<Action>, i: nat)
    requires IsRun(u, js, acts) && i < |js|
    ensures var s := js[i].p;
            CountHandle(Tracked(u), s.h.delivered) + CountHandle(Tracked(u), P.Undecided(s.q)) <=
            S.Armings(js[i].sensor.log)
  {
    RunInv(u, js, acts, i);
    var s, h := js[i].p, Tracked(u);
    D.InvGivesOrder(s.h, P.Undecided(s.q));
    CountWakeupsConcat({h}, s.h.delivered, P.Undecided(s.q));
    SurvivorsHaveFewer(h, s.h.posted, s.h.lost);
    S.PostsBounded(js[i].sensor.log);
  }
}
