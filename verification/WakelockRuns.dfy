/** Runs in which the wakelock is released too early, or held for nothing. */
module WakelockRuns {
  import opened Handles
  import opened SensorTypes
  import opened EventPipeline
  import opened ProxySystem
  import W = Wakelock

  function Copies(e: Event, k: nat): seq<Event> {
    seq(k, _ => e)
  }

  lemma {:induction false} CopiesAreWakeups(wake: set<Handle>, e: Event, k: nat)
    requires e.handle in wake
    ensures CountWakeups(wake, Copies(e, k)) == k
  {
    if k != 0 {
      CopiesAreWakeups(wake, e, k - 1);
      assert Copies(e, k)[..k - 1] == Copies(e, k - 1);
    }
  }

  lemma {:induction false} TwoWakeups(wake: set<Handle>, e: Event)
    requires e.handle in wake
    ensures CountWakeups(wake, []) == 0
    ensures CountWakeups(wake, [e]) == 1
    ensures CountWakeups(wake, [e, e]) == 2
  {
    assert [e, e][..1] == [e] && [e][..0] == [];
  }

  // ---- Released too early ----

  // Six actions: a holder posts two wake-up events, one fits, the holder returns, and the other's write fails.
  function EarlyReleaseActs(e: Event, t: int): seq<Action> {
    [TakeHolder(t), PostBatch(Post([e, e], 2, 1, true), true, t), ReturnHolder(t),
     WriterMoves(Choose), WriterMoves(WriteReturn(false)), WriterMoves(WriteOff)]
  }

  // The seven states they lead through.
  function Stage(e: Event, start: System, i: nat): System
    requires i <= 6
  {
    var t := start.clock;
    var spilled := History([e, e], [e], [0, 1], {});
    var failed := History([e, e], [e], [0], {1});
    var batch := [Entry([e], 2)];
    var held := start.lock.(timeoutStart := t, calls := [W.Acquire]);
    if i == 0 then start
    else if i == 1 then
      start.(lock := held.(refCount := 1), holders := multiset{t})
    else if i == 2 then
      start.(p := State(Queue(batch, 1, 1, Idle), spilled), lock := held.(refCount := 3), holders := multiset{t})
    else if i == 6 then
      start.(p := State(Queue(batch, 1, 1, Written(1)), failed),
             lock := held.(refCount := 0, calls := [W.Acquire, W.Release]))
    else
      var p := if i == 3 then State(Queue(batch, 1, 1, Idle), spilled)
               else if i == 4 then State(Queue(batch, 1, 1, Writing(1, 2)), spilled)
               else State(Queue(batch, 1, 1, WriteFailed(1, 2)), failed);
      start.(p := p, lock := held.(refCount := 2))
  }

  predicate CanSpill(c: Config, e: Event) {
    c.capacity >= 1 && c.maxPending >= 1 && e.handle in c.wake
  }

  lemma {:induction false} StageOfPost(c: Config, e: Event, start: System)
    requires CanSpill(c, e) && IsStart(start)
    ensures var post := Post([e, e], 2, 1, true);
            && Guard(c, INIT, post)
            && After(c, INIT, post) == Stage(e, start, 2).p
            && Overflow(c, INIT, post) == 0
  {
    TwoWakeups(c.wake, e);
    assert [e, e][..1] == [e] && [e, e][1..] == [e];
  }

  lemma {:induction false} StageSteps(c: Config, e: Event, start: System, i: nat)
    requires CanSpill(c, e) && IsStart(start) && i < 6
    ensures var a := EarlyReleaseActs(e, start.clock)[i];
            && May(c, Stage(e, start, i), a)
            && Stage(e, start, i + 1) == Do(c, Stage(e, start, i), a)
            && (i < 5 ==> Harmless(c, Stage(e, start, i), a))
  {
    if i == 1 {
      StageOfPost(c, e, start);
    } else if i == 2 {
      assert multiset{start.clock} - multiset{start.clock} == multiset{};
    } else if i == 4 {
      assert [0, 1][..1] + [0, 1][2..] == [0] && [0, 1][1..2] == [1];
      assert 1 in Positions([1]);
      assert {} + Positions([1]) == {1};
    }
  }

  function Stages(e: Event, start: System): seq<System> {
    seq(7, i requires 0 <= i < 7 => Stage(e, start, i))
  }

  lemma {:induction false} StagesAreRun(c: Config, e: Event, start: System)
    requires CanSpill(c, e) && IsStart(start)
    ensures var ss, acts := Stages(e, start), EarlyReleaseActs(e, start.clock);
            IsSystemRun(c, ss, acts) && HarmlessBefore(c, ss, acts, 5)
  {
    var ss, acts := Stages(e, start), EarlyReleaseActs(e, start.clock);
    forall i | 0 <= i < 6
      ensures May(c, ss[i], acts[i]) && ss[i + 1] == Do(c, ss[i], acts[i])
      ensures i < 5 ==> Harmless(c, ss[i], acts[i])
    {
      StageSteps(c, e, start, i);
    }
  }

  /** A harmful write-off, whatever the capacity and the spill limit: every action before it is harmless, and one
      failed write of a spilled batch gives back the reference of an event that is delivered and not acknowledged,
      so the device may sleep. */
  lemma {:induction false} FailedSpillReleasesEarly(c: Config, e: Event, start: System)
    requires CanSpill(c, e) && IsStart(start)
    ensures exists ss: seq<System> ::
      var acts := EarlyReleaseActs(e, start.clock);
      && IsSystemRun(c, ss, acts) && HarmlessBefore(c, ss, acts, 5) && ss[0] == start
      && CountWakeups(c.wake, ss[6].p.h.delivered) == 1 && ss[6].acked == 0
      && !W.Held(ss[6].lock)
  {
    StagesAreRun(c, e, start);
    TwoWakeups(c.wake, e);
    assert Stages(e, start)[0] == start && Stages(e, start)[6] == Stage(e, start, 6);
  }

  // ---- Held for nothing until a timeout ----

  // Three actions: a holder posts more wake-up events than the spill queue holds while nothing can be written, and
  // returns.
  function LeakActs(c: Config, e: Event, t: int): seq<Action> {
    [TakeHolder(t), PostBatch(Post(Copies(e, c.maxPending + 1), c.maxPending + 1, 0, true), true, t), ReturnHolder(t)]
  }

  lemma {:induction false} OverflowingPost(c: Config, e: Event)
    requires e.handle in c.wake
    ensures var k := c.maxPending + 1;
            var post := Post(Copies(e, k), k, 0, true);
            && Guard(c, INIT, post) && Overflow(c, INIT, post) == k
            && After(c, INIT, post).q == INIT.q && After(c, INIT, post).h.delivered == []
  {
    var k := c.maxPending + 1;
    CopiesAreWakeups(c.wake, e, k);
    assert Copies(e, k)[0..] == Copies(e, k);
  }

  // The four states they lead through.
  function LeakStates(c: Config, e: Event, start: System): seq<System> {
    var t, k := start.clock, c.maxPending + 1;
    var s1 := start.(lock := W.Increment(start.lock, 1, t), holders := multiset{t});
    var s2 := s1.(p := AfterPost(c, INIT, Copies(e, k), k, 0, true), lock := W.Increment(s1.lock, k, t),
                  overflowed := k);
    [start, s1, s2, s2.(lock := W.Decrement(s2.lock, 1, t), holders := multiset{})]
  }

  lemma {:induction false} LeakSteps(c: Config, e: Event, start: System, i: nat)
    requires e.handle in c.wake && IsStart(start) && i < 3
    ensures var ss, a := LeakStates(c, e, start), LeakActs(c, e, start.clock)[i];
            May(c, ss[i], a) && ss[i + 1] == Do(c, ss[i], a) && Harmless(c, ss[i], a)
  {
    if i == 1 {
      OverflowingPost(c, e);
    } else if i == 2 {
      assert multiset{start.clock} - multiset{start.clock} == multiset{};
    }
  }

  lemma {:induction false} LeakIsRun(c: Config, e: Event, start: System)
    requires e.handle in c.wake && IsStart(start)
    ensures var ss, acts := LeakStates(c, e, start), LeakActs(c, e, start.clock);
            IsSystemRun(c, ss, acts) && HarmlessBefore(c, ss, acts, 3)
  {
    var ss, acts := LeakStates(c, e, start), LeakActs(c, e, start.clock);
    forall i | 0 <= i < 3
      ensures May(c, ss[i], acts[i]) && ss[i + 1] == Do(c, ss[i], acts[i]) && Harmless(c, ss[i], acts[i])
    {
      LeakSteps(c, e, start, i);
    }
  }

  lemma {:induction false} EmptyNeedsNothing(c: Config, s: System)
    requires s.holders == multiset{} && s.p.h.delivered == [] && s.p.q == INIT.q && s.acked == 0
    ensures Needed(c, s) == 0
  {
  }

  /** References of overflowed events leak, whatever the capacity and the spill limit: every action here is
      harmless, and in the end the wakelock is held although there is no holder and no event, delivered or to be
      delivered. */
  lemma {:induction false} OverflowKeepsAwake(c: Config, e: Event, start: System)
    requires c.capacity >= 1 && e.handle in c.wake && IsStart(start)
    ensures exists ss: seq<System> ::
      var acts := LeakActs(c, e, start.clock);
      && IsSystemRun(c, ss, acts) && HarmlessBefore(c, ss, acts, 3) && ss[0] == start
      && ss[3].holders == multiset{} && ss[3].p.h.delivered == [] && ss[3].p.q == INIT.q
      && Needed(c, ss[3]) == 0 && W.Held(ss[3].lock)
  {
    var ss, acts := LeakStates(c, e, start), LeakActs(c, e, start.clock);
    LeakIsRun(c, e, start);
    OverflowingPost(c, e);
    HeldIffOutstanding(c, ss, acts, 3);
    EmptyNeedsNothing(c, ss[3]);
  }

  // ---- Held for nothing, timeouts included ----

  // Five actions: a holder outlives a timeout, posts a batch without events, and returns, and time passes.
  function EmptyPostActs(t: int, t1: int, t2: int, t3: int): seq<Action> {
    [TakeHolder(t), Timeout(t1), PostBatch(Post([], 0, 0, true), true, t2), ReturnHolder(t), Timeout(t3)]
  }

  lemma {:induction false} EmptyPost(c: Config)
    ensures var post := Post([], 0, 0, true);
            && Guard(c, INIT, post) && Overflow(c, INIT, post) == 0
            && After(c, INIT, post).q == INIT.q && After(c, INIT, post).h.delivered == []
  {
  }

  lemma {:induction false} EmptyPostLock(l: W.Lock, t: int, t1: int, t2: int)
    requires l.running && l.refCount == 0 && l.resetTime <= t
    ensures var l4 := W.Decrement(W.Increment(W.Reset(W.Increment(l, 1, t), t1), 0, t2), 1, t);
            l4.refCount == 0 && W.Held(l4)
  {
  }

  // The six states they lead through.
  function EmptyPostStates(c: Config, start: System, t: int, t1: int, t2: int, t3: int): seq<System> {
    var s1 := start.(lock := W.Increment(start.lock, 1, t), clock := t, holders := multiset{t});
    var s2 := s1.(lock := W.Reset(s1.lock, t1), clock := t1);
    var s3 := s2.(p := AfterPost(c, INIT, [], 0, 0, true), lock := W.Increment(s2.lock, 0, t2), clock := t2);
    var s4 := s3.(lock := W.Decrement(s3.lock, 1, t), holders := multiset{});
    [start, s1, s2, s3, s4, s4.(lock := W.Reset(s4.lock, t3), clock := t3)]
  }

  lemma {:induction false} EmptyPostSteps(c: Config, start: System, t: int, t1: int, t2: int, t3: int, i: nat)
    requires IsStart(start) && start.clock <= t <= t1 <= t2 <= t3 && i < 5
    ensures var ss, a := EmptyPostStates(c, start, t, t1, t2, t3), EmptyPostActs(t, t1, t2, t3)[i];
            May(c, ss[i], a) && ss[i + 1] == Do(c, ss[i], a)
  {
    if i == 2 {
      EmptyPost(c);
    } else if i == 3 {
      assert multiset{t} - multiset{t} == multiset{};
    }
  }

  /** A locked post of a batch that was filtered to nothing acquires the OS wakelock without a reference if a timeout
      has written off its holder: in the end nothing holds a reference, and not even a timeout releases it. */
  lemma {:induction false} EmptyPostKeepsAwake(c: Config, start: System, t: int, t1: int, t2: int, t3: int)
    requires IsStart(start) && start.clock <= t <= t1 <= t2 <= t3
    ensures exists ss: seq<System> ::
      && IsSystemRun(c, ss, EmptyPostActs(t, t1, t2, t3)) && ss[0] == start
      && ss[4].holders == multiset{} && ss[4].lock.refCount == 0 && Needed(c, ss[4]) == 0
      && W.Held(ss[4].lock) && W.Held(ss[5].lock)
  {
    var ss, acts := EmptyPostStates(c, start, t, t1, t2, t3), EmptyPostActs(t, t1, t2, t3);
    forall i | 0 <= i < 5
      ensures May(c, ss[i], acts[i]) && ss[i + 1] == Do(c, ss[i], acts[i])
    {
      EmptyPostSteps(c, start, t, t1, t2, t3, i);
    }
    EmptyPost(c);
    EmptyPostLock(start.lock, t, t1, t2);
    EmptyNeedsNothing(c, ss[4]);
    OnlyNewReferencesMoveZero(c, ss[4], acts[4]);
  }
}
