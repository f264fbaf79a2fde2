/** The event pipeline and the shared wakelock together: what keeps the device awake for a wake-up event from
    its post until the framework acknowledges it. */
module ProxySystem {
  import opened SensorTypes
  import opened EventPipeline
  import D = EventDelivery
  import EventQueue
  import W = Wakelock

  /** holders are the start times of the scoped wakelocks alive, acked the references the framework has given
      back, and overflowed the references still held for wake-up events that were dropped because their leftover
      did not fit. */
  datatype System = System(p: State, lock: W.Lock, clock: int, holders: multiset<int>, acked: nat, overflowed: nat)

  datatype Action =
    | TakeHolder(now: int)
    | ReturnHolder(start: int)
    | PostBatch(post: Step, locked: bool, now: int)
    | WriterMoves(step: Step)
    | Acknowledge(count: nat)
    | Timeout(now: int)

  predicate May(c: Config, s: System, a: Action) {
    match a
    case TakeHolder(now) => s.clock <= now
    case ReturnHolder(start) => start in s.holders
    // A locked post is made by a sub-HAL that holds a scoped wakelock.
    case PostBatch(post, locked, now) =>
      post.Post? && Guard(c, s.p, post) && s.clock <= now && (locked ==> s.holders != multiset{})
    case WriterMoves(step) => !step.Post? && Guard(c, s.p, step) && Defined(s.p, step)
    case Acknowledge(_) => true
    case Timeout(now) => s.clock <= now
  }

  function Amount(c: Config, p: State): nat
    requires p.q.writer.WriteFailed? && p.q.pending != []
  {
    WriteOffAmount(c, p.q.pending[0], p.q.writer.wakeups)
  }

  function Overflow(c: Config, p: State, post: Step): nat
    requires post.Post?
  {
    if D.Drops(c, p, post)
    then CountWakeups(c.wake, post.events[DirectCount(p.q, |post.events|, post.available, post.writeOk)..])
    else 0
  }

  function Do(c: Config, s: System, a: Action): System
    requires May(c, s, a)
  {
    match a
    case TakeHolder(now) =>
      s.(lock := W.Increment(s.lock, 1, now), clock := now, holders := s.holders + multiset{now})
    case ReturnHolder(start) =>
      s.(lock := W.Decrement(s.lock, 1, start), holders := s.holders - multiset{start})
    case PostBatch(post, locked, now) =>
      s.(p := After(c, s.p, post), clock := now, overflowed := s.overflowed + Overflow(c, s.p, post),
         lock := if locked then W.Increment(s.lock, post.wakeups, now) else s.lock)
    case WriterMoves(step) =>
      s.(p := After(c, s.p, step),
         lock := if step.WriteOff? then W.Decrement(s.lock, Amount(c, s.p), W.NO_START) else s.lock)
    case Acknowledge(count) =>
      s.(lock := W.Decrement(s.lock, count, W.NO_START), acked := s.acked + count)
    case Timeout(now) =>
      s.(lock := W.Reset(s.lock, now), clock := now, overflowed := 0)
  }

  predicate IsStart(s: System) {
    && s.p == INIT && s.holders == multiset{} && s.acked == 0 && s.overflowed == 0
    && s.lock.running && s.lock.refCount == 0 && s.lock.calls == [] && s.lock.resetTime <= s.clock
  }

  predicate IsPath(c: Config, ss: seq<System>, acts: seq<Action>) {
    && |ss| == |acts| + 1
    && (forall i {:trigger acts[i]} :: 0 <= i < |acts| ==> May(c, ss[i], acts[i]) && ss[i + 1] == Do(c, ss[i], acts[i]))
  }

  predicate IsSystemRun(c: Config, ss: seq<System>, acts: seq<Action>) {
    IsPath(c, ss, acts) && IsStart(ss[0])
  }

  /** What the device must stay awake for: scoped holders, delivered but unacknowledged wake-up events, wake-up
      events still to be delivered, and a failed chunk about to be written off. */
  function Needed(c: Config, s: System): int {
    |s.holders| + (CountWakeups(c.wake, s.p.h.delivered) - s.acked) + CountWakeups(c.wake, Undecided(s.p.q))
    + D.FailedChunk(c, s.p.q)
  }

  /** What the proxy holds references for: in addition, events that overflowed, whose references nothing but a
      timeout gives back. */
  function Outstanding(c: Config, s: System): int {
    Needed(c, s) + s.overflowed
  }

  /** The count is exact, and the framework has acknowledged no more than it was given. */
  predicate Balanced(c: Config, s: System) {
    s.lock.refCount == Outstanding(c, s) && s.acked <= CountWakeups(c.wake, s.p.h.delivered)
  }

  predicate SystemInv(c: Config, s: System) {
    && Inv(c, s.p)
    && s.lock.running && W.Agrees(s.lock)
    && s.lock.resetTime <= s.clock
    && (forall t :: t in s.holders ==> s.lock.resetTime <= t)
    && Balanced(c, s)
  }

  /** An action that takes and gives back the right number of references: posts with wake-up events are locked,
      the framework acknowledges only what it was given, and a failed write of the last chunk of a batch finds
      the recorded wake-ups still in it. */
  predicate Faithful(c: Config, s: System, a: Action)
    requires May(c, s, a)
  {
    match a
    case PostBatch(post, locked, _) => post.wakeups > 0 ==> locked
    case Acknowledge(count) => s.acked + count <= CountWakeups(c.wake, s.p.h.delivered)
    case WriterMoves(step) =>
      step.WriteOff? ==>
        var front := s.p.q.pending[0];
        |front.events| > c.capacity || front.wakeups == CountWakeups(c.wake, front.events)
    case Timeout(_) => false
    case _ => true
  }

  /** A timeout does no harm either if nothing needs the device awake, and a write-off of too much if the failed
      chunk is all there are references for. */
  predicate Harmless(c: Config, s: System, a: Action)
    requires May(c, s, a)
  {
    || Faithful(c, s, a)
    || (a.Timeout? && Needed(c, s) == 0)
    || (a == WriterMoves(WriteOff) && Outstanding(c, s) == D.FailedChunk(c, s.p.q))
  }

  // ---- Each action keeps the balance ----

  lemma {:induction false} TakeHolderAction(c: Config, s: System, now: int)
    requires SystemInv(c, s) && May(c, s, TakeHolder(now))
    ensures SystemInv(c, Do(c, s, TakeHolder(now)))
  {
    W.AgreementStep(s.lock, W.Inc(1, now));
  }

  lemma {:induction false} ReturnHolderAction(c: Config, s: System, start: int)
    requires SystemInv(c, s) && May(c, s, ReturnHolder(start))
    ensures SystemInv(c, Do(c, s, ReturnHolder(start)))
  {
    W.AgreementStep(s.lock, W.Dec(1, start));
  }

  lemma {:induction false} AcknowledgeAction(c: Config, s: System, count: nat)
    requires SystemInv(c, s)
    ensures var s' := Do(c, s, Acknowledge(count));
            if Faithful(c, s, Acknowledge(count)) then SystemInv(c, s') else !Balanced(c, s')
  {
    W.AgreementStep(s.lock, W.Dec(count, W.NO_START));
  }

  lemma {:induction false} TimeoutAction(c: Config, s: System, now: int)
    requires SystemInv(c, s) && May(c, s, Timeout(now))
    ensures var s' := Do(c, s, Timeout(now));
            if Needed(c, s) == 0 then SystemInv(c, s') else !Balanced(c, s')
  {
    W.AgreementStep(s.lock, W.ResetAt(now));
    if Needed(c, s) == 0 {
      assert |s.holders| == 0;
    }
  }

  /** The wake-up events of a post are delivered, kept undecided or overflow, each of them once. */
  lemma {:induction false} PostConservesWakeups(c: Config, p: State, post: Step, p': State)
    requires c.capacity >= 1 && Inv(c, p) && Next(c, p, post, p') && post.Post?
    ensures CountWakeups(c.wake, p'.h.delivered) + CountWakeups(c.wake, Undecided(p'.q)) + Overflow(c, p, post) ==
            CountWakeups(c.wake, p.h.delivered) + CountWakeups(c.wake, Undecided(p.q)) + post.wakeups
    ensures CountWakeups(c.wake, p.h.delivered) <= CountWakeups(c.wake, p'.h.delivered)
  {
    var n := DirectCount(p.q, |post.events|, post.available, post.writeOk);
    var left := post.events[n..];
    PostKeepsQueueInv(c, p, post.events, post.wakeups, post.available, post.writeOk);
    CountWakeupsSplit(c.wake, post.events, n);
    CountWakeupsConcat(c.wake, p.h.delivered, post.events[..n]);
    if D.Drops(c, p, post) {
      assert Undecided(p'.q) == Undecided(p.q);
    } else {
      assert Undecided(p'.q) == Undecided(p.q) + left;
      CountWakeupsConcat(c.wake, Undecided(p.q), left);
    }
  }

  lemma {:induction false} PostBalance(c: Config, s: System, a: Action)
    requires c.capacity >= 1 && SystemInv(c, s) && May(c, s, a) && a.PostBatch?
    ensures Inv(c, Do(c, s, a).p)
    ensures Outstanding(c, Do(c, s, a)) == Outstanding(c, s) + a.post.wakeups
    ensures Do(c, s, a).acked <= CountWakeups(c.wake, Do(c, s, a).p.h.delivered)
  {
    var p' := After(c, s.p, a.post);
    StepKeepsInv(c, s.p, a.post, p');
    PostConservesWakeups(c, s.p, a.post, p');
    D.PostKeepsFailedChunk(c, s.p, a.post, p');
  }

  lemma {:induction false} PostAction(c: Config, s: System, a: Action)
    requires c.capacity >= 1 && SystemInv(c, s) && May(c, s, a) && a.PostBatch?
    ensures if Faithful(c, s, a) then SystemInv(c, Do(c, s, a)) else !Balanced(c, Do(c, s, a))
  {
    PostBalance(c, s, a);
    if a.locked {
      assert |s.holders| > 0;
      W.AgreementStep(s.lock, W.Inc(a.post.wakeups, a.now));
    }
  }

  lemma {:induction false} ChunkLeavesUndecided(c: Config, p: State, ok: bool)
    requires Inv(c, p) && p.q.writer.Writing?
    ensures Defined(p, WriteReturn(ok))
    ensures var p' := AfterWriteReturn(c, p, ok);
            var chunk := p.q.pending[0].events[..p.q.writer.count];
            && Undecided(p.q) == chunk + Undecided(p'.q)
            && p'.h.delivered == p.h.delivered + (if ok then chunk else [])
            && D.FailedChunk(c, p'.q) == if ok then 0 else CountWakeups(c.wake, chunk)
  {
    AlwaysDefined(c, p, WriteReturn(ok));
    var all, n := Flatten(p.q.pending), p.q.writer.count;
    FrontOfFlatten(p.q.pending, n);
    assert all == all[..n] + all[n..];
    assert p.h.delivered + [] == p.h.delivered;
  }

  // A returning write moves its chunk's wake-ups from undecided to delivered, or to the failed chunk.
  lemma {:induction false} WriteReturnConservesWakeups(c: Config, p: State, ok: bool)
    requires Inv(c, p) && p.q.writer.Writing? && Defined(p, WriteReturn(ok))
    ensures var p' := AfterWriteReturn(c, p, ok);
            && CountWakeups(c.wake, p'.h.delivered) + CountWakeups(c.wake, Undecided(p'.q)) + D.FailedChunk(c, p'.q) ==
               CountWakeups(c.wake, p.h.delivered) + CountWakeups(c.wake, Undecided(p.q))
            && CountWakeups(c.wake, p.h.delivered) <= CountWakeups(c.wake, p'.h.delivered)
  {
    ChunkLeavesUndecided(c, p, ok);
    var chunk := p.q.pending[0].events[..p.q.writer.count];
    var p' := AfterWriteReturn(c, p, ok);
    CountWakeupsConcat(c.wake, chunk, Undecided(p'.q));
    CountWakeupsConcat(c.wake, p.h.delivered, if ok then chunk else []);
  }

  // The writer's moves other than the write-off change no reference and no balance.
  lemma {:induction false} WriterBalance(c: Config, s: System, step: Step)
    requires c.capacity >= 1 && SystemInv(c, s) && May(c, s, WriterMoves(step)) && !step.WriteOff?
    ensures Inv(c, After(c, s.p, step))
    ensures Outstanding(c, Do(c, s, WriterMoves(step))) == Outstanding(c, s)
    ensures CountWakeups(c.wake, s.p.h.delivered) <= CountWakeups(c.wake, After(c, s.p, step).h.delivered)
  {
    var p, p' := s.p, After(c, s.p, step);
    StepKeepsInv(c, p, step, p');
    match step
    case Choose => assert Undecided(p'.q) == Undecided(p.q);
    case Finish => FinishKeepsInv(c, p);
    case WriteReturn(ok) => WriteReturnConservesWakeups(c, p, ok);
  }

  lemma {:induction false} WriterAction(c: Config, s: System, step: Step)
    requires c.capacity >= 1 && SystemInv(c, s) && May(c, s, WriterMoves(step)) && !step.WriteOff?
    ensures SystemInv(c, Do(c, s, WriterMoves(step)))
  {
    WriterBalance(c, s, step);
  }

  // A write-off settles the failed chunk and gives back at least that; exactly that if it is faithful.
  lemma {:induction false} WriteOffBalance(c: Config, s: System)
    requires c.capacity >= 1 && SystemInv(c, s) && May(c, s, WriterMoves(WriteOff))
    ensures var s', failed := Do(c, s, WriterMoves(WriteOff)), D.FailedChunk(c, s.p.q);
            && Inv(c, s'.p) && s'.p.h == s.p.h && s'.holders == s.holders && s'.acked == s.acked
            && 0 <= Outstanding(c, s') == Outstanding(c, s) - failed
            && failed <= Amount(c, s.p)
            && (Amount(c, s.p) == failed <==> Faithful(c, s, WriterMoves(WriteOff)))
  {
    StepKeepsInv(c, s.p, WriteOff, After(c, s.p, WriteOff));
    D.WriteOffCoversChunk(c, s.p);
    assert Undecided(After(c, s.p, WriteOff).q) == Undecided(s.p.q);
  }

  lemma {:induction false} WriteOffAction(c: Config, s: System)
    requires c.capacity >= 1 && SystemInv(c, s) && May(c, s, WriterMoves(WriteOff))
    ensures var s' := Do(c, s, WriterMoves(WriteOff));
            if Harmless(c, s, WriterMoves(WriteOff)) then SystemInv(c, s') else !Balanced(c, s')
  {
    WriteOffBalance(c, s);
    W.AgreementStep(s.lock, W.Dec(Amount(c, s.p), W.NO_START));
  }

  /** A write-off releases the wakelock while something still needs the device awake exactly when the failed chunk
      is not all that needs it, and the write-off gives back all the references there are. */
  lemma {:induction false} WriteOffReleasesEarlyIff(c: Config, s: System)
    requires c.capacity >= 1 && SystemInv(c, s) && May(c, s, WriterMoves(WriteOff))
    ensures var s' := Do(c, s, WriterMoves(WriteOff));
            !W.Held(s'.lock) && Needed(c, s') > 0 <==>
              D.FailedChunk(c, s.p.q) < Needed(c, s) && Outstanding(c, s) <= Amount(c, s.p)
  {
    WriteOffBalance(c, s);
    W.AgreementStep(s.lock, W.Dec(Amount(c, s.p), W.NO_START));
  }

  /** From a balanced state, exactly the harmless actions lead to a balanced state again. */
  lemma {:induction false} BalancedIffHarmless(c: Config, s: System, a: Action)
    requires c.capacity >= 1 && SystemInv(c, s) && May(c, s, a)
    ensures Harmless(c, s, a) ==> SystemInv(c, Do(c, s, a))
    ensures Balanced(c, Do(c, s, a)) <==> Harmless(c, s, a)
  {
    match a
    case TakeHolder(now) => TakeHolderAction(c, s, now);
    case ReturnHolder(start) => ReturnHolderAction(c, s, start);
    case PostBatch(_, _, _) => PostAction(c, s, a);
    case Acknowledge(count) => AcknowledgeAction(c, s, count);
    case Timeout(now) => TimeoutAction(c, s, now);
    case WriterMoves(step) =>
      if step.WriteOff? {
        WriteOffAction(c, s);
      } else {
        WriterAction(c, s, step);
      }
  }

  // ---- Whole runs ----

  predicate HarmlessBefore(c: Config, ss: seq<System>, acts: seq<Action>, n: nat)
    requires IsPath(c, ss, acts) && n <= |acts|
  {
    forall j {:trigger acts[j]} :: 0 <= j < n ==> Harmless(c, ss[j], acts[j])
  }

  predicate BalancedUpTo(c: Config, ss: seq<System>, n: nat)
    requires n < |ss|
  {
    forall j {:trigger Balanced(c, ss[j])} :: 0 <= j <= n ==> Balanced(c, ss[j])
  }

  lemma {:induction false} PathStep(c: Config, ss: seq<System>, acts: seq<Action>, i: nat)
    requires IsPath(c, ss, acts) && 0 < i < |ss|
    ensures May(c, ss[i - 1], acts[i - 1]) && ss[i] == Do(c, ss[i - 1], acts[i - 1])
  {
  }

  lemma {:induction false} PathStepBalancedIff(c: Config, ss: seq<System>, acts: seq<Action>, i: nat)
    requires c.capacity >= 1 && IsPath(c, ss, acts) && 0 < i < |ss| && SystemInv(c, ss[i - 1])
    ensures May(c, ss[i - 1], acts[i - 1])
    ensures Harmless(c, ss[i - 1], acts[i - 1]) ==> SystemInv(c, ss[i])
    ensures Balanced(c, ss[i]) <==> Harmless(c, ss[i - 1], acts[i - 1])
  {
    PathStep(c, ss, acts, i);
    BalancedIffHarmless(c, ss[i - 1], acts[i - 1]);
  }

  lemma {:induction false} HarmlessStepKeepsInv(c: Config, ss: seq<System>, acts: seq<Action>, n: nat, i: nat)
    requires c.capacity >= 1 && IsPath(c, ss, acts) && 0 < i <= n < |ss| && HarmlessBefore(c, ss, acts, n)
    requires SystemInv(c, ss[i - 1])
    ensures SystemInv(c, ss[i])
  {
    PathStepBalancedIff(c, ss, acts, i);
  }

  lemma {:induction false} HarmlessPathInv(c: Config, ss: seq<System>, acts: seq<Action>, n: nat, i: nat)
    requires c.capacity >= 1 && IsPath(c, ss, acts) && i <= n < |ss| && HarmlessBefore(c, ss, acts, n)
    requires SystemInv(c, ss[0])
    ensures SystemInv(c, ss[i])
  {
    var k := 0;
    while k != i
      invariant k <= i && SystemInv(c, ss[k])
    {
      k := k + 1;
      HarmlessStepKeepsInv(c, ss, acts, n, k);
    }
  }

  lemma {:induction false} BalancedStepKeepsInv(c: Config, ss: seq<System>, acts: seq<Action>, n: nat, i: nat)
    requires c.capacity >= 1 && IsPath(c, ss, acts) && 0 < i <= n < |ss| && BalancedUpTo(c, ss, n)
    requires SystemInv(c, ss[i - 1])
    ensures SystemInv(c, ss[i]) && Harmless(c, ss[i - 1], acts[i - 1])
  {
    assert Balanced(c, ss[i]);
    PathStepBalancedIff(c, ss, acts, i);
  }

  lemma {:induction false} BalancedPathInv(c: Config, ss: seq<System>, acts: seq<Action>, n: nat, i: nat)
    requires c.capacity >= 1 && IsPath(c, ss, acts) && i <= n < |ss| && BalancedUpTo(c, ss, n)
    requires SystemInv(c, ss[0])
    ensures SystemInv(c, ss[i])
  {
    var k := 0;
    while k != i
      invariant k <= i && SystemInv(c, ss[k])
    {
      k := k + 1;
      BalancedStepKeepsInv(c, ss, acts, n, k);
    }
  }

  lemma {:induction false} BalancedUntilHarmOnPath(c: Config, ss: seq<System>, acts: seq<Action>, n: nat)
    requires c.capacity >= 1 && IsPath(c, ss, acts) && n < |ss| && SystemInv(c, ss[0])
    ensures BalancedUpTo(c, ss, n) <==> HarmlessBefore(c, ss, acts, n)
  {
    if HarmlessBefore(c, ss, acts, n) {
      forall j | 0 <= j <= n
        ensures Balanced(c, ss[j])
      {
        HarmlessPathInv(c, ss, acts, n, j);
      }
    } else if BalancedUpTo(c, ss, n) {
      forall j | 0 <= j < n
        ensures Harmless(c, ss[j], acts[j])
      {
        BalancedPathInv(c, ss, acts, n, j);
        BalancedStepKeepsInv(c, ss, acts, n, j + 1);
      }
    }
  }

  lemma {:induction false} LockAtStart(s: System)
    requires IsStart(s)
    ensures W.Agrees(s.lock)
  {
  }

  lemma {:induction false} NothingAtStart(c: Config, s: System)
    requires IsStart(s)
    ensures Balanced(c, s)
  {
    assert Undecided(s.p.q) == [];
  }

  lemma {:induction false} StartIsBalanced(c: Config, s: System)
    requires IsStart(s)
    ensures SystemInv(c, s)
  {
    InitKeepsInv(c);
    LockAtStart(s);
    NothingAtStart(c, s);
  }

  lemma {:induction false} SystemRunInv(c: Config, ss: seq<System>, acts: seq<Action>, i: nat)
    requires c.capacity >= 1 && IsSystemRun(c, ss, acts) && i < |ss| && HarmlessBefore(c, ss, acts, i)
    ensures SystemInv(c, ss[i])
  {
    StartIsBalanced(c, ss[0]);
    HarmlessPathInv(c, ss, acts, i, i);
  }

  /** Over any run, timeouts and failed writes included, the balance holds in every state so far exactly if every
      action so far was harmless: it first breaks at the first harmful action. */
  lemma {:induction false} BalancedUntilHarm(c: Config, ss: seq<System>, acts: seq<Action>, n: nat)
    requires c.capacity >= 1 && IsSystemRun(c, ss, acts) && n < |ss|
    ensures BalancedUpTo(c, ss, n) <==> HarmlessBefore(c, ss, acts, n)
  {
    StartIsBalanced(c, ss[0]);
    BalancedUntilHarmOnPath(c, ss, acts, n);
  }

  // The clock and the reset time never go back, and the reset time is never ahead.
  lemma {:induction false} TimesAdvance(c: Config, s: System, a: Action)
    requires May(c, s, a) && s.lock.resetTime <= s.clock
    ensures var s' := Do(c, s, a);
            && s.lock.resetTime <= s'.lock.resetTime <= s'.clock
            && (a.Timeout? ==> s'.lock.resetTime == a.now)
  {
  }

  lemma {:induction false} ResetIsPast(c: Config, ss: seq<System>, acts: seq<Action>, i: nat)
    requires IsSystemRun(c, ss, acts) && i < |ss|
    ensures ss[i].lock.resetTime <= ss[i].clock
  {
    if i != 0 {
      ResetIsPast(c, ss, acts, i - 1);
      PathStep(c, ss, acts, i);
      TimesAdvance(c, ss[i - 1], acts[i - 1]);
    }
  }

  lemma {:induction false} ResetStaysLater(c: Config, ss: seq<System>, acts: seq<Action>, j: nat, i: nat)
    requires IsSystemRun(c, ss, acts) && j < i < |ss| && acts[j].Timeout?
    ensures acts[j].now <= ss[i].lock.resetTime
  {
    ResetIsPast(c, ss, acts, i - 1);
    PathStep(c, ss, acts, i);
    TimesAdvance(c, ss[i - 1], acts[i - 1]);
    if j < i - 1 {
      ResetStaysLater(c, ss, acts, j, i - 1);
    }
  }

  /** Over any run, a holder from before a timeout gives nothing back when it returns after it. */
  lemma {:induction false} TimedOutHolderReturnsNothing(c: Config, ss: seq<System>, acts: seq<Action>, j: nat, i: nat)
    requires IsSystemRun(c, ss, acts) && j < i < |acts|
    requires acts[j].Timeout? && acts[i].ReturnHolder? && 0 <= acts[i].start < acts[j].now
    ensures ss[i + 1].lock == ss[i].lock
  {
    ResetStaysLater(c, ss, acts, j, i);
    PathStep(c, ss, acts, i + 1);
  }

  /** Until then the count is exactly what is outstanding, and the OS wakelock is held iff something is. */
  lemma {:induction false} HeldIffOutstanding(c: Config, ss: seq<System>, acts: seq<Action>, i: nat)
    requires c.capacity >= 1 && IsSystemRun(c, ss, acts) && i < |ss| && HarmlessBefore(c, ss, acts, i)
    ensures ss[i].lock.refCount == Outstanding(c, ss[i])
    ensures W.Held(ss[i].lock) <==> Outstanding(c, ss[i]) > 0
  {
    SystemRunInv(c, ss, acts, i);
  }

  /** So the device stays awake while a wake-up event is queued, or delivered and not acknowledged. */
  lemma {:induction false} AwakeForWakeups(c: Config, ss: seq<System>, acts: seq<Action>, i: nat)
    requires c.capacity >= 1 && IsSystemRun(c, ss, acts) && i < |ss| && HarmlessBefore(c, ss, acts, i)
    requires CountWakeups(c.wake, Undecided(ss[i].p.q)) > 0 || ss[i].acked < CountWakeups(c.wake, ss[i].p.h.delivered)
    ensures W.Held(ss[i].lock)
  {
    SystemRunInv(c, ss, acts, i);
  }

  /** The wake-up events of posts whose leftover did not fit, since the last timeout before the i-th state. */
  function OverflowSinceTimeout(c: Config, ss: seq<System>, acts: seq<Action>, i: nat): nat
    requires IsPath(c, ss, acts) && i <= |acts|
  {
    if i == 0 then 0
    else
      match acts[i - 1]
      case Timeout(_) => 0
      case PostBatch(post, _, _) => OverflowSinceTimeout(c, ss, acts, i - 1) + Overflow(c, ss[i - 1].p, post)
      case _ => OverflowSinceTimeout(c, ss, acts, i - 1)
  }

  lemma {:induction false} OverflowedSinceTimeout(c: Config, ss: seq<System>, acts: seq<Action>, i: nat)
    requires IsPath(c, ss, acts) && i <= |acts| && ss[0].overflowed == 0
    ensures ss[i].overflowed == OverflowSinceTimeout(c, ss, acts, i)
  {
    if i != 0 {
      OverflowedSinceTimeout(c, ss, acts, i - 1);
      PathStep(c, ss, acts, i);
    }
  }

  /** It stays awake only as long as needed exactly if no wake-up event has overflowed since the last timeout, or
      something else needs it anyway. */
  lemma {:induction false} AwakeOnlyIfNeededIff(c: Config, ss: seq<System>, acts: seq<Action>, i: nat)
    requires c.capacity >= 1 && IsSystemRun(c, ss, acts) && i < |ss| && HarmlessBefore(c, ss, acts, i)
    ensures 0 <= Needed(c, ss[i])
    ensures (W.Held(ss[i].lock) <==> Needed(c, ss[i]) > 0) <==>
              OverflowSinceTimeout(c, ss, acts, i) == 0 || Needed(c, ss[i]) > 0
  {
    SystemRunInv(c, ss, acts, i);
    OverflowedSinceTimeout(c, ss, acts, i);
  }

  // ---- The OS wakelock and the count ----

  /** A locked post without wake-up events, at a count of zero. */
  predicate IsEmptyPostAtZero(s: System, a: Action) {
    a.PostBatch? && a.locked && a.post.Post? && a.post.wakeups == 0 && s.lock.refCount == 0
  }

  /** Whatever the balance, one action keeps "held iff the count is positive" exactly unless it is such a post. */
  lemma {:induction false} AgreesUnlessEmptyPost(c: Config, s: System, a: Action)
    requires s.lock.running && W.Agrees(s.lock) && May(c, s, a)
    ensures Do(c, s, a).lock.running
    ensures W.Agrees(Do(c, s, a).lock) <==> !IsEmptyPostAtZero(s, a)
  {
    match a
    case TakeHolder(now) => W.AgreementStep(s.lock, W.Inc(1, now));
    case ReturnHolder(start) => W.AgreementStep(s.lock, W.Dec(1, start));
    case PostBatch(post, _, now) => W.AgreementStep(s.lock, W.Inc(post.wakeups, now));
    case WriterMoves(step) =>
      if step.WriteOff? {
        W.AgreementStep(s.lock, W.Dec(Amount(c, s.p), W.NO_START));
      }
    case Acknowledge(count) => W.AgreementStep(s.lock, W.Dec(count, W.NO_START));
    case Timeout(now) => W.AgreementStep(s.lock, W.ResetAt(now));
  }

  predicate AgreesUpTo(ss: seq<System>, n: nat)
    requires n < |ss|
  {
    forall j {:trigger W.Agrees(ss[j].lock)} :: 0 <= j <= n ==> W.Agrees(ss[j].lock)
  }

  predicate NoEmptyPostBefore(ss: seq<System>, acts: seq<Action>, n: nat)
    requires n <= |acts| < |ss|
  {
    forall j {:trigger acts[j]} :: 0 <= j < n ==> !IsEmptyPostAtZero(ss[j], acts[j])
  }

  lemma {:induction false} StaysRunning(c: Config, ss: seq<System>, acts: seq<Action>, i: nat)
    requires IsSystemRun(c, ss, acts) && i < |ss|
    ensures ss[i].lock.running
  {
    if i != 0 {
      StaysRunning(c, ss, acts, i - 1);
      PathStep(c, ss, acts, i);
    }
  }

  lemma {:induction false} PathStepAgreesIff(c: Config, ss: seq<System>, acts: seq<Action>, i: nat)
    requires IsSystemRun(c, ss, acts) && 0 < i < |ss| && W.Agrees(ss[i - 1].lock)
    ensures W.Agrees(ss[i].lock) <==> !IsEmptyPostAtZero(ss[i - 1], acts[i - 1])
  {
    StaysRunning(c, ss, acts, i - 1);
    PathStep(c, ss, acts, i);
    AgreesUnlessEmptyPost(c, ss[i - 1], acts[i - 1]);
  }

  lemma {:induction false} AgreesWithoutEmptyPost(c: Config, ss: seq<System>, acts: seq<Action>, n: nat, i: nat)
    requires IsSystemRun(c, ss, acts) && i <= n < |ss| && NoEmptyPostBefore(ss, acts, n)
    ensures W.Agrees(ss[i].lock)
  {
    LockAtStart(ss[0]);
    var k := 0;
    while k != i
      invariant k <= i && W.Agrees(ss[k].lock)
    {
      k := k + 1;
      PathStepAgreesIff(c, ss, acts, k);
    }
  }

  /** Over any run, harmful actions included, the OS wakelock is held iff the count is positive, in every state so
      far, exactly if there was no locked post without wake-up events at a count of zero. */
  lemma {:induction false} AgreesUntilEmptyPost(c: Config, ss: seq<System>, acts: seq<Action>, n: nat)
    requires IsSystemRun(c, ss, acts) && n < |ss|
    ensures AgreesUpTo(ss, n) <==> NoEmptyPostBefore(ss, acts, n)
  {
    if NoEmptyPostBefore(ss, acts, n) {
      forall j | 0 <= j <= n
        ensures W.Agrees(ss[j].lock)
      {
        AgreesWithoutEmptyPost(c, ss, acts, n, j);
      }
    } else if AgreesUpTo(ss, n) {
      forall j | 0 <= j < n
        ensures !IsEmptyPostAtZero(ss[j], acts[j])
      {
        PathStepAgreesIff(c, ss, acts, j + 1);
      }
    }
  }

  /** At a count of zero no acknowledgement, write-off, timeout or return calls the OS: a wakelock that is held
      then stays held until a new reference is taken. */
  lemma {:induction false} OnlyNewReferencesMoveZero(c: Config, s: System, a: Action)
    requires s.lock.refCount == 0 && May(c, s, a)
    requires !a.TakeHolder? && !(a.PostBatch? && a.locked)
    ensures Do(c, s, a).lock.calls == s.lock.calls && Do(c, s, a).lock.refCount == 0
  {
  }

  // ---- The proxy's objects ----

  lemma {:induction false} PostParts(c: Config, s: System, post: Step, locked: bool, now: int)
    requires May(c, s, PostBatch(post, locked, now))
    ensures post.wakeups == CountWakeups(c.wake, post.events)
    ensures Do(c, s, PostBatch(post, locked, now)) ==
            System(AfterPost(c, s.p, post.events, post.wakeups, post.available, post.writeOk),
                   if locked then W.Increment(s.lock, post.wakeups, now) else s.lock,
                   now, s.holders, s.acked, s.overflowed + Overflow(c, s.p, post))
  {
  }

  class HalProxy {
    const queue: EventQueue.EventQueue
    const wakelock: W.SharedWakelock
    ghost var clock: int
    ghost var holders: multiset<int>
    ghost var acked: nat
    ghost var overflowed: nat

    ghost function Contents(): System
      reads this, queue, wakelock
    {
      System(queue.Contents(), wakelock.Contents(), clock, holders, acked, overflowed)
    }

    constructor (config: Config, now: int)
      requires config.capacity >= 1
      ensures fresh(queue) && fresh(wakelock) && queue.Valid() && queue.config == config
      ensures IsStart(Contents())
    {
      queue := new EventQueue.EventQueue(config);
      wakelock := new W.SharedWakelock(now);
      clock, holders, acked, overflowed := now, multiset{}, 0, 0;
    }

    /** A scoped wakelock is created locked. */
    method CreateScopedWakelock(now: int) returns (start: int)
      requires clock <= now && wakelock.threadsRun
      modifies this, wakelock
      ensures Contents() == Do(queue.config, old(Contents()), TakeHolder(now)) && start == now
    {
      var ok;
      ok, start := wakelock.IncrementRefCountAndMaybeAcquireWakelock(1, now);
      clock, holders := now, holders + multiset{now};
    }

    method ReleaseScopedWakelock(start: int)
      requires start in holders
      modifies this, wakelock
      ensures Contents() == Do(queue.config, old(Contents()), ReturnHolder(start))
    {
      wakelock.DecrementRefCountAndMaybeReleaseWakelock(1, start);
      holders := holders - multiset{start};
    }

    method PostEventsToMessageQueue(events: seq<Event>, wakeups: nat, locked: bool, available: nat, writeOk: bool,
                                    now: int)
      requires queue.Valid()
      requires May(queue.config, Contents(), PostBatch(Post(events, wakeups, available, writeOk), locked, now))
      modifies this, queue, wakelock
      ensures queue.Valid()
      ensures Contents() ==
              Do(queue.config, old(Contents()), PostBatch(Post(events, wakeups, available, writeOk), locked, now))
    {
      ghost var s, c, post := Contents(), queue.config, Post(events, wakeups, available, writeOk);
      PostParts(c, s, post, locked, now);
      ghost var extra := Overflow(c, s.p, post);
      CountPostReferences(wakeups, locked, now);
      assert queue.Contents() == s.p;
      queue.PostEventsToMessageQueue(events, wakeups, available, writeOk);
      clock, overflowed := now, overflowed + extra;
    }

    // A locked post takes its references before it looks at the queue.
    method CountPostReferences(wakeups: nat, locked: bool, now: int)
      modifies wakelock
      ensures wakelock.Contents() ==
              if locked then W.Increment(old(wakelock.Contents()), wakeups, now) else old(wakelock.Contents())
    {
      if locked {
        var ok, start := wakelock.IncrementRefCountAndMaybeAcquireWakelock(wakeups, now);
      }
    }

    /** The writer thread, still unlocked, gives back the references of a failed chunk. */
    method WriteOffFailedChunk()
      requires queue.Valid() && queue.writer.WriteFailed?
      modifies queue, wakelock
      ensures old(May(queue.config, Contents(), WriterMoves(WriteOff)))
      ensures queue.Valid() && Contents() == Do(queue.config, old(Contents()), WriterMoves(WriteOff))
    {
      AlwaysDefined(queue.config, queue.Contents(), WriteOff);
      var amount := queue.WriteOff();
      if amount > 0 {
        wakelock.DecrementRefCountAndMaybeReleaseWakelock(amount, W.NO_START);
      }
    }
  }
}
