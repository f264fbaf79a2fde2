/** The shared wakelock: a saturating reference count over one named OS wakelock, with a reset time that makes
    older holders stale. */
module Wakelock {
  import opened SensorTypes

  datatype Call = Acquire | Release

  /** calls is the sequence of acquire and release calls made to the OS, which keeps one lock by name. */
  datatype Lock = Lock(refCount: nat, timeoutStart: int, resetTime: int, running: bool, calls: seq<Call>)

  predicate Held(l: Lock) {
    l.calls != [] && l.calls[|l.calls| - 1] == Acquire
  }

  // The default argument of a decrement: treat the caller as a current holder.
  const NO_START: int := -1

  function Increment(l: Lock, delta: nat, now: int): Lock {
    if !l.running then l
    else
      l.(refCount := l.refCount + delta,
         timeoutStart := now,
         calls := if l.refCount == 0 then l.calls + [Acquire] else l.calls)
  }

  predicate IsStale(l: Lock, start: int) {
    start != NO_START && start < l.resetTime
  }

  function Decrement(l: Lock, delta: nat, start: int): Lock {
    if !l.running || l.refCount == 0 || IsStale(l, start) then l
    else
      var left := l.refCount - Min(l.refCount, delta);
      l.(refCount := left, calls := if left == 0 then l.calls + [Release] else l.calls)
  }

  function Reset(l: Lock, now: int): Lock {
    Decrement(l, l.refCount, NO_START).(resetTime := now)
  }

  predicate DidTimeout(l: Lock, now: int, limit: int) {
    now - l.timeoutStart > limit
  }

  class SharedWakelock {
    var refCount: nat
    var timeoutStartTime: int
    var timeoutResetTime: int
    var threadsRun: bool
    ghost var calls: seq<Call>

    ghost function Contents(): Lock
      reads this
    {
      Lock(refCount, timeoutStartTime, timeoutResetTime, threadsRun, calls)
    }

    constructor (now: int)
      ensures Contents() == Lock(0, now, now, true, [])
    {
      refCount, timeoutStartTime, timeoutResetTime, threadsRun := 0, now, now, true;
      calls := [];
    }

    method IncrementRefCountAndMaybeAcquireWakelock(delta: nat, now: int) returns (ok: bool, timeoutStart: int)
      modifies this
      ensures Contents() == Increment(old(Contents()), delta, now)
      ensures ok == threadsRun && (ok ==> timeoutStart == timeoutStartTime == now)
    {
      ok, timeoutStart := false, NO_START;
      if threadsRun {
        if refCount == 0 {
          calls := calls + [Acquire];
        }
        timeoutStartTime := now;
        refCount := refCount + delta;
        ok, timeoutStart := true, timeoutStartTime;
      }
    }

    method DecrementRefCountAndMaybeReleaseWakelock(delta: nat, start: int)
      modifies this
      ensures Contents() == Decrement(old(Contents()), delta, start)
    {
      if !threadsRun {
        return;
      }
      var timeoutStart := start;
      if timeoutStart == NO_START {
        timeoutStart := timeoutResetTime;
      }
      if refCount == 0 || timeoutStart < timeoutResetTime {
        return;
      }
      refCount := refCount - Min(refCount, delta);
      if refCount == 0 {
        calls := calls + [Release];
      }
    }

    method ResetSharedWakelock(now: int)
      modifies this
      ensures Contents() == Reset(old(Contents()), now)
    {
      DecrementRefCountAndMaybeReleaseWakelock(refCount, NO_START);
      timeoutResetTime := now;
    }

    method SharedWakelockDidTimeout(now: int, limit: int) returns (didTimeout: bool, timeLeft: int)
      ensures didTimeout <==> DidTimeout(Contents(), now, limit)
      ensures !didTimeout ==> 0 <= timeLeft == limit - (now - timeoutStartTime)
    {
      var duration := now - timeoutStartTime;
      didTimeout, timeLeft := duration > limit, 0;
      if !didTimeout {
        timeLeft := limit - duration;
      }
    }

    /** The wakelock thread's locked part before its blocking read: on a timeout everything is written off (the
        reset reads the clock again), otherwise it goes on to read for the time left. */
    method CheckTimeout(now: int, at: int, limit: int) returns (mayRead: bool, timeLeft: int)
      requires threadsRun && refCount > 0
      modifies this
      ensures mayRead <==> !DidTimeout(old(Contents()), now, limit)
      ensures mayRead ==> Contents() == old(Contents()) && timeLeft == limit - (now - timeoutStartTime)
      ensures !mayRead ==> Contents() == Reset(old(Contents()), at) && refCount == 0
    {
      var didTimeout;
      didTimeout, timeLeft := SharedWakelockDidTimeout(now, limit);
      if didTimeout {
        ResetSharedWakelock(at);
      }
      mayRead := !didTimeout;
    }

    /** Its locked part after the read: what the framework has processed is given back. */
    method FinishRead(read: Option<nat>)
      modifies this
      ensures Contents() == if read.Some? then Decrement(old(Contents()), read.value, NO_START) else old(Contents())
    {
      match read
      case Some(numWakeLocksProcessed) =>
        DecrementRefCountAndMaybeReleaseWakelock(numWakeLocksProcessed, NO_START);
      case None =>
    }
  }

  // ---- The OS calls ----

  predicate Alternates(calls: seq<Call>) {
    forall i :: 0 <= i < |calls| ==> calls[i] == if i % 2 == 0 then Acquire else Release
  }

  /** The OS wakelock is held iff the count is positive, and calls alternate starting with an acquire. */
  predicate Agrees(l: Lock) {
    Alternates(l.calls) && (Held(l) <==> l.refCount > 0)
  }

  datatype Op =
    | Inc(delta: nat, now: int)
    | Dec(delta: nat, start: int)
    | ResetAt(now: int)
    | Stop
    | Start

  function Apply(l: Lock, op: Op): Lock {
    match op
    case Inc(delta, now) => Increment(l, delta, now)
    case Dec(delta, start) => Decrement(l, delta, start)
    case ResetAt(now) => Reset(l, now)
    case Stop => l.(running := false)
    case Start => l.(running := true)
  }

  function ApplyAll(l: Lock, ops: seq<Op>): Lock {
    if ops == [] then l else Apply(ApplyAll(l, ops[..|ops| - 1]), ops[|ops| - 1])
  }

  /** One operation keeps agreement exactly when it is not an increment by zero of a zero count: that one
      acquires the OS wakelock with nothing to release it. */
  lemma {:induction false} AgreementStep(l: Lock, op: Op)
    requires Agrees(l)
    ensures Agrees(Apply(l, op)) <==> !(op.Inc? && op.delta == 0 && l.refCount == 0 && l.running)
  {
    var l' := Apply(l, op);
    if op.Inc? && l.running && l.refCount == 0 {
      assert l'.calls[|l.calls|] == Acquire;
      assert Held(l');
    } else if l'.calls != l.calls {
      assert l'.calls == l.calls + [Release];
      assert l'.calls[|l.calls|] == Release;
    }
  }

  /** While every increment is by at least one, the OS wakelock is held iff the count is positive, and acquire
      and release calls strictly alternate, over any sequence of operations, stops and restarts included. */
  lemma {:induction false} AgreementAlways(l: Lock, ops: seq<Op>)
    requires Agrees(l)
    requires forall i :: 0 <= i < |ops| && ops[i].Inc? ==> ops[i].delta >= 1
    ensures Agrees(ApplyAll(l, ops))
  {
    if ops != [] {
      AgreementAlways(l, ops[..|ops| - 1]);
      AgreementStep(ApplyAll(l, ops[..|ops| - 1]), ops[|ops| - 1]);
    }
  }

  /** A reset empties the count exactly when the threads are running; those issued while they are stopped only
      move the reset time. */
  lemma {:induction false} ResetEmptiesIffRunning(l: Lock, now: int)
    ensures Reset(l, now).refCount == 0 <==> l.running || l.refCount == 0
    ensures !l.running ==> Reset(l, now) == l.(resetTime := now)
  {
  }

  /** While the threads are stopped no reference is taken or given back. */
  lemma {:induction false} StoppedThreadsCountNothing(l: Lock, delta: nat, time: int)
    requires !l.running
    ensures Increment(l, delta, time) == l == Decrement(l, delta, time)
  {
  }

  // ---- The reflected walk ----

  /** What an operation asks the count to change by: nothing for a stale decrement, all there is for a reset. */
  function Request(l: Lock, op: Op): int {
    match op
    case Inc(delta, _) => delta
    case Dec(delta, start) => if IsStale(l, start) then 0 else -(delta as int)
    case ResetAt(_) => -(l.refCount as int)
    case _ => 0
  }

  function Requests(l: Lock, ops: seq<Op>): seq<int> {
    if ops == [] then []
    else
      var before := ops[..|ops| - 1];
      Requests(l, before) + [Request(ApplyAll(l, before), ops[|ops| - 1])]
  }

  /** Where the unreflected walk from `start` stands after its first k steps. */
  function Position(start: int, xs: seq<int>, k: nat): int
    requires k <= |xs|
  {
    if k == 0 then start else Position(start, xs, k - 1) + xs[k - 1]
  }

  /** r is the final position minus the running minimum of the walk and zero: the least value that is at least
      the final position and at least every climb from an earlier position. */
  predicate IsReflected(r: int, start: int, xs: seq<int>) {
    var end := Position(start, xs, |xs|);
    && end <= r
    && (forall k :: 0 <= k <= |xs| ==> end - Position(start, xs, k) <= r)
    && (r == end || exists k :: 0 <= k <= |xs| && r == end - Position(start, xs, k))
  }

  lemma {:induction false} PositionOfPrefix(start: int, xs: seq<int>, x: int, k: nat)
    requires k <= |xs|
    ensures Position(start, xs + [x], k) == Position(start, xs, k)
  {
    if k > 0 {
      PositionOfPrefix(start, xs, x, k - 1);
    }
  }

  lemma {:induction false} ReflectionStep(r: int, start: int, xs: seq<int>, x: int)
    requires 0 <= r && IsReflected(r, start, xs)
    ensures IsReflected(if r + x < 0 then 0 else r + x, start, xs + [x])
  {
    var n := |xs|;
    var xs' := xs + [x];
    forall k | 0 <= k <= n
      ensures Position(start, xs', k) == Position(start, xs, k)
    {
      PositionOfPrefix(start, xs, x, k);
    }
    if r + x < 0 {
      assert 0 == Position(start, xs', n + 1) - Position(start, xs', n + 1);
    } else if r != Position(start, xs, n) {
      var k :| 0 <= k <= n && r == Position(start, xs, n) - Position(start, xs, k);
      assert r + x == Position(start, xs', n + 1) - Position(start, xs', k);
    }
  }

  // While threads run, one operation moves the count by its request, stopping at zero.
  lemma {:induction false} RequestStep(l: Lock, op: Op)
    requires l.running && op != Stop
    ensures Apply(l, op).running
    ensures Apply(l, op).refCount == if l.refCount + Request(l, op) < 0 then 0 else l.refCount + Request(l, op)
  {
  }

  /** While threads run, after any sequence of increments, decrements and resets the count is the running sum of
      the requests minus its running minimum. */
  lemma {:induction false} CountIsReflectedWalk(l: Lock, ops: seq<Op>)
    requires l.running && forall i :: 0 <= i < |ops| ==> ops[i] != Stop
    ensures ApplyAll(l, ops).running
    ensures IsReflected(ApplyAll(l, ops).refCount, l.refCount, Requests(l, ops))
  {
    if ops == [] {
      assert Position(l.refCount, [], 0) == l.refCount;
    } else {
      var n := |ops| - 1;
      CountIsReflectedWalk(l, ops[..n]);
      var before := ApplyAll(l, ops[..n]);
      RequestStep(before, ops[n]);
      ReflectionStep(before.refCount, l.refCount, Requests(l, ops[..n]), Request(before, ops[n]));
    }
  }

  // ---- Holders that outlive a reset ----

  /** Who holds references: scoped holders with the start time they were given, those of them that took their
      reference since the last reset, and the references taken by posts since the last reset and not yet given
      back by an acknowledgement or a write-off. */
  datatype Ledger = Ledger(lock: Lock, clock: int, holders: map<nat, int>, current: set<nat>, posted: nat)

  datatype Move =
    | Take(id: nat, now: int)
    | Return(id: nat)
    | PostRefs(count: nat, now: int)
    | Ack(count: nat)
    | TimeoutReset(now: int, at: int)

  /** The clock never goes back, but may read the same time again; a timeout reset needs a timeout. */
  predicate MayMove(g: Ledger, m: Move, limit: int) {
    match m
    case Take(id, now) => g.clock <= now && id !in g.holders
    case Return(id) => id in g.holders
    case PostRefs(_, now) => g.clock <= now
    case Ack(_) => true
    case TimeoutReset(now, at) => g.clock <= now <= at && DidTimeout(g.lock, now, limit)
  }

  function Moved(g: Ledger, m: Move): Ledger
    requires m.Return? ==> m.id in g.holders
  {
    match m
    case Take(id, now) =>
      g.(lock := Increment(g.lock, 1, now), clock := now, holders := g.holders[id := now], current := g.current + {id})
    case Return(id) =>
      g.(lock := Decrement(g.lock, 1, g.holders[id]), holders := g.holders - {id}, current := g.current - {id})
    case PostRefs(count, now) =>
      g.(lock := Increment(g.lock, count, now), clock := now, posted := g.posted + count)
    case Ack(count) =>
      g.(lock := Decrement(g.lock, count, NO_START), posted := g.posted - Min(g.posted, count))
    case TimeoutReset(_, at) =>
      g.(lock := Reset(g.lock, at), clock := at, current := {}, posted := 0)
  }

  predicate IsOpening(g: Ledger) {
    g.lock.running && g.lock.refCount == 0 && g.holders == map[] && g.current == {} && g.posted == 0 &&
    g.lock.resetTime <= g.clock && 0 <= g.clock
  }

  predicate IsLedgerRun(gs: seq<Ledger>, ms: seq<Move>, limit: int) {
    && |gs| == |ms| + 1
    && IsOpening(gs[0])
    && (forall i {:trigger ms[i]} :: 0 <= i < |ms| ==> MayMove(gs[i], ms[i], limit) && gs[i + 1] == Moved(gs[i], ms[i]))
  }

  predicate LedgerInv(g: Ledger) {
    && g.lock.running && g.lock.resetTime <= g.clock && 0 <= g.clock
    && g.current <= g.holders.Keys
    && (forall id :: id in g.holders ==> 0 <= g.holders[id] <= g.clock && g.holders[id] <= g.lock.timeoutStart)
    && (forall id :: id in g.holders ==>
          if id in g.current then g.lock.resetTime <= g.holders[id] else g.holders[id] <= g.lock.resetTime)
    && g.lock.refCount <= |g.current| + g.posted
  }

  lemma {:induction false} TakeKeepsInv(g: Ledger, m: Move, limit: int)
    requires LedgerInv(g) && MayMove(g, m, limit) && m.Take?
    ensures LedgerInv(Moved(g, m))
    ensures |Moved(g, m).current| == |g.current| + 1
  {
    assert m.id !in g.current;
  }

  lemma {:induction false} ReturnKeepsInv(g: Ledger, m: Move, limit: int)
    requires LedgerInv(g) && MayMove(g, m, limit) && m.Return?
    ensures LedgerInv(Moved(g, m))
    ensures |Moved(g, m).current| == |g.current| - if m.id in g.current then 1 else 0
  {
    if m.id in g.current {
      assert g.current == g.current - {m.id} + {m.id};
    } else {
      assert g.current - {m.id} == g.current;
    }
  }

  lemma {:induction false} MoveKeepsInv(g: Ledger, m: Move, limit: int)
    requires LedgerInv(g) && MayMove(g, m, limit)
    ensures LedgerInv(Moved(g, m))
  {
    match m
    case Take(_, _) => TakeKeepsInv(g, m, limit);
    case Return(_) => ReturnKeepsInv(g, m, limit);
    case _ =>
  }

  lemma {:induction false} RunStep(gs: seq<Ledger>, ms: seq<Move>, limit: int, i: nat)
    requires IsLedgerRun(gs, ms, limit) && 0 < i < |gs|
    ensures MayMove(gs[i - 1], ms[i - 1], limit) && gs[i] == Moved(gs[i - 1], ms[i - 1])
  {
  }

  lemma {:induction false} RunStepKeepsInv(gs: seq<Ledger>, ms: seq<Move>, limit: int, i: nat)
    requires IsLedgerRun(gs, ms, limit) && 0 < i < |gs| && LedgerInv(gs[i - 1])
    ensures LedgerInv(gs[i])
  {
    RunStep(gs, ms, limit, i);
    MoveKeepsInv(gs[i - 1], ms[i - 1], limit);
  }

  lemma {:induction false} LedgerRunInv(gs: seq<Ledger>, ms: seq<Move>, limit: int, i: nat)
    requires IsLedgerRun(gs, ms, limit) && i < |gs|
    ensures LedgerInv(gs[i])
  {
    if i != 0 {
      LedgerRunInv(gs, ms, limit, i - 1);
      RunStepKeepsInv(gs, ms, limit, i);
    }
  }

  /** The count is the references taken since the last reset and not given back. */
  predicate IsExact(g: Ledger) {
    g.lock.refCount == |g.current| + g.posted
  }

  /** A move that takes references that are not its own: an acknowledgement or write-off of more than posts have
      taken since the last reset while there is a current holder to pay for it, or the return of an old holder
      whose start time reads the same as the reset. */
  predicate Steals(g: Ledger, m: Move) {
    match m
    case Ack(count) => g.posted < count && g.current != {}
    case Return(id) => id in g.holders && id !in g.current && g.holders[id] == g.lock.resetTime && g.lock.refCount > 0
    case _ => false
  }

  /** On a clock that may repeat, the return of a holder from before the last reset leaves a positive count alone
      exactly when its start time is not the reset time itself. */
  lemma {:induction false} OldHolderIgnoredIff(gs: seq<Ledger>, ms: seq<Move>, limit: int, i: nat, id: nat)
    requires IsLedgerRun(gs, ms, limit) && i < |gs|
    requires id in gs[i].holders && id !in gs[i].current && gs[i].lock.refCount > 0
    ensures Moved(gs[i], Return(id)).lock == gs[i].lock <==> gs[i].holders[id] != gs[i].lock.resetTime
  {
    LedgerRunInv(gs, ms, limit, i);
  }

  lemma {:induction false} ReturnExactUnlessStolen(g: Ledger, m: Move, limit: int)
    requires LedgerInv(g) && MayMove(g, m, limit) && IsExact(g) && m.Return?
    ensures IsExact(Moved(g, m)) <==> !Steals(g, m)
  {
    ReturnKeepsInv(g, m, limit);
  }

  /** An exact count stays exact under precisely the moves that do not steal. */
  lemma {:induction false} ExactUnlessStolen(g: Ledger, m: Move, limit: int)
    requires LedgerInv(g) && MayMove(g, m, limit) && IsExact(g)
    ensures IsExact(Moved(g, m)) <==> !Steals(g, m)
  {
    match m
    case Take(_, _) => TakeKeepsInv(g, m, limit);
    case Return(_) => ReturnExactUnlessStolen(g, m, limit);
    case _ =>
  }

  predicate NoTheftBefore(gs: seq<Ledger>, ms: seq<Move>, i: nat)
    requires i <= |ms| < |gs|
  {
    forall j {:trigger ms[j]} :: 0 <= j < i ==> !Steals(gs[j], ms[j])
  }

  lemma {:induction false} RunStepExactIff(gs: seq<Ledger>, ms: seq<Move>, limit: int, i: nat)
    requires IsLedgerRun(gs, ms, limit) && 0 < i < |gs| && IsExact(gs[i - 1])
    ensures IsExact(gs[i]) <==> !Steals(gs[i - 1], ms[i - 1])
  {
    LedgerRunInv(gs, ms, limit, i - 1);
    RunStep(gs, ms, limit, i);
    ExactUnlessStolen(gs[i - 1], ms[i - 1], limit);
  }

  predicate ExactUpTo(gs: seq<Ledger>, i: nat)
    requires i < |gs|
  {
    forall j {:trigger IsExact(gs[j])} :: 0 <= j <= i ==> IsExact(gs[j])
  }

  lemma {:induction false} ExactWithoutTheft(gs: seq<Ledger>, ms: seq<Move>, limit: int, n: nat, i: nat)
    requires IsLedgerRun(gs, ms, limit) && i <= n < |gs| && NoTheftBefore(gs, ms, n)
    ensures IsExact(gs[i])
  {
    var k := 0;
    while k != i
      invariant k <= i && IsExact(gs[k])
    {
      k := k + 1;
      RunStepExactIff(gs, ms, limit, k);
    }
  }

  /** Over any run, resets by timeouts included, the count is the number of references taken since the last
      reset and not given back exactly as long as no move steals; it is never more. */
  lemma {:induction false} CountIsReferencesHeld(gs: seq<Ledger>, ms: seq<Move>, limit: int, n: nat)
    requires IsLedgerRun(gs, ms, limit) && n < |gs|
    ensures gs[n].lock.refCount <= |gs[n].current| + gs[n].posted
    ensures ExactUpTo(gs, n) <==> NoTheftBefore(gs, ms, n)
  {
    LedgerRunInv(gs, ms, limit, n);
    if NoTheftBefore(gs, ms, n) {
      forall j | 0 <= j <= n
        ensures IsExact(gs[j])
      {
        ExactWithoutTheft(gs, ms, limit, n, j);
      }
    } else if ExactUpTo(gs, n) {
      forall j | 0 <= j < n
        ensures !Steals(gs[j], ms[j])
      {
        RunStepExactIff(gs, ms, limit, j + 1);
      }
    }
  }

  predicate OldHoldersAreStale(g: Ledger) {
    forall id :: id in g.holders && id !in g.current ==> g.holders[id] < g.lock.resetTime
  }

  lemma {:induction false} MoveKeepsStale(g: Ledger, m: Move, limit: nat)
    requires LedgerInv(g) && MayMove(g, m, limit) && OldHoldersAreStale(g)
    ensures OldHoldersAreStale(Moved(g, m))
  {
  }

  lemma {:induction false} RunKeepsStale(gs: seq<Ledger>, ms: seq<Move>, limit: nat, i: nat)
    requires IsLedgerRun(gs, ms, limit) && i < |gs|
    ensures OldHoldersAreStale(gs[i])
  {
    if i != 0 {
      RunKeepsStale(gs, ms, limit, i - 1);
      LedgerRunInv(gs, ms, limit, i - 1);
      RunStep(gs, ms, limit, i);
      MoveKeepsStale(gs[i - 1], ms[i - 1], limit);
    }
  }

  /** But a reset comes only once the timeout has passed since the latest reference.  So for a timeout that is not
      negative, even if the clock repeats, a holder from before the last reset changes nothing when it returns; a
      current one takes back exactly its own reference. */
  lemma {:induction false} StaleHoldersCannotSteal(gs: seq<Ledger>, ms: seq<Move>, limit: nat, i: nat)
    requires IsLedgerRun(gs, ms, limit) && i < |ms| && ms[i].Return?
    ensures !Steals(gs[i], ms[i])
    ensures ms[i].id !in gs[i].current ==> gs[i + 1].lock == gs[i].lock
    ensures ms[i].id in gs[i].current && gs[i].lock.refCount > 0 ==>
              gs[i + 1].lock.refCount == gs[i].lock.refCount - 1
  {
    LedgerRunInv(gs, ms, limit, i);
    RunKeepsStale(gs, ms, limit, i);
    RunStep(gs, ms, limit, i + 1);
  }

  lemma {:induction false} TimeoutStartAdvances(gs: seq<Ledger>, ms: seq<Move>, limit: int, i: nat, j: nat)
    requires IsLedgerRun(gs, ms, limit) && i < j <= |ms|
    requires ms[i].Take? || ms[i].PostRefs?
    ensures ms[i].now <= gs[j].lock.timeoutStart && ms[i].now <= gs[j].clock
    decreases j
  {
    LedgerRunInv(gs, ms, limit, j - 1);
    RunStep(gs, ms, limit, j);
    if i < j - 1 {
      TimeoutStartAdvances(gs, ms, limit, i, j - 1);
    }
  }

  /** References are never written off by the timeout before it has fully elapsed since the latest one. */
  lemma {:induction false} NoEarlyTimeout(gs: seq<Ledger>, ms: seq<Move>, limit: int, i: nat, j: nat)
    requires IsLedgerRun(gs, ms, limit) && i < j < |ms|
    requires (ms[i].Take? || ms[i].PostRefs?) && ms[j].TimeoutReset?
    ensures ms[j].now - ms[i].now > limit
  {
    TimeoutStartAdvances(gs, ms, limit, i, j);
    RunStep(gs, ms, limit, j + 1);
  }

  /** The guard is what it takes: a reset that reads the same time as a holder's start would let that holder's
      return release the wakelock under the holder that came after. */
  lemma {:induction false} EqualReadingsLetAHolderSteal(l: Lock, t: int)
    requires l.running && l.refCount == 0 && l.resetTime <= t && 0 <= t
    ensures var first := Increment(l, 1, t);
            var second := Increment(Reset(first, t), 1, t);
            second.refCount == 1 && Decrement(second, 1, t).refCount == 0 && !Held(Decrement(second, 1, t))
  {
  }

  /** Acknowledgements carry no start time and are never stale.  So on any clock the late acknowledgement of an
      event from before a timeout takes the reference of a holder that came after, and releases the wakelock. */
  lemma {:induction false} LateAcknowledgementSteals(g: Ledger, t: int, limit: nat)
    requires IsOpening(g) && g.clock < t
    ensures var at := t + limit + 1;
            var g1 := Moved(g, PostRefs(1, t));
            var g2 := Moved(g1, TimeoutReset(at, at + 1));
            var g3 := Moved(g2, Take(0, at + 2));
            var g4 := Moved(g3, Ack(1));
            && MayMove(g, PostRefs(1, t), limit) && MayMove(g1, TimeoutReset(at, at + 1), limit)
            && MayMove(g2, Take(0, at + 2), limit) && MayMove(g3, Ack(1), limit)
            && Held(g3.lock) && Steals(g3, Ack(1)) && 0 in g4.current && !Held(g4.lock)
  {
  }
}
