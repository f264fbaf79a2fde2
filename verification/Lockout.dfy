/** Fingerprint lockout: a failure counter with a mode, and a detached timer that talks to it through two
    flags. */
module Lockout {

  const TIMED_THRESHOLD: int := 5
  const TIMED_DURATION: int := 30 * 1000
  const PERMANENT_THRESHOLD: int := 20
  // Nanoseconds in a millisecond.
  const NANOS: int := 1000000

  datatype Mode = NONE | TIMED | PERMANENT

  /** What a session reports and commands, in order. */
  datatype Callback =
    | AuthenticationSucceeded
    | AuthenticationFailed
    | LockoutPermanent
    | LockoutTimed(timeLeft: int)
    | LockoutCleared
    // Not a callback: high-brightness mode is switched off and the device told so.
    | BrightnessOff

  // ---- The tracker ----

  datatype Tracker = Tracker(failedCount: nat, timedStart: int, mode: Mode)

  function Reset(t: Tracker, clearAttemptCounter: bool): Tracker {
    Tracker(if clearAttemptCounter then 0 else t.failedCount, 0, NONE)
  }

  function Attempted(t: Tracker, now: int): Tracker {
    var count := t.failedCount + 1;
    if count >= PERMANENT_THRESHOLD then t.(failedCount := count, mode := PERMANENT)
    else if count >= TIMED_THRESHOLD then Tracker(count, now, TIMED)
    else t.(failedCount := count)
  }

  // elapsed is the answer to whether the timed duration has passed since the start.
  function Refresh(t: Tracker, elapsed: bool): Tracker {
    if t.mode == TIMED && elapsed then t.(mode := NONE, timedStart := 0) else t
  }

  // C++ division, truncating toward zero.
  function TruncDiv(a: int, b: int): int
    requires b > 0
  {
    if a >= 0 then a / b else -((-a) / b)
  }

  function LockoutTimeLeft(t: Tracker, now: int): int {
    if t.timedStart > 0 then TIMED_DURATION - TruncDiv(now - t.timedStart, NANOS) else 0
  }

  /** left is the least number of milliseconds that covers what remains of the timed duration. */
  predicate IsTimeLeft(left: int, passed: int) {
    (left - 1) * 1_000_000 < 30_000_000_000 - passed <= left * 1_000_000
  }

  class LockoutTracker {
    var failedCount: nat
    var lockoutTimedStart: int
    var currentMode: Mode

    ghost function Contents(): Tracker
      reads this
    {
      Tracker(failedCount, lockoutTimedStart, currentMode)
    }

    constructor ()
      ensures Contents() == Tracker(0, 0, NONE)
    {
      failedCount, lockoutTimedStart, currentMode := 0, 0, NONE;
    }

    method ResetTracker(clearAttemptCounter: bool)
      modifies this
      ensures Contents() == Reset(old(Contents()), clearAttemptCounter)
    {
      if clearAttemptCounter {
        failedCount := 0;
      }
      lockoutTimedStart := 0;
      currentMode := NONE;
    }

    method AddFailedAttempt(now: int)
      modifies this
      ensures Contents() == Attempted(old(Contents()), now)
    {
      failedCount := failedCount + 1;
      if failedCount >= PERMANENT_THRESHOLD {
        currentMode := PERMANENT;
      } else if failedCount >= TIMED_THRESHOLD {
        currentMode := TIMED;
        lockoutTimedStart := now;
      }
    }

    method GetMode(elapsed: bool) returns (mode: Mode)
      modifies this
      ensures Contents() == Refresh(old(Contents()), elapsed) && mode == currentMode
    {
      if currentMode == TIMED {
        if elapsed {
          currentMode := NONE;
          lockoutTimedStart := 0;
        }
      }
      mode := currentMode;
    }

    /** The milliseconds left of the timed duration, rounded up from nanoseconds, and zero without a start. */
    method GetLockoutTimeLeft(now: int) returns (res: int)
      ensures res == LockoutTimeLeft(Contents(), now)
      ensures lockoutTimedStart <= 0 ==> res == 0
      ensures 0 < lockoutTimedStart <= now ==> IsTimeLeft(res, now - lockoutTimedStart)
      ensures 0 < lockoutTimedStart <= now && now - lockoutTimedStart < 30_000_000_000 ==> 0 < res <= 30_000
    {
      res := 0;
      if lockoutTimedStart > 0 {
        var elapsed := TruncDiv(now - lockoutTimedStart, NANOS);
        res := TIMED_DURATION - elapsed;
      }
    }
  }

  /** The time left is the rest of 30 s, rounded up to milliseconds; on a monotone clock it is positive exactly while
      they have not passed, and never more than them. */
  lemma {:induction false} TimeLeftInRange(t: Tracker, now: int)
    ensures t.timedStart <= 0 ==> LockoutTimeLeft(t, now) == 0
    ensures 0 < t.timedStart <= now ==>
              var left, rest := LockoutTimeLeft(t, now), 30_000_000_000 - (now - t.timedStart);
              && IsTimeLeft(left, now - t.timedStart)
              && left <= 30_000 && (0 < left <==> 0 < rest)
    ensures 0 < t.timedStart && now < t.timedStart ==>
              LockoutTimeLeft(t, now) == 30_000 + (t.timedStart - now) / 1_000_000
  {
    var passed := now - t.timedStart;
    assert passed == NANOS * (passed / NANOS) + passed % NANOS;
  }

  // ---- The session ----

  /** timers counts the detached threads that have not expired yet. */
  datatype Session = Session(tracker: Tracker, timerStarted: bool, timerAborted: bool, timers: nat,
                             callbacks: seq<Callback>)

  const INIT := Session(Tracker(0, 0, NONE), false, false, 0, [])

  function CheckSensorLockout(s: Session, now: int, elapsed: bool): Session {
    var s1 := s.(tracker := Refresh(s.tracker, elapsed));
    match s1.tracker.mode
    case PERMANENT => s1.(callbacks := s1.callbacks + [BrightnessOff, LockoutPermanent], timerAborted := true)
    case TIMED =>
      var s2 := s1.(callbacks := s1.callbacks + [BrightnessOff, LockoutTimed(LockoutTimeLeft(s1.tracker, now))]);
      if s2.timerStarted then s2 else s2.(timerAborted := false, timerStarted := true, timers := s2.timers + 1)
    case NONE => s1
  }

  function ClearLockout(s: Session, clearAttemptCounter: bool): Session {
    s.(tracker := Reset(s.tracker, clearAttemptCounter), callbacks := s.callbacks + [LockoutCleared])
  }

  datatype Event =
    | Success
    | Failure(now: int, later: int, elapsed: bool)
    | PointerDown(now: int, elapsed: bool)
    | ResetLockout
    | TimerExpires

  predicate May(s: Session, e: Event) {
    e.TimerExpires? ==> s.timers > 0
  }

  /** Each handler, and the timer's expiry, as one step. */
  function Handle(s: Session, e: Event): Session
    requires May(s, e)
  {
    match e
    case Success =>
      s.(tracker := Reset(s.tracker, true), callbacks := s.callbacks + [AuthenticationSucceeded, BrightnessOff])
    case Failure(now, later, elapsed) =>
      var s1 := s.(tracker := Attempted(s.tracker, now), callbacks := s.callbacks + [AuthenticationFailed]);
      CheckSensorLockout(s1, later, elapsed)
    case PointerDown(now, elapsed) =>
      CheckSensorLockout(s, now, elapsed)
    case ResetLockout =>
      ClearLockout(s, true).(timerAborted := true)
    case TimerExpires =>
      var s1 := if s.timerAborted then s else ClearLockout(s, false);
      s1.(timerStarted := false, timerAborted := false, timers := s.timers - 1)
  }

  predicate IsRun(ss: seq<Session>, es: seq<Event>) {
    && |ss| == |es| + 1
    && ss[0] == INIT
    && (forall i {:trigger es[i]} :: 0 <= i < |es| ==> May(ss[i], es[i]) && ss[i + 1] == Handle(ss[i], es[i]))
  }

  /** The counter and permanent lockout agree only because a pending timer is always aborted by then. */
  predicate Inv(s: Session) {
    && (s.tracker.mode == PERMANENT <==> s.tracker.failedCount >= PERMANENT_THRESHOLD)
    && (s.tracker.mode == TIMED ==> TIMED_THRESHOLD <= s.tracker.failedCount < PERMANENT_THRESHOLD)
    && s.timers == (if s.timerStarted then 1 else 0)
    && (s.tracker.mode == PERMANENT && s.timers > 0 ==> s.timerAborted)
  }

  lemma {:induction false} HandleKeepsInv(s: Session, e: Event)
    requires Inv(s) && May(s, e)
    ensures Inv(Handle(s, e))
  {
  }

  lemma {:induction false} CountStep(s: Session, e: Event)
    requires May(s, e)
    ensures Handle(s, e).tracker.failedCount ==
            if e.Success? || e.ResetLockout? then 0 else s.tracker.failedCount + if e.Failure? then 1 else 0
  {
  }

  /** Failed attempts since the last success or lockout reset. */
  function FailuresSinceClear(es: seq<Event>): nat {
    if es == [] then 0
    else
      var last := es[|es| - 1];
      if last.Success? || last.ResetLockout? then 0
      else FailuresSinceClear(es[..|es| - 1]) + (if last.Failure? then 1 else 0)
  }

  lemma {:induction false} RunInv(ss: seq<Session>, es: seq<Event>, i: nat)
    requires IsRun(ss, es) && i < |ss|
    ensures Inv(ss[i]) && ss[i].tracker.failedCount == FailuresSinceClear(es[..i])
  {
    if i != 0 {
      RunInv(ss, es, i - 1);
      var s, e := ss[i - 1], es[i - 1];
      assert May(s, e) && ss[i] == Handle(s, e);
      HandleKeepsInv(s, e);
      CountStep(s, e);
      assert es[..i][..i - 1] == es[..i - 1];
    }
  }

  /** Permanent lockout is exact: in every reachable state it is on iff there have been at least twenty failures
      since the last success or lockout reset, and a timed lockout means five to nineteen of them.  At most one
      timer is pending, and one pending in permanent lockout is aborted. */
  lemma {:induction false} PermanentIsExact(ss: seq<Session>, es: seq<Event>, i: nat)
    requires IsRun(ss, es) && i < |ss|
    ensures var s, failures := ss[i], FailuresSinceClear(es[..i]);
            && (s.tracker.mode == PERMANENT <==> failures >= 20)
            && (s.tracker.mode == TIMED ==> 5 <= failures < 20)
            && s.timers <= 1
            && (s.tracker.mode == PERMANENT && s.timers == 1 ==> s.timerAborted)
  {
    RunInv(ss, es, i);
  }

  lemma {:induction false} StickyStep(s: Session, e: Event)
    requires Inv(s) && May(s, e) && s.tracker.mode == PERMANENT && !e.Success? && !e.ResetLockout?
    ensures var s' := Handle(s, e);
            && s'.tracker.mode == PERMANENT && s.callbacks <= s'.callbacks
            && LockoutCleared !in s'.callbacks[|s.callbacks|..]
  {
  }

  lemma {:induction false} RunStep(ss: seq<Session>, es: seq<Event>, i: nat)
    requires IsRun(ss, es) && 0 < i < |ss|
    ensures Inv(ss[i - 1]) && May(ss[i - 1], es[i - 1]) && ss[i] == Handle(ss[i - 1], es[i - 1])
  {
    RunInv(ss, es, i - 1);
  }

  /** Permanent lockout is sticky: only a success or a lockout reset leaves it, and nothing else reports the
      lockout cleared. */
  lemma {:induction false} PermanentIsSticky(ss: seq<Session>, es: seq<Event>, i: nat, j: nat)
    requires IsRun(ss, es) && i <= j < |ss| && ss[i].tracker.mode == PERMANENT
    requires forall k :: i <= k < j ==> !es[k].Success? && !es[k].ResetLockout?
    ensures ss[j].tracker.mode == PERMANENT
    ensures |ss[i].callbacks| <= |ss[j].callbacks|
    ensures LockoutCleared !in ss[j].callbacks[|ss[i].callbacks|..]
    decreases j
  {
    if i < j {
      PermanentIsSticky(ss, es, i, j - 1);
      RunStep(ss, es, j);
      StickyStep(ss[j - 1], es[j - 1]);
      var n, before, after := |ss[i].callbacks|, ss[j - 1].callbacks, ss[j].callbacks;
      assert after[n..] == before[n..] + after[|before|..];
    }
  }

  /** A failed attempt reports exactly the lockout it causes, after switching high brightness off, and a timed one
      always has a timer pending, though maybe an aborted one.  A timed lockout that the check at once finds elapsed
      is dropped without a report. */
  lemma {:induction false} FailureReportsLockout(s: Session, now: int, later: int, elapsed: bool)
    requires Inv(s)
    ensures var s', n := Handle(s, Failure(now, later, elapsed)), s.tracker.failedCount + 1;
            var timed := 5 <= n < 20 && !elapsed;
            && s'.callbacks == s.callbacks + [AuthenticationFailed] +
                 (if n >= 20 then [BrightnessOff, LockoutPermanent]
                  else if timed then [BrightnessOff, LockoutTimed(LockoutTimeLeft(s'.tracker, later))] else [])
            && s'.tracker == (if n >= 20 then s.tracker.(failedCount := n, mode := PERMANENT)
                              else if timed then Tracker(n, now, TIMED)
                              else if n >= 5 then Tracker(n, 0, NONE) else s.tracker.(failedCount := n))
            && s'.timers == if timed then 1 else s.timers
  {
    assert s.callbacks + [AuthenticationFailed] + [] == s.callbacks + [AuthenticationFailed];
  }

  /** A success clears everything but the timer, and switches high brightness off; a lockout reset also aborts the
      timer. */
  lemma {:induction false} ClearingReports(s: Session)
    ensures var s' := Handle(s, Success);
            && s'.tracker == Tracker(0, 0, NONE)
            && s'.callbacks == s.callbacks + [AuthenticationSucceeded, BrightnessOff]
            && s'.timers == s.timers && s'.timerStarted == s.timerStarted && s'.timerAborted == s.timerAborted
    ensures var s' := Handle(s, ResetLockout);
            && s'.tracker == Tracker(0, 0, NONE) && s'.callbacks == s.callbacks + [LockoutCleared]
            && s'.timers == s.timers && s'.timerStarted == s.timerStarted && s'.timerAborted
  {
  }

  /** A pointer-down reports the lockout in force and drops a timed one that has elapsed; without a lockout it does
      nothing. */
  lemma {:induction false} PointerDownReports(s: Session, now: int, elapsed: bool)
    requires Inv(s)
    ensures var s', t := Handle(s, PointerDown(now, elapsed)), s.tracker;
            match t.mode
            case NONE => s' == s
            case PERMANENT =>
              s' == s.(timerAborted := true, callbacks := s.callbacks + [BrightnessOff, LockoutPermanent])
            case TIMED =>
              if elapsed then s' == s.(tracker := Tracker(t.failedCount, 0, NONE))
              else && s'.tracker == t && s'.timers == 1 && s'.timerStarted
                   && s'.timerAborted == (s.timerAborted && s.timers == 1)
                   && s'.callbacks == s.callbacks + [BrightnessOff, LockoutTimed(LockoutTimeLeft(t, now))]
  {
  }

  /** The timer lifts a timed lockout exactly when nothing aborted it, and keeps the counter either way. */
  lemma {:induction false} ExpiryLiftsUnlessAborted(s: Session)
    requires Inv(s) && s.timers > 0
    ensures var s' := Handle(s, TimerExpires);
            && s'.tracker.failedCount == s.tracker.failedCount && s'.timers == 0 && !s'.timerStarted
            && (s.timerAborted ==> s'.tracker == s.tracker && s'.callbacks == s.callbacks)
            && (!s.timerAborted ==>
                  && s'.tracker == Tracker(s.tracker.failedCount, 0, NONE)
                  && s'.callbacks == s.callbacks + [LockoutCleared])
  {
  }

  /** By history: the i-th event aborts a pending timer.  A lockout reset does, and so does a failure or a
      pointer-down that finds permanent lockout. */
  predicate Aborts(es: seq<Event>, i: nat)
    requires i < |es|
  {
    match es[i]
    case ResetLockout => true
    case Failure(_, _, _) => FailuresSinceClear(es[..i]) + 1 >= PERMANENT_THRESHOLD
    case PointerDown(_, _) => FailuresSinceClear(es[..i]) >= PERMANENT_THRESHOLD
    case _ => false
  }

  // The i-th event ends the effect of an abort: the timer expires, or another one is started.
  predicate Forgets(ss: seq<Session>, es: seq<Event>, i: nat)
    requires i < |es| < |ss|
  {
    es[i].TimerExpires? || ss[i].timers < ss[i + 1].timers
  }

  lemma {:induction false} AbortFlagStep(ss: seq<Session>, es: seq<Event>, i: nat)
    requires IsRun(ss, es) && i < |es|
    ensures ss[i + 1].timerAborted <==> Aborts(es, i) || (ss[i].timerAborted && !Forgets(ss, es, i))
  {
    RunInv(ss, es, i);
    RunStep(ss, es, i + 1);
  }

  /** The k-th event aborted the timer that is pending in the i-th state, if there is one. */
  predicate AbortedAt(ss: seq<Session>, es: seq<Event>, k: nat, i: nat)
    requires k < i <= |es| < |ss|
  {
    Aborts(es, k) && forall j :: k < j < i ==> !Forgets(ss, es, j)
  }

  lemma {:induction false} AbortedStep(ss: seq<Session>, es: seq<Event>, k: nat, i: nat)
    requires k < i < |es| < |ss|
    ensures AbortedAt(ss, es, k, i + 1) <==> AbortedAt(ss, es, k, i) && !Forgets(ss, es, i)
  {
  }

  predicate WasAborted(ss: seq<Session>, es: seq<Event>, i: nat)
    requires i <= |es| < |ss|
  {
    exists k :: 0 <= k < i && AbortedAt(ss, es, k, i)
  }

  lemma {:induction false} WasAbortedStep(ss: seq<Session>, es: seq<Event>, i: nat)
    requires i < |es| < |ss|
    ensures WasAborted(ss, es, i + 1) <==> Aborts(es, i) || (WasAborted(ss, es, i) && !Forgets(ss, es, i))
  {
    if WasAborted(ss, es, i + 1) {
      var k :| 0 <= k < i + 1 && AbortedAt(ss, es, k, i + 1);
      if k < i {
        AbortedStep(ss, es, k, i);
      }
    }
    if Aborts(es, i) {
      assert AbortedAt(ss, es, i, i + 1);
    } else if WasAborted(ss, es, i) && !Forgets(ss, es, i) {
      var k :| 0 <= k < i && AbortedAt(ss, es, k, i);
      AbortedStep(ss, es, k, i);
    }
  }

  lemma {:induction false} AbortFlagTellsHistory(ss: seq<Session>, es: seq<Event>, i: nat)
    requires IsRun(ss, es) && i < |ss|
    ensures ss[i].timerAborted <==> WasAborted(ss, es, i)
  {
    if i != 0 {
      AbortFlagTellsHistory(ss, es, i - 1);
      AbortFlagStep(ss, es, i - 1);
      WasAbortedStep(ss, es, i - 1);
    }
  }

  /** Over any run, an expiring timer lifts whatever lockout there is exactly if no event since it was started has
      aborted it; an aborted one changes nothing. */
  lemma {:induction false} ExpiryLiftsIff(ss: seq<Session>, es: seq<Event>, i: nat)
    requires IsRun(ss, es) && i < |es| && es[i].TimerExpires?
    ensures if WasAborted(ss, es, i)
            then ss[i + 1].tracker == ss[i].tracker && ss[i + 1].callbacks == ss[i].callbacks
            else && ss[i + 1].tracker == Tracker(ss[i].tracker.failedCount, 0, NONE)
                 && ss[i + 1].callbacks == ss[i].callbacks + [LockoutCleared]
  {
    AbortFlagTellsHistory(ss, es, i);
    RunStep(ss, es, i + 1);
    ExpiryLiftsUnlessAborted(ss[i]);
  }

  // ---- Timed lockout by history ----

  // The i-th event ends a timed lockout, if only by deciding anew.
  predicate EndsTimed(ss: seq<Session>, es: seq<Event>, i: nat)
    requires i < |es| < |ss|
  {
    match es[i]
    case PointerDown(_, elapsed) => elapsed
    case TimerExpires => !WasAborted(ss, es, i)
    case _ => true
  }

  predicate TimedSince(ss: seq<Session>, es: seq<Event>, k: nat, i: nat)
    requires k < i <= |es| < |ss|
  {
    && es[k].Failure? && !es[k].elapsed && 5 <= FailuresSinceClear(es[..k + 1]) < 20
    && forall j :: k < j < i ==> !EndsTimed(ss, es, j)
  }

  predicate WasTimed(ss: seq<Session>, es: seq<Event>, i: nat)
    requires i <= |es| < |ss|
  {
    exists k :: 0 <= k < i && TimedSince(ss, es, k, i)
  }

  lemma {:induction false} WasTimedStep(ss: seq<Session>, es: seq<Event>, i: nat)
    requires i < |es| < |ss|
    ensures WasTimed(ss, es, i + 1) <==>
              TimedSince(ss, es, i, i + 1) || (WasTimed(ss, es, i) && !EndsTimed(ss, es, i))
  {
    if WasTimed(ss, es, i + 1) {
      var k :| 0 <= k < i + 1 && TimedSince(ss, es, k, i + 1);
      if k < i {
        assert TimedSince(ss, es, k, i);
      }
    }
    if WasTimed(ss, es, i) && !EndsTimed(ss, es, i) {
      var k :| 0 <= k < i && TimedSince(ss, es, k, i);
      assert TimedSince(ss, es, k, i + 1);
    }
  }

  lemma {:induction false} TimedStep(ss: seq<Session>, es: seq<Event>, i: nat)
    requires IsRun(ss, es) && i < |es|
    ensures ss[i + 1].tracker.mode == TIMED <==>
              TimedSince(ss, es, i, i + 1) || (ss[i].tracker.mode == TIMED && !EndsTimed(ss, es, i))
  {
    AbortFlagTellsHistory(ss, es, i);
    RunStep(ss, es, i + 1);
    RunInv(ss, es, i + 1);
    assert es[..i + 1] == es[..i] + [es[i]];
  }

  /** Timed lockout is exact: in every reachable state it is on iff some failure was the fifth to nineteenth since the
      last success or reset, and since then there was no further failure, success or reset, no expiry of a timer that
      was not aborted, and no check that found the duration elapsed. */
  lemma {:induction false} TimedIsExact(ss: seq<Session>, es: seq<Event>, i: nat)
    requires IsRun(ss, es) && i < |ss|
    ensures ss[i].tracker.mode == TIMED <==> WasTimed(ss, es, i)
  {
    if i != 0 {
      TimedIsExact(ss, es, i - 1);
      TimedStep(ss, es, i - 1);
      WasTimedStep(ss, es, i - 1);
    }
  }

  function Fail(s: Session, now: int): Session {
    Handle(s, Failure(now, now, false))
  }

  /** A timed lockout can outlast its timer: after a lockout reset while a timer is pending, five new failures
      start no timer of their own, and the expiry of the aborted one lifts nothing. */
  lemma {:induction false} AbortedTimerLeavesTimedLockout(s: Session, now: int)
    requires Inv(s) && s.timers == 1
    ensures var s' := Fail(Fail(Fail(Fail(Fail(Handle(s, ResetLockout), now), now), now), now), now);
            && s'.tracker.mode == TIMED && s'.timers == 1
            && Handle(s', TimerExpires).tracker.mode == TIMED && Handle(s', TimerExpires).timers == 0
  {
    var s0 := Handle(s, ResetLockout);
    var s1 := Fail(s0, now);
    var s2 := Fail(s1, now);
    var s3 := Fail(s2, now);
    var s4 := Fail(s3, now);
    assert s4.tracker == Tracker(4, 0, NONE) && s4.timerStarted && s4.timerAborted && s4.timers == 1;
    var s5 := Fail(s4, now);
    assert s5.tracker == Tracker(5, now, TIMED);
  }

  // ---- The session's fields ----

  class LockoutSession {
    const lockoutTracker: LockoutTracker
    var isLockoutTimerStarted: bool
    var isLockoutTimerAborted: bool
    ghost var timers: nat
    ghost var callbacks: seq<Callback>

    ghost function Contents(): Session
      reads this, lockoutTracker
    {
      Session(lockoutTracker.Contents(), isLockoutTimerStarted, isLockoutTimerAborted, timers, callbacks)
    }

    constructor ()
      ensures Contents() == INIT && fresh(lockoutTracker)
    {
      lockoutTracker := new LockoutTracker();
      isLockoutTimerStarted, isLockoutTimerAborted := false, false;
      timers, callbacks := 0, [];
    }

    method CheckLockout(now: int, elapsed: bool) returns (locked: bool)
      modifies this, lockoutTracker
      ensures Contents() == CheckSensorLockout(old(Contents()), now, elapsed)
      ensures locked <==> lockoutTracker.currentMode != NONE
    {
      var lockoutMode := lockoutTracker.GetMode(elapsed);
      if lockoutMode != NONE {
        callbacks := callbacks + [BrightnessOff];
      }
      if lockoutMode == PERMANENT {
        callbacks := callbacks + [LockoutPermanent];
        isLockoutTimerAborted := true;
        return true;
      } else if lockoutMode == TIMED {
        var timeLeft := lockoutTracker.GetLockoutTimeLeft(now);
        callbacks := callbacks + [LockoutTimed(timeLeft)];
        if !isLockoutTimerStarted {
          StartLockoutTimer();
        }
        return true;
      }
      return false;
    }

    method StartLockoutTimer()
      modifies this
      ensures isLockoutTimerStarted && !isLockoutTimerAborted && timers == old(timers) + 1
      ensures callbacks == old(callbacks)
    {
      isLockoutTimerAborted := false;
      timers := timers + 1;
      isLockoutTimerStarted := true;
    }

    method Clear(clearAttemptCounter: bool)
      modifies this, lockoutTracker
      ensures Contents() == ClearLockout(old(Contents()), clearAttemptCounter)
    {
      lockoutTracker.ResetTracker(clearAttemptCounter);
      callbacks := callbacks + [LockoutCleared];
    }

    method LockoutTimerExpired()
      requires timers > 0
      modifies this, lockoutTracker
      ensures Contents() == Handle(old(Contents()), TimerExpires)
    {
      if !isLockoutTimerAborted {
        Clear(false);
      }
      isLockoutTimerStarted := false;
      isLockoutTimerAborted := false;
      timers := timers - 1;
    }

    method ResetSessionLockout()
      modifies this, lockoutTracker
      ensures Contents() == Handle(old(Contents()), ResetLockout)
    {
      Clear(true);
      isLockoutTimerAborted := true;
    }

    method NotifyAuthenticated(fid: int, now: int, later: int, elapsed: bool)
      modifies this, lockoutTracker
      ensures Contents() == Handle(old(Contents()), if fid != 0 then Success else Failure(now, later, elapsed))
    {
      if fid != 0 {
        callbacks := callbacks + [AuthenticationSucceeded];
        lockoutTracker.ResetTracker(true);
        callbacks := callbacks + [BrightnessOff];
      } else {
        callbacks := callbacks + [AuthenticationFailed];
        lockoutTracker.AddFailedAttempt(now);
        var locked := CheckLockout(later, elapsed);
      }
    }
  }

  // ---- What atomic handlers are needed for ----

  /** The expiry as the detached thread runs it without a lock, in four steps that handlers may come between: it
      reads the aborted flag, clears unless it was set, unsets the started flag and is done as a timer, and
      unsets the aborted flag. */
  function ExpiryClears(s: Session, sawAborted: bool): Session {
    if sawAborted then s else ClearLockout(s, false)
  }

  function ExpiryStops(s: Session): Session
    requires s.timers > 0
  {
    s.(timerStarted := false, timers := s.timers - 1)
  }

  function ExpiryForgets(s: Session): Session {
    s.(timerAborted := false)
  }

  /** Without handlers in between, the steps are the atomic expiry.  With them, the clearing keeps the invariant
      exactly when the flag was seen set or the counter is below the permanent threshold, unsetting the started
      flag always does, and unsetting the aborted flag exactly when no other timer has been started meanwhile or
      the counter is below the threshold. */
  lemma {:induction false} SplitExpiryKeepsInvIff(s: Session, sawAborted: bool)
    requires Inv(s)
    ensures s.timers > 0 ==>
              ExpiryForgets(ExpiryStops(ExpiryClears(s, s.timerAborted))) == Handle(s, TimerExpires)
    ensures Inv(ExpiryClears(s, sawAborted)) <==> sawAborted || s.tracker.failedCount < PERMANENT_THRESHOLD
    ensures s.timers > 0 ==> Inv(ExpiryStops(s))
    ensures Inv(ExpiryForgets(s)) <==> s.timers == 0 || s.tracker.failedCount < PERMANENT_THRESHOLD
  {
  }

  /** A session at the nineteenth failure: the timer reads the flag, the twentieth failure locks out for good
      and sets the flag too late, and the timer lifts the permanent lockout. */
  lemma {:induction false} SplitExpiryLiftsPermanent(now: int)
    ensures var s := Session(Tracker(19, now, TIMED), true, false, 1, []);
            var s' := Handle(s, Failure(now, now, false));
            && Inv(s) && !s.timerAborted
            && s'.tracker.mode == PERMANENT && s'.timerAborted && s'.timers == 1
            && ExpiryClears(s', s.timerAborted).tracker == Tracker(20, 0, NONE)
  {
  }

  /** A session at the eighteenth failure: the timer clears and unsets the started flag, the nineteenth failure
      starts another timer, the twentieth locks out for good and aborts that one, but the first unsets the flag
      again, and the expiry of the second lifts the permanent lockout. */
  lemma {:induction false} LateFlagWriteLiftsPermanent(now: int)
    ensures var s := Session(Tracker(18, now, TIMED), true, false, 1, []);
            var s1 := ExpiryStops(ExpiryClears(s, s.timerAborted));
            var s2 := Handle(Handle(s1, Failure(now, now, false)), Failure(now, now, false));
            var s3 := ExpiryForgets(s2);
            && Inv(s) && Inv(s2) && s2.tracker.mode == PERMANENT && s2.timerAborted && s2.timers == 1
            && Handle(s3, TimerExpires).tracker == Tracker(20, 0, NONE)
  {
    var s := Session(Tracker(18, now, TIMED), true, false, 1, []);
    var s1 := ExpiryStops(ExpiryClears(s, s.timerAborted));
    var s2 := Handle(s1, Failure(now, now, false));
    assert s2.tracker == Tracker(19, now, TIMED) && s2.timers == 1 && !s2.timerAborted;
  }
}
