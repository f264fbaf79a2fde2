/** The one-shot sensors (under-display fingerprint, single tap, double tap): a run thread that unlocks around
    poll, a self-pipe that interrupts it, and the calls that arm, disarm and change the mode. */
module OneShotSensor {
  import opened SensorTypes

  /** Where the run thread is: not started, blocked on the condition variable, inside poll without the lock,
      back from poll and about to lock, or stopped after a poll error. */
  datatype Thread =
    | Starting
    | Waiting(notified: bool)
    | Polling
    | Polled(failed: bool, pipeReady: bool, deviceReady: bool)
    | Stopped

  /** What the environment sees: an arming, a disarming, or a posted event. */
  datatype Mark = Armed | Disarmed | Posted(wasEnabled: bool)

  /** pipe counts unread bytes, and interrupting the setOperationMode calls that have updated the mode but not
      written to the pipe yet. */
  datatype Sensor = Sensor(enabled: bool, mode: OperationMode, thread: Thread, pipe: nat, interrupting: nat,
                           log: seq<Mark>)

  const INIT := Sensor(false, NORMAL, Starting, 0, 0, [])

  datatype Step =
    | Begin
    | WakeUp
    | PollReturn(failed: bool, pipeReady: bool, deviceReady: bool)
    | Resume(state: bool)
    | Activate(enable: bool)
    | SetMode(mode: OperationMode)
    | Interrupt

  predicate MayPoll(s: Sensor) {
    s.enabled && s.mode == NORMAL
  }

  // The top of the loop, with the lock held: wait, or unlock and poll.
  function Decide(s: Sensor): Sensor {
    s.(thread := if MayPoll(s) then Polling else Waiting(false))
  }

  function Notify(s: Sensor): Sensor {
    if s.thread.Waiting? then s.(thread := Waiting(true)) else s
  }

  function Activated(s: Sensor, enable: bool): Sensor {
    if s.enabled == enable then s
    else
      Notify(s.(enabled := enable, pipe := s.pipe + 1, log := s.log + [if enable then Armed else Disarmed]))
  }

  function ModeSet(s: Sensor, mode: OperationMode): Sensor {
    var s' := s.(interrupting := s.interrupting + 1);
    if s.mode == mode then s' else Notify(s'.(mode := mode))
  }

  function Interrupted(s: Sensor): Sensor
    requires s.interrupting > 0
  {
    s.(interrupting := s.interrupting - 1, pipe := s.pipe + 1)
  }

  function Resumed(s: Sensor, state: bool): Sensor
    requires s.thread.Polled?
  {
    if s.thread.failed then s.(thread := Stopped)
    else if s.thread.deviceReady && state then Decide(s.(enabled := false, log := s.log + [Posted(s.enabled)]))
    else if s.thread.pipeReady && s.pipe > 0 then Decide(s.(pipe := s.pipe - 1))
    else Decide(s)
  }

  /** The condition variable may wake the thread at any time; poll reports the pipe as readable iff it holds a
      byte (only the run thread reads it). */
  predicate May(s: Sensor, a: Step) {
    match a
    case Begin => s.thread.Starting?
    case WakeUp => s.thread.Waiting?
    case PollReturn(failed, pipeReady, _) => s.thread.Polling? && (!failed ==> (pipeReady <==> s.pipe > 0))
    case Resume(_) => s.thread.Polled?
    case Activate(_) => true
    case SetMode(_) => true
    case Interrupt => s.interrupting > 0
  }

  function Do(s: Sensor, a: Step): Sensor
    requires May(s, a)
  {
    match a
    case Begin => Decide(s)
    case WakeUp => Decide(s)
    case PollReturn(failed, pipeReady, deviceReady) => s.(thread := Polled(failed, pipeReady, deviceReady))
    case Resume(state) => Resumed(s, state)
    case Activate(enable) => Activated(s, enable)
    case SetMode(mode) => ModeSet(s, mode)
    case Interrupt => Interrupted(s)
  }

  /** Any interleaving of the run thread, callers and hardware events, from any state. */
  predicate IsPath(ss: seq<Sensor>, steps: seq<Step>) {
    && |ss| == |steps| + 1
    && (forall i {:trigger steps[i]} :: 0 <= i < |steps| ==> May(ss[i], steps[i]) && ss[i + 1] == Do(ss[i], steps[i]))
  }

  predicate IsRun(ss: seq<Sensor>, steps: seq<Step>) {
    IsPath(ss, steps) && ss[0] == INIT
  }

  lemma {:induction false} PathStep(ss: seq<Sensor>, steps: seq<Step>, i: nat)
    requires IsPath(ss, steps) && 0 < i < |ss|
    ensures May(ss[i - 1], steps[i - 1]) && ss[i] == Do(ss[i - 1], steps[i - 1])
  {
  }

  // ---- Invariant ----

  predicate InPoll(t: Thread) {
    t.Polling? || t.Polled?
  }

  /** There is an arming after the last posted event. */
  predicate ArmedSincePost(log: seq<Mark>) {
    log != [] && var last := log[|log| - 1];
    last.Armed? || (last.Disarmed? && ArmedSincePost(log[..|log| - 1]))
  }

  predicate EveryPostWasArmed(log: seq<Mark>) {
    forall i :: 0 <= i < |log| && log[i].Posted? ==> ArmedSincePost(log[..i])
  }

  predicate ThreadInv(s: Sensor) {
    && (s.thread.Polling? && !MayPoll(s) ==> s.pipe > 0 || s.interrupting > 0)
    && (s.thread.Polled? && s.thread.pipeReady && !s.thread.failed ==> s.pipe > 0)
    && (s.thread.Waiting? && MayPoll(s) ==> s.thread.notified)
  }

  predicate Inv(s: Sensor) {
    && EveryPostWasArmed(s.log) && ThreadInv(s)
    && (s.enabled || InPoll(s.thread) ==> ArmedSincePost(s.log))
    && (s.enabled <==> s.log != [] && s.log[|s.log| - 1] == Armed)
  }

  lemma {:induction false} LogGrows(log: seq<Mark>, m: Mark)
    requires EveryPostWasArmed(log) && (m.Posted? ==> ArmedSincePost(log))
    ensures EveryPostWasArmed(log + [m])
    ensures ArmedSincePost(log + [m]) <==> m.Armed? || (m.Disarmed? && ArmedSincePost(log))
  {
    var log' := log + [m];
    assert log'[..|log|] == log;
    forall i | 0 <= i < |log'| && log'[i].Posted?
      ensures ArmedSincePost(log'[..i])
    {
      assert log'[..i] == log[..i];
      if i != |log| {
        assert log'[i] == log[i];
      }
    }
  }

  lemma {:induction false} ThreadStep(s: Sensor, a: Step)
    requires ThreadInv(s) && May(s, a)
    ensures ThreadInv(Do(s, a))
  {
  }

  lemma {:induction false} ActivateKeepsInv(s: Sensor, enable: bool)
    requires Inv(s)
    ensures Inv(Activated(s, enable))
  {
    ThreadStep(s, Activate(enable));
    if enable != s.enabled {
      LogGrows(s.log, if enable then Armed else Disarmed);
    }
  }

  lemma {:induction false} ResumeKeepsInv(s: Sensor, state: bool)
    requires Inv(s) && s.thread.Polled?
    ensures Inv(Resumed(s, state))
  {
    ThreadStep(s, Resume(state));
    if !s.thread.failed && s.thread.deviceReady && state {
      LogGrows(s.log, Posted(s.enabled));
    }
  }

  lemma {:induction false} QuietStepKeepsInv(s: Sensor, a: Step)
    requires Inv(s) && May(s, a) && !a.Activate? && !a.Resume?
    ensures Inv(Do(s, a))
  {
    ThreadStep(s, a);
    assert Do(s, a).log == s.log && Do(s, a).enabled == s.enabled;
    assert InPoll(Do(s, a).thread) ==> InPoll(s.thread) || s.enabled;
  }

  lemma {:induction false} StepKeepsInv(s: Sensor, a: Step)
    requires Inv(s) && May(s, a)
    ensures Inv(Do(s, a))
  {
    match a
    case Activate(enable) => ActivateKeepsInv(s, enable);
    case Resume(state) => ResumeKeepsInv(s, state);
    case _ => QuietStepKeepsInv(s, a);
  }

  lemma {:induction false} PathStepKeepsInv(ss: seq<Sensor>, steps: seq<Step>, i: nat)
    requires IsPath(ss, steps) && 0 < i < |ss| && Inv(ss[i - 1])
    ensures Inv(ss[i])
  {
    PathStep(ss, steps, i);
    StepKeepsInv(ss[i - 1], steps[i - 1]);
  }

  lemma {:induction false} RunInv(ss: seq<Sensor>, steps: seq<Step>, i: nat)
    requires IsRun(ss, steps) && i < |ss|
    ensures Inv(ss[i])
  {
    if i != 0 {
      RunInv(ss, steps, i - 1);
      PathStepKeepsInv(ss, steps, i);
    }
  }

  // ---- One event per arming ----

  function Armings(log: seq<Mark>): nat {
    if log == [] then 0 else Armings(log[..|log| - 1]) + (if log[|log| - 1].Armed? then 1 else 0)
  }

  function Posts(log: seq<Mark>): nat {
    if log == [] then 0 else Posts(log[..|log| - 1]) + (if log[|log| - 1].Posted? then 1 else 0)
  }

  lemma {:induction false} PostsBounded(log: seq<Mark>)
    requires EveryPostWasArmed(log)
    ensures Posts(log) + (if ArmedSincePost(log) then 1 else 0) <= Armings(log)
  {
    if log != [] {
      var before := log[..|log| - 1];
      forall i | 0 <= i < |before| && before[i].Posted?
        ensures ArmedSincePost(before[..i])
      {
        assert before[..i] == log[..i];
      }
      PostsBounded(before);
    }
  }

  lemma {:induction false} ArmedSinceFinds(log: seq<Mark>, i: nat)
    requires i < |log| && log[i].Posted? && ArmedSincePost(log)
    ensures exists k :: i < k < |log| && log[k] == Armed
  {
    var n := |log| - 1;
    if log[n].Armed? {
      assert log[n] == Armed && i < n;
    } else {
      ArmedSinceFinds(log[..n], i);
      var k :| i < k < n && log[..n][k] == Armed;
      assert log[k] == Armed;
    }
  }

  /** One-shot safety: over every interleaving, between any two posted events the sensor was armed, and events
      never outnumber armings. */
  lemma {:induction false} OneEventPerArming(ss: seq<Sensor>, steps: seq<Step>, n: nat)
    requires IsRun(ss, steps) && n < |ss|
    ensures var log := ss[n].log;
            && Posts(log) <= Armings(log)
            && (forall i, j :: 0 <= i < j < |log| && log[i].Posted? && log[j].Posted? ==>
                  exists k :: i < k < j && log[k] == Armed)
  {
    RunInv(ss, steps, n);
    var log := ss[n].log;
    PostsBounded(log);
    forall i, j | 0 <= i < j < |log| && log[i].Posted? && log[j].Posted?
      ensures exists k :: i < k < j && log[k] == Armed
    {
      ArmedSinceFinds(log[..j], i);
      var k :| i < k < j && log[..j][k] == Armed;
      assert log[k] == Armed;
    }
  }

  // ---- Events while disabled ----

  /** The thread is past its check of the enabled flag, which is not repeated after poll: it is inside poll, or
      back from it with a device report. */
  predicate CanStillPost(t: Thread) {
    t.Polling? || (t.Polled? && !t.failed && t.deviceReady)
  }

  predicate NoArming(steps: seq<Step>) {
    forall i :: 0 <= i < |steps| ==> steps[i] != Activate(true)
  }

  predicate IsQuiet(s: Sensor) {
    !s.enabled && !CanStillPost(s.thread)
  }

  lemma {:induction false} QuietStep(s: Sensor, a: Step)
    requires IsQuiet(s) && May(s, a) && a != Activate(true)
    ensures IsQuiet(Do(s, a)) && Do(s, a).log == s.log
  {
  }

  /** A disabled sensor whose thread cannot still post stays so, and posts nothing, until it is armed. */
  lemma {:induction false} QuietUntilArmed(ss: seq<Sensor>, steps: seq<Step>, n: nat)
    requires IsPath(ss, steps) && NoArming(steps) && n < |ss| && IsQuiet(ss[0])
    ensures IsQuiet(ss[n]) && ss[n].log == ss[0].log
  {
    if n != 0 {
      QuietUntilArmed(ss, steps, n - 1);
      PathStep(ss, steps, n);
      QuietStep(ss[n - 1], steps[n - 1]);
    }
  }

  lemma {:induction false} PolledPathPosts(s: Sensor)
    requires s.thread.Polled? && CanStillPost(s.thread)
    ensures IsPath([s, Do(s, Resume(true))], [Resume(true)])
    ensures Do(s, Resume(true)).log == s.log + [Posted(s.enabled)]
  {
  }

  lemma {:induction false} PollingPathPosts(s: Sensor)
    requires s.thread.Polling?
    ensures var back := PollReturn(false, s.pipe > 0, true);
            var s1 := Do(s, back);
            var s2 := Do(s1, Resume(true));
            IsPath([s, s1, s2], [back, Resume(true)]) && s2.log == s.log + [Posted(s.enabled)]
  {
  }

  /** A disabled sensor can still post before it is armed again exactly when its thread is past the check. */
  lemma {:induction false} PostsWhileDisabledIff(s: Sensor)
    requires !s.enabled
    ensures CanStillPost(s.thread) <==>
              exists ss: seq<Sensor>, steps: seq<Step> ::
                IsPath(ss, steps) && ss[0] == s && NoArming(steps) && ss[|steps|].log == s.log + [Posted(false)]
  {
    if s.thread.Polling? {
      PollingPathPosts(s);
      var back := PollReturn(false, s.pipe > 0, true);
      var s1 := Do(s, back);
      var ss, steps := [s, s1, Do(s1, Resume(true))], [back, Resume(true)];
      assert IsPath(ss, steps) && ss[0] == s && NoArming(steps) && ss[|steps|].log == s.log + [Posted(false)];
    } else if CanStillPost(s.thread) {
      PolledPathPosts(s);
      var ss, steps := [s, Do(s, Resume(true))], [Resume(true)];
      assert IsPath(ss, steps) && ss[0] == s && NoArming(steps) && ss[|steps|].log == s.log + [Posted(false)];
    } else {
      forall ss: seq<Sensor>, steps: seq<Step> | IsPath(ss, steps) && ss[0] == s && NoArming(steps)
        ensures ss[|steps|].log == s.log
      {
        QuietUntilArmed(ss, steps, |steps|);
      }
    }
  }

  lemma {:induction false} PostsNoMoreStep(s: Sensor, a: Step)
    requires !s.enabled && May(s, a) && a != Activate(true)
    ensures !Do(s, a).enabled
    ensures Do(s, a).log == s.log || (Do(s, a).log == s.log + [Posted(false)] && IsQuiet(Do(s, a)))
  {
  }

  /** And then it posts that one event at most. */
  lemma {:induction false} OnePostWhileDisabled(ss: seq<Sensor>, steps: seq<Step>, n: nat)
    requires IsPath(ss, steps) && NoArming(steps) && n < |ss| && !ss[0].enabled
    ensures !ss[n].enabled
    ensures ss[n].log == ss[0].log || (ss[n].log == ss[0].log + [Posted(false)] && IsQuiet(ss[n]))
  {
    if n != 0 {
      OnePostWhileDisabled(ss, steps, n - 1);
      PathStep(ss, steps, n);
      PostsNoMoreStep(ss[n - 1], steps[n - 1]);
      if IsQuiet(ss[n - 1]) {
        QuietStep(ss[n - 1], steps[n - 1]);
      }
    }
  }

  /** A run that does so: armed, disarmed while polling, and then the device reports a touch. */
  lemma {:induction false} EventAfterDisarm()
    ensures exists ss: seq<Sensor>, steps: seq<Step> ::
      IsRun(ss, steps) && ss[|steps|].log == [Armed, Disarmed, Posted(false)]
  {
    var steps := [Activate(true), Begin, PollReturn(false, true, true), Activate(false), Resume(true)];
    var s1 := Do(INIT, steps[0]);
    var s2 := Do(s1, steps[1]);
    var s3 := Do(s2, steps[2]);
    var s4 := Do(s3, steps[3]);
    var s5 := Do(s4, steps[4]);
    var ss := [INIT, s1, s2, s3, s4, s5];
    assert IsRun(ss, steps);
    assert ss[|steps|].log == [Armed, Disarmed, Posted(false)];
  }

  // ---- No lost wake-ups ----

  /** No lost disarm: a thread inside poll while the sensor is disabled or injecting data has an unread byte to
      wake it, or a setOperationMode call is still to write one. */
  lemma {:induction false} NoLostDisarm(ss: seq<Sensor>, steps: seq<Step>, n: nat)
    requires IsRun(ss, steps) && n < |ss|
    requires ss[n].thread.Polling? && !MayPoll(ss[n])
    ensures ss[n].pipe > 0 || ss[n].interrupting > 0
  {
    RunInv(ss, steps, n);
  }

  /** And the byte is enough: poll can return at once, and the thread then blocks on the condition variable,
      whether or not the device reported a touch meanwhile. */
  lemma {:induction false} DisarmEndsPolling(s: Sensor, deviceReady: bool, state: bool)
    requires s.thread.Polling? && !MayPoll(s) && s.pipe > 0
    ensures May(s, PollReturn(false, true, deviceReady))
    ensures var s' := Do(s, PollReturn(false, true, deviceReady));
            && May(s', Resume(state)) && Do(s', Resume(state)).thread == Waiting(false)
            && Do(s', Resume(state)).pipe == if deviceReady && state then s.pipe else s.pipe - 1
  {
  }

  /** The read from the pipe, done with the lock held, finds a byte: it cannot block the callers out. */
  lemma {:induction false} ReadNeverBlocks(ss: seq<Sensor>, steps: seq<Step>, n: nat)
    requires IsRun(ss, steps) && n < |ss|
    requires ss[n].thread.Polled? && !ss[n].thread.failed && ss[n].thread.pipeReady
    ensures ss[n].pipe > 0
  {
    RunInv(ss, steps, n);
  }

  /** No lost arming: a thread blocked on the condition variable while the sensor may poll has been notified. */
  lemma {:induction false} NoLostArming(ss: seq<Sensor>, steps: seq<Step>, n: nat)
    requires IsRun(ss, steps) && n < |ss|
    requires ss[n].thread.Waiting? && MayPoll(ss[n])
    ensures ss[n].thread.notified && Do(ss[n], WakeUp).thread == Polling
  {
    RunInv(ss, steps, n);
  }

  // ---- What the flag, the mode, the log and the thread tell about the steps taken ----

  /** The step at which the thread acts on a touch: back from poll without an error, with a device report that the
      state confirms. */
  predicate Touches(s: Sensor, a: Step) {
    a == Resume(true) && s.thread.Polled? && !s.thread.failed && s.thread.deviceReady
  }

  predicate ArmedAt(ss: seq<Sensor>, steps: seq<Step>, k: nat, n: nat)
    requires k < n <= |steps| < |ss|
  {
    steps[k] == Activate(true) && forall j :: k < j < n ==> steps[j] != Activate(false) && !Touches(ss[j], steps[j])
  }

  predicate IsArmed(ss: seq<Sensor>, steps: seq<Step>, n: nat)
    requires n <= |steps| < |ss|
  {
    exists k :: 0 <= k < n && ArmedAt(ss, steps, k, n)
  }

  lemma {:induction false} IsArmedStep(ss: seq<Sensor>, steps: seq<Step>, n: nat)
    requires n < |steps| < |ss|
    ensures IsArmed(ss, steps, n + 1) <==>
              steps[n] == Activate(true) ||
              (IsArmed(ss, steps, n) && steps[n] != Activate(false) && !Touches(ss[n], steps[n]))
  {
    if IsArmed(ss, steps, n + 1) {
      var k :| 0 <= k < n + 1 && ArmedAt(ss, steps, k, n + 1);
      if k < n {
        assert ArmedAt(ss, steps, k, n);
      }
    }
    if steps[n] == Activate(true) {
      assert ArmedAt(ss, steps, n, n + 1);
    } else if IsArmed(ss, steps, n) && steps[n] != Activate(false) && !Touches(ss[n], steps[n]) {
      var k :| 0 <= k < n && ArmedAt(ss, steps, k, n);
      assert ArmedAt(ss, steps, k, n + 1);
    }
  }

  lemma {:induction false} EnabledStep(s: Sensor, a: Step)
    requires May(s, a)
    ensures Do(s, a).enabled <==> a == Activate(true) || (s.enabled && a != Activate(false) && !Touches(s, a))
  {
  }

  lemma {:induction false} ArmedStep(ss: seq<Sensor>, steps: seq<Step>, n: nat)
    requires n < |steps| < |ss| && May(ss[n], steps[n]) && ss[n + 1] == Do(ss[n], steps[n])
    requires ss[n].enabled <==> IsArmed(ss, steps, n)
    ensures ss[n + 1].enabled <==> IsArmed(ss, steps, n + 1)
  {
    EnabledStep(ss[n], steps[n]);
    IsArmedStep(ss, steps, n);
  }

  lemma {:induction false} PathStepEnabled(ss: seq<Sensor>, steps: seq<Step>, n: nat)
    requires IsPath(ss, steps) && 0 < n < |ss| && (ss[n - 1].enabled <==> IsArmed(ss, steps, n - 1))
    ensures ss[n].enabled <==> IsArmed(ss, steps, n)
  {
    PathStep(ss, steps, n);
    ArmedStep(ss, steps, n - 1);
  }

  /** Over any run the sensor is enabled exactly if some arming came after every disarming and every touch. */
  lemma {:induction false} EnabledTellsHistory(ss: seq<Sensor>, steps: seq<Step>, n: nat)
    requires IsRun(ss, steps) && n < |ss|
    ensures ss[n].enabled <==> IsArmed(ss, steps, n)
  {
    var k := 0;
    while k != n
      invariant k <= n && (ss[k].enabled <==> IsArmed(ss, steps, k))
    {
      k := k + 1;
      PathStepEnabled(ss, steps, k);
    }
  }

  /** A touch is logged as an event, and any other step by the change of the flag it makes, if it makes one. */
  lemma {:induction false} MarksAreChanges(s: Sensor, a: Step)
    requires May(s, a)
    ensures var s' := Do(s, a);
            s'.log == s.log + (if Touches(s, a) then [Posted(s.enabled)]
                               else if s'.enabled == s.enabled then []
                               else if s'.enabled then [Armed] else [Disarmed])
  {
    assert s.log + [] == s.log;
  }

  function LastMode(steps: seq<Step>, n: nat): OperationMode
    requires n <= |steps|
  {
    if n == 0 then NORMAL else if steps[n - 1].SetMode? then steps[n - 1].mode else LastMode(steps, n - 1)
  }

  lemma {:induction false} ModeIsLastSet(ss: seq<Sensor>, steps: seq<Step>, n: nat)
    requires IsRun(ss, steps) && n < |ss|
    ensures ss[n].mode == LastMode(steps, n)
  {
    if n != 0 {
      ModeIsLastSet(ss, steps, n - 1);
      PathStep(ss, steps, n);
    }
  }

  /** Whenever the thread starts, wakes up, or comes back from poll without an error, it polls next iff the sensor
      is then enabled in normal mode, and waits otherwise. */
  lemma {:induction false} PollsIffArmed(s: Sensor, a: Step)
    requires May(s, a) && (a.Begin? || a.WakeUp? || (a.Resume? && !s.thread.failed))
    ensures var s' := Do(s, a);
            s'.thread == if s'.enabled && s'.mode == NORMAL then Polling else Waiting(false)
  {
  }

  lemma {:induction false} StopStep(s: Sensor, a: Step)
    requires May(s, a)
    ensures Do(s, a).thread == Stopped <==> s.thread == Stopped || (a.Resume? && s.thread.failed)
  {
  }

  predicate PollFailedBefore(ss: seq<Sensor>, steps: seq<Step>, n: nat)
    requires n <= |steps| < |ss|
  {
    exists k :: 0 <= k < n && steps[k].Resume? && ss[k].thread.Polled? && ss[k].thread.failed
  }

  lemma {:induction false} PollFailedStep(ss: seq<Sensor>, steps: seq<Step>, n: nat)
    requires n < |steps| < |ss|
    ensures PollFailedBefore(ss, steps, n + 1) <==>
              PollFailedBefore(ss, steps, n) || (steps[n].Resume? && ss[n].thread.Polled? && ss[n].thread.failed)
  {
  }

  /** The thread stops exactly after a failed poll, and for good. */
  lemma {:induction false} StopsIffPollFailed(ss: seq<Sensor>, steps: seq<Step>, n: nat)
    requires IsRun(ss, steps) && n < |ss|
    ensures ss[n].thread == Stopped <==> PollFailedBefore(ss, steps, n)
  {
    if n != 0 {
      StopsIffPollFailed(ss, steps, n - 1);
      PathStep(ss, steps, n);
      StopStep(ss[n - 1], steps[n - 1]);
      PollFailedStep(ss, steps, n - 1);
    }
  }

  // ---- The bytes in the pipe ----

  function Changes(log: seq<Mark>): nat {
    if log == [] then 0 else Changes(log[..|log| - 1]) + if log[|log| - 1].Posted? then 0 else 1
  }

  function ModeCalls(steps: seq<Step>, n: nat): nat
    requires n <= |steps|
  {
    if n == 0 then 0 else ModeCalls(steps, n - 1) + if steps[n - 1].SetMode? then 1 else 0
  }

  function Interrupts(steps: seq<Step>, n: nat): nat
    requires n <= |steps|
  {
    if n == 0 then 0 else Interrupts(steps, n - 1) + if steps[n - 1].Interrupt? then 1 else 0
  }

  /** The thread reads the pipe when it comes back from poll with a readable pipe and no touch. */
  predicate Reads(s: Sensor, a: Step) {
    a.Resume? && s.thread.Polled? && !s.thread.failed && s.thread.pipeReady && !Touches(s, a)
  }

  function ReadCount(ss: seq<Sensor>, steps: seq<Step>, n: nat): nat
    requires n <= |steps| < |ss|
  {
    if n == 0 then 0 else ReadCount(ss, steps, n - 1) + if Reads(ss[n - 1], steps[n - 1]) then 1 else 0
  }

  lemma {:induction false} ChangesPush(log: seq<Mark>, m: Mark)
    ensures Changes(log + [m]) == Changes(log) + if m.Posted? then 0 else 1
  {
    assert (log + [m])[..|log|] == log;
  }

  // What activate adds to the log it adds to the pipe.
  lemma {:induction false} ActivatePipe(s: Sensor, enable: bool)
    ensures var s' := Activated(s, enable);
            s'.pipe - s.pipe == Changes(s'.log) - Changes(s.log) && s'.interrupting == s.interrupting
  {
    if s.enabled != enable {
      ChangesPush(s.log, if enable then Armed else Disarmed);
    }
  }

  lemma {:induction false} ResumePipe(s: Sensor, state: bool)
    requires ThreadInv(s) && s.thread.Polled?
    ensures var s' := Resumed(s, state);
            && s'.pipe + (if Reads(s, Resume(state)) then 1 else 0) == s.pipe
            && Changes(s'.log) == Changes(s.log) && s'.interrupting == s.interrupting
  {
    ChangesPush(s.log, Posted(s.enabled));
  }

  lemma {:induction false} PipeStep(s: Sensor, a: Step)
    requires ThreadInv(s) && May(s, a)
    ensures var s' := Do(s, a);
            && s'.pipe + (if Reads(s, a) then 1 else 0) ==
               s.pipe + (Changes(s'.log) - Changes(s.log)) + (if a.Interrupt? then 1 else 0)
            && s'.interrupting + (if a.Interrupt? then 1 else 0) == s.interrupting + if a.SetMode? then 1 else 0
  {
    match a
    case Activate(enable) => ActivatePipe(s, enable);
    case Resume(state) => ResumePipe(s, state);
    case _ =>
  }

  /** Over any run every byte is accounted for: the pipe holds one for each change by activate and each finished mode
      call, less one for each read; and the interrupts due are those of the unfinished mode calls. */
  lemma {:induction false} PipeConservation(ss: seq<Sensor>, steps: seq<Step>, n: nat)
    requires IsRun(ss, steps) && n < |ss|
    ensures ss[n].pipe + ReadCount(ss, steps, n) == Changes(ss[n].log) + Interrupts(steps, n)
    ensures ss[n].interrupting + Interrupts(steps, n) == ModeCalls(steps, n)
  {
    if n != 0 {
      PipeConservation(ss, steps, n - 1);
      RunInv(ss, steps, n - 1);
      PathStep(ss, steps, n);
      PipeStep(ss[n - 1], steps[n - 1]);
    }
  }

  /** Neither a caller nor the device does anything: poll returns for the pipe alone. */
  predicate OnlyPipe(steps: seq<Step>) {
    forall i :: 0 <= i < |steps| ==> steps[i] == PollReturn(false, true, false) || steps[i].Resume?
  }

  function Returns(steps: seq<Step>, n: nat): nat
    requires n <= |steps|
  {
    if n == 0 then 0 else Returns(steps, n - 1) + if steps[n - 1].PollReturn? then 1 else 0
  }

  lemma {:induction false} DrainTurn(s: Sensor, a: Step, n: nat, bytes: nat)
    requires MayPoll(s) && May(s, a) && (a == PollReturn(false, true, false) || a.Resume?)
    requires s.thread == Polling || s.thread == Polled(false, true, false)
    requires s.pipe + n == bytes + if s.thread.Polled? then 1 else 0
    requires s.thread.Polled? ==> s.pipe > 0
    ensures var s' := Do(s, a);
            var n' := n + if a.PollReturn? then 1 else 0;
            && MayPoll(s') && (s'.thread == Polling || s'.thread == Polled(false, true, false))
            && s'.pipe + n' == bytes + (if s'.thread.Polled? then 1 else 0)
            && (s'.thread.Polled? ==> s'.pipe > 0)
  {
  }

  /** An armed thread does not spin: left alone it blocks in poll after exactly as many returns as there were bytes in
      the pipe, having read them all. */
  lemma {:induction false} ArmedThreadDrains(ss: seq<Sensor>, steps: seq<Step>, n: nat)
    requires IsPath(ss, steps) && n < |ss| && OnlyPipe(steps)
    requires ss[0].thread == Polling && MayPoll(ss[0])
    ensures MayPoll(ss[n]) && (ss[n].thread == Polling || ss[n].thread == Polled(false, true, false))
    ensures ss[n].thread.Polled? ==> ss[n].pipe > 0
    ensures ss[n].pipe + Returns(steps, n) == ss[0].pipe + if ss[n].thread.Polled? then 1 else 0
    ensures ss[n].thread == Polling ==>
              (May(ss[n], PollReturn(false, true, false)) <==> Returns(steps, n) < ss[0].pipe)
  {
    if n != 0 {
      ArmedThreadDrains(ss, steps, n - 1);
      PathStep(ss, steps, n);
      DrainTurn(ss[n - 1], steps[n - 1], Returns(steps, n - 1), ss[0].pipe);
    }
  }

  // ---- The gesture node of the tap sensors ----

  /** What the tap sensors write to their gesture-enable node: the new flag with every change, and false before
      an event. */
  function GestureWrites(log: seq<Mark>): seq<bool> {
    seq(|log|, i requires 0 <= i < |log| => log[i].Armed?)
  }

  /** So the node always shows whether the sensor is enabled. */
  lemma {:induction false} GestureNodeShowsEnabled(ss: seq<Sensor>, steps: seq<Step>, n: nat)
    requires IsRun(ss, steps) && n < |ss| && ss[n].log != []
    ensures GestureWrites(ss[n].log)[|ss[n].log| - 1] <==> ss[n].enabled
  {
    RunInv(ss, steps, n);
  }

  // ---- The sensor's fields ----

  class OneShot {
    var isEnabled: bool
    var mode: OperationMode
    var thread: Thread
    var pipe: nat
    ghost var interrupting: nat
    ghost var log: seq<Mark>
    // Whether this is a tap sensor, and what it has written to its gesture node.
    const isTap: bool
    ghost var gestureWrites: seq<bool>
    const flags: Flags

    ghost function Contents(): Sensor
      reads this
    {
      Sensor(isEnabled, mode, thread, pipe, interrupting, log)
    }

    ghost predicate GestureFollows()
      reads this
    {
      gestureWrites == if isTap then GestureWrites(log) else []
    }

    constructor (isTap: bool)
      ensures Contents() == INIT && flags == {0, 2} && this.isTap == isTap && GestureFollows()
    {
      this.isTap, gestureWrites := isTap, [];
      isEnabled, mode, thread, pipe := false, NORMAL, Starting, 0;
      interrupting, log := 0, [];
      flags := {WAKE_UP, ONE_SHOT_MODE};
    }

    method NotifyAll()
      modifies this`thread
      ensures Contents() == Notify(old(Contents()))
    {
      if thread.Waiting? {
        thread := Waiting(true);
      }
    }

    method WriteGestureEnable(enable: bool)
      modifies this`gestureWrites
      ensures gestureWrites == old(gestureWrites) + if isTap then [enable] else []
    {
      if isTap {
        gestureWrites := gestureWrites + [enable];
      }
    }

    method Activate(enable: bool)
      modifies this
      ensures Contents() == Activated(old(Contents()), enable)
      ensures old(GestureFollows()) ==> GestureFollows()
    {
      if isEnabled != enable {
        isEnabled := enable;
        log := log + [if enable then Armed else Disarmed];
        WriteGestureEnable(enable);
        pipe := pipe + 1;
        NotifyAll();
      }
    }

    /** The locked part of setOperationMode. */
    method UpdateMode(newMode: OperationMode)
      modifies this`mode, this`thread, this`pipe, this`interrupting
      ensures Contents() == ModeSet(old(Contents()), newMode)
    {
      if mode != newMode {
        mode := newMode;
        NotifyAll();
      }
      interrupting := interrupting + 1;
    }

    /** The unlocked rest of it. */
    method InterruptPoll()
      requires interrupting > 0
      modifies this`mode, this`thread, this`pipe, this`interrupting
      ensures Contents() == Interrupted(old(Contents()))
    {
      pipe := pipe + 1;
      interrupting := interrupting - 1;
    }

    method SetOperationMode(newMode: OperationMode)
      modifies this`mode, this`thread, this`pipe, this`interrupting
      ensures Contents() == Interrupted(ModeSet(old(Contents()), newMode))
    {
      UpdateMode(newMode);
      InterruptPoll();
    }

    /** The top of the run loop, reached with the lock held. */
    method LoopTop()
      modifies this`thread
      ensures Contents() == Decide(old(Contents()))
    {
      if !isEnabled || mode == DATA_INJECTION {
        thread := Waiting(false);
      } else {
        thread := Polling;
      }
    }

    /** The rest of the loop body once poll has returned and the lock is held again. */
    method AfterPoll(state: bool) returns (posts: bool)
      requires thread.Polled?
      modifies this
      ensures Contents() == Resumed(old(Contents()), state)
      ensures posts <==> |log| > |old(log)|
      ensures old(GestureFollows()) ==> GestureFollows()
    {
      posts := false;
      if thread.failed {
        thread := Stopped;
        return;
      }
      if thread.deviceReady && state {
        log := log + [Posted(isEnabled)];
        isEnabled := false;
        WriteGestureEnable(false);
        posts := true;
      } else if thread.pipeReady && pipe > 0 {
        pipe := pipe - 1;
      }
      LoopTop();
    }

    /** Injection never posts for these sensors: without the data-injection flag, bit 4, only environment events
        (type 33) are accepted, and those are not posted. */
    method InjectEvent(event: Event) returns (result: Result, posts: bool)
      ensures 4 !in flags ==> !posts && result == if event.sensorType == 33 then OK else INVALID_OPERATION
      ensures posts <==> event.sensorType != 33 && 4 in flags && mode == DATA_INJECTION
      ensures result == OK <==> posts || event.sensorType == 33
      ensures result == INVALID_OPERATION <==> event.sensorType != 33 && 4 !in flags
    {
      result, posts := OK, false;
      if event.sensorType == ADDITIONAL_INFO {
      } else if DATA_INJECTION_BIT !in flags {
        result := INVALID_OPERATION;
      } else if mode == DATA_INJECTION {
        posts := true;
      } else {
        result := BAD_VALUE;
      }
    }
  }
}
