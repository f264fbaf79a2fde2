/** What the event pipeline guarantees over every interleaving of posters and the writer thread: order,
    conservation, a single producer on the framework queue, exact accounting and covering write-offs. */
module EventDelivery {
  import opened SensorTypes
  import opened EventPipeline

  /** The posted events that are not dropped, in posted order. */
  function Survivors(posted: seq<Event>, lost: set<nat>): seq<Event> {
    if posted == [] then []
    else
      var last := |posted| - 1;
      Survivors(posted[..last], lost) + (if last in lost then [] else [posted[last]])
  }

  lemma {:induction false} SurvivorsOfNothingLost(posted: seq<Event>)
    ensures Survivors(posted, {}) == posted
  {
    if posted != [] {
      SurvivorsOfNothingLost(posted[..|posted| - 1]);
    }
  }

  lemma {:induction false} SurvivorsIgnoreLater(posted: seq<Event>, lost: set<nat>, p: nat)
    requires |posted| <= p
    ensures Survivors(posted, lost) == Survivors(posted, lost - {p})
  {
    if posted != [] {
      SurvivorsIgnoreLater(posted[..|posted| - 1], lost, p);
    }
  }

  lemma {:induction false} SurvivorsCount(posted: seq<Event>, lost: set<nat>)
    requires forall p :: p in lost ==> p < |posted|
    ensures |Survivors(posted, lost)| + |lost| == |posted|
  {
    if posted == [] {
      assert lost == {};
    } else {
      var last := |posted| - 1;
      SurvivorsIgnoreLater(posted[..last], lost, last);
      SurvivorsCount(posted[..last], lost - {last});
    }
  }

  lemma {:induction false} TopComesLast(ks: seq<nat>, top: nat)
    requires Increasing(ks) && top in ks && forall i :: 0 <= i < |ks| ==> ks[i] <= top
    ensures ks[|ks| - 1] == top
  {
    var i :| 0 <= i < |ks| && ks[i] == top;
    var m := |ks| - 1;
    assert ks[i] <= ks[m];
  }

  lemma {:induction false} PicksWithin(posted: seq<Event>, ks: seq<nat>, es: seq<Event>, top: nat)
    requires Picks(posted, ks, es) && top <= |posted|
    requires forall i :: 0 <= i < |ks| ==> ks[i] < top
    ensures Picks(posted[..top], ks, es)
  {
    forall i | 0 <= i < |ks|
      ensures PicksAt(posted[..top], ks, es, i)
    {
      assert PicksAt(posted, ks, es, i);
    }
  }

  // Increasing positions that avoid exactly the lost ones pick the survivors.
  lemma {:induction false} PicksAreSurvivors(posted: seq<Event>, ks: seq<nat>, es: seq<Event>, lost: set<nat>)
    requires Increasing(ks) && Picks(posted, ks, es)
    requires forall p: nat :: p < |posted| ==> (p in ks <==> p !in lost)
    ensures es == Survivors(posted, lost)
  {
    PicksBounded(posted, ks, es);
    if posted != [] {
      var last := |posted| - 1;
      if last in lost {
        assert last !in ks;
        PicksWithin(posted, ks, es, last);
        PicksAreSurvivors(posted[..last], ks, es, lost);
      } else {
        TopComesLast(ks, last);
        var m := |ks| - 1;
        assert ks == ks[..m] + [last];
        assert PicksAt(posted, ks, es, m);
        PicksSplit(posted, ks, es, m);
        PicksWithin(posted, ks[..m], es[..m], last);
        PicksAreSurvivors(posted[..last], ks[..m], es[..m], lost);
      }
    }
  }

  lemma {:induction false} InvGivesOrder(h: History, undecided: seq<Event>)
    requires HistoryInv(h, undecided)
    ensures h.delivered + undecided == Survivors(h.posted, h.lost)
  {
    PicksAreSurvivors(h.posted, h.kept, h.delivered + undecided, h.lost);
  }

  /** FIFO delivery, in every reachable state of every interleaving: the events written to the framework queue
      followed by those still to be decided are the posted events, in the order their posters took the mutex,
      with exactly the dropped ones removed. */
  lemma {:induction false} FifoDelivery(c: Config, states: seq<State>, steps: seq<Step>, i: nat)
    requires c.capacity >= 1 && IsRun(c, states, steps) && i < |states|
    ensures var s := states[i];
            && s.h.delivered + Undecided(s.q) == Survivors(s.h.posted, s.h.lost)
            && (s.q.writer.Idle? ==> Undecided(s.q) == Flatten(s.q.pending))
  {
    RunInv(c, states, steps, i);
    InvGivesOrder(states[i].h, Undecided(states[i].q));
  }

  /** When a step drops events: a leftover that does not fit, or a chunk whose blocking write failed. */
  predicate Drops(c: Config, s: State, a: Step) {
    match a
    case Post(events, _, available, writeOk) =>
      var n := DirectCount(s.q, |events|, available, writeOk);
      n < |events| && c.maxPending < s.q.size + |events| - n
    case WriteReturn(ok) => !ok
    case _ => false
  }

  lemma {:induction false} ExtendLoss(h: History, undecided: seq<Event>, events: seq<Event>, n: nat, end: nat)
    requires HistoryInv(h, undecided) && n <= end <= |events|
    ensures Extend(h, events, n, end).lost != h.lost <==> end < |events|
  {
    var base, lost' := |h.posted|, Extend(h, events, n, end).lost;
    if end < |events| {
      assert Range(base + end, base + |events|)[0] == base + end;
      assert base + end in lost' && base + end !in h.lost;
    } else {
      assert lost' == h.lost;
    }
  }

  /** An oversized leftover loses precisely the posted positions after the directly written part. */
  lemma {:induction false} PostLoss(c: Config, s: State, a: Step, s': State)
    requires Inv(c, s) && Next(c, s, a, s') && a.Post?
    ensures s'.h.lost != s.h.lost <==> Drops(c, s, a)
    ensures Drops(c, s, a) ==>
              var kept := |s.h.posted| + DirectCount(s.q, |a.events|, a.available, a.writeOk);
              s'.h.lost == s.h.lost + Positions(Range(kept, |s'.h.posted|))
  {
    ExtendLoss(s.h, Undecided(s.q), a.events, DirectCount(s.q, |a.events|, a.available, a.writeOk),
               KeptEnd(c, s.q, |a.events|, a.available, a.writeOk));
  }

  lemma {:induction false} LosingFrontLoses(h: History, undecided: seq<Event>, n: nat)
    requires HistoryInv(h, undecided) && 0 < n <= |undecided|
    ensures var m := |h.delivered|;
            m + n <= |h.kept| && h.lost + Positions(h.kept[m..m + n]) != h.lost
  {
    var m := |h.delivered|;
    var k := h.kept[m];
    assert h.kept[m..m + n][0] == k;
    PicksBounded(h.posted, h.kept, h.delivered + undecided);
    assert k in Positions(h.kept[m..m + n]) && k !in h.lost;
  }

  /** A failed write loses precisely the chunk, which is never empty. */
  lemma {:induction false} FailedWriteLoss(c: Config, s: State, s': State)
    requires c.capacity >= 1 && Inv(c, s) && Next(c, s, WriteReturn(false), s')
    ensures var m, n := |s.h.delivered|, s.q.writer.count;
            && 0 < n && s'.h.lost == s.h.lost + Positions(s.h.kept[m..m + n]) != s.h.lost
            && Undecided(s'.q) == Undecided(s.q)[n..]
    ensures s'.h.delivered == s.h.delivered
  {
    WriteReturnSettlesFront(c, s, false);
    assert EntryOk(c, s.q.pending[0]);
    LosingFrontLoses(s.h, Undecided(s.q), s.q.writer.count);
  }

  /** Positions are lost by exactly the dropping steps. */
  lemma {:induction false} LossIsExplicit(c: Config, s: State, a: Step, s': State)
    requires c.capacity >= 1 && Inv(c, s) && Next(c, s, a, s')
    ensures s'.h.lost != s.h.lost <==> Drops(c, s, a)
  {
    if a.Post? {
      PostLoss(c, s, a, s');
    } else if a == WriteReturn(false) {
      FailedWriteLoss(c, s, s');
    }
  }

  lemma {:induction false} PathStepLoses(c: Config, states: seq<State>, steps: seq<Step>, i: nat)
    requires c.capacity >= 1 && IsPath(c, states, steps) && 0 < i < |states|
    requires Inv(c, states[i - 1])
    ensures states[i].h.lost != states[i - 1].h.lost <==> Drops(c, states[i - 1], steps[i - 1])
  {
    PathNext(c, states, steps, i);
    LossIsExplicit(c, states[i - 1], steps[i - 1], states[i]);
  }

  lemma {:induction false} NothingLostYet(c: Config, states: seq<State>, steps: seq<Step>, i: nat)
    requires c.capacity >= 1 && IsRun(c, states, steps) && i < |states|
    requires forall j :: 0 <= j < i ==> !Drops(c, states[j], steps[j])
    ensures states[i].h.lost == {}
  {
    if i != 0 {
      NothingLostYet(c, states, steps, i - 1);
      RunInv(c, states, steps, i - 1);
      PathStepLoses(c, states, steps, i);
    }
  }

  /** Without a dropping step, delivery is exactly the posted sequence. */
  lemma {:induction false} LosslessDelivery(c: Config, states: seq<State>, steps: seq<Step>, i: nat)
    requires c.capacity >= 1 && IsRun(c, states, steps) && i < |states|
    requires forall j :: 0 <= j < i ==> !Drops(c, states[j], steps[j])
    ensures states[i].h.delivered + Undecided(states[i].q) == states[i].h.posted
  {
    FifoDelivery(c, states, steps, i);
    NothingLostYet(c, states, steps, i);
    SurvivorsOfNothingLost(states[i].h.posted);
  }

  lemma {:induction false} NoEntryIsEmpty(c: Config, pending: seq<Entry>)
    requires EntriesOk(c, pending)
    ensures forall j :: 0 <= j < |pending| ==> pending[j].events != []
  {
    if pending != [] {
      NoEntryIsEmpty(c, pending[1..]);
      assert pending == [pending[0]] + pending[1..];
    }
  }

  /** Conservation and accounting: every posted event is delivered, dropped or undecided, once; the size field
      is the number of pending events and within its limit; and no pending batch is empty. */
  lemma {:induction false} Conservation(c: Config, states: seq<State>, steps: seq<Step>, i: nat)
    requires c.capacity >= 1 && IsRun(c, states, steps) && i < |states|
    ensures var s := states[i];
            && |s.h.posted| == |s.h.delivered| + |s.h.lost| + |Undecided(s.q)|
            && s.q.size == |Flatten(s.q.pending)| <= c.maxPending
            && (forall j :: 0 <= j < |s.q.pending| ==> s.q.pending[j].events != [])
  {
    RunInv(c, states, steps, i);
    FifoDelivery(c, states, steps, i);
    SurvivorsCount(states[i].h.posted, states[i].h.lost);
    NoEntryIsEmpty(c, states[i].q.pending);
  }

  lemma {:induction false} MostStep(c: Config, states: seq<State>, steps: seq<Step>, i: nat)
    requires c.capacity >= 1 && IsRun(c, states, steps) && i < |steps|
    ensures states[i + 1].q.most == Max(states[i].q.most, states[i + 1].q.size)
  {
    RunInv(c, states, steps, i);
    var s, a, s' := states[i], steps[i], states[i + 1];
    assert Next(c, s, a, s');
    StepKeepsInv(c, s, a, s');
  }

  lemma {:induction false} RunningMaximum(xs: seq<int>, maxima: seq<int>, i: nat)
    requires |xs| == |maxima| && i < |xs| && xs[0] == maxima[0]
    requires forall j :: 0 < j < |xs| ==> maxima[j] == Max(maxima[j - 1], xs[j])
    ensures forall j :: 0 <= j <= i ==> xs[j] <= maxima[i]
    ensures maxima[i] in xs[..i + 1]
  {
    if i != 0 {
      RunningMaximum(xs, maxima, i - 1);
      assert xs[..i + 1] == xs[..i] + [xs[i]];
    }
  }

  /** The observed maximum is the running maximum of the size field: an upper bound that some state reached. */
  lemma {:induction false} MostIsRunningMaximum(c: Config, states: seq<State>, steps: seq<Step>, i: nat)
    requires c.capacity >= 1 && IsRun(c, states, steps) && i < |states|
    ensures forall j :: 0 <= j <= i ==> states[j].q.size <= states[i].q.most
    ensures exists j :: 0 <= j <= i && states[j].q.size == states[i].q.most
  {
    var sizes := seq(|states|, j requires 0 <= j < |states| => states[j].q.size);
    var maxima := seq(|states|, j requires 0 <= j < |states| => states[j].q.most);
    forall j | 0 < j < |states|
      ensures maxima[j] == Max(maxima[j - 1], sizes[j])
    {
      MostStep(c, states, steps, j - 1);
    }
    RunningMaximum(sizes, maxima, i);
    var j :| 0 <= j <= i && sizes[j] == maxima[i];
    assert states[j].q.size == states[i].q.most;
    forall j | 0 <= j <= i
      ensures states[j].q.size <= states[i].q.most
    {
      assert sizes[j] <= maxima[i];
    }
  }

  /** A single producer and a stable front: from choosing a chunk until erasing it, no poster writes to the
      framework queue, and the front batch the unlocked writer refers to neither moves nor changes. */
  lemma {:induction false} SingleWriter(c: Config, states: seq<State>, steps: seq<Step>, i: nat)
    requires c.capacity >= 1 && IsRun(c, states, steps) && i < |steps|
    requires !states[i].q.writer.Idle? && steps[i].Post?
    ensures states[i + 1].h.delivered == states[i].h.delivered
    ensures states[i].q.pending != [] && states[i].q.pending <= states[i + 1].q.pending
    ensures states[i + 1].q.writer == states[i].q.writer
  {
    RunInv(c, states, steps, i);
    assert Next(c, states[i], steps[i], states[i + 1]);
  }

  /** The chunk that is finally erased is the one that was chosen: whatever happens between a Choose and the
      matching Finish, the front batch, the chunk length and the writer's copy of the count stay the same. */
  lemma {:induction false} ChunkIsStable(c: Config, states: seq<State>, steps: seq<Step>, i: nat, j: nat)
    requires c.capacity >= 1 && IsRun(c, states, steps) && i < j < |states|
    requires steps[i] == Choose
    requires forall k :: i < k < j ==> steps[k] != Finish
    ensures !states[j].q.writer.Idle? && states[j].q.pending != [] && states[i].q.pending != []
    ensures states[j].q.pending[0] == states[i].q.pending[0]
    ensures states[j].q.writer.count == Min(|states[i].q.pending[0].events|, c.capacity)
    decreases j - i
  {
    assert Next(c, states[j - 1], steps[j - 1], states[j]);
    if j > i + 1 {
      ChunkIsStable(c, states, steps, i, j - 1);
    }
  }

  /** A post writes directly as much as it may, then either keeps or drops its whole leftover; what it keeps
      goes behind everything undecided. */
  lemma {:induction false} PostOutcome(c: Config, s: State, a: Step, s': State)
    requires c.capacity >= 1 && Inv(c, s) && Next(c, s, a, s') && a.Post?
    ensures var direct := if Undecided(s.q) + Flatten(s.q.pending) == [] && a.writeOk
                          then Min(|a.events|, a.available) else 0;
            && s'.h.posted == s.h.posted + a.events
            && s'.h.delivered == s.h.delivered + a.events[..direct]
            && (!Drops(c, s, a) ==> Undecided(s'.q) == Undecided(s.q) + a.events[direct..])
            && (Drops(c, s, a) ==> Undecided(s'.q) == Undecided(s.q) && s'.q == s.q)
  {
    PostKeepsQueueInv(c, s, a.events, a.wakeups, a.available, a.writeOk);
    if s.q.pending != [] {
      assert EntryOk(c, s.q.pending[0]);
      FrontOfFlatten(s.q.pending, 0);
    }
  }

  /** Write-offs cover the loss: the references given back for a failed chunk are at least its wake-up events,
      and exactly those unless the rest of an entry is written off at once with a larger recorded count. */
  lemma {:induction false} WriteOffCoversChunk(c: Config, s: State)
    requires Inv(c, s) && s.q.writer.WriteFailed?
    ensures s.q.pending != [] && s.q.writer.count <= |s.q.pending[0].events|
    ensures var front := s.q.pending[0];
            var amount := WriteOffAmount(c, front, s.q.writer.wakeups);
            var dropped := CountWakeups(c.wake, front.events[..s.q.writer.count]);
            && dropped <= amount
            && (amount == dropped <==>
                |front.events| > c.capacity || front.wakeups == CountWakeups(c.wake, front.events))
  {
    var front := s.q.pending[0];
    assert EntryOk(c, front);
    CountWakeupsSplit(c.wake, front.events, s.q.writer.count);
    if |front.events| <= c.capacity {
      assert front.events[..s.q.writer.count] == front.events;
    }
  }

  // The wake-up events of a chunk whose write has failed but is not written off yet.
  function FailedChunk(c: Config, q: Queue): nat {
    if q.writer.WriteFailed? && q.pending != [] && q.writer.count <= |q.pending[0].events|
    then CountWakeups(c.wake, q.pending[0].events[..q.writer.count])
    else 0
  }

  lemma {:induction false} PostKeepsFailedChunk(c: Config, s: State, a: Step, s': State)
    requires Inv(c, s) && Next(c, s, a, s') && a.Post?
    ensures FailedChunk(c, s'.q) == FailedChunk(c, s.q)
  {
  }

  // The wake-up events a step drops by a failed write, and the references it gives back.
  function DroppedBy(c: Config, a: Step, s': State): nat {
    if a == WriteReturn(false) then FailedChunk(c, s'.q) else 0
  }

  function GivenBackBy(c: Config, s: State, a: Step): nat {
    if a == WriteOff && s.q.writer.WriteFailed? && s.q.pending != []
    then WriteOffAmount(c, s.q.pending[0], s.q.writer.wakeups)
    else 0
  }

  function DroppedByFailures(c: Config, states: seq<State>, steps: seq<Step>, n: nat): nat
    requires n <= |steps| < |states|
  {
    if n == 0 then 0
    else DroppedByFailures(c, states, steps, n - 1) + DroppedBy(c, steps[n - 1], states[n])
  }

  function WrittenOff(c: Config, states: seq<State>, steps: seq<Step>, n: nat): nat
    requires n <= |steps| < |states|
  {
    if n == 0 then 0
    else WrittenOff(c, states, steps, n - 1) + GivenBackBy(c, states[n - 1], steps[n - 1])
  }

  lemma {:induction false} WriteOffStep(c: Config, s: State, a: Step, s': State)
    requires Inv(c, s) && Next(c, s, a, s')
    ensures FailedChunk(c, s.q) + DroppedBy(c, a, s') <= GivenBackBy(c, s, a) + FailedChunk(c, s'.q)
  {
    match a
    case Post(_, _, _, _) => PostKeepsFailedChunk(c, s, a, s');
    case WriteOff => WriteOffCoversChunk(c, s);
    case _ =>
  }

  lemma {:induction false} PathStepWritesOff(c: Config, states: seq<State>, steps: seq<Step>, i: nat)
    requires c.capacity >= 1 && IsPath(c, states, steps) && 0 < i < |states|
    requires Inv(c, states[i - 1])
    ensures FailedChunk(c, states[i - 1].q) + DroppedBy(c, steps[i - 1], states[i]) <=
            GivenBackBy(c, states[i - 1], steps[i - 1]) + FailedChunk(c, states[i].q)
  {
    PathNext(c, states, steps, i);
    WriteOffStep(c, states[i - 1], steps[i - 1], states[i]);
  }

  /** Write-offs never leak: over any run the references given back for failed writes cover the wake-up events
      these writes dropped, up to the one chunk whose write-off may still be due. */
  lemma {:induction false} WriteOffsNeverLeak(c: Config, states: seq<State>, steps: seq<Step>, n: nat)
    requires c.capacity >= 1 && IsRun(c, states, steps) && n <= |steps|
    ensures DroppedByFailures(c, states, steps, n) <= WrittenOff(c, states, steps, n) + FailedChunk(c, states[n].q)
  {
    if n != 0 {
      WriteOffsNeverLeak(c, states, steps, n - 1);
      RunInv(c, states, steps, n - 1);
      PathStepWritesOff(c, states, steps, n);
    }
  }

  // ---- What a batch records ----

  /** The last events of a post, with the wake-up count of the whole post. */
  predicate IsRestOf(c: Config, e: Entry, post: Step) {
    && post.Post? && |e.events| <= |post.events|
    && e.events == post.events[|post.events| - |e.events|..]
    && e.wakeups == CountWakeups(c.wake, post.events)
  }

  predicate IsRestAt(c: Config, pending: seq<Entry>, steps: seq<Step>, ks: seq<nat>, i: nat, j: int)
    requires i <= |steps| && 0 <= j < |ks| == |pending|
  {
    ks[j] < i && IsRestOf(c, pending[j], steps[ks[j]])
  }

  // The pending batches are rests of the posts at the positions ks below i, in this order.
  predicate AreRests(c: Config, pending: seq<Entry>, steps: seq<Step>, ks: seq<nat>, i: nat)
    requires i <= |steps|
  {
    |ks| == |pending| && Increasing(ks) && forall j :: 0 <= j < |ks| ==> IsRestAt(c, pending, steps, ks, i, j)
  }

  ghost predicate HasSources(c: Config, pending: seq<Entry>, steps: seq<Step>, i: nat)
    requires i <= |steps|
  {
    exists ks: seq<nat> :: AreRests(c, pending, steps, ks, i)
  }

  lemma {:induction false} SpillIsRest(c: Config, pending: seq<Entry>, e: Entry, steps: seq<Step>, i: nat)
    requires i < |steps| && HasSources(c, pending, steps, i) && IsRestOf(c, e, steps[i])
    ensures HasSources(c, pending + [e], steps, i + 1)
  {
    var ks: seq<nat> :| AreRests(c, pending, steps, ks, i);
    var ks' := ks + [i];
    forall j | 0 <= j < |ks'|
      ensures IsRestAt(c, pending + [e], steps, ks', i + 1, j)
      ensures j < |ks| ==> ks'[j] < i
    {
      assert j < |ks| ==> IsRestAt(c, pending, steps, ks, i, j);
    }
    assert AreRests(c, pending + [e], steps, ks', i + 1);
  }

  lemma {:induction false} ShorterRest(c: Config, e: Entry, n: nat, post: Step)
    requires n <= |e.events| && IsRestOf(c, e, post)
    ensures IsRestOf(c, e.(events := e.events[n..]), post)
  {
    var k := |post.events| - |e.events|;
    assert post.events[k..][n..] == post.events[k + n..];
  }

  lemma {:induction false} ShortenedIsRest(c: Config, pending: seq<Entry>, n: nat, steps: seq<Step>, i: nat)
    requires i <= |steps| && pending != [] && n <= |pending[0].events| && HasSources(c, pending, steps, i)
    ensures HasSources(c, [pending[0].(events := pending[0].events[n..])] + pending[1..], steps, i)
  {
    var ks: seq<nat> :| AreRests(c, pending, steps, ks, i);
    var shorter := [pending[0].(events := pending[0].events[n..])] + pending[1..];
    forall j | 0 <= j < |ks|
      ensures IsRestAt(c, shorter, steps, ks, i, j)
    {
      assert IsRestAt(c, pending, steps, ks, i, j);
      if j == 0 {
        ShorterRest(c, pending[0], n, steps[ks[0]]);
      } else {
        assert shorter[j] == pending[j];
      }
    }
    assert AreRests(c, shorter, steps, ks, i);
  }

  lemma {:induction false} PoppedIsRest(c: Config, pending: seq<Entry>, steps: seq<Step>, i: nat)
    requires i <= |steps| && pending != [] && HasSources(c, pending, steps, i)
    ensures HasSources(c, pending[1..], steps, i)
  {
    var ks: seq<nat> :| AreRests(c, pending, steps, ks, i);
    forall j | 0 <= j < |ks| - 1
      ensures IsRestAt(c, pending[1..], steps, ks[1..], i, j)
    {
      assert IsRestAt(c, pending, steps, ks, i, j + 1);
    }
    assert AreRests(c, pending[1..], steps, ks[1..], i);
  }

  lemma {:induction false} LaterSources(c: Config, pending: seq<Entry>, steps: seq<Step>, i: nat)
    requires i < |steps| && HasSources(c, pending, steps, i)
    ensures HasSources(c, pending, steps, i + 1)
  {
    var ks: seq<nat> :| AreRests(c, pending, steps, ks, i);
    var later := i + 1;
    forall j | 0 <= j < |ks|
      ensures IsRestAt(c, pending, steps, ks, later, j)
    {
      assert IsRestAt(c, pending, steps, ks, i, j);
    }
    assert AreRests(c, pending, steps, ks, later);
  }

  lemma {:induction false} StepKeepsSources(c: Config, s: State, s': State, steps: seq<Step>, i: nat)
    requires c.capacity >= 1 && i < |steps| && Inv(c, s) && Next(c, s, steps[i], s')
    requires HasSources(c, s.q.pending, steps, i)
    ensures HasSources(c, s'.q.pending, steps, i + 1)
  {
    LaterSources(c, s.q.pending, steps, i);
    match steps[i]
    case Post(events, wakeups, available, writeOk) =>
      QueueAfterPost(c, s, events, wakeups, available, writeOk);
      var left := events[DirectCount(s.q, |events|, available, writeOk)..];
      if left != [] && Fits(c, s.q, |left|) {
        SpillIsRest(c, s.q.pending, Entry(left, wakeups), steps, i);
      }
    case Finish =>
      if |s.q.pending[0].events| > c.capacity {
        ShortenedIsRest(c, s.q.pending, c.capacity, steps, i + 1);
      } else {
        PoppedIsRest(c, s.q.pending, steps, i + 1);
      }
    case _ =>
  }

  lemma {:induction false} PathStepKeepsSources(c: Config, states: seq<State>, steps: seq<Step>, i: nat)
    requires c.capacity >= 1 && IsPath(c, states, steps) && 0 < i < |states| && Inv(c, states[i - 1])
    requires HasSources(c, states[i - 1].q.pending, steps, i - 1)
    ensures HasSources(c, states[i].q.pending, steps, i)
  {
    PathNext(c, states, steps, i);
    StepKeepsSources(c, states[i - 1], states[i], steps, i - 1);
  }

  lemma {:induction false} NoSources(c: Config, steps: seq<Step>)
    ensures HasSources(c, [], steps, 0)
  {
    assert AreRests(c, [], steps, [], 0);
  }

  /** In every reachable state the pending batches are the last events of posts made so far, in the order of the
      posts, and each records the wake-ups of its whole post, however much of it is already written and erased. */
  lemma {:induction false} BatchesRecordWholePosts(c: Config, states: seq<State>, steps: seq<Step>, i: nat)
    requires c.capacity >= 1 && IsRun(c, states, steps) && i < |states|
    ensures HasSources(c, states[i].q.pending, steps, i)
  {
    NoSources(c, steps);
    var k := 0;
    while k != i
      invariant k <= i && HasSources(c, states[k].q.pending, steps, k)
    {
      RunInv(c, states, steps, k);
      k := k + 1;
      PathStepKeepsSources(c, states, steps, k);
    }
  }

  lemma {:induction false} FrontIsRest(c: Config, pending: seq<Entry>, steps: seq<Step>, i: nat)
    requires i <= |steps| && pending != [] && HasSources(c, pending, steps, i)
    ensures exists k :: 0 <= k < i && IsRestOf(c, pending[0], steps[k])
  {
    var ks: seq<nat> :| AreRests(c, pending, steps, ks, i);
    assert IsRestAt(c, pending, steps, ks, i, 0);
  }

  /** So the write-off of a failed chunk gives back the chunk's wake-ups if the batch is longer than the capacity,
      and otherwise those of the whole post the batch is the rest of. */
  lemma {:induction false} WriteOffGivesBack(c: Config, states: seq<State>, steps: seq<Step>, i: nat)
    requires c.capacity >= 1 && IsRun(c, states, steps) && i < |steps| && steps[i] == WriteOff
    ensures exists k ::
      && 0 <= k < i && states[i].q.pending != [] && IsRestOf(c, states[i].q.pending[0], steps[k])
      && var events := states[i].q.pending[0].events;
      && GivenBackBy(c, states[i], WriteOff) ==
         CountWakeups(c.wake, if |events| > c.capacity then events[..c.capacity] else steps[k].events)
  {
    RunInv(c, states, steps, i);
    PathNext(c, states, steps, i + 1);
    WriteOffCoversChunk(c, states[i]);
    BatchesRecordWholePosts(c, states, steps, i);
    FrontIsRest(c, states[i].q.pending, steps, i);
  }

  /** The writer is never stuck: it can move whenever it is busy or something is pending, and only then. */
  lemma {:induction false} WriterNeverStuck(c: Config, states: seq<State>, steps: seq<Step>, i: nat)
    requires c.capacity >= 1 && IsRun(c, states, steps) && i < |states|
    ensures (exists a: Step :: !a.Post? && Guard(c, states[i], a) && Defined(states[i], a)) <==>
              states[i].q.pending != []
  {
    RunInv(c, states, steps, i);
    var s := states[i];
    var a := match s.q.writer
      case Idle => Choose
      case Writing(_, _) => WriteReturn(true)
      case WriteFailed(_, _) => WriteOff
      case Written(_) => Finish;
    if s.q.pending != [] {
      AlwaysDefined(c, s, a);
      assert !a.Post? && Guard(c, s, a) && Defined(s, a);
    }
  }

  /** A spilled batch records the wake-ups of its whole post, so write-offs can exceed the loss whatever the
      capacity and the limit: here two wake-up events are posted, one is written directly, and the failed write of
      the other gives back two. */
  lemma {:induction false} WriteOffCanExceedLoss(c: Config, e: Event)
    requires c.capacity >= 1 && c.maxPending >= 1 && e.handle in c.wake
    ensures var s0 := AfterPost(c, INIT, [e, e], 2, 1, true);
            && Next(c, INIT, Post([e, e], 2, 1, true), s0) && s0.q.pending == [Entry([e], 2)]
            && var s1 := AfterChoose(c, s0);
            && Next(c, s0, Choose, s1) && s1.q.writer == Writing(1, 2) && |s1.h.kept| == 2
            && var s2 := AfterWriteReturn(c, s1, false);
            && Next(c, s1, WriteReturn(false), s2)
            && WriteOffAmount(c, s2.q.pending[0], s2.q.writer.wakeups) == 2
            && CountWakeups(c.wake, s2.q.pending[0].events[..s2.q.writer.count]) == 1
  {
    assert [e, e][..1] == [e] && [e, e][1..] == [e];
    assert [e][..0] == [];
    assert CountWakeups(c.wake, [e]) == 1;
    assert CountWakeups(c.wake, [e, e]) == 2;
    assert [e][..1] == [e];
  }
}
