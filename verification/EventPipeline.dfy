/** The proxy's event pipeline: posters write straight to the framework queue or spill into a queue of
    batches, which a writer thread drains in chunks, releasing the mutex while it writes.  Every region that
    holds the mutex is one step; so are the blocking write's return and the write-off after a failed one. */
module EventPipeline {
  import opened Handles
  import opened SensorTypes

  /** capacity is the size of the framework queue, maxPending the limit of the spill queue, and wake the set
      of handles of wake-up sensors. */
  datatype Config = Config(capacity: nat, maxPending: nat, wake: set<Handle>)

  datatype Entry = Entry(events: seq<Event>, wakeups: nat)

  /** Where the writer thread is: holding or waiting for the mutex with no chunk, unlocked in the blocking
      write, unlocked after a failed write, or about to lock again. */
  datatype Writer =
    | Idle
    | Writing(count: nat, wakeups: nat)
    | WriteFailed(count: nat, wakeups: nat)
    | Written(count: nat)

  datatype Queue = Queue(pending: seq<Entry>, size: int, most: int, writer: Writer)

  /** What has happened: all events in the order their posters took the mutex, the events written to the
      framework queue, the posted positions of the written and then of the still undecided events, and the
      positions of dropped events. */
  datatype History = History(posted: seq<Event>, delivered: seq<Event>, kept: seq<nat>, lost: set<nat>)

  datatype State = State(q: Queue, h: History)

  datatype Step =
    | Post(events: seq<Event>, wakeups: nat, available: nat, writeOk: bool)
    | Choose
    | WriteReturn(ok: bool)
    | WriteOff
    | Finish

  function Max(a: int, b: int): int {
    if a < b then b else a
  }

  function Flatten(pending: seq<Entry>): seq<Event> {
    if pending == [] then [] else pending[0].events + Flatten(pending[1..])
  }

  function Range(a: nat, b: nat): seq<nat>
    requires a <= b
  {
    seq(b - a, i requires 0 <= i < b - a => a + i)
  }

  function Positions(ks: seq<nat>): set<nat> {
    set k | k in ks
  }

  // The events of the front entry whose fate is settled although they are not erased yet.
  function Settled(w: Writer): nat {
    match w
    case WriteFailed(n, _) => n
    case Written(n) => n
    case _ => 0
  }

  function Undecided(q: Queue): seq<Event> {
    var all, n := Flatten(q.pending), Settled(q.writer);
    if n == 0 then all else if n <= |all| then all[n..] else []
  }

  // ---- Steps ----

  const INIT := State(Queue([], 0, 0, Idle), History([], [], [], {}))

  function DirectCount(q: Queue, k: nat, available: nat, writeOk: bool): nat {
    if q.pending == [] && writeOk then Min(k, available) else 0
  }

  predicate Fits(c: Config, q: Queue, left: nat) {
    q.size + left <= c.maxPending
  }

  /** How many leading events of a post are not dropped. */
  function KeptEnd(c: Config, q: Queue, k: nat, available: nat, writeOk: bool): (end: nat)
    ensures DirectCount(q, k, available, writeOk) <= end <= k
  {
    var n := DirectCount(q, k, available, writeOk);
    if n < k && Fits(c, q, k - n) then k else n
  }

  // The history after a post that writes its first n events directly and keeps those below `end`.
  function Extend(h: History, events: seq<Event>, n: nat, end: nat): History
    requires n <= end <= |events|
  {
    var base := |h.posted|;
    History(h.posted + events, h.delivered + events[..n], h.kept + Range(base, base + end),
            h.lost + Positions(Range(base + end, base + |events|)))
  }

  function AfterPost(c: Config, s: State, events: seq<Event>, wakeups: nat, available: nat, writeOk: bool): State {
    var n := DirectCount(s.q, |events|, available, writeOk);
    var left := events[n..];
    var spills := n < |events| && Fits(c, s.q, |left|);
    State(
      if !spills then s.q
      else s.q.(pending := s.q.pending + [Entry(left, wakeups)],
                size := s.q.size + |left|,
                most := Max(s.q.most, s.q.size + |left|)),
      Extend(s.h, events, n, KeptEnd(c, s.q, |events|, available, writeOk)))
  }

  function AfterChoose(c: Config, s: State): State
    requires s.q.pending != []
  {
    var front := s.q.pending[0];
    s.(q := s.q.(writer := Writing(Min(|front.events|, c.capacity), front.wakeups)))
  }

  function AfterWriteReturn(c: Config, s: State, ok: bool): State
    requires s.q.writer.Writing? && s.q.pending != []
    requires s.q.writer.count <= |s.q.pending[0].events| && |s.h.delivered| + s.q.writer.count <= |s.h.kept|
  {
    var n, m := s.q.writer.count, |s.h.delivered|;
    if ok then
      State(s.q.(writer := Written(n)), s.h.(delivered := s.h.delivered + s.q.pending[0].events[..n]))
    else
      State(s.q.(writer := WriteFailed(n, s.q.writer.wakeups)),
            s.h.(kept := s.h.kept[..m] + s.h.kept[m + n..], lost := s.h.lost + Positions(s.h.kept[m..m + n])))
  }

  /** The number of references given back for a failed chunk of the front entry. */
  function WriteOffAmount(c: Config, front: Entry, wakeups: nat): nat {
    if wakeups == 0 then 0
    else if |front.events| > c.capacity then CountWakeups(c.wake, front.events[..c.capacity])
    else wakeups
  }

  function AfterWriteOff(s: State): State
    requires s.q.writer.WriteFailed?
  {
    s.(q := s.q.(writer := Written(s.q.writer.count)))
  }

  function AfterFinish(c: Config, s: State): State
    requires s.q.writer.Written? && s.q.pending != []
  {
    var front := s.q.pending[0];
    var rest := if |front.events| > c.capacity
                then [front.(events := front.events[c.capacity..])] + s.q.pending[1..]
                else s.q.pending[1..];
    s.(q := s.q.(pending := rest, size := s.q.size - s.q.writer.count, writer := Idle))
  }

  /** When a step may be taken: posters whenever they get the mutex, the writer at its program point (it
      chooses only when its wait condition holds). */
  predicate Guard(c: Config, s: State, a: Step) {
    match a
    case Post(events, wakeups, _, _) => wakeups == CountWakeups(c.wake, events)
    case Choose => s.q.writer.Idle? && s.q.pending != []
    case WriteReturn(_) => s.q.writer.Writing?
    case WriteOff => s.q.writer.WriteFailed?
    case Finish => s.q.writer.Written?
  }

  /** The writer's reference to the front batch still denotes a batch holding its chunk. */
  predicate Defined(s: State, a: Step) {
    match a
    case WriteReturn(_) =>
      && s.q.writer.Writing? && s.q.pending != []
      && s.q.writer.count <= |s.q.pending[0].events| && |s.h.delivered| + s.q.writer.count <= |s.h.kept|
    case WriteOff => s.q.pending != []
    case Finish => s.q.pending != []
    case _ => true
  }

  function After(c: Config, s: State, a: Step): State
    requires Guard(c, s, a) && Defined(s, a)
  {
    match a
    case Post(events, wakeups, available, writeOk) => AfterPost(c, s, events, wakeups, available, writeOk)
    case Choose => AfterChoose(c, s)
    case WriteReturn(ok) => AfterWriteReturn(c, s, ok)
    case WriteOff => AfterWriteOff(s)
    case Finish => AfterFinish(c, s)
  }

  predicate Next(c: Config, s: State, a: Step, s': State) {
    Guard(c, s, a) && Defined(s, a) && s' == After(c, s, a)
  }

  /** Any interleaving of posters and the writer thread, from any state or from the empty pipeline. */
  predicate IsPath(c: Config, states: seq<State>, steps: seq<Step>) {
    && |states| == |steps| + 1
    && (forall i {:trigger steps[i]} :: 0 <= i < |steps| ==> Next(c, states[i], steps[i], states[i + 1]))
  }

  predicate IsRun(c: Config, states: seq<State>, steps: seq<Step>) {
    IsPath(c, states, steps) && states[0] == INIT
  }

  // ---- Invariant ----

  predicate EntryOk(c: Config, e: Entry) {
    e.events != [] && CountWakeups(c.wake, e.events) <= e.wakeups
  }

  predicate EntriesOk(c: Config, pending: seq<Entry>) {
    pending != [] ==> EntryOk(c, pending[0]) && EntriesOk(c, pending[1..])
  }

  predicate WriterOk(c: Config, q: Queue) {
    q.writer.Idle? ||
    (&& q.pending != []
     && q.writer.count == Min(|q.pending[0].events|, c.capacity)
     && (q.writer.Written? || q.writer.wakeups == q.pending[0].wakeups))
  }

  predicate QueueInv(c: Config, q: Queue) {
    && q.size == |Flatten(q.pending)| <= c.maxPending
    && q.size <= q.most
    && EntriesOk(c, q.pending)
    && WriterOk(c, q)
  }

  predicate Increasing(ks: seq<nat>) {
    forall i, j :: 0 <= i < j < |ks| ==> ks[i] < ks[j]
  }

  predicate PicksAt(posted: seq<Event>, ks: seq<nat>, es: seq<Event>, i: int)
    requires 0 <= i < |ks| == |es|
  {
    ks[i] < |posted| && posted[ks[i]] == es[i]
  }

  // es are the posted events at positions ks.
  predicate Picks(posted: seq<Event>, ks: seq<nat>, es: seq<Event>) {
    |ks| == |es| && forall i :: 0 <= i < |ks| ==> PicksAt(posted, ks, es, i)
  }

  // Every position below n is kept or lost, and none is both.
  predicate Partition(n: nat, kept: seq<nat>, lost: set<nat>) {
    && (forall p: nat :: p < n ==> (p in kept <==> p !in lost))
    && (forall p :: p in lost ==> p < n)
  }

  predicate HistoryInv(h: History, undecided: seq<Event>) {
    && Picks(h.posted, h.kept, h.delivered + undecided)
    && Increasing(h.kept)
    && Partition(|h.posted|, h.kept, h.lost)
  }

  predicate Inv(c: Config, s: State) {
    QueueInv(c, s.q) && HistoryInv(s.h, Undecided(s.q))
  }

  // ---- Flatten ----

  lemma {:induction false} FlattenPush(pending: seq<Entry>, e: Entry)
    ensures Flatten(pending + [e]) == Flatten(pending) + e.events
  {
    if pending == [] {
      assert pending + [e] == [e];
      assert Flatten([e][1..]) == [];
    } else {
      FlattenPush(pending[1..], e);
      assert (pending + [e])[1..] == pending[1..] + [e];
    }
  }

  lemma {:induction false} FrontOfFlatten(pending: seq<Entry>, n: nat)
    requires pending != [] && n <= |pending[0].events|
    ensures |Flatten(pending)| >= |pending[0].events|
    ensures Flatten(pending)[..n] == pending[0].events[..n]
  {
  }

  lemma {:induction false} SettledBound(c: Config, q: Queue)
    requires QueueInv(c, q)
    ensures Settled(q.writer) <= |Flatten(q.pending)|
    ensures |Undecided(q)| == |Flatten(q.pending)| - Settled(q.writer)
  {
    if !q.writer.Idle? {
      FrontOfFlatten(q.pending, 0);
    }
  }

  // ---- Preservation ----

  /** The invariant always lets the writer follow its reference: no step is undefined. */
  lemma {:induction false} AlwaysDefined(c: Config, s: State, a: Step)
    requires Inv(c, s) && Guard(c, s, a)
    ensures Defined(s, a)
  {
    SettledBound(c, s.q);
    if s.q.pending != [] {
      FrontOfFlatten(s.q.pending, 0);
    }
  }

  lemma {:induction false} TailOfConcat(a: seq<Event>, b: seq<Event>, k: nat)
    requires k <= |a|
    ensures (a + b)[k..] == a[k..] + b
  {
  }

  lemma {:induction false} PushIsUndecided(c: Config, q: Queue, e: Entry)
    requires QueueInv(c, q)
    ensures |Flatten(q.pending + [e])| == |Flatten(q.pending)| + |e.events|
    ensures Undecided(q.(pending := q.pending + [e])) == Undecided(q) + e.events
  {
    FlattenPush(q.pending, e);
    SettledBound(c, q);
    TailOfConcat(Flatten(q.pending), e.events, Settled(q.writer));
  }

  lemma {:induction false} PushKeepsEntriesOk(c: Config, pending: seq<Entry>, e: Entry)
    requires EntriesOk(c, pending) && EntryOk(c, e)
    ensures EntriesOk(c, pending + [e])
  {
    if pending == [] {
      assert (pending + [e])[1..] == [];
    } else {
      PushKeepsEntriesOk(c, pending[1..], e);
      assert (pending + [e])[1..] == pending[1..] + [e];
    }
  }

  lemma {:induction false} PushKeepsQueueInv(c: Config, q: Queue, e: Entry, most: int)
    requires QueueInv(c, q) && EntryOk(c, e) && Fits(c, q, |e.events|) && q.size + |e.events| <= most
    ensures var q' := Queue(q.pending + [e], q.size + |e.events|, most, q.writer);
            QueueInv(c, q') && Undecided(q') == Undecided(q) + e.events
  {
    PushIsUndecided(c, q, e);
    PushKeepsEntriesOk(c, q.pending, e);
    var q' := Queue(q.pending + [e], q.size + |e.events|, most, q.writer);
    assert Undecided(q') == Undecided(q.(pending := q'.pending));
    assert q.pending != [] ==> q'.pending[0] == q.pending[0];
  }

  // A post appends one batch holding its leftover, or leaves the queue as it is.
  lemma {:induction false} QueueAfterPost(c: Config, s: State, events: seq<Event>, wakeups: nat, available: nat,
                                          writeOk: bool)
    ensures var n := DirectCount(s.q, |events|, available, writeOk);
            var left, kept := events[n..], events[n..KeptEnd(c, s.q, |events|, available, writeOk)];
            var q' := AfterPost(c, s, events, wakeups, available, writeOk).q;
            if left != [] && Fits(c, s.q, |left|)
            then && kept == left
                 && q' == Queue(s.q.pending + [Entry(left, wakeups)], s.q.size + |left|,
                                Max(s.q.most, s.q.size + |left|), s.q.writer)
            else q' == s.q && kept == []
  {
  }

  lemma {:induction false} PostKeepsQueueInv(c: Config, s: State, events: seq<Event>, wakeups: nat, available: nat,
                                             writeOk: bool)
    requires QueueInv(c, s.q) && wakeups == CountWakeups(c.wake, events)
    ensures var n := DirectCount(s.q, |events|, available, writeOk);
            var q' := AfterPost(c, s, events, wakeups, available, writeOk).q;
            && QueueInv(c, q')
            && Undecided(q') == Undecided(s.q) + events[n..KeptEnd(c, s.q, |events|, available, writeOk)]
  {
    QueueAfterPost(c, s, events, wakeups, available, writeOk);
    var n := DirectCount(s.q, |events|, available, writeOk);
    var left := events[n..];
    if left != [] && Fits(c, s.q, |left|) {
      CountWakeupsSplit(c.wake, events, n);
      PushKeepsQueueInv(c, s.q, Entry(left, wakeups), Max(s.q.most, s.q.size + |left|));
    } else {
      assert Undecided(s.q) + [] == Undecided(s.q);
    }
  }

  lemma {:induction false} AppendRange(n: nat, m: nat, kept: seq<nat>, lost: set<nat>, top: nat)
    requires n <= m <= top
    requires Increasing(kept) && Partition(n, kept, lost) && (forall i :: 0 <= i < |kept| ==> kept[i] < n)
    ensures Increasing(kept + Range(n, m))
    ensures Partition(top, kept + Range(n, m), lost + Positions(Range(m, top)))
  {
    var kept' := kept + Range(n, m);
    var lost' := lost + Positions(Range(m, top));
    forall p: nat | p < top
      ensures p in kept' <==> p !in lost'
    {
      if n <= p < m {
        assert Range(n, m)[p - n] == p;
      } else if m <= p {
        assert Range(m, top)[p - m] == p;
      }
    }
  }

  lemma {:induction false} PicksConcat(posted: seq<Event>, ks: seq<nat>, es: seq<Event>, ks': seq<nat>,
                                       es': seq<Event>)
    requires Picks(posted, ks, es) && Picks(posted, ks', es')
    ensures Picks(posted, ks + ks', es + es')
  {
    forall i | 0 <= i < |ks + ks'|
      ensures PicksAt(posted, ks + ks', es + es', i)
    {
      assert if i < |ks| then PicksAt(posted, ks, es, i) else PicksAt(posted, ks', es', i - |ks|);
    }
  }

  lemma {:induction false} PicksSplit(posted: seq<Event>, ks: seq<nat>, es: seq<Event>, n: nat)
    requires Picks(posted, ks, es) && n <= |ks|
    ensures Picks(posted, ks[..n], es[..n]) && Picks(posted, ks[n..], es[n..])
  {
    forall i | 0 <= i < n
      ensures PicksAt(posted, ks[..n], es[..n], i)
    {
      assert PicksAt(posted, ks, es, i);
    }
    forall i | 0 <= i < |ks| - n
      ensures PicksAt(posted, ks[n..], es[n..], i)
    {
      assert PicksAt(posted, ks, es, i + n);
    }
  }

  lemma {:induction false} PicksBounded(posted: seq<Event>, ks: seq<nat>, es: seq<Event>)
    requires Picks(posted, ks, es)
    ensures forall i :: 0 <= i < |ks| ==> ks[i] < |posted|
    ensures posted == [] ==> ks == []
  {
    if ks != [] {
      assert PicksAt(posted, ks, es, 0);
    }
    forall i | 0 <= i < |ks|
      ensures ks[i] < |posted|
    {
      assert PicksAt(posted, ks, es, i);
    }
  }

  lemma {:induction false} PicksMore(posted: seq<Event>, more: seq<Event>, ks: seq<nat>, es: seq<Event>)
    requires Picks(posted, ks, es)
    ensures Picks(posted + more, ks, es)
  {
    forall i | 0 <= i < |ks|
      ensures PicksAt(posted + more, ks, es, i)
    {
      assert PicksAt(posted, ks, es, i);
    }
  }

  lemma {:induction false} PicksExtend(posted: seq<Event>, ks: seq<nat>, es: seq<Event>, more: seq<Event>, end: nat)
    requires Picks(posted, ks, es) && end <= |more|
    ensures Picks(posted + more, ks + Range(|posted|, |posted| + end), es + more[..end])
  {
    PicksMore(posted, more, ks, es);
    PicksConcat(posted + more, ks, es, Range(|posted|, |posted| + end), more[..end]);
  }

  // What is written directly comes before what stays undecided: one of them is empty.
  lemma {:induction false} DirectComesFirst(delivered: seq<Event>, undecided: seq<Event>, events: seq<Event>, n: nat,
                                            end: nat)
    requires n <= end <= |events| && (n == 0 || undecided == [])
    ensures (delivered + events[..n]) + (undecided + events[n..end]) == (delivered + undecided) + events[..end]
  {
  }

  lemma {:induction false} ExtendKeepsInv(h: History, undecided: seq<Event>, events: seq<Event>, n: nat, end: nat)
    requires HistoryInv(h, undecided)
    requires n <= end <= |events| && (n == 0 || undecided == [])
    ensures HistoryInv(Extend(h, events, n, end), undecided + events[n..end])
  {
    var base, es := |h.posted|, h.delivered + undecided;
    PicksExtend(h.posted, h.kept, es, events, end);
    DirectComesFirst(h.delivered, undecided, events, n, end);
    PicksBounded(h.posted, h.kept, es);
    AppendRange(base, base + end, h.kept, h.lost, base + |events|);
  }

  lemma {:induction false} PostKeepsHistoryInv(c: Config, s: State, events: seq<Event>, wakeups: nat, available: nat,
                                               writeOk: bool)
    requires Inv(c, s) && wakeups == CountWakeups(c.wake, events)
    ensures var s' := AfterPost(c, s, events, wakeups, available, writeOk);
            HistoryInv(s'.h, Undecided(s'.q))
  {
    PostKeepsQueueInv(c, s, events, wakeups, available, writeOk);
    ExtendKeepsInv(s.h, Undecided(s.q), events, DirectCount(s.q, |events|, available, writeOk),
                   KeptEnd(c, s.q, |events|, available, writeOk));
  }

  // A returning write settles the front of what was undecided.
  lemma {:induction false} WriteReturnSettlesFront(c: Config, s: State, ok: bool)
    requires QueueInv(c, s.q) && Defined(s, WriteReturn(ok))
    ensures var n, q' := s.q.writer.count, AfterWriteReturn(c, s, ok).q;
            && QueueInv(c, q') && q'.pending == s.q.pending
            && n <= |Undecided(s.q)| && Undecided(q') == Undecided(s.q)[n..]
            && s.q.pending[0].events[..n] == Undecided(s.q)[..n]
  {
    FrontOfFlatten(s.q.pending, s.q.writer.count);
  }

  lemma {:induction false} SendFront(h: History, undecided: seq<Event>, n: nat)
    requires HistoryInv(h, undecided) && n <= |undecided|
    ensures HistoryInv(h.(delivered := h.delivered + undecided[..n]), undecided[n..])
  {
    assert (h.delivered + undecided[..n]) + undecided[n..] == h.delivered + undecided;
  }

  lemma {:induction false} PicksWithout(posted: seq<Event>, ks: seq<nat>, front: seq<Event>, back: seq<Event>, n: nat)
    requires Picks(posted, ks, front + back) && n <= |back|
    ensures var m := |front|;
            Picks(posted, ks[..m] + ks[m + n..], front + back[n..])
  {
    var m := |front|;
    PicksSplit(posted, ks, front + back, m);
    PicksSplit(posted, ks, front + back, m + n);
    assert (front + back)[..m] == front && (front + back)[m + n..] == back[n..];
    PicksConcat(posted, ks[..m], front, ks[m + n..], back[n..]);
  }

  lemma {:induction false} LoseFront(h: History, undecided: seq<Event>, n: nat)
    requires HistoryInv(h, undecided) && n <= |undecided|
    ensures var m := |h.delivered|;
            HistoryInv(h.(kept := h.kept[..m] + h.kept[m + n..], lost := h.lost + Positions(h.kept[m..m + n])),
                       undecided[n..])
  {
    PicksWithout(h.posted, h.kept, h.delivered, undecided, n);
    PicksBounded(h.posted, h.kept, h.delivered + undecided);
    DropMiddle(|h.posted|, h.kept, |h.delivered|, |h.delivered| + n, h.lost);
  }

  lemma {:induction false} WriteReturnKeepsInv(c: Config, s: State, ok: bool)
    requires Inv(c, s) && s.q.writer.Writing?
    ensures Defined(s, WriteReturn(ok)) && Inv(c, AfterWriteReturn(c, s, ok))
    ensures AfterWriteReturn(c, s, ok).q.pending == s.q.pending
  {
    AlwaysDefined(c, s, WriteReturn(ok));
    WriteReturnSettlesFront(c, s, ok);
    if ok {
      SendFront(s.h, Undecided(s.q), s.q.writer.count);
    } else {
      LoseFront(s.h, Undecided(s.q), s.q.writer.count);
    }
  }

  lemma {:induction false} DropMiddle(n: nat, kept: seq<nat>, a: nat, b: nat, lost: set<nat>)
    requires a <= b <= |kept|
    requires Increasing(kept) && Partition(n, kept, lost)
    requires forall i :: 0 <= i < |kept| ==> kept[i] < n
    ensures Increasing(kept[..a] + kept[b..])
    ensures Partition(n, kept[..a] + kept[b..], lost + Positions(kept[a..b]))
  {
    var rest := kept[..a] + kept[b..];
    forall i, j | 0 <= i < j < |rest|
      ensures rest[i] < rest[j]
    {
      var i' := if i < a then i else i - a + b;
      var j' := if j < a then j else j - a + b;
      assert rest[i] == kept[i'] && rest[j] == kept[j'];
    }
    forall p: nat | p < n
      ensures p in rest <==> p !in lost + Positions(kept[a..b])
    {
      assert kept == kept[..a] + kept[a..b] + kept[b..];
      if p in kept[a..b] {
        DroppedNotKept(kept, a, b, p);
      }
    }
  }

  lemma {:induction false} DroppedNotKept(kept: seq<nat>, a: nat, b: nat, p: nat)
    requires a <= b <= |kept| && Increasing(kept)
    requires p in kept[a..b]
    ensures p !in kept[..a] + kept[b..]
  {
    var i :| a <= i < b && kept[i] == p;
    var rest := kept[..a] + kept[b..];
    forall j | 0 <= j < |rest|
      ensures rest[j] != p
    {
      assert rest[j] == kept[if j < a then j else j - a + b];
    }
  }

  lemma {:induction false} ShortenFront(pending: seq<Entry>, n: nat)
    requires pending != [] && n <= |pending[0].events|
    ensures n <= |Flatten(pending)|
    ensures Flatten([pending[0].(events := pending[0].events[n..])] + pending[1..]) == Flatten(pending)[n..]
    ensures n == |pending[0].events| ==> Flatten(pending[1..]) == Flatten(pending)[n..]
  {
    var shorter := [pending[0].(events := pending[0].events[n..])] + pending[1..];
    assert shorter[1..] == pending[1..];
  }

  lemma {:induction false} FinishKeepsQueueInv(c: Config, s: State)
    requires c.capacity >= 1 && QueueInv(c, s.q) && s.q.writer.Written?
    ensures s.q.pending != []
    ensures var q' := AfterFinish(c, s).q;
            QueueInv(c, q') && Undecided(q') == Undecided(s.q)
  {
    var front := s.q.pending[0];
    assert EntryOk(c, front);
    ShortenFront(s.q.pending, s.q.writer.count);
    if |front.events| > c.capacity {
      CountWakeupsSplit(c.wake, front.events, c.capacity);
    }
  }

  lemma {:induction false} FinishKeepsInv(c: Config, s: State)
    requires c.capacity >= 1 && Inv(c, s) && s.q.writer.Written?
    ensures Defined(s, Finish) && Inv(c, AfterFinish(c, s))
    ensures Undecided(AfterFinish(c, s).q) == Undecided(s.q)
  {
    FinishKeepsQueueInv(c, s);
  }

  lemma {:induction false} WriteOffKeepsInv(c: Config, s: State)
    requires Inv(c, s) && s.q.writer.WriteFailed?
    ensures s.q.pending != [] && s.q.writer.wakeups == s.q.pending[0].wakeups
    ensures Inv(c, AfterWriteOff(s))
  {
    assert Undecided(AfterWriteOff(s).q) == Undecided(s.q);
  }

  lemma {:induction false} PostKeepsInv(c: Config, s: State, a: Step)
    requires Inv(c, s) && a.Post? && Guard(c, s, a)
    ensures Inv(c, AfterPost(c, s, a.events, a.wakeups, a.available, a.writeOk))
  {
    PostKeepsQueueInv(c, s, a.events, a.wakeups, a.available, a.writeOk);
    PostKeepsHistoryInv(c, s, a.events, a.wakeups, a.available, a.writeOk);
  }

  lemma {:induction false} StepKeepsInv(c: Config, s: State, a: Step, s': State)
    requires c.capacity >= 1
    requires Inv(c, s) && Next(c, s, a, s')
    ensures Inv(c, s')
  {
    match a
    case Post(_, _, _, _) => PostKeepsInv(c, s, a);
    case Choose =>
    case WriteReturn(ok) => WriteReturnKeepsInv(c, s, ok);
    case WriteOff => WriteOffKeepsInv(c, s);
    case Finish => FinishKeepsInv(c, s);
  }

  lemma {:induction false} InitKeepsInv(c: Config)
    ensures Inv(c, INIT)
  {
  }

  lemma {:induction false} PathNext(c: Config, states: seq<State>, steps: seq<Step>, i: nat)
    requires IsPath(c, states, steps) && 0 < i < |states|
    ensures Next(c, states[i - 1], steps[i - 1], states[i])
  {
  }

  lemma {:induction false} PathStepKeepsInv(c: Config, states: seq<State>, steps: seq<Step>, i: nat)
    requires c.capacity >= 1 && IsPath(c, states, steps) && 0 < i < |states|
    requires Inv(c, states[i - 1])
    ensures Inv(c, states[i])
  {
    PathNext(c, states, steps, i);
    StepKeepsInv(c, states[i - 1], steps[i - 1], states[i]);
  }

  lemma {:induction false} PathKeepsInv(c: Config, states: seq<State>, steps: seq<Step>, i: nat)
    requires c.capacity >= 1 && IsPath(c, states, steps) && i < |states|
    requires Inv(c, states[0])
    ensures Inv(c, states[i])
  {
    var k := 0;
    while k != i
      invariant k <= i && Inv(c, states[k])
    {
      k := k + 1;
      PathStepKeepsInv(c, states, steps, k);
    }
  }

  lemma {:induction false} RunInv(c: Config, states: seq<State>, steps: seq<Step>, i: nat)
    requires c.capacity >= 1 && IsRun(c, states, steps) && i < |states|
    ensures Inv(c, states[i])
  {
    InitKeepsInv(c);
    PathKeepsInv(c, states, steps, i);
  }
}
