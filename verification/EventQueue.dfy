/** The event queue as the proxy keeps it: fields updated in place under the mutex, one method for each
    mutex-held region, and the writer thread's draining loop. */
module EventQueue {
  import opened SensorTypes
  import opened EventPipeline
  import EventDelivery

  /** The number of chunks of at most c events that cover k events. */
  function CeilDiv(k: nat, c: nat): nat
    requires c >= 1
  {
    if k <= c then (if k == 0 then 0 else 1) else 1 + CeilDiv(k - c, c)
  }

  lemma {:induction false} CeilDivIsCeiling(k: nat, c: nat)
    requires c >= 1
    ensures k <= CeilDiv(k, c) * c < k + c
  {
    if k > c {
      CeilDivIsCeiling(k - c, c);
      assert CeilDiv(k, c) * c == CeilDiv(k - c, c) * c + c;
    }
  }

  /** The blocking writes that draining takes: the sum of ceil(|entry| / capacity). */
  function ChunkCount(pending: seq<Entry>, capacity: nat): nat
    requires capacity >= 1
  {
    if pending == [] then 0 else CeilDiv(|pending[0].events|, capacity) + ChunkCount(pending[1..], capacity)
  }

  lemma {:induction false} FrontTakesOneChunk(pending: seq<Entry>, capacity: nat)
    requires capacity >= 1 && pending != [] && pending[0].events != []
    ensures var front := pending[0];
            var rest := if |front.events| > capacity
                        then [front.(events := front.events[capacity..])] + pending[1..] else pending[1..];
            ChunkCount(rest, capacity) + 1 == ChunkCount(pending, capacity)
  {
    var front := pending[0];
    if |front.events| > capacity {
      var rest := [front.(events := front.events[capacity..])] + pending[1..];
      assert rest[1..] == pending[1..];
    }
  }

  /** Erasing a written chunk takes one write off the count, whether the write succeeded or failed. */
  lemma {:induction false} FinishTakesOneChunk(c: Config, s: State)
    requires c.capacity >= 1 && Inv(c, s) && s.q.writer.Written?
    ensures s.q.pending != []
    ensures ChunkCount(AfterFinish(c, s).q.pending, c.capacity) + 1 == ChunkCount(s.q.pending, c.capacity)
  {
    assert EntryOk(c, s.q.pending[0]);
    FrontTakesOneChunk(s.q.pending, c.capacity);
  }

  /** The blocking writes still to come if nothing more is posted. */
  function WritesLeft(c: Config, q: Queue): int
    requires c.capacity >= 1
  {
    ChunkCount(q.pending, c.capacity) - (if q.writer.WriteFailed? || q.writer.Written? then 1 else 0)
  }

  lemma {:induction false} WriterStepDrains(c: Config, s: State, a: Step, s': State)
    requires c.capacity >= 1 && Inv(c, s) && Next(c, s, a, s') && !a.Post?
    ensures WritesLeft(c, s'.q) == WritesLeft(c, s.q) - (if a.WriteReturn? then 1 else 0)
  {
    if a.Finish? {
      FinishTakesOneChunk(c, s);
    } else if a.WriteReturn? {
      WriteReturnKeepsInv(c, s, a.ok);
    }
  }

  lemma {:induction false} EmptyIffNothingLeft(c: Config, s: State)
    requires c.capacity >= 1 && Inv(c, s)
    ensures 0 <= WritesLeft(c, s.q)
    ensures s.q.pending == [] <==> WritesLeft(c, s.q) == 0 && s.q.writer.Idle?
  {
    if s.q.pending != [] {
      assert EntryOk(c, s.q.pending[0]);
    }
  }

  function WritesDone(steps: seq<Step>, i: nat, j: nat): nat
    requires i <= j <= |steps|
  {
    if i == j then 0 else WritesDone(steps, i, j - 1) + (if steps[j - 1].WriteReturn? then 1 else 0)
  }

  lemma {:induction false} PathStepDrains(c: Config, states: seq<State>, steps: seq<Step>, i: nat)
    requires c.capacity >= 1 && IsPath(c, states, steps) && 0 < i < |states| && !steps[i - 1].Post?
    requires Inv(c, states[i - 1])
    ensures WritesLeft(c, states[i].q) == WritesLeft(c, states[i - 1].q) - (if steps[i - 1].WriteReturn? then 1 else 0)
  {
    PathNext(c, states, steps, i);
    WriterStepDrains(c, states[i - 1], steps[i - 1], states[i]);
  }

  lemma {:induction false} WritesDoneDrain(c: Config, states: seq<State>, steps: seq<Step>, i: nat, j: nat)
    requires c.capacity >= 1 && IsRun(c, states, steps) && i <= j < |states|
    requires forall k :: i <= k < j ==> !steps[k].Post?
    ensures WritesDone(steps, i, j) == WritesLeft(c, states[i].q) - WritesLeft(c, states[j].q)
    decreases j
  {
    if i < j {
      WritesDoneDrain(c, states, steps, i, j - 1);
      RunInv(c, states, steps, j - 1);
      PathStepDrains(c, states, steps, j);
    }
  }

  /** Draining has an exact bound: in any stretch of a run without posts, every blocking write, successful or
      not, takes one off the writes left, and nothing else does; the queue is empty exactly when none is left
      and the writer is idle. */
  lemma {:induction false} DrainIsExact(c: Config, states: seq<State>, steps: seq<Step>, i: nat, j: nat)
    requires c.capacity >= 1 && IsRun(c, states, steps) && i <= j < |states|
    requires forall k :: i <= k < j ==> !steps[k].Post?
    ensures WritesDone(steps, i, j) == WritesLeft(c, states[i].q) - WritesLeft(c, states[j].q)
    ensures 0 <= WritesLeft(c, states[j].q)
    ensures states[j].q.pending == [] <==> WritesLeft(c, states[j].q) == 0 && states[j].q.writer.Idle?
  {
    WritesDoneDrain(c, states, steps, i, j);
    RunInv(c, states, steps, j);
    EmptyIffNothingLeft(c, states[j]);
  }

  class EventQueue {
    const config: Config
    var pending: seq<Entry>
    var size: int
    var mostObserved: int
    // The writer thread's program point and its copies of the front entry's numbers.
    var writer: Writer
    ghost var history: History

    ghost function Contents(): State
      reads this
    {
      State(Queue(pending, size, mostObserved, writer), history)
    }

    ghost predicate Valid()
      reads this
    {
      config.capacity >= 1 && Inv(config, Contents())
    }

    constructor (config: Config)
      requires config.capacity >= 1
      ensures Valid() && this.config == config && Contents() == INIT
    {
      this.config := config;
      pending, size, mostObserved, writer := [], 0, 0, Idle;
      history := History([], [], [], {});
    }

    method PostEventsToMessageQueue(events: seq<Event>, wakeups: nat, available: nat, writeOk: bool)
      requires Valid() && wakeups == CountWakeups(config.wake, events)
      modifies this
      ensures Valid() && Contents() == AfterPost(config, old(Contents()), events, wakeups, available, writeOk)
    {
      ghost var before := Contents();
      ghost var after := AfterPost(config, before, events, wakeups, available, writeOk);
      var numToWrite := 0;
      if pending == [] {
        numToWrite := Min(|events|, available);
        if numToWrite > 0 && !writeOk {
          numToWrite := 0;
        }
      }
      assert numToWrite == DirectCount(before.q, |events|, available, writeOk);
      var numLeft := |events| - numToWrite;
      if numToWrite < |events| && size + numLeft <= config.maxPending {
        pending := pending + [Entry(events[numToWrite..], wakeups)];
        size := size + numLeft;
        mostObserved := Max(mostObserved, size);
      }
      history := after.h;
      QueueAfterPost(config, before, events, wakeups, available, writeOk);
      assert Contents() == after;
      PostKeepsInv(config, before, Post(events, wakeups, available, writeOk));
    }

    method ChooseChunk()
      requires Valid() && writer.Idle? && pending != []
      modifies this`writer
      ensures Valid() && Contents() == AfterChoose(config, old(Contents()))
    {
      var numWakeupEvents := pending[0].wakeups;
      var numToWrite := Min(|pending[0].events|, config.capacity);
      writer := Writing(numToWrite, numWakeupEvents);
    }

    /** The blocking write of the chosen chunk returns; the events written are those the reference to the
        front entry denotes at that time. */
    method WriteBlocking(ok: bool)
      requires Valid() && writer.Writing?
      modifies this`writer, this`history
      ensures Defined(old(Contents()), WriteReturn(ok))
      ensures Valid() && Contents() == AfterWriteReturn(config, old(Contents()), ok)
    {
      WriteReturnKeepsInv(config, Contents(), ok);
      history := AfterWriteReturn(config, Contents(), ok).h;
      writer := if ok then Written(writer.count) else WriteFailed(writer.count, writer.wakeups);
    }

    /** After a failed write: what is given back to the wakelock. */
    method WriteOff() returns (amount: nat)
      requires Valid() && writer.WriteFailed?
      modifies this`writer
      ensures old(pending) != [] && amount == WriteOffAmount(config, old(pending)[0], old(writer).wakeups)
      ensures Valid() && Contents() == AfterWriteOff(old(Contents()))
    {
      WriteOffKeepsInv(config, Contents());
      amount := 0;
      if writer.wakeups > 0 {
        if |pending[0].events| > config.capacity {
          amount := CountWakeups(config.wake, pending[0].events[..config.capacity]);
        } else {
          amount := writer.wakeups;
        }
      }
      writer := Written(writer.count);
    }

    method FinishChunk()
      requires Valid() && writer.Written?
      modifies this
      ensures Defined(old(Contents()), Finish)
      ensures Valid() && Contents() == AfterFinish(config, old(Contents()))
    {
      FinishKeepsInv(config, Contents());
      var front := pending[0];
      size := size - writer.count;
      if |front.events| > config.capacity {
        pending := [front.(events := front.events[config.capacity..])] + pending[1..];
      } else {
        pending := pending[1..];
      }
      writer := Idle;
    }

    /** The writer thread's loop with no new posts: it empties the queue after exactly ChunkCount blocking
        writes, whatever their outcomes, and delivers everything in order if none fails. */
    method HandlePendingWrites(outcome: nat -> bool) returns (writes: nat)
      requires Valid() && writer.Idle?
      modifies this
      ensures Valid() && writer.Idle? && pending == []
      ensures writes == ChunkCount(old(pending), config.capacity)
      ensures history.posted == old(history.posted)
      ensures (forall i :: 0 <= i < writes ==> outcome(i)) ==>
                history.delivered == old(history.delivered) + Flatten(old(pending))
    {
      writes := 0;
      ghost var h0 := history;
      EventDelivery.InvGivesOrder(history, Undecided(Contents().q));
      while pending != []
        invariant Valid() && writer.Idle?
        invariant writes + ChunkCount(pending, config.capacity) == ChunkCount(old(pending), config.capacity)
        invariant history.posted == h0.posted
        invariant (forall i :: 0 <= i < writes ==> outcome(i)) ==> history.lost == h0.lost
        decreases ChunkCount(pending, config.capacity)
      {
        ChooseChunk();
        var ok := outcome(writes);
        WriteBlocking(ok);
        if !ok {
          var amount := WriteOff();
        }
        FinishTakesOneChunk(config, Contents());
        FinishChunk();
        writes := writes + 1;
      }
      EventDelivery.InvGivesOrder(history, Undecided(Contents().q));
    }
  }
}
