/** Changing the operation mode of every sub-HAL, with rollback when one of them fails. */
module OperationModes {
  import opened SensorTypes
  import S = OneShotSensor

  /** How a sub-HAL answers one call: the result, and the mode it is left in. */
  datatype Reply = Reply(result: Result, left: OperationMode)

  // A call that succeeds leaves the sub-HAL in the requested mode.
  predicate Honest(r: Reply, requested: OperationMode) {
    r.result == OK ==> r.left == requested
  }

  /** The first sub-HAL from i on whose answer is not OK, or n if there is none. */
  function FirstFailure(replies: seq<Reply>, i: nat, n: nat): nat
    requires i <= n <= |replies|
    decreases n - i
  {
    if i == n || replies[i].result != OK then i else FirstFailure(replies, i + 1, n)
  }

  /** The modes afterwards: forward answers up to the failure, rollback answers before it. */
  function AfterSet(modes: seq<OperationMode>, replies: seq<Reply>, backs: seq<Reply>): seq<OperationMode>
    requires |modes| <= |replies| && |modes| <= |backs|
  {
    var f := FirstFailure(replies, 0, |modes|);
    seq(|modes|, i requires 0 <= i < |modes| =>
      if i < f then (if f == |modes| then replies[i].left else backs[i].left)
      else if i == f then replies[i].left
      else modes[i])
  }

  lemma {:induction false} FirstFailureIsFirst(replies: seq<Reply>, i: nat, n: nat)
    requires i <= n <= |replies|
    ensures i <= FirstFailure(replies, i, n) <= n
    ensures forall j :: i <= j < FirstFailure(replies, i, n) ==> replies[j].result == OK
    ensures FirstFailure(replies, i, n) < n ==> replies[FirstFailure(replies, i, n)].result != OK
    decreases n - i
  {
    if i < n && replies[i].result == OK {
      FirstFailureIsFirst(replies, i + 1, n);
    }
  }

  class HalProxyModes {
    const subHalModes: array<OperationMode>
    var currentOperationMode: OperationMode

    constructor (n: nat)
      ensures fresh(subHalModes) && subHalModes.Length == n && currentOperationMode == NORMAL
      ensures forall i :: 0 <= i < n ==> subHalModes[i] == NORMAL
    {
      subHalModes := new OperationMode[n](_ => NORMAL);
      currentOperationMode := NORMAL;
    }

    method SetOperationMode(mode: OperationMode, replies: seq<Reply>, backs: seq<Reply>) returns (result: Result)
      requires subHalModes.Length <= |replies| && subHalModes.Length <= |backs|
      modifies this, subHalModes
      ensures subHalModes[..] == AfterSet(old(subHalModes[..]), replies, backs)
      ensures var f := FirstFailure(replies, 0, subHalModes.Length);
              && result == (if f < subHalModes.Length then replies[f].result else OK)
              && currentOperationMode == (if f < subHalModes.Length then old(currentOperationMode) else mode)
    {
      var n := subHalModes.Length;
      ghost var before := subHalModes[..];
      FirstFailureIsFirst(replies, 0, n);
      ghost var f := FirstFailure(replies, 0, n);
      result := OK;
      var subHalIndex := 0;
      while subHalIndex < n
        invariant subHalIndex <= n && subHalIndex <= f
        invariant result == OK && currentOperationMode == old(currentOperationMode)
        invariant forall i :: 0 <= i < n ==> subHalModes[i] == if i < subHalIndex then replies[i].left else before[i]
      {
        result := replies[subHalIndex].result;
        subHalModes[subHalIndex] := replies[subHalIndex].left;
        if result != OK {
          break;
        }
        subHalIndex := subHalIndex + 1;
      }
      if result != OK {
        assert subHalIndex == f;
        for i := 0 to subHalIndex
          invariant currentOperationMode == old(currentOperationMode)
          invariant forall k :: 0 <= k < n ==>
            subHalModes[k] == if k < i then backs[k].left else if k <= f then replies[k].left else before[k]
        {
          subHalModes[i] := backs[i].left;
        }
      } else {
        currentOperationMode := mode;
      }
    }
  }

  predicate AllIn(modes: seq<OperationMode>, mode: OperationMode) {
    forall i :: 0 <= i < |modes| ==> modes[i] == mode
  }

  /** All or nothing, for any number of sub-HALs that agree with the current mode: afterwards they all agree with
      the new current mode iff either no call fails, or the failing call leaves its sub-HAL unchanged and every
      rollback call returns its sub-HAL to the current mode. */
  lemma {:induction false} AllOrNothing(modes: seq<OperationMode>, current: OperationMode, mode: OperationMode,
                                        replies: seq<Reply>, backs: seq<Reply>)
    requires |modes| <= |replies| && |modes| <= |backs|
    requires AllIn(modes, current)
    requires forall i :: 0 <= i < |replies| ==> Honest(replies[i], mode)
    ensures var f := FirstFailure(replies, 0, |modes|);
            AllIn(AfterSet(modes, replies, backs), if f == |modes| then mode else current) <==>
              (f < |modes| ==> replies[f].left == current && forall i :: 0 <= i < f ==> backs[i].left == current)
  {
    FirstFailureIsFirst(replies, 0, |modes|);
    var f := FirstFailure(replies, 0, |modes|);
    var after := AfterSet(modes, replies, backs);
    if f < |modes| {
      assert after[f] == replies[f].left;
      assert forall i :: 0 <= i < f ==> after[i] == backs[i].left;
    }
  }

  /** From any modes, every called sub-HAL is left as its last call leaves it, and after a failure the later ones are
      untouched. */
  lemma {:induction false} AnswersDecide(modes: seq<OperationMode>, replies: seq<Reply>, backs: seq<Reply>, f: nat)
    requires |modes| <= |replies| && |modes| <= |backs| && f <= |modes|
    requires (forall i :: 0 <= i < f ==> replies[i].result == OK) && (f < |modes| ==> replies[f].result != OK)
    ensures |AfterSet(modes, replies, backs)| == |modes|
    ensures f == |modes| ==> forall i :: 0 <= i < f ==> AfterSet(modes, replies, backs)[i] == replies[i].left
    ensures f < |modes| ==>
              && (forall i :: 0 <= i < f ==> AfterSet(modes, replies, backs)[i] == backs[i].left)
              && AfterSet(modes, replies, backs)[f] == replies[f].left
              && (forall i :: f < i < |modes| ==> AfterSet(modes, replies, backs)[i] == modes[i])
  {
    FirstFailureIsFirst(replies, 0, |modes|);
    var first := FirstFailure(replies, 0, |modes|);
    assert first == f;
  }

  /** The sub-HAL of this device: it passes the mode to each of its sensors and always succeeds, so the proxy
      never has to roll it back. */
  class SensorsSubHal {
    const sensors: seq<S.OneShot>
    var currentOperationMode: OperationMode

    predicate Distinct() {
      forall i, j :: 0 <= i < j < |sensors| ==> sensors[i] != sensors[j]
    }

    // The fingerprint sensor and the two tap sensors.
    constructor ()
      ensures |sensors| == 3 && Distinct() && currentOperationMode == NORMAL
      ensures forall i :: 0 <= i < |sensors| ==> fresh(sensors[i]) && sensors[i].Contents() == S.INIT
      ensures !sensors[0].isTap && sensors[1].isTap && sensors[2].isTap
    {
      var udfps := new S.OneShot(false);
      var singleTap := new S.OneShot(true);
      var doubleTap := new S.OneShot(true);
      sensors := [udfps, singleTap, doubleTap];
      currentOperationMode := NORMAL;
    }

    /** Every sensor's own setOperationMode runs once: it notifies its thread on a change and interrupts its poll
        in any case. */
    method SetOperationMode(mode: OperationMode) returns (reply: Reply)
      requires Distinct()
      modifies this, set i | 0 <= i < |sensors| :: sensors[i]
      ensures forall i :: 0 <= i < |sensors| ==>
                sensors[i].Contents() == S.Interrupted(S.ModeSet(old(sensors[i].Contents()), mode))
      ensures forall i :: 0 <= i < |sensors| ==> sensors[i].mode == mode
      ensures currentOperationMode == mode
      ensures reply == Reply(OK, mode) && Honest(reply, mode)
    {
      for i := 0 to |sensors|
        invariant forall k :: 0 <= k < i ==>
          sensors[k].Contents() == S.Interrupted(S.ModeSet(old(sensors[k].Contents()), mode))
        invariant forall k :: i <= k < |sensors| ==> sensors[k].Contents() == old(sensors[k].Contents())
      {
        sensors[i].SetOperationMode(mode);
      }
      forall k | 0 <= k < |sensors|
        ensures sensors[k].mode == mode
      {
        assert sensors[k].Contents().mode == mode;
      }
      currentOperationMode := mode;
      reply := Reply(OK, mode);
    }
  }
}
