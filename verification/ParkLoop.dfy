/** The receive loop behind the parking phase. The broker is a script of receive batches; a batch that
    comes back empty, or the end of the script, ends the loop. */
module ParkLoop {
  import opened Wrappers

  datatype ParkResult = ParkResult(
    parkedCount: nat,
    targetReached: bool,
    overshootAbandoned: nat,
    capHit: bool,
    firstBeyond: Option<int>)

  /** The messages of all batches before the first empty one. */
  function Received(batches: seq<seq<int>>): seq<int> {
    if batches == [] || batches[0] == [] then [] else batches[0] + Received(batches[1..])
  }

  /** How many messages the loop parks: those before the target, up to the cap. */
  function Prefix(messages: seq<int>, target: int, maxParked: nat): (k: nat)
    ensures k <= |messages| && k <= maxParked
    decreases |messages|
  {
    if messages == [] || maxParked == 0 || messages[0] >= target then 0
    else 1 + Prefix(messages[1..], target, maxParked - 1)
  }

  lemma {:induction false} PrefixIs(messages: seq<int>, target: int, maxParked: nat)
    ensures var k := Prefix(messages, target, maxParked);
      && k <= |messages| && k <= maxParked
      && (forall i :: 0 <= i < k ==> messages[i] < target)
      && (k < |messages| && messages[k] < target ==> k == maxParked)
    decreases |messages|
  {
    if messages == [] || maxParked == 0 || messages[0] >= target {
    } else {
      PrefixIs(messages[1..], target, maxParked - 1);
    }
  }

  lemma {:induction false} PrefixUnique(messages: seq<int>, target: int, maxParked: nat, k: nat)
    requires k <= |messages| && k <= maxParked
    requires forall i :: 0 <= i < k ==> messages[i] < target
    requires k == |messages| || messages[k] >= target || k == maxParked
    ensures Prefix(messages, target, maxParked) == k
    decreases |messages|
  {
    if k > 0 { PrefixUnique(messages[1..], target, maxParked - 1, k - 1); }
  }

  lemma {:induction false} ReceivedSplits(batches: seq<seq<int>>, i: nat)
    requires i < |batches| && forall b :: 0 <= b <= i ==> batches[b] != []
    ensures Received(batches[..i]) + batches[i] == Received(batches[..i + 1])
    ensures Received(batches[..i + 1]) <= Received(batches)
    decreases i
  {
    if i == 0 {
      assert batches[..1] == [batches[0]] && batches[..1][1..] == [];
      assert Received(batches[..1]) == batches[0] + Received([]);
    } else {
      assert batches[..i][1..] == batches[1..][..i - 1];
      assert batches[..i + 1][1..] == batches[1..][..i];
      ReceivedSplits(batches[1..], i - 1);
    }
  }

  /** One received message: parked, acted on, or released. */
  method OnMessage(result: ParkResult, parked: seq<int>, stop: bool, n: int, target: int, maxParked: nat,
                   ghost messages: seq<int>, ghost seen: nat)
    returns (result': ParkResult, parked': seq<int>, stop': bool)
    requires Decided(result, parked, messages, target, maxParked, stop, seen)
    requires seen < |messages| && n == messages[seen]
    ensures Decided(result', parked', messages, target, maxParked, stop', seen + 1)
  {
    result', parked', stop' := result, parked, stop;
    if stop {
      result' := result.(overshootAbandoned := result.overshootAbandoned + 1);
    } else if n < target {
      if result.parkedCount >= maxParked {
        result' := result.(capHit := true, overshootAbandoned := result.overshootAbandoned + 1,
                           firstBeyond := if result.firstBeyond.None? then Some(n) else result.firstBeyond);
        stop' := true;
      } else {
        parked' := parked + [n];
        result' := result.(parkedCount := result.parkedCount + 1);
      }
    } else if n == target {
      result' := result.(targetReached := true);
      stop' := true;
    } else {
      result' := result.(overshootAbandoned := result.overshootAbandoned + 1,
                         firstBeyond := if result.firstBeyond.None? then Some(n) else result.firstBeyond);
      stop' := true;
    }
  }

  /** One received batch, message by message. */
  method OnBatch(result: ParkResult, parked: seq<int>, stop: bool, received: seq<int>, target: int, maxParked: nat,
                 ghost messages: seq<int>, ghost seen: nat)
    returns (result': ParkResult, parked': seq<int>, stop': bool)
    requires Decided(result, parked, messages, target, maxParked, stop, seen)
    requires seen + |received| <= |messages| && messages[seen..seen + |received|] == received
    ensures Decided(result', parked', messages, target, maxParked, stop', seen + |received|)
  {
    result', parked', stop' := result, parked, stop;
    var m := 0;
    while m < |received|
      invariant 0 <= m <= |received|
      invariant Decided(result', parked', messages, target, maxParked, stop', seen + m)
    {
      assert received[m] == messages[seen + m];
      result', parked', stop' := OnMessage(result', parked', stop', received[m], target, maxParked, messages, seen + m);
      m := m + 1;
    }
  }

  /** Receives in batches; parks below the target, acts on it, and stops at the first message past it or
      at the cap, only releasing what is left of that batch.
      The result is fixed by the messages received: the longest run below the target that fits under the
      cap is parked, and the message right after it decides everything else. */
  method ParkForReach(target: int, maxParked: nat, batches: seq<seq<int>>)
    returns (result: ParkResult, parked: seq<int>)
    ensures Outcome(result, parked, Received(batches), target, maxParked)
    // Every message of every batch it opened is parked, acted on or released; it opens batches up to the
    // one that holds the deciding message, or all.
    ensures exists b: nat :: Opens(batches, b, result.parkedCount) && |Received(batches[..b])| == Touched(result)
  {
    result, parked := ParkResult(0, false, 0, false, None), [];
    ghost var messages := Received(batches);
    var stop := false;
    var b := 0;
    assert batches[..0] == [];
    while !stop && b < |batches| && batches[b] != []
      invariant 0 <= b <= |batches|
      invariant forall i :: 0 <= i < b ==> batches[i] != []
      invariant Received(batches[..b]) <= messages
      invariant Decided(result, parked, messages, target, maxParked, stop, |Received(batches[..b])|)
      invariant stop ==> b > 0 && |Received(batches[..b - 1])| <= |parked|
    {
      ReceivedSplits(batches, b);
      result, parked, stop :=
        OnBatch(result, parked, stop, batches[b], target, maxParked, messages, |Received(batches[..b])|);
      b := b + 1;
    }
    Closes(result, parked, batches, target, maxParked, stop, b);
  }

  /** How many messages the loop has parked, acted on or released. */
  function Touched(r: ParkResult): nat { r.parkedCount + r.overshootAbandoned + if r.targetReached then 1 else 0 }

  lemma Closes(r: ParkResult, parked: seq<int>, batches: seq<seq<int>>, target: int, maxParked: nat, stop: bool, b: nat)
    requires b <= |batches| && (forall i :: 0 <= i < b ==> batches[i] != [])
      && (stop || b == |batches| || batches[b] == [])
    requires Decided(r, parked, Received(batches), target, maxParked, stop, |Received(batches[..b])|)
    requires stop ==> b > 0 && |Received(batches[..b - 1])| <= |parked|
    ensures Outcome(r, parked, Received(batches), target, maxParked)
    ensures Opens(batches, b, r.parkedCount) && |Received(batches[..b])| == Touched(r)
  {
    if !stop { AllReceived(batches, b); }
    Concludes(r, parked, Received(batches), target, maxParked, stop, |Received(batches[..b])|);
  }

  /** What is fixed by the messages: the longest run below the target that fits under the cap, and what the
      message right after it decides. */
  predicate Outcome(result: ParkResult, parked: seq<int>, messages: seq<int>, target: int, maxParked: nat) {
    var k := Prefix(messages, target, maxParked);
    && k <= |messages| && parked == messages[..k] && result.parkedCount == k
    && (result.targetReached <==> k < |messages| && messages[k] == target)
    && (result.capHit <==> k < |messages| && messages[k] < target)
    && result.firstBeyond == (if k < |messages| && messages[k] != target then Some(messages[k]) else None)
  }

  /** The first b batches are those up to the one with message k, or all when there is no message k. */
  predicate Opens(batches: seq<seq<int>>, b: nat, k: nat) {
    b <= |batches|
    && if k < |Received(batches)| then b > 0 && |Received(batches[..b - 1])| <= k < |Received(batches[..b])|
       else Received(batches[..b]) == Received(batches)
  }

  lemma Concludes(r: ParkResult, parked: seq<int>, messages: seq<int>, target: int, maxParked: nat, stop: bool,
      seen: nat)
    requires Decided(r, parked, messages, target, maxParked, stop, seen) && (!stop ==> seen == |messages|)
    ensures Outcome(r, parked, messages, target, maxParked) && r.parkedCount == |parked|
      && (|parked| < |messages| <==> stop)
  {
    PrefixUnique(messages, target, maxParked, |parked|);
  }

  lemma {:induction false} AllReceived(batches: seq<seq<int>>, b: nat)
    requires b <= |batches| && (forall i :: 0 <= i < b ==> batches[i] != [])
    requires b == |batches| || batches[b] == []
    ensures Received(batches[..b]) == Received(batches)
    decreases b
  {
    if b == 0 {
      assert batches[..0] == [];
    } else {
      assert batches[..b][1..] == batches[1..][..b - 1];
      AllReceived(batches[1..], b - 1);
    }
  }

  /** What the loop knows after `seen` messages: everything was parked, or the message that stopped it
      sits right after the parked ones. */
  ghost predicate Decided(r: ParkResult, parked: seq<int>, messages: seq<int>, target: int, maxParked: nat, stop: bool,
      seen: nat)
  {
    var k := |parked|;
    && seen == k + r.overshootAbandoned + (if r.targetReached then 1 else 0)
    && r.parkedCount == k && k <= seen <= |messages| && k <= maxParked
    && parked == messages[..k]
    && (forall i :: 0 <= i < k ==> messages[i] < target)
    && (if stop then
          && k < seen && (messages[k] >= target || k == maxParked)
          && (r.targetReached <==> messages[k] == target)
          && (r.capHit <==> messages[k] < target)
          && r.firstBeyond == (if messages[k] == target then None else Some(messages[k]))
        else
          k == seen && !r.targetReached && !r.capHit && r.firstBeyond == None)
  }
}
