/**
 * The promise chain behind each owner's storage operations: a map holds the last promise
 * of every owner, a new operation is chained onto it, and starts when it has settled,
 * well or badly. No operation knows of any other but the one it was chained onto.
 */
module OwnerChain {
  import opened Prelude

  datatype Status = Waiting | Running | Settled(ok: bool)

  /** One operation and the promise it waits for. */
  datatype Operation = Operation(owner: int, previous: Option<nat>, status: Status)

  datatype Chains = Chains(tails: map<int, nat>, operations: seq<Operation>)

  const EMPTY := Chains(map[], [])

  datatype Step = Submit(owner: int) | Start(id: nat) | Settle(id: nat, ok: bool)

  /** What the operation was chained onto has settled, if it was chained onto anything. */
  predicate Free(s: Chains, id: nat)
    requires id < |s.operations|
  {
    var previous := s.operations[id].previous;
    previous.None? || (previous.value < |s.operations| && s.operations[previous.value].status.Settled?)
  }

  function Tail(s: Chains, owner: int): Option<nat> {
    if owner in s.tails then Some(s.tails[owner]) else None
  }

  function Next(s: Chains, step: Step): Chains {
    match step
    case Submit(owner) =>
      Chains(s.tails[owner := |s.operations|], s.operations + [Operation(owner, Tail(s, owner), Waiting)])
    case Start(id) =>
      if id < |s.operations| && s.operations[id].status.Waiting? && Free(s, id) then
        s.(operations := s.operations[id := s.operations[id].(status := Running)])
      else s
    case Settle(id, ok) =>
      if id < |s.operations| && s.operations[id].status.Running? then
        s.(operations := s.operations[id := s.operations[id].(status := Settled(ok))])
      else s
  }

  function Run(steps: seq<Step>): Chains {
    if steps == [] then EMPTY else Next(Run(steps[..|steps| - 1]), steps[|steps| - 1])
  }

  /** `p` is the last operation of `owner` before position `end`. */
  ghost predicate LastBefore(operations: seq<Operation>, owner: int, p: Option<nat>, end: nat)
    requires end <= |operations|
  {
    match p
    case None => forall i :: 0 <= i < end ==> operations[i].owner != owner
    case Some(k) => k < end && operations[k].owner == owner && forall i :: k < i < end ==> operations[i].owner != owner
  }

  ghost predicate Chained(s: Chains) {
    && (forall j :: 0 <= j < |s.operations| ==>
          LastBefore(s.operations, s.operations[j].owner, s.operations[j].previous, j))
    && (forall owner: int :: LastBefore(s.operations, owner, Tail(s, owner), |s.operations|))
  }

  /** Of two operations of one owner, the later has not started before the earlier settled. */
  ghost predicate InTurn(s: Chains) {
    forall i, j ::
      (0 <= i < j < |s.operations| && s.operations[i].owner == s.operations[j].owner &&
       !s.operations[j].status.Waiting?)
      ==> s.operations[i].status.Settled?
  }

  /** Only statuses differ. */
  ghost predicate SameChain(a: seq<Operation>, b: seq<Operation>) {
    |a| == |b| && forall i :: 0 <= i < |a| ==> a[i].owner == b[i].owner && a[i].previous == b[i].previous
  }

  lemma SameChainLast(a: seq<Operation>, b: seq<Operation>, owner: int, p: Option<nat>, end: nat)
    requires SameChain(a, b) && end <= |a| && LastBefore(a, owner, p, end)
    ensures LastBefore(b, owner, p, end)
  {
  }

  lemma SubmitKeepsChained(s: Chains, o: int)
    requires Chained(s)
    ensures Chained(Next(s, Submit(o)))
  {
    var t := Next(s, Submit(o));
    var n := |s.operations|;
    assert t.operations[..n] == s.operations;
    forall j | 0 <= j < |t.operations|
      ensures LastBefore(t.operations, t.operations[j].owner, t.operations[j].previous, j)
    {
      if j < n {
        assert LastBefore(s.operations, s.operations[j].owner, s.operations[j].previous, j);
      } else {
        assert LastBefore(s.operations, o, Tail(s, o), n);
      }
    }
    forall owner: int ensures LastBefore(t.operations, owner, Tail(t, owner), |t.operations|) {
      assert LastBefore(s.operations, owner, Tail(s, owner), n);
    }
  }

  lemma StepKeepsChained(s: Chains, step: Step)
    requires Chained(s)
    ensures Chained(Next(s, step))
  {
    var t := Next(s, step);
    if step.Submit? {
      SubmitKeepsChained(s, step.owner);
    } else {
      assert SameChain(s.operations, t.operations) && t.tails == s.tails;
      hide LastBefore, SameChain, Next;
      forall j | 0 <= j < |t.operations|
        ensures LastBefore(t.operations, t.operations[j].owner, t.operations[j].previous, j)
      {
        SameChainAt(s.operations, t.operations, j);
        SameChainLast(s.operations, t.operations, s.operations[j].owner, s.operations[j].previous, j);
      }
      forall owner: int ensures LastBefore(t.operations, owner, Tail(t, owner), |t.operations|) {
        SameChainLength(s.operations, t.operations);
        SameChainLast(s.operations, t.operations, owner, Tail(s, owner), |s.operations|);
      }
    }
  }

  lemma SameChainLength(a: seq<Operation>, b: seq<Operation>)
    requires SameChain(a, b)
    ensures |a| == |b|
  {
  }

  lemma SameChainAt(a: seq<Operation>, b: seq<Operation>, j: nat)
    requires SameChain(a, b) && j < |b|
    ensures j < |a| && a[j].owner == b[j].owner && a[j].previous == b[j].previous
  {
  }

  /** An operation is free exactly when every earlier one of its owner has settled. */
  lemma FreeIff(s: Chains, id: nat)
    requires Chained(s) && InTurn(s) && id < |s.operations|
    ensures Free(s, id) <==> forall i :: 0 <= i < id && s.operations[i].owner == s.operations[id].owner
                               ==> s.operations[i].status.Settled?
  {
    assert LastBefore(s.operations, s.operations[id].owner, s.operations[id].previous, id);
  }

  lemma StepKeepsTurns(s: Chains, step: Step)
    requires Chained(s) && InTurn(s)
    ensures InTurn(Next(s, step))
  {
    if step.Start? && step.id < |s.operations| { FreeIff(s, step.id); }
    hide Chained;
  }

  lemma {:induction false} RunKeepsTurns(steps: seq<Step>)
    ensures Chained(Run(steps)) && InTurn(Run(steps))
  {
    hide Next, Chained, InTurn;
    if steps != [] {
      RunKeepsTurns(steps[..|steps| - 1]);
      StepKeepsChained(Run(steps[..|steps| - 1]), steps[|steps| - 1]);
      StepKeepsTurns(Run(steps[..|steps| - 1]), steps[|steps| - 1]);
    } else {
      EmptyIsChained();
    }
  }

  lemma EmptyIsChained()
    ensures Chained(EMPTY) && InTurn(EMPTY)
  {
  }

  /** In every run, two operations of one owner never overlap, and they run in the order they were submitted. */
  lemma NeverOverlap(steps: seq<Step>, i: nat, j: nat)
    requires i < j < |Run(steps).operations|
    requires Run(steps).operations[i].owner == Run(steps).operations[j].owner
    requires !Run(steps).operations[j].status.Waiting?
    ensures Run(steps).operations[i].status.Settled?
  {
    RunKeepsTurns(steps);
    hide Run;
  }

  // --------------------------------------------------------------- the chain is a queue

  /** The operations of `owner` that have not settled, oldest first. */
  function Queue(operations: seq<Operation>, owner: int): seq<nat> {
    if operations == [] then []
    else
      var last := |operations| - 1;
      Queue(operations[..last], owner)
      + if operations[last].owner == owner && !operations[last].status.Settled? then [last] else []
  }

  predicate Pending(operations: seq<Operation>, owner: int, id: nat) {
    id < |operations| && operations[id].owner == owner && !operations[id].status.Settled?
  }

  lemma {:induction false} QueueHolds(operations: seq<Operation>, owner: int)
    ensures forall id: nat :: id in Queue(operations, owner) <==> Pending(operations, owner, id)
    ensures forall k, l :: 0 <= k < l < |Queue(operations, owner)| ==>
        Queue(operations, owner)[k] < Queue(operations, owner)[l]
  {
    if operations != [] {
      var last := |operations| - 1;
      var front := Queue(operations[..last], owner);
      QueueHolds(operations[..last], owner);
      assert forall id: nat :: id < last ==>
          (Pending(operations[..last], owner, id) <==> Pending(operations, owner, id));
      assert forall k :: 0 <= k < |front| ==> front[k] in front;
    }
  }

  /** The two sequences agree on which operations of `owner` are unsettled. */
  lemma {:induction false} SameQueue(a: seq<Operation>, b: seq<Operation>, owner: int)
    requires |a| == |b|
    requires forall i :: 0 <= i < |a| ==> (Pending(a, owner, i) <==> Pending(b, owner, i))
    ensures Queue(a, owner) == Queue(b, owner)
  {
    if a != [] {
      var last := |a| - 1;
      assert Pending(a, owner, last) <==> Pending(b, owner, last);
      forall i | 0 <= i < last ensures Pending(a[..last], owner, i) <==> Pending(b[..last], owner, i) {
        assert Pending(a, owner, i) <==> Pending(b, owner, i);
      }
      SameQueue(a[..last], b[..last], owner);
    }
  }

  lemma {:induction false} NobodyWaits(operations: seq<Operation>, owner: int)
    requires forall i :: 0 <= i < |operations| ==> !Pending(operations, owner, i)
    ensures Queue(operations, owner) == []
  {
    if operations != [] {
      var last := |operations| - 1;
      assert !Pending(operations, owner, last);
      forall i | 0 <= i < last ensures !Pending(operations[..last], owner, i) {
        assert !Pending(operations, owner, i);
      }
      NobodyWaits(operations[..last], owner);
    }
  }

  /** Settling the operation at the head of the queue takes exactly that one out. */
  lemma {:induction false} HeadLeaves(operations: seq<Operation>, owner: int, id: nat, ok: bool)
    requires Pending(operations, owner, id)
    requires forall i :: 0 <= i < id ==> !Pending(operations, owner, i)
    ensures Queue(operations, owner)
         == [id] + Queue(operations[id := operations[id].(status := Settled(ok))], owner)
  {
    var last := |operations| - 1;
    var after := operations[id := operations[id].(status := Settled(ok))];
    if id == last {
      assert after[..last] == operations[..last];
      forall i | 0 <= i < last ensures !Pending(operations[..last], owner, i) {
        assert !Pending(operations, owner, i);
      }
      NobodyWaits(operations[..last], owner);
    } else {
      assert after[..last] == operations[..last][id := operations[..last][id].(status := Settled(ok))];
      forall i | 0 <= i < id ensures !Pending(operations[..last], owner, i) {
        assert !Pending(operations, owner, i);
      }
      HeadLeaves(operations[..last], owner, id, ok);
    }
  }

  /**
   * For each owner the chain behaves as a queue whose head alone runs: submitting appends,
   * settling removes the head, starting changes nothing and is possible for the head alone,
   * and no step of another owner touches it.
   */
  lemma ChainIsAQueue(s: Chains, step: Step, owner: int)
    requires Chained(s) && InTurn(s)
    ensures
      var t := Next(s, step);
      var before, after := Queue(s.operations, owner), Queue(t.operations, owner);
      match step
      case Submit(o) => after == before + if o == owner then [|s.operations|] else []
      case Start(id) =>
        && after == before
        && (t != s && s.operations[id].owner == owner ==> before != [] && id == before[0])
      case Settle(id, ok) =>
        if t != s && s.operations[id].owner == owner then before == [id] + after else after == before
  {
    var t := Next(s, step);
    match step {
      case Submit(o) => assert t.operations[..|s.operations|] == s.operations;
      case Start(id) =>
        hide LastBefore, Queue;
        SameQueue(s.operations, t.operations, owner);
        if t != s && s.operations[id].owner == owner { StartsTheHead(s, id); }
      case Settle(id, ok) =>
        hide LastBefore, Queue;
        if t != s && s.operations[id].owner == owner {
          HeadLeaves(s.operations, owner, id, ok);
        } else {
          SameQueue(s.operations, t.operations, owner);
        }
    }
  }

  lemma StartsTheHead(s: Chains, id: nat)
    requires Chained(s) && InTurn(s) && id < |s.operations| && s.operations[id].status.Waiting? && Free(s, id)
    ensures var q := Queue(s.operations, s.operations[id].owner); q != [] && q[0] == id
  {
    var owner := s.operations[id].owner;
    FreeIff(s, id);
    QueueHolds(s.operations, owner);
    var q := Queue(s.operations, owner);
    hide Chained, Queue;
    assert Pending(s.operations, owner, id) && id in q;
    assert q[0] in q && Pending(s.operations, owner, q[0]);
  }

  // ------------------------------------------------------------- the map, in place

  class Owners {
    var tails: map<int, nat>
    var operations: seq<Operation>

    function Value(): Chains
      reads this
    {
      Chains(tails, operations)
    }

    constructor ()
      ensures Value() == EMPTY
    {
      tails, operations := map[], [];
    }

    /** runOwnerExclusive: chain onto the owner's last promise and become it. */
    method RunOwnerExclusive(owner: int) returns (id: nat)
      modifies this
      ensures Value() == Next(old(Value()), Submit(owner)) && id == |old(operations)|
    {
      id := |operations|;
      var previous: Option<nat> := None;
      if owner in tails { previous := Some(tails[owner]); }
      operations := operations + [Operation(owner, previous, Waiting)];
      tails := tails[owner := id];
    }
  }
}
