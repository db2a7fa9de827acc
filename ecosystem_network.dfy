/**
 * The ecosystem diagram (src/components/shared/EcosystemNetwork.tsx): five
 * connections lit one more per interval tick, all cleared after the fifth.
 */
module EcosystemNetwork {
  import opened Common

  /** `connections.length` */
  const ConnectionCount: nat := 5

  /** The interval's updater: clear a full list, otherwise append the list's length. */
  function Step(prev: seq<int>): (r: seq<int>)
    ensures |prev| >= ConnectionCount ==> r == []
    ensures |prev| < ConnectionCount ==> |r| == |prev| + 1 && r[..|prev|] == prev && r[|prev|] == |prev|
  {
    if |prev| >= ConnectionCount then [] else prev + [|prev|]
  }

  function Steps(prev: seq<int>, n: nat): seq<int> {
    Iterate(Step, prev, n)
  }

  /** `[0, 1, ..., k - 1]` */
  function Range(k: nat): (r: seq<int>)
    ensures |r| == k && forall i :: 0 <= i < k ==> r[i] == i
  {
    seq(k, i => i)
  }

  /** The list is always the first `k` connection indices, for some `k` up to five. */
  predicate WellFormed(active: seq<int>) {
    |active| <= ConnectionCount && forall i :: 0 <= i < |active| ==> active[i] == i
  }

  lemma WellFormedIsRange(active: seq<int>)
    requires WellFormed(active)
    ensures active == Range(|active|)
  {
  }

  lemma StepKeepsWellFormed(active: seq<int>)
    requires WellFormed(active)
    ensures WellFormed(Step(active))
  {
  }

  /** From `[0..k)` a tick gives `[0..k]`, or `[]` from the full list. */
  lemma StepOfRange(k: nat)
    requires k <= ConnectionCount
    ensures Step(Range(k)) == if k < ConnectionCount then Range(k + 1) else []
  {
    if k < ConnectionCount {
      assert Step(Range(k)) == Range(k) + [k];
    }
  }

  /** `j` ticks from `[0..k)` give `[0..k+j)` while that stays within five. */
  lemma {:induction false} StepsFromRange(k: nat, j: nat)
    requires k + j <= ConnectionCount
    decreases j
    ensures Steps(Range(k), j) == Range(k + j)
  {
    if j > 0 {
      StepOfRange(k);
      StepsFromRange(k + 1, j - 1);
    }
  }

  /** The animation has period six: six ticks bring any reachable list back to itself. */
  lemma Periodic(active: seq<int>)
    requires WellFormed(active)
    ensures Steps(active, ConnectionCount + 1) == active
  {
    var k := |active|;
    WellFormedIsRange(active);
    IterateAdd(Step, active, ConnectionCount - k, 1 + k);
    StepsFromRange(k, ConnectionCount - k);
    IterateAdd(Step, Range(ConnectionCount), 1, k);
    StepOfRange(ConnectionCount);
    assert Steps(Range(ConnectionCount), 1) == Step(Range(ConnectionCount));
    assert [] == Range(0);
    StepsFromRange(0, k);
  }

  /** `activeConnections.includes(idx)` */
  predicate IsActive(active: seq<int>, idx: int) {
    idx in active
  }

  /** Connection `idx` is lit exactly when it is among the first `|active|`. */
  lemma ActiveIffBelowCount(active: seq<int>, idx: int)
    requires WellFormed(active)
    ensures IsActive(active, idx) <==> 0 <= idx < |active|
  {
    if 0 <= idx < |active| {
      assert active[idx] == idx;
    }
  }

  /** The diagram's state cell. */
  class Network {
    var activeConnections: seq<int>

    constructor()
      ensures activeConnections == []
    {
      activeConnections := [];
    }

    /** The interval callback. */
    method Tick()
      modifies this
      ensures activeConnections == Step(old(activeConnections))
    {
      if |activeConnections| >= ConnectionCount {
        activeConnections := [];
      } else {
        activeConnections := activeConnections + [|activeConnections|];
      }
    }
  }
}
