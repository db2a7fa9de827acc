/**
 * The lenders page (src/app/finance/page.tsx): the compare selection of at
 * most three lender ids, the recommended lender, and the lenders handed to
 * the comparison view.
 */
module FinancePage {
  import opened Common
  import opened LenderComparison

  const MaxCompared: nat := 3

  /**
   * The `handleCompare` updater: a selected id is removed (every
   * occurrence); an unselected one is appended while fewer than three are
   * selected, and ignored otherwise.
   */
  function HandleCompare(prev: seq<string>, lenderId: string): (r: seq<string>)
    ensures lenderId in prev ==> lenderId !in r && |r| < |prev|
    ensures lenderId !in prev && |prev| < MaxCompared ==> r == prev + [lenderId]
    ensures lenderId !in prev && |prev| >= MaxCompared ==> r == prev
    ensures forall x :: x != lenderId ==> (x in r <==> x in prev)
  {
    if lenderId in prev then
      RemoveAllShrinks(prev, lenderId);
      RemoveAll(prev, lenderId)
    else if |prev| < MaxCompared then prev + [lenderId]
    else prev
  }

  /** The selection invariant: at most three ids, none twice. */
  predicate SelectionOk(s: seq<string>) {
    |s| <= MaxCompared && NoDup(s)
  }

  lemma HandleCompareKeepsSelectionOk(prev: seq<string>, lenderId: string)
    requires SelectionOk(prev)
    ensures SelectionOk(HandleCompare(prev, lenderId))
  {
    ToggleNoDup(prev, lenderId);
  }

  /** Pressing compare twice on an unselected lender, with room left, restores the selection. */
  lemma CompareTwiceRestores(prev: seq<string>, lenderId: string)
    requires lenderId !in prev && |prev| < MaxCompared
    ensures HandleCompare(HandleCompare(prev, lenderId), lenderId) == prev
  {
    RemoveAllAppend(prev, lenderId);
  }

  /**
   * `lenders.reduce((prev, current) => current.rating > prev.rating ? current : prev)`,
   * tracking positions: `best` is the lender kept after looking at the first `k`.
   */
  function ReduceBest(lenders: seq<Lender>, best: nat, k: nat): (i: nat)
    requires best < k <= |lenders|
    requires forall j :: 0 <= j < k ==> lenders[j].rating <= lenders[best].rating
    requires forall j :: 0 <= j < best ==> lenders[j].rating < lenders[best].rating
    ensures i < |lenders|
    ensures forall j :: 0 <= j < |lenders| ==> lenders[j].rating <= lenders[i].rating
    ensures forall j :: 0 <= j < i ==> lenders[j].rating < lenders[i].rating
    decreases |lenders| - k
  {
    if k == |lenders| then best
    else ReduceBest(lenders, if lenders[k].rating > lenders[best].rating then k else best, k + 1)
  }

  /**
   * `recommendedLender`: a lender of maximal rating, the earliest among equals.
   * The reduce has no initial value, so the list must not be empty.
   */
  function RecommendedLender(lenders: seq<Lender>): (r: Lender)
    requires lenders != []
    ensures r in lenders
    ensures forall l :: l in lenders ==> l.rating <= r.rating
    ensures exists i :: 0 <= i < |lenders| && lenders[i] == r && forall j :: 0 <= j < i ==> lenders[j].rating < r.rating
  {
    var i := ReduceBest(lenders, 0, 1);
    lenders[i]
  }

  /** `mockLenders.filter(l => selectedLenders.includes(l.id))` */
  function ComparedLenders(all: seq<Lender>, selected: seq<string>): (r: seq<Lender>)
    ensures Subsequence(r, all)
    ensures forall l :: l in r <==> l in all && l.id in selected
    ensures forall l :: multiset(r)[l] == if l.id in selected then multiset(all)[l] else 0
  {
    var r := Filter(all, (l: Lender) => l.id in selected);
    assert forall l :: l in r <==> multiset(r)[l] > 0;
    r
  }

  /** Only which ids are selected matters, not the order they were picked in. */
  lemma {:induction false} ComparedIgnoresSelectionOrder(all: seq<Lender>, s1: seq<string>, s2: seq<string>)
    requires forall id :: id in s1 <==> id in s2
    ensures ComparedLenders(all, s1) == ComparedLenders(all, s2)
  {
    FilterCongruent(all, (l: Lender) => l.id in s1, (l: Lender) => l.id in s2);
  }
}
