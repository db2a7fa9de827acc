/**
 * The side-by-side lender comparison
 * (src/components/features/finance/LenderComparison.tsx): the best value of
 * four figures across the compared lenders, and which lenders get a badge.
 * Rates, fees and ratings are decimals in the source; here they are integers
 * in a fixed unit (for instance tenths of a percent), which keeps every
 * comparison and equality the component makes.
 */
module LenderComparison {
  import opened Common

  datatype Lender = Lender(
    id: string,
    name: string,
    interestRate: int,
    minTenure: int,
    maxTenure: int,
    processingFee: int,
    maxLoanAmount: int,
    features: seq<string>,
    rating: int)

  /** The four figures that get a badge; the first two are best when lowest. */
  datatype Figure = Rate | Fee | Loan | Rating

  function Value(f: Figure, l: Lender): int {
    match f
    case Rate => l.interestRate
    case Fee => l.processingFee
    case Loan => l.maxLoanAmount
    case Rating => l.rating
  }

  predicate LowerIsBetter(f: Figure) {
    f == Rate || f == Fee
  }

  /** `lenders.map(l => <figure>)` */
  function Values(f: Figure, lenders: seq<Lender>): (r: seq<int>)
    ensures |r| == |lenders|
    ensures forall i :: 0 <= i < |lenders| ==> r[i] == Value(f, lenders[i])
  {
    seq(|lenders|, i requires 0 <= i < |lenders| => Value(f, lenders[i]))
  }

  /** `Math.min(...s)` on a non-empty list. */
  function Min(s: seq<int>): (m: int)
    requires |s| > 0
    ensures m in s
    ensures forall i :: 0 <= i < |s| ==> m <= s[i]
  {
    if |s| == 1 then s[0]
    else
      var rest := Min(s[1..]);
      if s[0] <= rest then s[0] else rest
  }

  /** `Math.max(...s)` on a non-empty list. */
  function Max(s: seq<int>): (m: int)
    requires |s| > 0
    ensures m in s
    ensures forall i :: 0 <= i < |s| ==> s[i] <= m
  {
    if |s| == 1 then s[0]
    else
      var rest := Max(s[1..]);
      if s[0] >= rest then s[0] else rest
  }

  /** The best value of a figure over a non-empty list: the minimum or the maximum. */
  function Best(f: Figure, lenders: seq<Lender>): int
    requires |lenders| > 0
  {
    if LowerIsBetter(f) then Min(Values(f, lenders)) else Max(Values(f, lenders))
  }

  datatype Highlights = Highlights(lowestRate: int, lowestFee: int, highestLoan: int, highestRating: int)

  function Of(h: Highlights, f: Figure): int {
    match f
    case Rate => h.lowestRate
    case Fee => h.lowestFee
    case Loan => h.highestLoan
    case Rating => h.highestRating
  }

  /** The empty guard, then the four extremes; `None` is the component rendering nothing. */
  function ComputeHighlights(lenders: seq<Lender>): (r: Option<Highlights>)
    ensures r.None? <==> lenders == []
    ensures r.Some? ==> forall f :: Of(r.value, f) == Best(f, lenders)
  {
    if lenders == [] then None
    else
      Some(Highlights(Best(Rate, lenders), Best(Fee, lenders), Best(Loan, lenders), Best(Rating, lenders)))
  }

  /** The badge test: `lender.<figure> === <best>`. */
  predicate Flagged(h: Highlights, f: Figure, l: Lender) {
    Value(f, l) == Of(h, f)
  }

  /**
   * A compared lender is flagged exactly when no other compared lender beats
   * it on that figure, so ties are all flagged.
   */
  lemma FlaggedIffUnbeaten(lenders: seq<Lender>, f: Figure, i: int)
    requires 0 <= i < |lenders|
    ensures var h := ComputeHighlights(lenders).value;
      Flagged(h, f, lenders[i]) <==>
        forall j :: 0 <= j < |lenders| ==>
          if LowerIsBetter(f) then Value(f, lenders[i]) <= Value(f, lenders[j])
          else Value(f, lenders[j]) <= Value(f, lenders[i])
  {
    var vs := Values(f, lenders);
    assert Of(ComputeHighlights(lenders).value, f) == Best(f, lenders);
    if LowerIsBetter(f) {
      MinIffUnbeaten(vs, i);
    } else {
      MaxIffUnbeaten(vs, i);
    }
  }

  lemma MinIffUnbeaten(s: seq<int>, i: int)
    requires 0 <= i < |s|
    ensures s[i] == Min(s) <==> forall j :: 0 <= j < |s| ==> s[i] <= s[j]
  {
    var k :| 0 <= k < |s| && s[k] == Min(s);
  }

  lemma MaxIffUnbeaten(s: seq<int>, i: int)
    requires 0 <= i < |s|
    ensures s[i] == Max(s) <==> forall j :: 0 <= j < |s| ==> s[j] <= s[i]
  {
    var k :| 0 <= k < |s| && s[k] == Max(s);
  }

  /** Some compared lender always carries each badge. */
  lemma SomeoneFlagged(lenders: seq<Lender>, f: Figure)
    requires lenders != []
    ensures exists i :: 0 <= i < |lenders| && Flagged(ComputeHighlights(lenders).value, f, lenders[i])
  {
    var h := ComputeHighlights(lenders).value;
    var vs := Values(f, lenders);
    assert Of(h, f) in vs;
    var k :| 0 <= k < |vs| && vs[k] == Of(h, f);
    assert Flagged(h, f, lenders[k]);
  }

  /** `lender.features.slice(0, 4)`: the first four features, in order. */
  function ShownFeatures(l: Lender): (r: seq<string>)
    ensures |r| == if |l.features| < 4 then |l.features| else 4
    ensures r <= l.features
  {
    l.features[..if |l.features| < 4 then |l.features| else 4]
  }
}
