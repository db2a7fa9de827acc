/**
 * The multi-bank rate matcher (src/components/features/finance/MultiBankMatcher.tsx):
 * a three-field form, a matching run that reveals one bank per timer tick,
 * and the best approved offer. Interest rates are in hundredths of a
 * percent (14.5% is 1450).
 */
module MultiBankMatcher {
  import opened Common

  datatype BankMatch = BankMatch(
    name: string,
    interestRate: int,
    approved: bool,
    processingTime: int,
    maxLoan: int)

  /** The five banks the component queries, in order. */
  const Banks: seq<BankMatch> := [
    BankMatch("Zanaco Bank", 1450, true, 7, 2000000),
    BankMatch("FNB Zambia", 1520, true, 5, 1800000),
    BankMatch("Standard Chartered", 1380, true, 10, 2500000),
    BankMatch("Indo Zambia Bank", 1600, false, 14, 1500000),
    BankMatch("Atlas Mara Bank", 1550, true, 8, 1900000)
  ]

  datatype MatcherForm = MatcherForm(income: string, loanAmount: string, employment: string)

  const EmptyForm: MatcherForm := MatcherForm("", "", "")

  /** The guard of `handleStartMatching`; the employment field is not part of it. */
  predicate CanStart(form: MatcherForm) {
    var amount := ParseInt(form.loanAmount);
    form.income != "" && form.loanAmount != "" && amount.Some? && amount.value > 0
  }

  // ---------------------------------------------------------------------
  // The state machine on values

  datatype MatchState = MatchState(
    step: int,
    form: MatcherForm,
    isMatching: bool,
    matches: seq<BankMatch>,
    currentBank: int)

  /** The revealed banks are the first `currentBank` ones, and a run in progress has a bank left. */
  predicate Inv(s: MatchState) {
    0 <= s.currentBank <= |Banks| && s.matches == Banks[..s.currentBank]
    && (s.isMatching ==> s.currentBank < |Banks|)
  }

  const Initial: MatchState := MatchState(0, EmptyForm, false, [], 0)

  function StartState(s: MatchState): MatchState {
    if CanStart(s.form) then s.(isMatching := true, matches := [], currentBank := 0, step := 1) else s
  }

  /** One firing of the matching timer: reveal the current bank, advance, and stop after the last. */
  function TickState(s: MatchState): MatchState {
    if s.isMatching && 0 <= s.currentBank < |Banks| then
      s.(matches := s.matches + [Banks[s.currentBank]],
         currentBank := s.currentBank + 1,
         isMatching := !(s.currentBank + 1 >= |Banks|))
    else s
  }

  function Ticks(s: MatchState, n: nat): MatchState {
    Iterate(TickState, s, n)
  }

  lemma InitialInv()
    ensures Inv(Initial)
  {
  }

  lemma TransitionsKeepInv(s: MatchState)
    requires Inv(s)
    ensures Inv(StartState(s)) && Inv(TickState(s))
  {
    if s.isMatching {
      assert Banks[..s.currentBank + 1] == Banks[..s.currentBank] + [Banks[s.currentBank]];
    }
  }

  /**
   * Starting succeeds exactly when the guard holds, and then begins an empty
   * run at step 1; a failed guard changes nothing; the form is kept either way.
   */
  lemma StartMeaning(s: MatchState)
    ensures var r := StartState(s);
      (r.isMatching && r.matches == [] && r.currentBank == 0 && r.step == 1) || (!CanStart(s.form) && r == s)
    ensures CanStart(s.form) ==> StartState(s).isMatching
    ensures !CanStart(s.form) ==> StartState(s) == s
    ensures StartState(s).form == s.form
  {
  }

  /** The state `k` banks into a run started from `s`. */
  function RunState(s: MatchState, k: nat): MatchState
    requires k <= |Banks|
  {
    s.(step := 1, isMatching := k < |Banks|, matches := Banks[..k], currentBank := k)
  }

  lemma TickAdvancesRun(s: MatchState, k: nat)
    requires k < |Banks|
    ensures TickState(RunState(s, k)) == RunState(s, k + 1)
  {
    assert Banks[..k + 1] == Banks[..k] + [Banks[k]];
  }

  /** `k` ticks after a successful start the first `k` banks are revealed; the run ends after the fifth. */
  lemma {:induction false} RunAfterTicks(s: MatchState, k: nat)
    requires CanStart(s.form) && k <= |Banks|
    ensures Ticks(StartState(s), k) == RunState(s, k)
  {
    if k == 0 {
      assert Banks[..0] == [];
    } else {
      RunAfterTicks(s, k - 1);
      IterateLast(TickState, StartState(s), k - 1);
      TickAdvancesRun(s, k - 1);
    }
  }

  /** Once the run has ended, further ticks change nothing. */
  lemma FinishedRunIsStable(s: MatchState)
    requires CanStart(s.form)
    ensures TickState(Ticks(StartState(s), |Banks|)) == Ticks(StartState(s), |Banks|)
  {
    RunAfterTicks(s, |Banks|);
  }

  // ---------------------------------------------------------------------
  // The best approved offer

  function ApprovedMatches(ms: seq<BankMatch>): (r: seq<BankMatch>)
    ensures forall b :: b in r <==> b in ms && b.approved
    ensures forall b :: multiset(r)[b] == if b.approved then multiset(ms)[b] else 0
    ensures Subsequence(r, ms)
  {
    var r := Filter(ms, (b: BankMatch) => b.approved);
    assert forall b :: b in r <==> multiset(r)[b] > 0;
    r
  }

  /** `reduce((prev, current) => current.interestRate < prev.interestRate ? current : prev)` by position. */
  function ReduceCheapest(ms: seq<BankMatch>, best: nat, k: nat): (i: nat)
    requires best < k <= |ms|
    requires forall j :: 0 <= j < k ==> ms[best].interestRate <= ms[j].interestRate
    requires forall j :: 0 <= j < best ==> ms[best].interestRate < ms[j].interestRate
    ensures i < |ms|
    ensures forall j :: 0 <= j < |ms| ==> ms[i].interestRate <= ms[j].interestRate
    ensures forall j :: 0 <= j < i ==> ms[i].interestRate < ms[j].interestRate
    decreases |ms| - k
  {
    if k == |ms| then best
    else ReduceCheapest(ms, if ms[k].interestRate < ms[best].interestRate then k else best, k + 1)
  }

  /**
   * `bestMatch`: among the approved matches, one with the lowest rate, the
   * first among equals; `None` (null) when nothing is approved.
   */
  function BestMatch(ms: seq<BankMatch>): (r: Option<BankMatch>)
    ensures r.None? <==> forall b :: b in ms ==> !b.approved
    ensures r.Some? ==> r.value in ms && r.value.approved
    ensures r.Some? ==> forall b :: b in ms && b.approved ==> r.value.interestRate <= b.interestRate
    ensures r.Some? ==> var ap := ApprovedMatches(ms);
      exists i :: 0 <= i < |ap| && ap[i] == r.value && forall j :: 0 <= j < i ==> r.value.interestRate < ap[j].interestRate
  {
    var ap := ApprovedMatches(ms);
    if |ap| > 0 then
      var i := ReduceCheapest(ap, 0, 1);
      assert ap[i] in ap;
      assert forall b :: b in ap ==> exists j :: 0 <= j < |ap| && ap[j] == b;
      Some(ap[i])
    else
      None
  }

  /** An approved match whose rate every other approved match exceeds is the best one. */
  lemma UniqueCheapestIsBest(ms: seq<BankMatch>, k: nat)
    requires k < |ms| && ms[k].approved
    requires forall j :: 0 <= j < |ms| && ms[j].approved && ms[j] != ms[k] ==> ms[k].interestRate < ms[j].interestRate
    ensures BestMatch(ms) == Some(ms[k])
  {
    var b := BestMatch(ms).value;
    var i :| 0 <= i < |ms| && ms[i] == b;
  }

  /** Of the five banks, Standard Chartered at 13.8% is the best offer. */
  lemma BestOfAllBanks()
    ensures BestMatch(Banks) == Some(Banks[2])
  {
    UniqueCheapestIsBest(Banks, 2);
  }

  // ---------------------------------------------------------------------
  // The component's state cells

  class Matcher {
    var step: int
    var form: MatcherForm
    var isMatching: bool
    var matches: seq<BankMatch>
    var currentBank: int

    function State(): MatchState
      reads this
    {
      MatchState(step, form, isMatching, matches, currentBank)
    }

    constructor()
      ensures State() == Initial
    {
      step, form, isMatching, matches, currentBank := 0, EmptyForm, false, [], 0;
    }

    /** `setFormData({ ...formData, income: value })` */
    method SetIncome(value: string)
      modifies this
      ensures State() == old(State()).(form := old(form).(income := value))
    {
      form := form.(income := value);
    }

    method SetLoanAmount(value: string)
      modifies this
      ensures State() == old(State()).(form := old(form).(loanAmount := value))
    {
      form := form.(loanAmount := value);
    }

    method SetEmployment(value: string)
      modifies this
      ensures State() == old(State()).(form := old(form).(employment := value))
    {
      form := form.(employment := value);
    }

    method HandleStartMatching()
      modifies this
      ensures State() == StartState(old(State()))
    {
      if form.income != "" && form.loanAmount != "" {
        var amount := ParseInt(form.loanAmount);
        if amount.Some? && amount.value > 0 {
          isMatching := true;
          matches := [];
          currentBank := 0;
          step := 1;
        }
      }
    }

    /** The matching effect's timeout callback. */
    method Tick()
      modifies this
      ensures State() == TickState(old(State()))
    {
      if isMatching && 0 <= currentBank < |Banks| {
        var revealed := currentBank;
        matches := matches + [Banks[revealed]];
        currentBank := currentBank + 1;
        if revealed + 1 >= |Banks| {
          isMatching := false;
        }
      }
    }

    method HandleReset()
      modifies this
      ensures State() == Initial
    {
      step := 0;
      isMatching := false;
      matches := [];
      currentBank := 0;
      form := EmptyForm;
    }
  }
}
