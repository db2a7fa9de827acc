/**
 * The verification demo on the trust page (src/app/trust/page.tsx): a step
 * counter and a fraud score advanced by an effect's timer, and the step
 * badges drawn from them.
 */
module TrustPage {
  import opened Common

  /** `verificationSteps.length` */
  const StepCount: nat := 6

  /** How much one step adds to the score, and the score's ceiling. */
  const ScoreIncrement: int := 17
  const MaxScore: int := 100

  datatype TrustState = TrustState(step: int, score: int, isVerifying: bool)

  const Initial: TrustState := TrustState(0, 0, false)

  /** `Math.min(a, b)` */
  function Min(a: int, b: int): (m: int)
    ensures m <= a && m <= b && (m == a || m == b)
  {
    if a <= b then a else b
  }

  /** `startVerification` */
  function StartState(s: TrustState): TrustState {
    TrustState(0, 0, true)
  }

  /**
   * The timer the effect schedules: below the last step it advances the step
   * and adds to the score, capped; at the last step it ends the run; in any
   * other state no timer is scheduled.
   */
  function TickState(s: TrustState): TrustState {
    if s.isVerifying && s.step < StepCount then
      TrustState(s.step + 1, Min(s.score + ScoreIncrement, MaxScore), true)
    else if s.isVerifying && s.step == StepCount then
      s.(isVerifying := false)
    else s
  }

  function Ticks(s: TrustState, n: nat): TrustState {
    Iterate(TickState, s, n)
  }

  /** The score after `k` steps from zero. */
  function ScoreAfter(k: int): int {
    Min(ScoreIncrement * k, MaxScore)
  }

  /** The step stays within the step list and the score is the capped sum of the steps taken. */
  predicate Inv(s: TrustState) {
    0 <= s.step <= StepCount && s.score == ScoreAfter(s.step)
  }

  lemma InitialInv()
    ensures Inv(Initial) && Inv(StartState(Initial))
  {
  }

  /** A tick keeps the invariant, never lowers the score, and never takes it past the ceiling. */
  lemma TickKeepsInv(s: TrustState)
    requires Inv(s)
    ensures Inv(TickState(s))
    ensures s.score <= TickState(s).score <= MaxScore
  {
  }

  /** At the last step a tick only ends the run. */
  lemma LastTickOnlyStops(s: TrustState)
    requires s.isVerifying && s.step == StepCount
    ensures TickState(s) == TrustState(s.step, s.score, false)
  {
  }

  /** `j` ticks into a run, before it ends. */
  function RunState(j: nat): TrustState {
    TrustState(j, ScoreAfter(j), true)
  }

  lemma {:induction false} RunAfterTicks(s: TrustState, j: nat)
    requires j <= StepCount
    ensures Ticks(StartState(s), j) == RunState(j)
  {
    if j > 0 {
      RunAfterTicks(s, j - 1);
      IterateLast(TickState, StartState(s), j - 1);
    }
  }

  /** Six ticks after a start the score is exactly 100; the seventh ends the run and later ones change nothing. */
  lemma RunReachesFullScore(s: TrustState)
    ensures Ticks(StartState(s), StepCount) == TrustState(StepCount, MaxScore, true)
    ensures Ticks(StartState(s), StepCount + 1) == TrustState(StepCount, MaxScore, false)
    ensures TickState(Ticks(StartState(s), StepCount + 1)) == Ticks(StartState(s), StepCount + 1)
  {
    RunAfterTicks(s, StepCount);
    IterateLast(TickState, StartState(s), StepCount);
    IterateLast(TickState, StartState(s), StepCount + 1);
  }

  /** Step `idx` shows as completed. */
  predicate ShownCompleted(s: TrustState, idx: int) {
    idx < s.step
  }

  /** Step `idx` shows as the one in progress. */
  predicate ShownCurrent(s: TrustState, idx: int) {
    !(idx < s.step) && idx == s.step && s.isVerifying
  }

  /** At most one step is in progress, none once the run has ended, and it is never also completed. */
  lemma AtMostOneCurrent(s: TrustState, i: int, j: int)
    ensures ShownCurrent(s, i) && ShownCurrent(s, j) ==> i == j
    ensures ShownCurrent(s, i) ==> !ShownCompleted(s, i) && s.isVerifying
  {
  }

  /** After a finished run every step shows as completed. */
  lemma FinishedRunAllCompleted(s: TrustState, idx: int)
    requires 0 <= idx < StepCount
    ensures var t := Ticks(StartState(s), StepCount + 1);
      ShownCompleted(t, idx) && !ShownCurrent(t, idx)
  {
    RunReachesFullScore(s);
  }

  /** The page's three state cells. */
  class Demo {
    var verificationStep: int
    var fraudScore: int
    var isVerifying: bool

    function State(): TrustState
      reads this
    {
      TrustState(verificationStep, fraudScore, isVerifying)
    }

    constructor()
      ensures State() == Initial
    {
      verificationStep, fraudScore, isVerifying := 0, 0, false;
    }

    method StartVerification()
      modifies this
      ensures State() == StartState(old(State()))
    {
      verificationStep := 0;
      fraudScore := 0;
      isVerifying := true;
    }

    /** The effect's pending timer fires. */
    method TimerFires()
      modifies this
      ensures State() == TickState(old(State()))
    {
      if isVerifying && verificationStep < StepCount {
        verificationStep := verificationStep + 1;
        fraudScore := Min(fraudScore + ScoreIncrement, MaxScore);
      } else if isVerifying && verificationStep == StepCount {
        isVerifying := false;
      }
    }
  }
}
