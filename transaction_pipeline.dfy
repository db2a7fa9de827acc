/**
 * The transaction pipeline demo (src/components/shared/TransactionPipeline.tsx):
 * six steps, an interval that marks the steps before its counter completed,
 * the one at it active and the rest pending, and the connectors and summary
 * drawn from `currentStep`.
 */
module TransactionPipeline {
  import opened Common

  datatype StepStatus = Pending | Active | Completed

  /** `steps.length` */
  const StepCount: nat := 6

  /**
   * The component's state; `interval` is the running interval's `stepIndex`,
   * `None` when no interval is running.
   */
  datatype PipelineState = PipelineState(
    statuses: seq<StepStatus>,
    currentStep: int,
    isAnimating: bool,
    interval: Option<nat>)

  const Initial: PipelineState := PipelineState(seq(StepCount, _ => Pending), 0, false, None)

  /** The status the interval gives step `idx` when its counter is `k`. */
  function StatusAt(idx: int, k: int): StepStatus {
    if idx < k then Completed else if idx == k then Active else Pending
  }

  /** The interval's `prev.map(...)`: every status is recomputed from the counter alone. */
  function Advance(prev: seq<StepStatus>, k: int): (r: seq<StepStatus>)
    ensures |r| == |prev|
    ensures forall idx :: 0 <= idx < |r| ==> r[idx] == StatusAt(idx, k)
  {
    seq(|prev|, idx requires 0 <= idx < |prev| => StatusAt(idx, k))
  }

  /** The start button is only on screen when no run is in progress. */
  predicate CanStart(s: PipelineState) {
    !s.isAnimating && s.interval.None?
  }

  /** `startSimulation`: all steps pending, the counter at 0, a new interval. */
  function StartState(s: PipelineState): (r: PipelineState)
    ensures |r.statuses| == StepCount && forall i :: 0 <= i < StepCount ==> r.statuses[i] == Pending
    ensures r.currentStep == 0 && r.isAnimating && r.interval == Some(0)
  {
    PipelineState(seq(StepCount, _ => Pending), 0, true, Some(0))
  }

  /** One firing of the interval: statuses from the counter, `currentStep` set to it, then it increments and the interval stops past `StepCount`. */
  function TickState(s: PipelineState): PipelineState {
    match s.interval
    case None => s
    case Some(k) =>
      var stop := k + 1 > StepCount;
      PipelineState(Advance(s.statuses, k), k, if stop then false else s.isAnimating,
                    if stop then None else Some(k + 1))
  }

  function Ticks(s: PipelineState, n: nat): PipelineState {
    Iterate(TickState, s, n)
  }

  /** Connector `index` is green when `currentStep > index`. */
  predicate LineGreen(s: PipelineState, index: int) {
    s.currentStep > index
  }

  /** The completion summary is shown when `currentStep >= pipelineSteps.length`. */
  predicate SummaryShown(s: PipelineState) {
    s.currentStep >= |s.statuses|
  }

  /** At counter `k` below the step count exactly step `k` is active; at the step count every step is completed. */
  lemma ExactlyOneActive(prev: seq<StepStatus>, k: int)
    requires |prev| == StepCount && 0 <= k
    ensures k < StepCount ==> Advance(prev, k)[k] == Active
    ensures forall i :: 0 <= i < StepCount && Advance(prev, k)[i] == Active ==> i == k
    ensures k >= StepCount ==> forall i :: 0 <= i < StepCount ==> Advance(prev, k)[i] == Completed
  {
  }

  /** `j` ticks into a run; the `j`-th tick ran with counter `j - 1`. */
  function RunState(j: nat): PipelineState
    requires j <= StepCount + 1
  {
    if j == 0 then PipelineState(seq(StepCount, _ => Pending), 0, true, Some(0))
    else PipelineState(Advance(seq(StepCount, _ => Pending), j - 1), j - 1, j <= StepCount,
                       if j <= StepCount then Some(j) else None)
  }

  lemma TickAdvancesRun(j: nat)
    requires j <= StepCount
    ensures TickState(RunState(j)) == RunState(j + 1)
  {
    var p := seq(StepCount, _ => Pending);
    assert |RunState(j).statuses| == StepCount;
    assert Advance(RunState(j).statuses, j) == Advance(p, j);
  }

  /** After `j` ticks from a start the run is in its `j`-th state. */
  lemma {:induction false} RunAfterTicks(s: PipelineState, j: nat)
    requires j <= StepCount + 1
    ensures Ticks(StartState(s), j) == RunState(j)
  {
    if j > 0 {
      RunAfterTicks(s, j - 1);
      IterateLast(TickState, StartState(s), j - 1);
      TickAdvancesRun(j - 1);
    }
  }

  /**
   * The run takes `StepCount + 1` ticks: until then it is animating and the
   * summary is hidden; after it the interval is gone, every step is
   * completed, the summary is shown, and further ticks change nothing.
   */
  lemma RunEnds(s: PipelineState, j: nat)
    requires j <= StepCount + 1
    ensures var t := Ticks(StartState(s), j);
      (t.isAnimating <==> j <= StepCount) && (SummaryShown(t) <==> j == StepCount + 1)
    ensures var t := Ticks(StartState(s), StepCount + 1);
      t.interval.None? && TickState(t) == t && |t.statuses| == StepCount && forall i :: 0 <= i < StepCount ==> t.statuses[i] == Completed
  {
    RunAfterTicks(s, j);
    RunAfterTicks(s, StepCount + 1);
  }

  /** During a run connector `i` is green exactly when step `i` is completed. */
  lemma GreenIffCompleted(s: PipelineState, j: nat, i: int)
    requires j <= StepCount + 1 && 0 <= i < StepCount
    ensures var t := Ticks(StartState(s), j); |t.statuses| == StepCount && (LineGreen(t, i) <==> t.statuses[i] == Completed)
  {
    RunAfterTicks(s, j);
  }

  /** The component's state cells and the interval's counter. */
  class Pipeline {
    var statuses: seq<StepStatus>
    var currentStep: int
    var isAnimating: bool
    var interval: Option<nat>

    function State(): PipelineState
      reads this
    {
      PipelineState(statuses, currentStep, isAnimating, interval)
    }

    constructor()
      ensures State() == Initial
    {
      statuses, currentStep, isAnimating, interval := seq(StepCount, _ => Pending), 0, false, None;
    }

    method StartSimulation()
      requires CanStart(State())
      modifies this
      ensures State() == StartState(old(State()))
    {
      isAnimating := true;
      currentStep := 0;
      statuses := seq(StepCount, _ => Pending);
      interval := Some(0);
    }

    /** The interval callback. */
    method Tick()
      modifies this
      ensures State() == TickState(old(State()))
    {
      if interval.Some? {
        var stepIndex := interval.value;
        statuses := Advance(statuses, stepIndex);
        currentStep := stepIndex;
        stepIndex := stepIndex + 1;
        if stepIndex > StepCount {
          interval := None;
          isAnimating := false;
        } else {
          interval := Some(stepIndex);
        }
      }
    }
  }
}
