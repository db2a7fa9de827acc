/**
 * The document verification demo (src/components/shared/DocumentVerification.tsx):
 * four documents taken one at a time through three timed phases, uploading,
 * verifying and verified, by a chain of timeouts that advances a shared
 * `docIndex`.
 */
module DocumentVerification {
  import opened Common

  datatype DocStatus = Pending | Uploading | Verifying | Verified | Failed

  /** `documents.length` as captured when the run starts. */
  const DocCount: nat := 4

  /**
   * The timeout chain: `Running(docIndex, fired)` while document `docIndex`
   * has had `fired` of its three timeouts fire; `Idle` when no chain runs.
   */
  datatype Run = Idle | Running(docIndex: nat, fired: nat)

  datatype VerifyState = VerifyState(
    statuses: seq<DocStatus>,
    currentDoc: int,
    isVerifying: bool,
    run: Run)

  const Initial: VerifyState := VerifyState(seq(DocCount, _ => Pending), -1, false, Idle)

  /** `prev.map((doc, idx) => idx === docIndex ? { ...doc, status } : doc)` */
  function SetStatus(prev: seq<DocStatus>, docIndex: int, status: DocStatus): (r: seq<DocStatus>)
    ensures |r| == |prev|
    ensures 0 <= docIndex < |prev| ==> r[docIndex] == status
    ensures forall j :: 0 <= j < |prev| && j != docIndex ==> r[j] == prev[j]
  {
    seq(|prev|, j requires 0 <= j < |prev| => if j == docIndex then status else prev[j])
  }

  /** `documents.every(doc => doc.status === "verified")` */
  predicate AllVerified(statuses: seq<DocStatus>) {
    forall i :: 0 <= i < |statuses| ==> statuses[i] == Verified
  }

  /** `processNextDoc` with the counter at `docIndex`: stop, or mark the document current and schedule its phases. */
  function ProcessNext(s: VerifyState, docIndex: nat): (r: VerifyState)
    ensures r.statuses == s.statuses
    ensures docIndex >= DocCount ==> !r.isVerifying && r.run == Idle && r.currentDoc == s.currentDoc
    ensures docIndex < DocCount ==> r.isVerifying == s.isVerifying && r.run == Running(docIndex, 0) && r.currentDoc == docIndex
  {
    if docIndex >= DocCount then s.(isVerifying := false, run := Idle)
    else s.(currentDoc := docIndex, run := Running(docIndex, 0))
  }

  /** `startVerification`: every status pending, then the first document begins at once. */
  function StartState(s: VerifyState): VerifyState {
    var reset := VerifyState(seq(|s.statuses|, _ => Pending), -1, true, Idle);
    ProcessNext(reset, 0)
  }

  /** The status the `fired + 1`-th timeout of a document writes. */
  function PhaseStatus(fired: nat): DocStatus {
    if fired == 0 then Uploading else if fired == 1 then Verifying else Verified
  }

  /** The next pending timeout fires; the third one also moves on to the next document. */
  function FireState(s: VerifyState): VerifyState {
    match s.run
    case Idle => s
    case Running(i, f) =>
      var updated := s.(statuses := SetStatus(s.statuses, i, PhaseStatus(f)));
      if f < 2 then updated.(run := Running(i, f + 1))
      else ProcessNext(updated, i + 1)
  }

  function Fires(s: VerifyState, n: nat): VerifyState {
    Iterate(FireState, s, n)
  }

  /** The status a document has while its `fired`-th timeout is awaited. */
  function Awaiting(fired: nat): DocStatus {
    if fired == 0 then Pending else if fired == 1 then Uploading else Verifying
  }

  /**
   * The run's shape: while a chain runs the documents before `docIndex` are
   * verified, the later ones still pending, and the current one in the phase
   * its fired timeouts put it in.
   */
  predicate Inv(s: VerifyState) {
    |s.statuses| == DocCount
    && match s.run
       case Idle => !s.isVerifying
       case Running(i, f) =>
         i < DocCount && f <= 2 && s.isVerifying && s.currentDoc == i
         && s.statuses[i] == Awaiting(f)
         && (forall j :: 0 <= j < i ==> s.statuses[j] == Verified)
         && (forall j :: i < j < DocCount ==> s.statuses[j] == Pending)
  }

  lemma InitialInv()
    ensures Inv(Initial)
  {
  }

  /** Starting from a well-formed idle state begins document 0 with every status pending. */
  lemma StartMeaning(s: VerifyState)
    requires Inv(s)
    ensures var r := StartState(s);
      Inv(r) && r.isVerifying && r.currentDoc == 0 && r.run == Running(0, 0)
      && forall i :: 0 <= i < DocCount ==> r.statuses[i] == Pending
  {
  }

  /** A firing keeps the shape, and changes no document but the current one. */
  lemma FireKeepsInv(s: VerifyState)
    requires Inv(s)
    ensures Inv(FireState(s))
    ensures s.run.Running? ==> forall j :: 0 <= j < DocCount && j != s.run.docIndex ==> FireState(s).statuses[j] == s.statuses[j]
  {
  }

  /** A document goes pending, uploading, verifying, verified, one firing at a time. */
  lemma PhasesInOrder(s: VerifyState)
    requires Inv(s) && s.run.Running?
    ensures var i := s.run.docIndex; var t := FireState(s);
      (s.statuses[i] == Pending ==> t.statuses[i] == Uploading)
      && (s.statuses[i] == Uploading ==> t.statuses[i] == Verifying)
      && (s.statuses[i] == Verifying ==> t.statuses[i] == Verified)
  {
  }

  /** While a chain runs not everything is verified, so the summary and the chain exclude each other. */
  lemma VerifiedOnlyWhenIdle(s: VerifyState)
    requires Inv(s) && AllVerified(s.statuses)
    ensures s.run.Idle? && !s.isVerifying
  {
  }

  /** How many timeouts are still to fire. */
  function Remaining(s: VerifyState): nat {
    match s.run
    case Idle => 0
    case Running(i, f) => if 3 * i + f <= 3 * DocCount then 3 * DocCount - 3 * i - f else 0
  }

  /** Each firing of a running chain brings the end one step nearer; the last one leaves everything verified. */
  lemma FireProgress(s: VerifyState)
    requires Inv(s) && s.run.Running?
    ensures Remaining(FireState(s)) == Remaining(s) - 1
    ensures FireState(s).run.Idle? ==> AllVerified(FireState(s).statuses) && FireState(s).currentDoc == DocCount - 1
  {
    var t := FireState(s);
    if t.run.Idle? {
      forall j | 0 <= j < DocCount ensures t.statuses[j] == Verified {
        if j < s.run.docIndex {
          assert s.statuses[j] == Verified;
        }
      }
    }
  }

  /** A running chain ends after exactly its remaining firings, with every document verified. */
  lemma {:induction false} ChainTerminates(s: VerifyState)
    requires Inv(s) && s.run.Running?
    decreases Remaining(s)
    ensures var t := Fires(s, Remaining(s));
      t.run.Idle? && !t.isVerifying && AllVerified(t.statuses) && t.currentDoc == DocCount - 1
  {
    var t := FireState(s);
    FireProgress(s);
    FireKeepsInv(s);
    if t.run.Running? {
      ChainTerminates(t);
    } else {
      assert Remaining(s) == 1;
      assert Fires(s, 1) == Fires(t, 0);
    }
  }

  /** A run ends twelve firings after the start, with all four documents verified and the last one current. */
  lemma RunFinishes(s: VerifyState)
    requires Inv(s)
    ensures var t := Fires(StartState(s), 3 * DocCount);
      t.run.Idle? && !t.isVerifying && AllVerified(t.statuses) && t.currentDoc == DocCount - 1
  {
    StartMeaning(s);
    ChainTerminates(StartState(s));
  }

  /** The component's state cells and the chain's counter. */
  class Verifier {
    var statuses: seq<DocStatus>
    var currentDoc: int
    var isVerifying: bool
    var run: Run

    function State(): VerifyState
      reads this
    {
      VerifyState(statuses, currentDoc, isVerifying, run)
    }

    constructor()
      ensures State() == Initial
    {
      statuses, currentDoc, isVerifying, run := seq(DocCount, _ => Pending), -1, false, Idle;
    }

    /** `processNextDoc` */
    method ProcessNextDoc(docIndex: nat)
      modifies this
      ensures State() == ProcessNext(old(State()), docIndex)
    {
      if docIndex >= DocCount {
        isVerifying := false;
        run := Idle;
        return;
      }
      currentDoc := docIndex;
      run := Running(docIndex, 0);
    }

    /** `startVerification`, offered only while no run is in progress. */
    method StartVerification()
      requires !isVerifying
      modifies this
      ensures State() == StartState(old(State()))
    {
      isVerifying := true;
      currentDoc := -1;
      statuses := seq(|statuses|, _ => Pending);
      run := Idle;
      ProcessNextDoc(0);
    }

    /** The next scheduled timeout of the chain fires. */
    method FireTimeout()
      modifies this
      ensures State() == FireState(old(State()))
    {
      if run.Running? {
        var docIndex, fired := run.docIndex, run.fired;
        statuses := SetStatus(statuses, docIndex, PhaseStatus(fired));
        if fired < 2 {
          run := Running(docIndex, fired + 1);
        } else {
          ProcessNextDoc(docIndex + 1);
        }
      }
    }
  }
}
