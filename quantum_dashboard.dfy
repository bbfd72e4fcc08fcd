/**
 * The execution pipeline of the dashboard: reset the flags, step the
 * progress bar from 0 to 100, publish the fixed mock payload, and activate
 * the agent panel one timer later.
 */
module QuantumDashboard {
  import opened Wrappers
  import opened QuantumAgent
  import Timeline

  const QsharpText := "Resultado simbólico da execução Q# (HelloQuantum) - RAVIAN QUANTUM"

  const QuipperText := "-- Quipper Pseudo-Code (RAVIAN QUANTUM)\nimport Quipper\nmain = print_generic Preview (teleportation :: Circ (Qubit, Qubit) -> Circ ())"

  /** The payload every execution publishes. */
  const MockResults := Results(Some(MockQiskit), Some(MockCirq), Some(QsharpText), Some(QuipperText), Some(MockPhotonic))

  const MockQiskit: Histogram := [("00", 256), ("11", 256)]

  const MockCirq: Histogram := [("0", 45), ("1", 22), ("2", 18), ("3", 15)]

  const MockPhotonic := [0, 1, 0, 2, 1]

  /**
   * Analysing the mock payload gives exactly the analysis decision (256 vs
   * 256 is a ratio of 0), the optimization naming state "0" (45 is the
   * largest count) and the recommendation; the variance 0.56 raises no alert.
   */
  lemma MockAnalysis()
    ensures Analyze(MockResults) ==
      [AnalysisDecision, OptimizationDecision(Some("0")), RecommendationDecision]
  {
    MockEntangled();
    MockDominant();
    QuietPhotonicSample();
    AnalyzeQuiet(MockResults);
  }

  /** 256 against 256 of 512 shots: the entanglement test passes. */
  lemma MockEntangled()
    ensures EntanglementDetected(MockQiskit)
  {
    var q := MockQiskit;
    assert Lookup(q, "00") == Some(256) && Lookup(q, "11") == Some(256) && Total(q) == 512;
    EntanglementIntegerForm(q);
  }

  /** State "0" holds the largest count, 45. */
  lemma MockDominant()
    ensures DominantState(MockCirq) == Some("0")
  {
    var c := MockCirq;
    assert MaxCount(c) == 45;
    assert FirstWithCount(c, 45) == Some(0);
  }

  /** The dashboard's state. */
  class Dashboard {
    var isExecuting: bool
    var executionProgress: int
    var results: Option<Results>
    var showResults: bool
    var agentActive: bool
    /** Activation timers scheduled by finished executions that have not fired yet. */
    var pendingActivations: nat

    /**
     * Between actions: the panel is active only over shown results, and a
     * pending activation timer exists only once results are shown.
     */
    ghost predicate Valid()
      reads this
    {
      && (agentActive ==> showResults && results == Some(MockResults))
      && (pendingActivations > 0 ==> showResults && results == Some(MockResults))
      && (showResults ==> !isExecuting)
    }

    constructor ()
      ensures Valid()
      ensures !isExecuting && executionProgress == 0 && results == None
      ensures !showResults && !agentActive && pendingActivations == 0
    {
      isExecuting := false;
      executionProgress := 0;
      results := None;
      showResults := false;
      agentActive := false;
      pendingActivations := 0;
    }

    /** The first four statements of `executeQuantumAgent`. */
    method Reset()
      modifies this
      ensures isExecuting && executionProgress == 0 && !showResults && !agentActive
      ensures results == old(results) && pendingActivations == old(pendingActivations)
    {
      isExecuting := true;
      executionProgress := 0;
      showResults := false;
      agentActive := false;
    }

    /** The progress loop; `shown` lists the values it set, in order. */
    method RunProgress() returns (shown: seq<int>)
      modifies this`executionProgress
      ensures shown == Timeline.ProgressSteps()
      ensures executionProgress == 100
    {
      shown := [];
      var i := 0;
      while i <= 100
        invariant 0 <= i <= 105 && i % 5 == 0
        invariant shown == seq(i / 5, k => 5 * k)
        invariant i > 0 ==> executionProgress == i - 5
      {
        executionProgress := i;
        shown := shown + [i];
        i := i + 5;
      }
    }

    /** Publishing the payload and scheduling the activation timer. */
    method Publish()
      modifies this
      ensures results == Some(MockResults) && !isExecuting && showResults
      ensures agentActive == old(agentActive) && executionProgress == old(executionProgress)
      ensures pendingActivations == old(pendingActivations) + 1
    {
      results := Some(MockResults);
      isExecuting := false;
      showResults := true;
      pendingActivations := pendingActivations + 1;
    }

    /**
     * `executeQuantumAgent` from the click to the scheduling of the
     * activation timer; `shown` lists the progress values in the order shown.
     */
    method Execute() returns (shown: seq<int>)
      requires Valid()
      modifies this
      ensures Valid()
      ensures shown == Timeline.ProgressSteps()
      ensures executionProgress == 100 && !isExecuting
      ensures results == Some(MockResults) && showResults && !agentActive
      ensures pendingActivations == old(pendingActivations) + 1
    {
      Reset();
      shown := RunProgress();
      Publish();
    }

    /** The activation timer firing. */
    method FireActivation()
      requires Valid() && pendingActivations > 0
      modifies this
      ensures Valid()
      ensures agentActive && pendingActivations == old(pendingActivations) - 1
      ensures results == old(results) && showResults == old(showResults)
      ensures isExecuting == old(isExecuting) && executionProgress == old(executionProgress)
    {
      agentActive := true;
      pendingActivations := pendingActivations - 1;
    }
  }
}
