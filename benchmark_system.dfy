/** The benchmark catalogue, its progress machine and the difficulty badge colours. */
module BenchmarkSystem {
  import opened Wrappers
  import Timeline

  datatype Category = AlgorithmCategory | PerformanceCategory | AccuracyCategory | InnovationCategory

  datatype WorldRecord = WorldRecord(holder: string, score: real, date: string)

  /** A benchmark; `difficulty` is kept as the string the badge colour is chosen from. */
  datatype Benchmark = Benchmark(
    id: string,
    name: string,
    description: string,
    category: Category,
    difficulty: string,
    points: nat,
    worldRecord: Option<WorldRecord>,
    userBest: Option<real>)

  const Catalogue: seq<Benchmark> := [
    Benchmark("quantum-supremacy", "Supremacia Quântica",
      "Demonstre superioridade quântica em problema específico",
      PerformanceCategory, "expert", 1000,
      Some(WorldRecord("Google Quantum AI", 200.0, "2023-10-15")), None),
    Benchmark("error-correction", "Correção de Erros Quânticos",
      "Implemente correção de erros com eficiência > 99%",
      AccuracyCategory, "hard", 500,
      Some(WorldRecord("IBM Quantum", 99.2, "2023-09-20")), None),
    Benchmark("hybrid-algorithm", "Algoritmo Híbrido VQE",
      "Otimize VQE para moléculas complexas",
      AlgorithmCategory, "medium", 250, None, None)
  ]

  const Difficulties: seq<string> := ["easy", "medium", "hard", "expert"]

  const Gray := "bg-gray-600"

  /** The badge colour class for a difficulty string. */
  function DifficultyColor(difficulty: string): (colour: string)
    ensures colour == Gray <==> difficulty !in Difficulties
  {
    match difficulty
    case "easy" => "bg-green-600"
    case "medium" => "bg-yellow-600"
    case "hard" => "bg-orange-600"
    case "expert" => "bg-red-600"
    case _ => Gray
  }

  /** The four difficulties get four different colours, none of them gray. */
  lemma DifficultyColorsDistinct(d: string, e: string)
    requires d in Difficulties && e in Difficulties
    ensures DifficultyColor(d) == DifficultyColor(e) <==> d == e
    ensures DifficultyColor(d) != Gray
  {
  }

  /** Every catalogue entry has a known difficulty, so no badge is gray. */
  lemma CatalogueColoured()
    ensures forall i :: 0 <= i < |Catalogue| ==> DifficultyColor(Catalogue[i].difficulty) != Gray
  {
  }

  /** The benchmark page's state. */
  class BenchmarkRunner {
    var selected: Option<Benchmark>
    var isRunning: bool
    var progress: int

    constructor ()
      ensures selected == None && !isRunning && progress == 0
    {
      selected := None;
      isRunning := false;
      progress := 0;
    }

    /** The three statements before the loop of `runBenchmark`. */
    method Start(b: Benchmark)
      modifies this
      ensures selected == Some(b) && isRunning && progress == 0
    {
      selected := Some(b);
      isRunning := true;
      progress := 0;
    }

    /**
     * `runBenchmark` up to the score: `shown` lists the progress values in
     * the order they were set.
     */
    method RunBenchmark(b: Benchmark) returns (shown: seq<int>)
      modifies this
      ensures shown == Timeline.ProgressSteps()
      ensures selected == Some(b) && !isRunning && progress == 100
    {
      Start(b);
      shown := [];
      var i := 0;
      while i <= 100
        invariant 0 <= i <= 105 && i % 5 == 0
        invariant shown == seq(i / 5, k => 5 * k)
        invariant i > 0 ==> progress == i - 5
        invariant selected == Some(b) && isRunning
      {
        progress := i;
        shown := shown + [i];
        i := i + 5;
      }
      isRunning := false;
    }
  }
}
