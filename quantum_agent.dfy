/**
 * The rule engine of the agent panel: a results bag goes in, an ordered list
 * of canned decisions comes out. The thresholds stay in the `real` form the
 * component writes them in; lemmas restate them over integers.
 */
module QuantumAgent {
  import opened Wrappers

  datatype DecisionType = Optimization | Analysis | Recommendation | Alert

  datatype Decision = Decision(
    kind: DecisionType,
    title: string,
    description: string,
    confidence: real,
    framework: string)

  /** A histogram the way `Object.entries` enumerates it: (state, count) pairs in order. */
  type Histogram = seq<(string, int)>

  /** The results bag; a missing framework is `None`. */
  datatype Results = Results(
    qiskit: Option<Histogram>,
    cirq: Option<Histogram>,
    qsharp: Option<string>,
    quipper: Option<string>,
    strawberryFields: Option<seq<int>>)

  /** The condition under which the panel starts an analysis: results present and the panel active. */
  predicate ShouldAnalyze(results: Option<Results>, isActive: bool)
  {
    results.Some? && isActive
  }

  function Abs(x: int): nat
  {
    if x < 0 then -x else x
  }

  // ---------------------------------------------------------------------------
  // Qiskit: the entanglement test

  /** The sum of all counts, `Object.values(h).reduce((a, b) => a + b, 0)`. */
  function Total(h: Histogram): int
  {
    if h == [] then 0 else h[0].1 + Total(h[1..])
  }

  predicate NonNegativeCounts(h: Histogram)
  {
    forall i :: 0 <= i < |h| ==> h[i].1 >= 0
  }

  /** `h[key]`: the count of the first entry with that key, `None` for `undefined`. */
  function Lookup(h: Histogram, key: string): (r: Option<int>)
    ensures r.None? <==> forall i :: 0 <= i < |h| ==> h[i].0 != key
    ensures r.Some? ==> exists i :: 0 <= i < |h| && h[i] == (key, r.value)
  {
    if h == [] then None
    else if h[0].0 == key then Some(h[0].1)
    else Lookup(h[1..], key)
  }

  /**
   * `Math.abs(h['00'] - h['11']) / total < 0.1`. A missing key makes the
   * difference NaN and a zero total makes the ratio NaN or Infinity; none of
   * those is below 0.1.
   */
  predicate EntanglementDetected(h: Histogram)
  {
    match (Lookup(h, "00"), Lookup(h, "11"))
    case (Some(a), Some(b)) =>
      var t := Total(h);
      t != 0 && (Abs(a - b) as real) / (t as real) < 0.1
    case _ => false
  }

  lemma {:induction false} TotalNonNegative(h: Histogram)
    requires NonNegativeCounts(h)
    ensures Total(h) >= 0
  {
    if h != [] {
      assert NonNegativeCounts(h[1..]) by {
        forall i | 0 <= i < |h| - 1 ensures h[1..][i].1 >= 0 {
          assert h[1..][i] == h[i + 1];
        }
      }
      TotalNonNegative(h[1..]);
    }
  }

  lemma ProductPositive(a: real, b: real)
    requires a > 0.0 && b > 0.0
    ensures a * b > 0.0
  {
  }

  lemma ProductNonNegative(a: real, b: real)
    requires a >= 0.0 && b > 0.0
    ensures a * b >= 0.0
  {
  }

  /** x / t < 0.1, restated without division. */
  lemma RatioBelowTenth(x: nat, t: int)
    requires t != 0
    ensures (x as real) / (t as real) < 0.1 <==> t < 0 || 10 * x < t
  {
    var q := (x as real) / (t as real);
    var r := t as real;
    assert q * r == x as real;
    if t > 0 {
      if q < 0.1 {
        ProductPositive(0.1 - q, r);
        assert (0.1 - q) * r == 0.1 * r - q * r;
      } else {
        ProductNonNegative(q - 0.1, r);
        assert (q - 0.1) * r == q * r - 0.1 * r;
      }
    } else if q > 0.0 {
      ProductPositive(q, -r);
      assert q * (-r) == -(q * r);
    }
  }

  /**
   * The entanglement rule over integer counts: with both buckets present it
   * fires exactly when the total is positive and ten times the difference is
   * below it (or the total is negative, which no real histogram has); a
   * missing bucket never fires.
   */
  lemma EntanglementIntegerForm(h: Histogram)
    ensures EntanglementDetected(h) <==>
      Lookup(h, "00").Some? && Lookup(h, "11").Some? &&
      (Total(h) < 0 ||
       (Total(h) > 0 && 10 * Abs(Lookup(h, "00").value - Lookup(h, "11").value) < Total(h)))
  {
    if Lookup(h, "00").Some? && Lookup(h, "11").Some? && Total(h) != 0 {
      RatioBelowTenth(Abs(Lookup(h, "00").value - Lookup(h, "11").value), Total(h));
    }
  }

  /** For a histogram of shot counts the rule is `t > 0 && 10·|a-b| < t`; a zero total never fires. */
  lemma EntanglementRule(h: Histogram)
    requires NonNegativeCounts(h)
    ensures EntanglementDetected(h) <==>
      Lookup(h, "00").Some? && Lookup(h, "11").Some? && Total(h) > 0 &&
      10 * Abs(Lookup(h, "00").value - Lookup(h, "11").value) < Total(h)
  {
    TotalNonNegative(h);
    EntanglementIntegerForm(h);
  }

  // ---------------------------------------------------------------------------
  // Cirq: the dominant state

  /** `Math.max(...Object.values(h))` for a non-empty histogram. */
  function MaxCount(h: Histogram): (m: int)
    requires |h| > 0
    ensures forall i :: 0 <= i < |h| ==> h[i].1 <= m
    ensures exists i :: 0 <= i < |h| && h[i].1 == m
  {
    if |h| == 1 then h[0].1
    else
      var rest := MaxCount(h[1..]);
      assert forall i :: 1 <= i < |h| ==> h[i] == h[1..][i - 1];
      if h[0].1 >= rest then h[0].1 else rest
  }

  /** The index `find` stops at: the first entry whose count is `m`. */
  function FirstWithCount(h: Histogram, m: int): (r: Option<nat>)
    ensures r.None? <==> forall i :: 0 <= i < |h| ==> h[i].1 != m
    ensures r.Some? ==> r.value < |h| && h[r.value].1 == m
    ensures r.Some? ==> forall j :: 0 <= j < r.value ==> h[j].1 != m
  {
    if h == [] then None
    else if h[0].1 == m then Some(0)
    else
      match FirstWithCount(h[1..], m)
      case None => None
      case Some(k) => Some(k + 1)
  }

  /** Entry `i` holds the maximum count and no earlier entry does. */
  predicate IsFirstMax(h: Histogram, i: nat)
  {
    && i < |h|
    && (forall j :: 0 <= j < |h| ==> h[j].1 <= h[i].1)
    && (forall j :: 0 <= j < i ==> h[j].1 < h[i].1)
  }

  /**
   * The state the optimization decision names: the key of the first entry
   * with the highest count; `None` (printed as "undefined") for an empty histogram.
   */
  function DominantState(h: Histogram): (r: Option<string>)
    ensures r.None? <==> h == []
    ensures r.Some? ==> exists i: nat :: IsFirstMax(h, i) && h[i].0 == r.value
  {
    if h == [] then None
    else
      match FirstWithCount(h, MaxCount(h))
      case Some(i) => Some(h[i].0)
      case None => None
  }

  /** A histogram has exactly one first maximum, so the dominant state is well defined. */
  lemma FirstMaxUnique(h: Histogram, i: nat, j: nat)
    requires IsFirstMax(h, i) && IsFirstMax(h, j)
    ensures i == j
  {
    assert h[j].1 <= h[i].1 && h[i].1 <= h[j].1;
  }

  // ---------------------------------------------------------------------------
  // Strawberry Fields: the variance test

  function Sum(d: seq<int>): int
  {
    if d == [] then 0 else d[0] + Sum(d[1..])
  }

  function SumOfSquares(d: seq<int>): int
  {
    if d == [] then 0 else d[0] * d[0] + SumOfSquares(d[1..])
  }

  /** `d.reduce((a, b) => a + Math.pow(b - mean, 2), 0)`. */
  function SquaredDeviations(d: seq<int>, mean: real): real
  {
    if d == [] then 0.0
    else (d[0] as real - mean) * (d[0] as real - mean) + SquaredDeviations(d[1..], mean)
  }

  /**
   * `calculateVariance`: the mean squared deviation from the mean. For the
   * empty sequence the source divides 0 by 0 and gets NaN, here `None`.
   */
  function Variance(d: seq<int>): Option<real>
  {
    if |d| == 0 then None
    else
      var mean := (Sum(d) as real) / (|d| as real);
      Some(SquaredDeviations(d, mean) / (|d| as real))
  }

  /** `variance > 1`; NaN compares false. */
  predicate HighVariance(d: seq<int>)
  {
    Variance(d).Some? && Variance(d).value > 1.0
  }

  lemma {:induction false} SquaredDeviationsNonNegative(d: seq<int>, mean: real)
    ensures SquaredDeviations(d, mean) >= 0.0
  {
    if d != [] {
      SquaredDeviationsNonNegative(d[1..], mean);
    }
  }

  /** The variance is never negative. */
  lemma VarianceNonNegative(d: seq<int>)
    ensures Variance(d).Some? ==> Variance(d).value >= 0.0
  {
    if |d| > 0 {
      SquaredDeviationsNonNegative(d, (Sum(d) as real) / (|d| as real));
    }
  }

  /** Σ(x-m)² = Σx² - 2mΣx + n·m². */
  lemma {:induction false} SquaredDeviationsExpand(d: seq<int>, mean: real)
    ensures SquaredDeviations(d, mean) ==
      SumOfSquares(d) as real - 2.0 * mean * (Sum(d) as real) + (|d| as real) * mean * mean
  {
    if d != [] {
      var rest := d[1..];
      SquaredDeviationsExpand(rest, mean);
      CastProduct(d[0], d[0]);
      ExpandStep(d[0] as real, mean, SquaredDeviations(rest, mean),
        SumOfSquares(rest) as real, Sum(rest) as real, |rest| as real,
        SumOfSquares(d) as real, Sum(d) as real, |d| as real);
    }
  }

  /** One more value `x` in the expansion of the squared deviations. */
  lemma ExpandStep(x: real, mean: real, sd: real, q: real, s: real, n: real, q': real, s': real, n': real)
    requires sd == q - 2.0 * mean * s + n * mean * mean
    requires q' == x * x + q && s' == x + s && n' == n + 1.0
    ensures (x - mean) * (x - mean) + sd == q' - 2.0 * mean * s' + n' * mean * mean
  {
  }

  /**
   * The algebra behind the variance: with mean m = s/n and
   * Σ(x-m)² = q - 2ms + n·m², n² times Σ(x-m)²/n is n·q - s².
   */
  lemma MeanAlgebra(n: real, s: real, q: real, sd: real)
    requires n > 0.0
    requires sd == q - 2.0 * (s / n) * s + n * (s / n) * (s / n)
    ensures (sd / n) * (n * n) == n * q - s * s
  {
    var m := s / n;
    assert m * n == s;
    assert (sd / n) * n == sd;
    calc {
      (sd / n) * (n * n);
      ((sd / n) * n) * n;
      sd * n;
      (q - 2.0 * m * s + n * m * m) * n;
      q * n - 2.0 * (m * n) * s + (m * n) * (m * n);
      q * n - 2.0 * s * s + s * s;
      n * q - s * s;
    }
  }

  lemma CastProduct(a: int, b: int)
    ensures (a * b) as real == (a as real) * (b as real)
  {
  }

  lemma DivideBack(a: real, b: real, c: real)
    requires b > 0.0 && a * b == c
    ensures a == c / b
  {
  }

  /** MeanAlgebra with the sums still integers: the variance is (k·squares - sum²) / k². */
  lemma IntegerMeanAlgebra(k: nat, sum: int, squares: int, m: real, sd: real)
    requires k > 0
    requires m == (sum as real) / (k as real)
    requires sd == squares as real - 2.0 * m * (sum as real) + (k as real) * m * m
    ensures sd / (k as real) == ((k * squares - sum * sum) as real) / ((k * k) as real)
  {
    var n := k as real;
    MeanAlgebra(n, sum as real, squares as real, sd);
    var a := k * squares;
    var b := sum * sum;
    CastProduct(k, squares);
    CastProduct(sum, sum);
    CastProduct(k, k);
    assert (a - b) as real == a as real - b as real;
    ProductPositive(n, n);
    DivideBack(sd / n, n * n, (a - b) as real);
  }

  /**
   * The variance in closed form: (n·Σx² - (Σx)²) / n² for a non-empty
   * sequence of n values.
   */
  lemma VarianceClosedForm(d: seq<int>)
    requires |d| > 0
    ensures Variance(d) == Some(((|d| * SumOfSquares(d) - Sum(d) * Sum(d)) as real) / ((|d| * |d|) as real))
  {
    var m := (Sum(d) as real) / (|d| as real);
    var sd := SquaredDeviations(d, m);
    assert Variance(d) == Some(sd / (|d| as real));
    VarianceParts(d, m, sd);
  }

  /** The step of the closed form that needs the expansion and the mean algebra. */
  lemma VarianceParts(d: seq<int>, m: real, sd: real)
    requires |d| > 0 && m == (Sum(d) as real) / (|d| as real) && sd == SquaredDeviations(d, m)
    ensures sd / (|d| as real) == ((|d| * SumOfSquares(d) - Sum(d) * Sum(d)) as real) / ((|d| * |d|) as real)
  {
    SquaredDeviationsExpand(d, m);
    IntegerMeanAlgebra(|d|, Sum(d), SumOfSquares(d), m, sd);
  }

  /** x / y > 1, restated without division. */
  lemma RatioAboveOne(x: int, y: int)
    requires y > 0
    ensures (x as real) / (y as real) > 1.0 <==> x > y
  {
    var q := (x as real) / (y as real);
    var r := y as real;
    assert q * r == x as real;
    if q > 1.0 {
      ProductPositive(q - 1.0, r);
      assert (q - 1.0) * r == q * r - r;
    } else {
      ProductNonNegative(1.0 - q, r);
      assert (1.0 - q) * r == r - q * r;
    }
  }

  /** The alert rule over integers: it fires iff n > 0 and n·Σx² - (Σx)² > n². */
  lemma HighVarianceIff(d: seq<int>)
    ensures HighVariance(d) <==>
      |d| > 0 && |d| * SumOfSquares(d) - Sum(d) * Sum(d) > |d| * |d|
  {
    if |d| > 0 {
      VarianceClosedForm(d);
      RatioAboveOne(|d| * SumOfSquares(d) - Sum(d) * Sum(d), |d| * |d|);
    }
  }

  lemma {:induction false} SumOfConstant(d: seq<int>, c: int)
    requires forall i :: 0 <= i < |d| ==> d[i] == c
    ensures Sum(d) == |d| * c && SumOfSquares(d) == |d| * c * c
  {
    if d != [] {
      SumOfConstant(d[1..], c);
    }
  }

  /** A constant non-empty sequence has variance 0. */
  lemma VarianceOfConstant(d: seq<int>, c: int)
    requires |d| > 0
    requires forall i :: 0 <= i < |d| ==> d[i] == c
    ensures Variance(d) == Some(0.0)
  {
    SumOfConstant(d, c);
    VarianceClosedForm(d);
    assert |d| * (|d| * c * c) - (|d| * c) * (|d| * c) == 0;
  }

  /** [0,1,0,2,1]: mean 0.8, variance 0.56, no alert. */
  lemma QuietPhotonicSample()
    ensures Variance([0, 1, 0, 2, 1]) == Some(0.56)
    ensures !HighVariance([0, 1, 0, 2, 1])
  {
    var d := [0, 1, 0, 2, 1];
    assert Sum(d) == 4 && SumOfSquares(d) == 6;
    VarianceClosedForm(d);
    HighVarianceIff(d);
  }

  /** [0,5,0,5,0]: mean 2, variance 6, alert. */
  lemma NoisyPhotonicSample()
    ensures Variance([0, 5, 0, 5, 0]) == Some(6.0)
    ensures HighVariance([0, 5, 0, 5, 0])
  {
    var d := [0, 5, 0, 5, 0];
    assert Sum(d) == 10 && SumOfSquares(d) == 50;
    VarianceClosedForm(d);
    HighVarianceIff(d);
  }

  // ---------------------------------------------------------------------------
  // The decisions

  const AnalysisTitle := "Emaranhamento Perfeito Detectado"
  const AnalysisText :=
    "O sistema Qiskit demonstrou emaranhamento quântico ideal com distribuição uniforme entre estados |00⟩ e |11⟩."

  const AnalysisDecision := Decision(Analysis, AnalysisTitle, AnalysisText, 0.95, "Qiskit")

  /** How a template literal prints the dominant state; `undefined` when there is none. */
  function StateText(state: Option<string>): string
  {
    match state
    case Some(s) => s
    case None => "undefined"
  }

  const OptimizationTitle := "Otimização de Circuito Identificada"
  const OptimizationLead := "Cirq otimizou o circuito com estado dominante "
  const OptimizationClose := ". Recomendo usar esta configuração para próximas execuções."

  function OptimizationDecision(state: Option<string>): Decision
  {
    Decision(Optimization, OptimizationTitle, OptimizationLead + StateText(state) + OptimizationClose, 0.87, "Cirq")
  }

  const AlertTitle := "Alta Variabilidade Fotônica"
  const AlertText := "Detectada alta variância nas medições fotônicas. Considerar ajuste dos parâmetros de squeeze."

  const AlertDecision := Decision(Alert, AlertTitle, AlertText, 0.78, "Strawberry Fields")

  const RecommendationTitle := "Fusão Quântica Recomendada"
  const RecommendationText :=
    "Baseado na análise multi-framework, recomendo combinar a estabilidade do Qiskit com a otimização do Cirq para máxima eficiência."

  const RecommendationDecision :=
    Decision(Recommendation, RecommendationTitle, RecommendationText, 0.92, "Multi-Framework")

  /** The confidence each kind of decision is given. */
  function ConfidenceOf(k: DecisionType): real
  {
    match k
    case Analysis => 0.95
    case Optimization => 0.87
    case Alert => 0.78
    case Recommendation => 0.92
  }

  /** The framework label each kind of decision is given. */
  function FrameworkOf(k: DecisionType): string
  {
    match k
    case Analysis => "Qiskit"
    case Optimization => "Cirq"
    case Alert => "Strawberry Fields"
    case Recommendation => "Multi-Framework"
  }

  /** The position of each kind in the output: the rules run in this order. */
  function Rank(k: DecisionType): nat
  {
    match k
    case Analysis => 0
    case Optimization => 1
    case Alert => 2
    case Recommendation => 3
  }

  function QiskitRule(h: Option<Histogram>): seq<Decision>
  {
    if h.Some? && EntanglementDetected(h.value) then [AnalysisDecision] else []
  }

  function CirqRule(h: Option<Histogram>): seq<Decision>
  {
    if h.Some? then [OptimizationDecision(DominantState(h.value))] else []
  }

  function PhotonicRule(d: Option<seq<int>>): seq<Decision>
  {
    if d.Some? && HighVariance(d.value) then [AlertDecision] else []
  }

  /** True when some decision in `ds` is of kind `k`. */
  predicate HasKind(ds: seq<Decision>, k: DecisionType)
  {
    exists i :: 0 <= i < |ds| && ds[i].kind == k
  }

  /**
   * `analyzeResults`: an optional analysis, an optional optimization naming
   * the dominant state, an optional alert, and always a closing recommendation.
   */
  function Analyze(r: Results): seq<Decision>
  {
    QiskitRule(r.qiskit) + CirqRule(r.cirq) + PhotonicRule(r.strawberryFields) + [RecommendationDecision]
  }

  /** Every decision an analysis pass produces comes from one rule, which its kind names. */
  lemma AnalyzeAt(r: Results, i: nat)
    requires i < |Analyze(r)|
    ensures var d := Analyze(r)[i];
      match d.kind
      case Analysis => d == AnalysisDecision && QiskitRule(r.qiskit) != [] && i == 0
      case Optimization => r.cirq.Some? && d == OptimizationDecision(DominantState(r.cirq.value))
        && i == |QiskitRule(r.qiskit)|
      case Alert => d == AlertDecision && PhotonicRule(r.strawberryFields) != []
        && i == |QiskitRule(r.qiskit)| + |CirqRule(r.cirq)|
      case Recommendation => d == RecommendationDecision && i == |Analyze(r)| - 1
  {
    var a := QiskitRule(r.qiskit);
    var o := CirqRule(r.cirq);
    var p := PhotonicRule(r.strawberryFields);
    var ds := Analyze(r);
    assert ds == a + o + p + [RecommendationDecision];
    if i < |a| {
      assert ds[i] == a[i];
    } else if i < |a| + |o| {
      assert ds[i] == o[i - |a|];
    } else if i < |a| + |o| + |p| {
      assert ds[i] == p[i - |a| - |o|];
    }
  }

  /**
   * The order of an analysis pass: one to four decisions, in rule order, the
   * recommendation last; every confidence and framework label is the
   * constant of its kind.
   */
  lemma AnalyzeOrder(r: Results, ds: seq<Decision>)
    requires ds == Analyze(r)
    ensures 1 <= |ds| <= 4
    ensures ds[|ds| - 1] == RecommendationDecision
    ensures forall i, j :: 0 <= i < j < |ds| ==> Rank(ds[i].kind) < Rank(ds[j].kind)
    ensures forall i :: 0 <= i < |ds| ==>
      ds[i].confidence == ConfidenceOf(ds[i].kind) && ds[i].framework == FrameworkOf(ds[i].kind)
  {
    forall i | 0 <= i < |ds|
      ensures ds[i].confidence == ConfidenceOf(ds[i].kind) && ds[i].framework == FrameworkOf(ds[i].kind)
    {
      AnalyzeAt(r, i);
    }
    forall i, j | 0 <= i < j < |ds| ensures Rank(ds[i].kind) < Rank(ds[j].kind) {
      AnalyzeAt(r, i);
      AnalyzeAt(r, j);
    }
  }

  /**
   * Which decisions an analysis pass contains: the analysis exactly when the
   * entanglement test passes, the optimization exactly when a Cirq histogram
   * is present (naming its dominant state), the alert exactly when the
   * variance test passes.
   */
  lemma AnalyzeFires(r: Results, ds: seq<Decision>)
    requires ds == Analyze(r)
    ensures HasKind(ds, Analysis) <==> r.qiskit.Some? && EntanglementDetected(r.qiskit.value)
    ensures HasKind(ds, Optimization) <==> r.cirq.Some?
    ensures HasKind(ds, Alert) <==> r.strawberryFields.Some? && HighVariance(r.strawberryFields.value)
    ensures forall i :: 0 <= i < |ds| && ds[i].kind == Optimization ==>
      ds[i] == OptimizationDecision(DominantState(r.cirq.value))
  {
    var a := QiskitRule(r.qiskit);
    var o := CirqRule(r.cirq);
    var p := PhotonicRule(r.strawberryFields);
    assert ds == a + o + p + [RecommendationDecision];
    if a != [] {
      assert ds[0] == a[0];
    }
    if o != [] {
      assert ds[|a|] == o[0];
    }
    if p != [] {
      assert ds[|a| + |o|] == p[0];
    }
    forall i | 0 <= i < |ds| ensures
      (ds[i].kind == Analysis ==> a != []) &&
      (ds[i].kind == Optimization ==> o != [] && ds[i] == OptimizationDecision(DominantState(r.cirq.value))) &&
      (ds[i].kind == Alert ==> p != [])
    {
      AnalyzeAt(r, i);
    }
  }

  /**
   * An entangled Qiskit histogram, a Cirq histogram and a quiet photonic
   * sample give the analysis, the optimization and the recommendation.
   */
  lemma AnalyzeQuiet(r: Results)
    requires r.qiskit.Some? && EntanglementDetected(r.qiskit.value) && r.cirq.Some?
    requires r.strawberryFields.Some? && !HighVariance(r.strawberryFields.value)
    ensures Analyze(r) == [AnalysisDecision, OptimizationDecision(DominantState(r.cirq.value)), RecommendationDecision]
  {
  }

  /** The decisions and the thinking flag of the agent panel. */
  class AgentPanel {
    var decisions: seq<Decision>
    var isThinking: bool

    constructor ()
      ensures decisions == [] && !isThinking
    {
      decisions := [];
      isThinking := false;
    }

    /**
     * The effect that runs when `results` or `isActive` change. When it
     * starts an analysis it shows the thinking state and hands back the
     * results the delayed second half will analyse.
     */
    method OnInputsChanged(results: Option<Results>, isActive: bool) returns (pending: Option<Results>)
      modifies this
      ensures pending == (if ShouldAnalyze(results, isActive) then results else None)
      ensures isThinking == (ShouldAnalyze(results, isActive) || old(isThinking))
      ensures decisions == old(decisions)
    {
      pending := None;
      if results.Some? && isActive {
        isThinking := true;
        pending := results;
      }
    }

    /** The second half of `analyzeResults`: push the decisions one rule at a time, then publish them. */
    method CompleteAnalysis(results: Results)
      modifies this
      ensures decisions == Analyze(results) && !isThinking
    {
      var agentDecisions: seq<Decision> := [];
      if results.qiskit.Some? {
        if EntanglementDetected(results.qiskit.value) {
          agentDecisions := agentDecisions + [AnalysisDecision];
        }
      }
      assert agentDecisions == QiskitRule(results.qiskit);
      ghost var afterQiskit := agentDecisions;
      if results.cirq.Some? {
        var dominantState := DominantState(results.cirq.value);
        agentDecisions := agentDecisions + [OptimizationDecision(dominantState)];
      }
      assert agentDecisions == afterQiskit + CirqRule(results.cirq);
      ghost var afterCirq := agentDecisions;
      if results.strawberryFields.Some? {
        if HighVariance(results.strawberryFields.value) {
          agentDecisions := agentDecisions + [AlertDecision];
        }
      }
      assert agentDecisions == afterCirq + PhotonicRule(results.strawberryFields);
      agentDecisions := agentDecisions + [RecommendationDecision];
      decisions := agentDecisions;
      isThinking := false;
    }
  }
}
