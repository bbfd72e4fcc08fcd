/**
 * The progress animation that two components run with the same loop,
 * `for (let i = 0; i <= 100; i += 5) setProgress(i)`.
 */
module Timeline {

  /** The progress values the loop shows, in the order it shows them. */
  function ProgressSteps(): seq<int>
  {
    seq(21, k => 5 * k)
  }

  /**
   * The progress values are exactly the multiples of five from 0 to 100,
   * strictly increasing, from 0 to 100.
   */
  lemma ProgressStepsShape()
    ensures |ProgressSteps()| == 21
    ensures ProgressSteps()[0] == 0 && ProgressSteps()[20] == 100
    ensures forall j, k :: 0 <= j < k < 21 ==> ProgressSteps()[j] < ProgressSteps()[k]
    ensures forall v :: v in ProgressSteps() <==> 0 <= v <= 100 && v % 5 == 0
  {
    var s := ProgressSteps();
    forall v | 0 <= v <= 100 && v % 5 == 0 ensures v in s {
      assert s[v / 5] == v;
    }
  }
}
