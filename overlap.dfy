/**
 * Question 1 of the study: which approach detects more classic code smells. The totals
 * count findings; similarity and divergence compare the two detectors' fingerprint sets.
 */
module SmellOverlap {
  import opened SmellMetrics

  /** The report of question 1: M1 totals, M2 similarity, M3 divergence. */
  datatype Question1 = Question1(
    llmTotal: nat, sonarTotal: nat,
    common: nat, unique: nat, similarity: real,
    llmExclusive: nat, sonarExclusive: nat, llmDivergence: real, sonarDivergence: real)

  /**
   * The metrics of question 1 from the two finding totals and the two fingerprint sets.
   * The shared and exclusive fingerprints partition the union, so with any fingerprint
   * at all the three rates add up to 100; similarity is 100 exactly when the detectors
   * agree on every fingerprint, and a divergence is 0 exactly when that detector has
   * nothing the other lacks.
   */
  function Question1Of(llmTotal: nat, sonarTotal: nat, llm: set<string>, sonar: set<string>): (q: Question1)
    ensures q.llmTotal == llmTotal && q.sonarTotal == sonarTotal
    ensures q.common == |llm * sonar| && q.unique == |llm + sonar|
    ensures q.llmExclusive == |llm - sonar| && q.sonarExclusive == |sonar - llm|
    ensures q.common + q.llmExclusive + q.sonarExclusive == q.unique
    ensures q.unique == 0 <==> llm == {} && sonar == {}
    ensures q.unique == 0 ==> q.similarity == 0.0 && q.llmDivergence == 0.0 && q.sonarDivergence == 0.0
    ensures q.unique > 0 ==> q.similarity + q.llmDivergence + q.sonarDivergence == 100.0
    ensures 0.0 <= q.similarity <= 100.0
    ensures 0.0 <= q.llmDivergence <= 100.0 && 0.0 <= q.sonarDivergence <= 100.0
    ensures q.similarity == 100.0 <==> llm == sonar && llm != {}
    ensures q.llmDivergence == 0.0 <==> llm <= sonar
    ensures q.sonarDivergence == 0.0 <==> sonar <= llm
  {
    var common, union := llm * sonar, llm + sonar;
    var onlyLlm, onlySonar := llm - sonar, sonar - llm;
    SetPartition(llm, sonar);
    PercentsOfPartition(|common|, |onlyLlm|, |onlySonar|, |union|);
    Question1(llmTotal, sonarTotal,
              |common|, |union|, Percent(|common|, |union|),
              |onlyLlm|, |onlySonar|, Percent(|onlyLlm|, |union|), Percent(|onlySonar|, |union|))
  }

  /**
   * The intersection and the two differences split the union; the intersection is the
   * whole union only when the sets are equal, and a difference is empty only for a subset.
   */
  lemma SetPartition<T>(a: set<T>, b: set<T>)
    ensures |a * b| + |a - b| + |b - a| == |a + b|
    ensures |a + b| == 0 <==> a == {} && b == {}
    ensures |a * b| == |a + b| <==> a == b
    ensures |a - b| == 0 <==> a <= b
    ensures |b - a| == 0 <==> b <= a
  {
    assert a + b == (a * b) + (a - b) + (b - a);
    assert (a * b) * (a - b) == {};
    assert ((a * b) + (a - b)) * (b - a) == {};
    if a == {} && b == {} {
      assert a + b == {};
    }
    if a + b == {} {
      assert a == {};
    }
  }
}
