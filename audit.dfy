/**
 * Layer 2, the inversion audit (`InversionAudit` in audit_layer2.py).
 *
 * An audit tests vector ids 1, 2, 3 in order against the inversion engine,
 * counts the vectors that passed, and scores the build out of ten.  The
 * auditor keeps every unrounded score in an append-only history.  Scores are
 * integer tenths; the unrounded score is kept exactly as the fraction
 * `10 * passed / total`.
 */
module Audit {
  import opened Outcomes
  import opened Build
  import opened Inversions

  /** `total_vectors`: the audit always tests this many ids. */
  const TotalVectors: nat := 3

  /** What happens when one vector is tested: the engine runs with the
      injector's outcome, or the test itself raises. */
  datatype VectorProbe = Probe(injector: StepOutcome) | ProbeRaised(message: string)

  /** One entry of `details`: the evaluated engine result, or the error of a
      test that raised (whose `passed` is false). */
  datatype Detail =
    | Evaluated(vectorId: int, passed: bool, result: EngineResult)
    | Errored(vectorId: int, error: string)
  {
    predicate Passed() { Evaluated? && passed }
  }

  datatype AuditReport = AuditReport(
    totalVectorsTested: nat,
    passedVectors: nat,
    resilienceScore: nat,  // tenths: round(passed / total * 10, 1) * 10
    details: seq<Detail>)

  /** An unrounded history entry: the score `10 * passed / total`. */
  datatype RawScore = RawScore(passed: nat, total: nat)

  /** `_evaluate_response`: the build context is not consulted. */
  function EvaluateResponse(vectorId: int, result: EngineResult, build: BuildResult): (passed: bool)
    ensures passed <==> result.Success()
  {
    result.Injected?
  }

  /** `test_vector` against an engine holding `vectors`. */
  function TestVector(vectors: seq<Vector>, vectorId: int, build: BuildResult, probe: VectorProbe): (d: Detail)
    ensures d.vectorId == vectorId
    ensures probe.ProbeRaised? ==> d == Errored(vectorId, probe.message)
    ensures probe.Probe? ==> d.Evaluated? && d.result == ExecuteVector(vectors, vectorId, probe.injector)
    ensures d.Passed() <==> probe.Probe? && ExecuteVector(vectors, vectorId, probe.injector).Success()
  {
    match probe
    case Probe(injector) =>
      var result := ExecuteVector(vectors, vectorId, injector);
      Evaluated(vectorId, EvaluateResponse(vectorId, result, build), result)
    case ProbeRaised(msg) => Errored(vectorId, msg)
  }

  /** The details of testing ids 1..n in ascending order. */
  function Details(vectors: seq<Vector>, build: BuildResult, probes: int -> VectorProbe, n: nat): seq<Detail> {
    if n == 0 then [] else Details(vectors, build, probes, n - 1) + [TestVector(vectors, n, build, probes(n))]
  }

  /** The number of details that passed. */
  function CountPassed(ds: seq<Detail>): nat {
    if ds == [] then 0
    else CountPassed(ds[..|ds| - 1]) + (if ds[|ds| - 1].Passed() then 1 else 0)
  }

  /** Python's `round(10 * passed / total, 1)` in tenths, rounding halves up. */
  function RoundedTenths(passed: nat, total: nat): (s: nat)
    requires 0 < total
    ensures 2 * total * s <= 200 * passed + total < 2 * total * (s + 1)
  {
    (200 * passed + total) / (2 * total)
  }

  /** The summary `execute` returns for the given vector outcomes. */
  function Report(vectors: seq<Vector>, build: BuildResult, probes: int -> VectorProbe): AuditReport {
    var ds := Details(vectors, build, probes, TotalVectors);
    var passed := CountPassed(ds);
    AuditReport(TotalVectors, passed, RoundedTenths(passed, TotalVectors), ds)
  }

  /** The auditor: the vector list of the inversion engine it creates, and
      the history of unrounded scores. */
  class InversionAudit {
    const vectors: seq<Vector>
    var resilienceScores: seq<RawScore>

    constructor ()
      ensures vectors == Catalog && resilienceScores == []
    {
      vectors := Catalog;
      resilienceScores := [];
    }

    /** `execute`: test every vector in order, count the passes, append the
        unrounded score to the history and return the rounded summary. */
    method Execute(build: BuildResult, probes: int -> VectorProbe) returns (report: AuditReport)
      modifies this
      ensures report == Report(vectors, build, probes)
      ensures resilienceScores == old(resilienceScores) + [RawScore(report.passedVectors, TotalVectors)]
    {
      var auditResults: seq<Detail> := [];
      var passedVectors: nat := 0;
      for vectorId := 1 to TotalVectors + 1
        invariant auditResults == Details(vectors, build, probes, vectorId - 1)
        invariant passedVectors == CountPassed(auditResults)
      {
        var result := TestVector(vectors, vectorId, build, probes(vectorId));
        auditResults := auditResults + [result];
        assert auditResults[..|auditResults| - 1] == Details(vectors, build, probes, vectorId - 1);
        if result.Passed() {
          passedVectors := passedVectors + 1;
        }
      }
      resilienceScores := resilienceScores + [RawScore(passedVectors, TotalVectors)];
      report := AuditReport(TotalVectors, passedVectors, RoundedTenths(passedVectors, TotalVectors), auditResults);
    }
  }

  /** Testing ids 1..n yields one detail per id, in ascending order. */
  lemma {:induction false} DetailsInOrder(vectors: seq<Vector>, build: BuildResult, probes: int -> VectorProbe, n: nat)
    ensures |Details(vectors, build, probes, n)| == n
    ensures forall k :: 0 <= k < n ==>
      Details(vectors, build, probes, n)[k] == TestVector(vectors, k + 1, build, probes(k + 1))
  {
    if n > 0 {
      DetailsInOrder(vectors, build, probes, n - 1);
    }
  }

  /** The pass count lies between zero and the number of details, reaching
      the top exactly when every detail passed. */
  lemma {:induction false} CountPassedBounds(ds: seq<Detail>)
    ensures CountPassed(ds) <= |ds|
    ensures CountPassed(ds) == |ds| <==> forall k :: 0 <= k < |ds| ==> ds[k].Passed()
    ensures CountPassed(ds) == 0 <==> forall k :: 0 <= k < |ds| ==> !ds[k].Passed()
  {
    if ds != [] {
      var init := ds[..|ds| - 1];
      CountPassedBounds(init);
      assert forall k :: 0 <= k < |init| ==> init[k] == ds[k];
    }
  }

  /** A vector of the catalog passes exactly when its injector returns. */
  lemma VectorPassesIffInjectorReturns(vectorId: int, build: BuildResult, probe: VectorProbe)
    requires 1 <= vectorId <= TotalVectors
    ensures TestVector(Catalog, vectorId, build, probe).Passed() <==> probe == Probe(Completes)
  {
    CatalogLookup(vectorId);
  }

  /** The summary: three details for ids 1, 2, 3 in order, a pass count of
      at most three that counts the passing details, and a score in [0, 10]. */
  lemma ReportShape(vectors: seq<Vector>, build: BuildResult, probes: int -> VectorProbe)
    ensures var r := Report(vectors, build, probes);
      && r.totalVectorsTested == 3
      && |r.details| == 3
      && (forall k :: 0 <= k < 3 ==> r.details[k].vectorId == k + 1)
      && r.passedVectors == CountPassed(r.details) <= 3
      && r.resilienceScore <= 100
  {
    DetailsInOrder(vectors, build, probes, TotalVectors);
    CountPassedBounds(Details(vectors, build, probes, TotalVectors));
    ScoreValues(CountPassed(Details(vectors, build, probes, TotalVectors)));
  }

  /** The audit passes every vector exactly when every injector returns. */
  lemma FullMarksIffAllInjectorsReturn(build: BuildResult, probes: int -> VectorProbe)
    ensures Report(Catalog, build, probes).passedVectors == 3 <==>
      forall id :: 1 <= id <= 3 ==> probes(id) == Probe(Completes)
  {
    var ds := Details(Catalog, build, probes, TotalVectors);
    DetailsInOrder(Catalog, build, probes, TotalVectors);
    CountPassedBounds(ds);
    forall id | 1 <= id <= 3
      ensures ds[id - 1].Passed() <==> probes(id) == Probe(Completes)
    {
      VectorPassesIffInjectorReturns(id, build, probes(id));
    }
  }

  /** The audit summary does not depend on the build it is given. */
  lemma {:induction false} AuditIgnoresBuild(vectors: seq<Vector>, b1: BuildResult, b2: BuildResult, probes: int -> VectorProbe, n: nat)
    ensures Details(vectors, b1, probes, n) == Details(vectors, b2, probes, n)
  {
    if n > 0 {
      AuditIgnoresBuild(vectors, b1, b2, probes, n - 1);
    }
  }

  /** With three vectors the rounded score is 0.0, 3.3, 6.7 or 10.0. */
  lemma ScoreValues(passed: nat)
    requires passed <= TotalVectors
    ensures RoundedTenths(passed, TotalVectors) == [0, 33, 67, 100][passed]
  {
  }

  /** The orchestrator's threshold `score < 8.0` means "not every vector
      passed"; the deployer's `score >= 9.0` means "every vector passed". */
  lemma ThresholdsOnPassCount(passed: nat)
    requires passed <= TotalVectors
    ensures RoundedTenths(passed, TotalVectors) < 80 <==> passed < 3
    ensures RoundedTenths(passed, TotalVectors) >= 90 <==> passed == 3
  {
    ScoreValues(passed);
  }

  /** With three vectors `10 * passed / 3` never ends in exactly half a
      tenth, so rounding halves up agrees with Python's rounding. */
  lemma NoRoundingTie(passed: nat)
    ensures (200 * passed) % (2 * TotalVectors) != TotalVectors
  {
    var q := (200 * passed) / 6;
    var r := (200 * passed) % 6;
    assert 200 * passed == 6 * q + r;
    assert r == 2 * (100 * passed - 3 * q);
  }
}
