/**
 * The failure predictor (`FailurePredictor` in utils/predictor.py).
 *
 * A fixed catalog of five risks, a boolean heuristic per risk over the
 * context, and a prediction that keeps the likely risks and sorts them by
 * descending probability.  Probabilities are integer hundredths.  The context
 * is a dictionary in the source; each key it may hold is an `Option` here,
 * with `None` standing for an absent key.
 */
module Predictor {
  import opened Outcomes

  /** A catalog entry, and equally an entry of the prediction. */
  datatype Risk = Risk(name: string, probability: nat, mitigation: string)

  /** `_load_risk_patterns`, in insertion order. */
  const RiskPatterns: seq<Risk> := [
    Risk("dependency_conflicts", 50, "Use cached layers, fallback mirrors, and dependency scanning"),
    Risk("configuration_errors", 45, "Pre-validation of configs and fail-fast checks"),
    Risk("docker_daemon_issues", 40, "Pre-check docker info, clear cache with 'docker builder prune'"),
    Risk("network_timeouts", 35, "Cached dependencies + retry mechanisms"),
    Risk("test_flakiness", 30, "Rerun flaky tests, environment consistency checks")
  ]

  /** The context keys the heuristics read; latency is in whole milliseconds. */
  datatype PredictionContext = PredictionContext(
    dockerAvailable: Option<bool>,
    networkLatency: Option<int>,
    hasComplexDependencies: Option<bool>)

  /** `_is_risk_likely`: three risks depend on the context, every other risk
      is assumed possible. */
  function IsRiskLikely(name: string, ctx: PredictionContext): (likely: bool)
    ensures name == "docker_daemon_issues" ==> (likely <==> ctx.dockerAvailable != Some(true))
    ensures name == "network_timeouts" ==> (likely <==> ctx.networkLatency.Some? && ctx.networkLatency.value > 100)
    ensures name == "dependency_conflicts" ==> (likely <==> ctx.hasComplexDependencies == Some(true))
    ensures name !in {"docker_daemon_issues", "network_timeouts", "dependency_conflicts"} ==> likely
  {
    if name == "docker_daemon_issues" then !ctx.dockerAvailable.GetOr(false)
    else if name == "network_timeouts" then ctx.networkLatency.GetOr(0) > 100
    else if name == "dependency_conflicts" then ctx.hasComplexDependencies.GetOr(false)
    else true
  }

  /** The entries of `risks` that are likely, in their original order. */
  function Likely(risks: seq<Risk>, ctx: PredictionContext): seq<Risk> {
    if risks == [] then []
    else
      var last := risks[|risks| - 1];
      Likely(risks[..|risks| - 1], ctx) + (if IsRiskLikely(last.name, ctx) then [last] else [])
  }

  predicate SortedByProbability(s: seq<Risk>) {
    forall i, j :: 0 <= i < j < |s| ==> s[i].probability >= s[j].probability
  }

  /** Places `x` before the first entry whose probability is not above its own. */
  function Insert(x: Risk, s: seq<Risk>): seq<Risk> {
    if s == [] || s[0].probability <= x.probability then [x] + s
    else [s[0]] + Insert(x, s[1..])
  }

  /** `sorted(..., key=probability, reverse=True)`: a stable sort, highest
      probability first. */
  function SortByProbability(s: seq<Risk>): seq<Risk> {
    if s == [] then [] else Insert(s[0], SortByProbability(s[1..]))
  }

  /** What `predict_risks` returns for a context. */
  function Predicted(ctx: PredictionContext): seq<Risk> {
    SortByProbability(Likely(RiskPatterns, ctx))
  }

  function Names(risks: seq<Risk>): seq<string> {
    seq(|risks|, i requires 0 <= i < |risks| => risks[i].name)
  }

  /** `predict_risks`: filter the catalog in order, then sort. */
  method PredictRisks(ctx: PredictionContext) returns (risks: seq<Risk>)
    ensures risks == Predicted(ctx)
    ensures SortedByProbability(risks)
    ensures forall r :: r in risks <==> r in RiskPatterns && IsRiskLikely(r.name, ctx)
  {
    var predicted: seq<Risk> := [];
    var i := 0;
    while i < |RiskPatterns|
      invariant 0 <= i <= |RiskPatterns|
      invariant predicted == Likely(RiskPatterns[..i], ctx)
    {
      var pattern := RiskPatterns[i];
      assert RiskPatterns[..i + 1][..i] == RiskPatterns[..i];
      if IsRiskLikely(pattern.name, ctx) {
        predicted := predicted + [pattern];
      }
      i := i + 1;
    }
    assert RiskPatterns[..i] == RiskPatterns;
    risks := SortByProbability(predicted);
    SortSortedAndPermutation(predicted);
    LikelyMembers(RiskPatterns, ctx);
    forall r ensures r in risks <==> r in predicted {
      assert r in risks <==> r in multiset(risks);
    }
  }

  /** Insertion adds exactly `x`. */
  lemma {:induction false} InsertPermutation(x: Risk, s: seq<Risk>)
    ensures multiset(Insert(x, s)) == multiset(s) + multiset{x}
  {
    if s != [] && s[0].probability > x.probability {
      InsertPermutation(x, s[1..]);
      assert s == [s[0]] + s[1..];
    }
  }

  /** Inserting into a sorted sequence keeps it sorted. */
  lemma {:induction false} InsertSorted(x: Risk, s: seq<Risk>)
    requires SortedByProbability(s)
    ensures SortedByProbability(Insert(x, s))
  {
    if s != [] && s[0].probability > x.probability {
      InsertSorted(x, s[1..]);
      InsertPermutation(x, s[1..]);
      var t := Insert(x, s[1..]);
      forall j | 0 <= j < |t| ensures s[0].probability >= t[j].probability {
        assert t[j] in multiset(t);
        assert t[j] == x || t[j] in multiset(s[1..]);
        if t[j] != x {
          var k :| 0 <= k < |s[1..]| && s[1..][k] == t[j];
          assert s[k + 1] == t[j];
        }
      }
    }
  }

  /** The sort yields a sequence sorted by descending probability that is a
      permutation of its input. */
  lemma {:induction false} SortSortedAndPermutation(s: seq<Risk>)
    ensures SortedByProbability(SortByProbability(s))
    ensures multiset(SortByProbability(s)) == multiset(s)
  {
    if s != [] {
      SortSortedAndPermutation(s[1..]);
      InsertSorted(s[0], SortByProbability(s[1..]));
      InsertPermutation(s[0], SortByProbability(s[1..]));
      assert s == [s[0]] + s[1..];
    }
  }

  /** The sort is stable: input already in descending order comes out
      unchanged, ties included. */
  lemma {:induction false} SortKeepsSortedInput(s: seq<Risk>)
    requires SortedByProbability(s)
    ensures SortByProbability(s) == s
  {
    if s != [] {
      SortKeepsSortedInput(s[1..]);
      assert s == [s[0]] + s[1..];
    }
  }

  /** The filter keeps exactly the likely entries. */
  lemma {:induction false} LikelyMembers(risks: seq<Risk>, ctx: PredictionContext)
    ensures forall r :: r in Likely(risks, ctx) <==> r in risks && IsRiskLikely(r.name, ctx)
  {
    if risks != [] {
      var init := risks[..|risks| - 1];
      LikelyMembers(init, ctx);
      assert risks == init + [risks[|risks| - 1]];
    }
  }

  /** The filter keeps its input's order: a sorted input gives a sorted output. */
  lemma {:induction false} LikelyKeepsOrder(risks: seq<Risk>, ctx: PredictionContext)
    requires SortedByProbability(risks)
    ensures SortedByProbability(Likely(risks, ctx))
  {
    if risks != [] {
      var init := risks[..|risks| - 1];
      var last := risks[|risks| - 1];
      LikelyKeepsOrder(init, ctx);
      LikelyMembers(init, ctx);
      if IsRiskLikely(last.name, ctx) {
        var l := Likely(init, ctx);
        forall i | 0 <= i < |l| ensures l[i].probability >= last.probability {
          assert l[i] in init;
        }
      }
    }
  }

  /** The catalog is already in descending order, so the prediction lists the
      likely risks in catalog order. */
  lemma PredictionFollowsCatalogOrder(ctx: PredictionContext)
    ensures Predicted(ctx) == Likely(RiskPatterns, ctx)
  {
    assert SortedByProbability(RiskPatterns);
    LikelyKeepsOrder(RiskPatterns, ctx);
    SortKeepsSortedInput(Likely(RiskPatterns, ctx));
  }

  /** A risk is predicted exactly when its heuristic holds; each context-
      dependent risk follows its own key, and the remaining two are always
      predicted. */
  lemma PredictedNames(ctx: PredictionContext)
    ensures "docker_daemon_issues" in Names(Predicted(ctx)) <==> !ctx.dockerAvailable.GetOr(false)
    ensures "network_timeouts" in Names(Predicted(ctx)) <==> ctx.networkLatency.GetOr(0) > 100
    ensures "dependency_conflicts" in Names(Predicted(ctx)) <==> ctx.hasComplexDependencies.GetOr(false)
    ensures "configuration_errors" in Names(Predicted(ctx))
    ensures "test_flakiness" in Names(Predicted(ctx))
  {
    PredictionFollowsCatalogOrder(ctx);
    LikelyMembers(RiskPatterns, ctx);
    NamesMembers(Predicted(ctx));
    assert RiskPatterns[0] in RiskPatterns && RiskPatterns[1] in RiskPatterns && RiskPatterns[2] in RiskPatterns;
    assert RiskPatterns[3] in RiskPatterns && RiskPatterns[4] in RiskPatterns;
  }

  /** A name is listed exactly when some entry carries it. */
  lemma NamesMembers(p: seq<Risk>)
    ensures forall name :: name in Names(p) <==> exists r :: r in p && r.name == name
  {
    forall name | name in Names(p) ensures exists r :: r in p && r.name == name {
      var i :| 0 <= i < |p| && Names(p)[i] == name;
      assert p[i] in p;
    }
    forall r | r in p ensures r.name in Names(p) {
      var i :| 0 <= i < |p| && p[i] == r;
      assert Names(p)[i] == r.name;
    }
  }
}
