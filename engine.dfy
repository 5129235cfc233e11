/**
 * The core engine (`MetaSystemsBuilder` in core_engine.py): one full cycle of
 * build, audit, conditional rebuild-and-reaudit, and deploy.
 *
 * `Cycle` is the cycle as a function of the counters it starts from and of
 * the environment's answers; the lemmas below state the state machine's
 * promises about it, and `ExecuteFullCycle` is proved to behave as `Cycle`
 * says while updating its own counter and its collaborators' state.
 */
module Engine {
  import opened Outcomes
  import opened Build
  import opened Inversions
  import opened Audit
  import opened Deploy

  /** The audit threshold `8.0`, in tenths. */
  const ResilienceThreshold: nat := 80

  const FatalMessage: string := "Complete build failure after rebuild attempt"

  /** `cycle_{count}_{seconds}`: the new cycle count and the clock reading. */
  datatype CycleId = CycleId(count: nat, clock: int)

  /** The dictionary `execute_full_cycle` returns: a fatal build carries no
      audit and no deployment; otherwise all three are reported. */
  datatype CycleReport =
    | Fatal(error: string, cycleId: CycleId)
    | Completed(success: bool, cycleId: CycleId, build: BuildResult, audit: AuditReport, deployment: Deployment)

  /** The collaborator calls a cycle makes. */
  datatype Stage = ChainStage | RebuildStage | AuditStage | DeployStage

  /** The environment's answers for one cycle: the clock, the outcomes of the
      strategy chain, of the first and second rebuild calls, of the first and
      second audits, of the publish step and of the release-log write. */
  datatype CycleInputs = CycleInputs(
    clock: int,
    chain: ChainOutcomes,
    firstRebuild: StepOutcome,
    secondRebuild: StepOutcome,
    firstAudit: int -> VectorProbe,
    secondAudit: int -> VectorProbe,
    publish: PublishOutcome,
    logWritten: bool)

  /** What one cycle does: its outcome, the calls it made in order, the
      scores it appended to the auditor's history and the notes it appended
      to the release log. */
  datatype CycleRun = CycleRun(
    result: Completion<CycleReport>,
    stages: seq<Stage>,
    scores: seq<RawScore>,
    logged: seq<ReleaseNotes>)

  /** The build the audit first sees: the chain's, or the rebuild's when the
      chain failed. */
  function InitialBuild(env: CycleInputs): BuildResult {
    if Chain(env.chain).Built? then Chain(env.chain) else RebuildFromScratch(env.firstRebuild)
  }

  /** Both the chain and the rebuild after it failed. */
  predicate FatalBuild(env: CycleInputs) {
    !InitialBuild(env).Built?
  }

  /** The outcome of the rebuild a low score triggers: the cycle's first
      rebuild call, or its second when the chain already needed one. */
  function EscalationOutcome(env: CycleInputs): StepOutcome {
    if Chain(env.chain).Built? then env.firstRebuild else env.secondRebuild
  }

  /** The first audit scored below the threshold. */
  predicate LowFirstScore(vectors: seq<Vector>, env: CycleInputs) {
    !FatalBuild(env) && Report(vectors, InitialBuild(env), env.firstAudit).resilienceScore < ResilienceThreshold
  }

  function Raw(a: AuditReport): RawScore {
    RawScore(a.passedVectors, TotalVectors)
  }

  /** The calls made before the first audit. */
  function BuildStages(env: CycleInputs): seq<Stage> {
    if Chain(env.chain).Built? then [ChainStage] else [ChainStage, RebuildStage]
  }

  /** What the audit phase leaves for the deployer: the final build and
      audit, the calls it made and the scores it recorded. */
  datatype AuditPhase = AuditPhase(build: BuildResult, audit: AuditReport, stages: seq<Stage>, scores: seq<RawScore>)

  /** Audit `built`; below the threshold, rebuild from scratch with the
      outcome `escalation` and audit again, keeping the second result. */
  function AuditOrEscalate(vectors: seq<Vector>, built: BuildResult, escalation: StepOutcome,
                           first: int -> VectorProbe, second: int -> VectorProbe): AuditPhase
  {
    var audit := Report(vectors, built, first);
    if audit.resilienceScore < ResilienceThreshold then
      var rebuilt := RebuildFromScratch(escalation);
      var reaudit := Report(vectors, rebuilt, second);
      AuditPhase(rebuilt, reaudit, [AuditStage, RebuildStage, AuditStage], [Raw(audit), Raw(reaudit)])
    else
      AuditPhase(built, audit, [AuditStage], [Raw(audit)])
  }

  /** The audit phase of a cycle that is not fatal. */
  function CycleAudit(vectors: seq<Vector>, env: CycleInputs): AuditPhase {
    AuditOrEscalate(vectors, InitialBuild(env), EscalationOutcome(env), env.firstAudit, env.secondAudit)
  }

  /** One cycle, started with the cycle counter already bumped to `cycleNo`
      and the deployer's counter at `deploymentNo`. */
  function Cycle(vectors: seq<Vector>, cycleNo: nat, deploymentNo: nat, env: CycleInputs): CycleRun {
    var id := CycleId(cycleNo, env.clock);
    if FatalBuild(env) then
      CycleRun(Normal(Fatal(FatalMessage, id)), BuildStages(env), [], [])
    else
      var phase := CycleAudit(vectors, env);
      Finish(id, deploymentNo, phase.build, phase.audit, env, BuildStages(env) + phase.stages, phase.scores)
  }

  /** The deploy step that ends every cycle that is not fatal. */
  function Finish(id: CycleId, deploymentNo: nat, build: BuildResult, audit: AuditReport, env: CycleInputs,
                  stages: seq<Stage>, scores: seq<RawScore>): CycleRun
  {
    CycleRun(CycleOutcome(id, build, audit, DeployResult(deploymentNo + 1, build, audit, env.publish)),
      stages + [DeployStage], scores, LogEntries(build, audit, env.publish, env.logWritten))
  }

  /** The report of a cycle that reached the deployer: the deployer's
      exception propagates; otherwise success is the deployment's. */
  function CycleOutcome(id: CycleId, build: BuildResult, audit: AuditReport, deployed: Completion<Deployment>): Completion<CycleReport> {
    match deployed
    case Raised(e) => Raised(e)
    case Normal(d) => Normal(Completed(d.Deployed?, id, build, audit, d))
  }

  /** The orchestrator and the collaborators whose state it drives. */
  class MetaSystemsBuilder {
    const inversionAudit: InversionAudit
    const autonomousDeployer: AutonomousDeployer
    var cycleCount: nat
    /** Every collaborator call made so far, across cycles. */
    ghost var stages: seq<Stage>

    constructor ()
      ensures fresh(inversionAudit) && fresh(autonomousDeployer)
      ensures cycleCount == 0 && stages == []
      ensures inversionAudit.vectors == Catalog && inversionAudit.resilienceScores == []
      ensures autonomousDeployer.deploymentCount == 0 && autonomousDeployer.releaseLog == []
    {
      inversionAudit := new InversionAudit();
      autonomousDeployer := new AutonomousDeployer();
      cycleCount := 0;
      stages := [];
    }

    /** `execute_full_cycle`. */
    method ExecuteFullCycle(env: CycleInputs) returns (result: Completion<CycleReport>)
      modifies this, inversionAudit, autonomousDeployer
      ensures cycleCount == old(cycleCount) + 1
      ensures var run := Cycle(inversionAudit.vectors, cycleCount, old(autonomousDeployer.deploymentCount), env);
        && result == run.result
        && stages == old(stages) + run.stages
        && inversionAudit.resilienceScores == old(inversionAudit.resilienceScores) + run.scores
        && autonomousDeployer.deploymentCount == old(autonomousDeployer.deploymentCount) + (if FatalBuild(env) then 0 else 1)
        && autonomousDeployer.releaseLog == old(autonomousDeployer.releaseLog) + run.logged
    {
      cycleCount := cycleCount + 1;
      var cycleId := CycleId(cycleCount, env.clock);
      ghost var run := Cycle(inversionAudit.vectors, cycleCount, autonomousDeployer.deploymentCount, env);
      ghost var stages0 := stages;

      var buildResult, nextRebuild := BuildWithFallback(env);
      if !buildResult.Built? {
        assert run == CycleRun(Normal(Fatal(FatalMessage, cycleId)), BuildStages(env), [], []);
        assert cycleCount == cycleId.count && stages == stages0 + run.stages;
        return Normal(Fatal(FatalMessage, cycleId));
      }

      result := AuditAndDeploy(cycleId, buildResult, nextRebuild, env);
      ghost var phase := CycleAudit(inversionAudit.vectors, env);
      assert run.stages == BuildStages(env) + (phase.stages + [DeployStage]);
    }

    /** The build step of `execute_full_cycle`: the strategy chain, and one
        rebuild from scratch when the chain failed.  Also returns the outcome
        the next rebuild call of the cycle will have. */
    method BuildWithFallback(env: CycleInputs) returns (buildResult: BuildResult, nextRebuild: StepOutcome)
      modifies this
      ensures buildResult == InitialBuild(env) && nextRebuild == EscalationOutcome(env)
      ensures stages == old(stages) + BuildStages(env)
      ensures cycleCount == old(cycleCount)
    {
      var attempted;
      buildResult, attempted := Build.Execute(env.chain);
      stages := stages + [ChainStage];
      nextRebuild := env.firstRebuild;
      if !buildResult.Built? {
        buildResult := RebuildFromScratch(nextRebuild);
        nextRebuild := env.secondRebuild;
        stages := stages + [RebuildStage];
      }
    }

    /** The rest of `execute_full_cycle` once a build exists: the audit with
        its escalation, then the deployment and the cycle's report. */
    method AuditAndDeploy(cycleId: CycleId, built: BuildResult, escalation: StepOutcome, env: CycleInputs)
      returns (result: Completion<CycleReport>)
      modifies this, inversionAudit, autonomousDeployer
      ensures var phase := AuditOrEscalate(inversionAudit.vectors, built, escalation, env.firstAudit, env.secondAudit);
        var run := Finish(cycleId, old(autonomousDeployer.deploymentCount), phase.build, phase.audit, env, phase.stages, phase.scores);
        && result == run.result
        && stages == old(stages) + run.stages
        && inversionAudit.resilienceScores == old(inversionAudit.resilienceScores) + run.scores
        && autonomousDeployer.deploymentCount == old(autonomousDeployer.deploymentCount) + 1
        && autonomousDeployer.releaseLog == old(autonomousDeployer.releaseLog) + run.logged
      ensures cycleCount == old(cycleCount)
    {
      var finalBuild, auditResult := AuditWithEscalation(built, escalation, env.firstAudit, env.secondAudit);
      var deploymentResult := autonomousDeployer.Execute(finalBuild, auditResult, env.publish, env.logWritten);
      stages := stages + [DeployStage];
      result := CycleOutcome(cycleId, finalBuild, auditResult, deploymentResult);
    }

    /** The audit step of `execute_full_cycle`, with its one rebuild and
        re-audit when the score is below the threshold. */
    method AuditWithEscalation(built: BuildResult, escalation: StepOutcome,
                               first: int -> VectorProbe, second: int -> VectorProbe)
      returns (finalBuild: BuildResult, finalAudit: AuditReport)
      modifies this, inversionAudit
      ensures var phase := AuditOrEscalate(inversionAudit.vectors, built, escalation, first, second);
        && finalBuild == phase.build && finalAudit == phase.audit
        && stages == old(stages) + phase.stages
        && inversionAudit.resilienceScores == old(inversionAudit.resilienceScores) + phase.scores
      ensures cycleCount == old(cycleCount)
    {
      finalBuild := built;
      finalAudit := inversionAudit.Execute(finalBuild, first);
      stages := stages + [AuditStage];
      if finalAudit.resilienceScore < ResilienceThreshold {
        finalBuild := RebuildFromScratch(escalation);
        stages := stages + [RebuildStage];
        finalAudit := inversionAudit.Execute(finalBuild, second);
        stages := stages + [AuditStage];
      }
    }
  }

  /** The cycle id embeds the bumped counter. */
  lemma CycleIdEmbedsCount(vectors: seq<Vector>, cycleNo: nat, deploymentNo: nat, env: CycleInputs)
    ensures var r := Cycle(vectors, cycleNo, deploymentNo, env).result;
      r.Normal? ==> r.value.cycleId == CycleId(cycleNo, env.clock)
  {
  }

  /** A cycle ends fatally exactly when the chain and the rebuild after it
      both fail; then only those two calls were made, nothing was audited,
      deployed or logged, and the report has no audit or deployment. */
  lemma FatalOnlyWhenBothBuildsFail(vectors: seq<Vector>, cycleNo: nat, deploymentNo: nat, env: CycleInputs)
    ensures var run := Cycle(vectors, cycleNo, deploymentNo, env);
      (run.result.Normal? && run.result.value.Fatal?) <==> !Chain(env.chain).Built? && env.firstRebuild.Raises?
    ensures var run := Cycle(vectors, cycleNo, deploymentNo, env);
      FatalBuild(env) ==>
        && run.result == Normal(Fatal(FatalMessage, CycleId(cycleNo, env.clock)))
        && run.stages == [ChainStage, RebuildStage]
        && run.scores == [] && run.logged == []
  {
  }

  /** When the chain fails, the rebuild is the very next call, before any audit. */
  lemma RebuildPrecedesAuditAfterChainFailure(vectors: seq<Vector>, cycleNo: nat, deploymentNo: nat, env: CycleInputs)
    requires !Chain(env.chain).Built?
    ensures var s := Cycle(vectors, cycleNo, deploymentNo, env).stages;
      |s| >= 2 && s[..2] == [ChainStage, RebuildStage]
  {
  }

  /** The calls of a cycle follow one of five shapes: a second audit happens
      exactly after a low first score, and never a third. */
  lemma StageSequence(vectors: seq<Vector>, cycleNo: nat, deploymentNo: nat, env: CycleInputs)
    ensures var s := Cycle(vectors, cycleNo, deploymentNo, env).stages;
      var head := if Chain(env.chain).Built? then [ChainStage] else [ChainStage, RebuildStage];
      if FatalBuild(env) then s == head
      else if LowFirstScore(vectors, env) then s == head + [AuditStage, RebuildStage, AuditStage, DeployStage]
      else s == head + [AuditStage, DeployStage]
  {
  }

  /** At most two audits and at most two rebuilds per cycle; two audits
      exactly when the first score was low; every audit adds one score to the
      history; and every cycle that is not fatal deploys exactly once, last. */
  lemma CallCounts(vectors: seq<Vector>, cycleNo: nat, deploymentNo: nat, env: CycleInputs)
    ensures var run := Cycle(vectors, cycleNo, deploymentNo, env);
      && multiset(run.stages)[AuditStage] <= 2
      && multiset(run.stages)[RebuildStage] <= 2
      && (multiset(run.stages)[AuditStage] == 2 <==> LowFirstScore(vectors, env))
      && |run.scores| == multiset(run.stages)[AuditStage]
      && multiset(run.stages)[DeployStage] == (if FatalBuild(env) then 0 else 1)
      && (!FatalBuild(env) ==> run.stages[|run.stages| - 1] == DeployStage)
  {
    StageSequence(vectors, cycleNo, deploymentNo, env);
  }

  /** After a low first score the rebuild's result replaces the build even
      when the rebuild failed, and the report carries the re-audit. */
  lemma RebuildReplacesBuild(vectors: seq<Vector>, cycleNo: nat, deploymentNo: nat, env: CycleInputs)
    requires LowFirstScore(vectors, env)
    ensures var r := Cycle(vectors, cycleNo, deploymentNo, env).result;
      r.Normal? ==>
        && r.value.Completed?
        && r.value.build == RebuildFromScratch(EscalationOutcome(env))
        && r.value.audit == Report(vectors, RebuildFromScratch(EscalationOutcome(env)), env.secondAudit)
  {
  }

  /** A completed cycle succeeds exactly when its deployment did, and it
      reports the deployment made from its final build and audit. */
  lemma SuccessMirrorsDeployment(vectors: seq<Vector>, cycleNo: nat, deploymentNo: nat, env: CycleInputs)
    ensures var r := Cycle(vectors, cycleNo, deploymentNo, env).result;
      r.Normal? && r.value.Completed? ==>
        && r.value.success == r.value.deployment.Deployed?
        && DeployResult(deploymentNo + 1, r.value.build, r.value.audit, env.publish) == Normal(r.value.deployment)
        && (r.value.success <==> env.publish.Published?)
  {
  }

  /** The source lets one exception escape the cycle: after a low first
      score a failed rebuild is handed to the deployer, whose lookup of the
      build's strategy raises.  This is the only way a cycle raises. */
  lemma RaisesOnlyAfterFailedEscalation(vectors: seq<Vector>, cycleNo: nat, deploymentNo: nat, env: CycleInputs)
    ensures Cycle(vectors, cycleNo, deploymentNo, env).result.Raised? <==> LowFirstScore(vectors, env) && EscalationOutcome(env).Raises?
    ensures Cycle(vectors, cycleNo, deploymentNo, env).result.Raised? ==>
      Cycle(vectors, cycleNo, deploymentNo, env).result.exception == MissingStrategy
  {
    var built := InitialBuild(env);
    if !FatalBuild(env) {
      assert |built.thoughtProcess| > 0;
      if LowFirstScore(vectors, env) && EscalationOutcome(env).Completes? {
        assert |RebuildFromScratch(EscalationOutcome(env)).thoughtProcess| == 1;
      }
    }
  }

  /** A successful local build that passes every vector is kept by the
      audit phase: no rebuild, one audit with full marks. */
  lemma LocalBuildScoresFullMarks(env: CycleInputs)
    requires env.chain.local == Succeeded
    requires forall id :: 1 <= id <= 3 ==> env.firstAudit(id) == Probe(Completes)
    ensures InitialBuild(env) == RunStrategy(BuildLocal, Succeeded)
    ensures var audit := Report(Catalog, InitialBuild(env), env.firstAudit);
      && audit.passedVectors == 3 && audit.resilienceScore == 100
      && CycleAudit(Catalog, env) == AuditPhase(InitialBuild(env), audit, [AuditStage], [Raw(audit)])
  {
    var build := Chain(env.chain);
    ChainReturnsFirstSuccess(env.chain, 0);
    FullMarksIffAllInjectorsReturn(build, env.firstAudit);
    ScoreValues(3);
  }

  /** A first audit scoring 9.0 or more ends the cycle without a rebuild,
      deployed as the inversion survivor when publishing succeeds. */
  lemma SurvivorDeploysWithoutRebuild(vectors: seq<Vector>, cycleNo: nat, deploymentNo: nat, env: CycleInputs)
    requires !FatalBuild(env) && Report(vectors, InitialBuild(env), env.firstAudit).resilienceScore >= 90
    requires env.publish == Published
    ensures var r := Cycle(vectors, cycleNo, deploymentNo, env).result;
      && r.Normal? && r.value.Completed? && r.value.success
      && r.value.build == InitialBuild(env)
      && r.value.audit == Report(vectors, InitialBuild(env), env.firstAudit)
      && r.value.deployment == Deployed(FullVersion(SurvivorSuffix), deploymentNo + 1)
    ensures Cycle(vectors, cycleNo, deploymentNo, env).stages == BuildStages(env) + [AuditStage, DeployStage]
  {
    var build := InitialBuild(env);
    var audit := Report(vectors, build, env.firstAudit);
    assert |build.thoughtProcess| > 0;
    SurvivorOverridesStrategy(build, audit);
  }

  /** A local build that survives every fault injection is deployed as the
      inversion survivor without any rebuild. */
  lemma LocalBuildSurvivesAllVectors(cycleNo: nat, deploymentNo: nat, env: CycleInputs)
    requires env.chain.local == Succeeded && env.publish == Published
    requires forall id :: 1 <= id <= 3 ==> env.firstAudit(id) == Probe(Completes)
    ensures var r := Cycle(Catalog, cycleNo, deploymentNo, env).result;
      && r.Normal? && r.value.Completed? && r.value.success
      && r.value.build.strategy == LocalName
      && r.value.audit.passedVectors == 3 && r.value.audit.resilienceScore == 100
      && r.value.deployment == Deployed(FullVersion(SurvivorSuffix), deploymentNo + 1)
    ensures Cycle(Catalog, cycleNo, deploymentNo, env).stages == [ChainStage, AuditStage, DeployStage]
  {
    LocalBuildScoresFullMarks(env);
    SurvivorDeploysWithoutRebuild(Catalog, cycleNo, deploymentNo, env);
  }
}
