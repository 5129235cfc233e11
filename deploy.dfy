/**
 * Layer 3, autonomous deployment (`AutonomousDeployer` in deploy_layer3.py).
 *
 * A deployment bumps the deployer's counter, derives a version from the build
 * and audit, renders release notes, publishes, and appends the notes to the
 * release log when the publish step succeeded.  Reading a field that a failed
 * build result lacks raises in the source, and nothing in the deployer
 * catches it: such a call ends in `Raised`, after the counter was bumped.
 */
module Deploy {
  import opened Outcomes
  import opened Build
  import opened Audit

  const BaseVersion: string := "1.0.0"

  /** The exception of `build_result["strategy"]` on a failed build. */
  const MissingStrategy: string := "KeyError: 'strategy'"
  /** The exception of `build_result["thought_process"][0]` on an empty list. */
  const MissingThought: string := "IndexError: list index out of range"

  /** The four version suffixes. */
  const SurvivorSuffix: string := "inversion-survivor"
  const SuccessSuffix: string := "build-success"
  const DockerSuffix: string := "docker-build"
  const RecoverySuffix: string := "recovery-build"
  const Suffixes: set<string> := {SurvivorSuffix, SuccessSuffix, DockerSuffix, RecoverySuffix}

  /** The errors of a publish step the sink rejected or that raised. */
  const RejectedMessage: string := "GitHub deployment failed"
  const PublishErrorPrefix: string := "Exception during deployment: "

  /** What the release sink does with one publish request. */
  datatype PublishOutcome = Published | Rejected | PublishRaised(message: string)

  /** The dictionary `_deploy_to_github` returns. */
  datatype Deployment = Deployed(version: string, deploymentId: nat) | DeployFailed(error: string)

  /** What the release notes embed: the version, the build's strategy and
      time, its first two reasons, and the audit's counts and score. */
  datatype ReleaseNotes = ReleaseNotes(
    version: string,
    strategy: string,
    timeTaken: nat,
    firstThought: string,
    secondThought: string,
    vectorsTested: nat,
    vectorsPassed: nat,
    resilienceScore: nat)

  /** `_generate_version_suffix`: the first rule that matches wins. */
  function VersionSuffix(build: BuildResult, audit: AuditReport): (r: Completion<string>)
    ensures r.Raised? <==> audit.resilienceScore < 90 && build.BuildFailed?
    ensures r.Raised? ==> r.exception == MissingStrategy
    ensures r.Normal? ==> r.value in Suffixes
  {
    if audit.resilienceScore >= 90 then Normal(SurvivorSuffix)
    else if build.BuildFailed? then Raised(MissingStrategy)
    else if build.strategy == LocalName then Normal(SuccessSuffix)
    else if Contains(build.strategy, "docker") then Normal(DockerSuffix)
    else Normal(RecoverySuffix)
  }

  function FullVersion(suffix: string): string {
    "v" + BaseVersion + "-" + suffix
  }

  /** `_generate_release_notes`; the date and the Markdown layout are left out. */
  function RenderReleaseNotes(version: string, build: BuildResult, audit: AuditReport): (r: Completion<ReleaseNotes>)
    ensures r.Normal? <==> build.Built? && |build.thoughtProcess| > 0
    ensures build.BuildFailed? ==> r == Raised(MissingStrategy)
    ensures r.Normal? ==>
      var tp := build.thoughtProcess;
      && r.value.version == version
      && r.value.strategy == build.strategy
      && r.value.timeTaken == build.timeTaken
      && r.value.firstThought == tp[0]
      && r.value.secondThought == (if |tp| > 1 then tp[1] else "")
      && r.value.vectorsTested == audit.totalVectorsTested
      && r.value.vectorsPassed == audit.passedVectors
      && r.value.resilienceScore == audit.resilienceScore
  {
    if build.BuildFailed? then Raised(MissingStrategy)
    else if build.thoughtProcess == [] then Raised(MissingThought)
    else
      var tp := build.thoughtProcess;
      Normal(ReleaseNotes(version, build.strategy, build.timeTaken, tp[0], if |tp| > 1 then tp[1] else "",
        audit.totalVectorsTested, audit.passedVectors, audit.resilienceScore))
  }

  /** `_deploy_to_github`: the sink's outcome is an input; success carries the
      version and the current deployment count. */
  function Publish(version: string, deploymentId: nat, o: PublishOutcome): (d: Deployment)
    ensures d.Deployed? <==> o.Published?
    ensures d.Deployed? ==> d.version == version && d.deploymentId == deploymentId
    ensures o.Rejected? ==> d == DeployFailed(RejectedMessage)
    ensures o.PublishRaised? ==> d == DeployFailed(PublishErrorPrefix + o.message)
  {
    match o
    case Published => Deployed(version, deploymentId)
    case Rejected => DeployFailed(RejectedMessage)
    case PublishRaised(msg) => DeployFailed(PublishErrorPrefix + msg)
  }

  /** What `execute` returns when the deployer's counter has reached `deploymentId`. */
  function DeployResult(deploymentId: nat, build: BuildResult, audit: AuditReport, publish: PublishOutcome): (r: Completion<Deployment>)
    ensures r.Normal? <==> build.Built? && |build.thoughtProcess| > 0
    ensures r.Raised? && build.BuildFailed? ==> r.exception == MissingStrategy
    ensures r.Normal? ==> (r.value.Deployed? <==> publish.Published?)
    ensures r.Normal? && r.value.Deployed? ==>
      && r.value.version == FullVersion(VersionSuffix(build, audit).value)
      && r.value.deploymentId == deploymentId
  {
    match VersionSuffix(build, audit)
    case Raised(e) => Raised(e)
    case Normal(suffix) =>
      var version := FullVersion(suffix);
      match RenderReleaseNotes(version, build, audit)
      case Raised(e) => Raised(e)
      case Normal(_) => Normal(Publish(version, deploymentId, publish))
  }

  /** The notes `execute` appends to the release log: none unless publishing
      succeeded and the log write went through. */
  function LogEntries(build: BuildResult, audit: AuditReport, publish: PublishOutcome, logWritten: bool): (r: seq<ReleaseNotes>)
    ensures |r| <= 1
    ensures r != [] ==> publish.Published? && logWritten && build.Built?
  {
    if !publish.Published? || !logWritten || VersionSuffix(build, audit).Raised? then []
    else match RenderReleaseNotes(FullVersion(VersionSuffix(build, audit).value), build, audit)
      case Raised(_) => []
      case Normal(notes) => [notes]
  }

  /** The deployer: its counter and the release log it appends to. */
  class AutonomousDeployer {
    var deploymentCount: nat
    var releaseLog: seq<ReleaseNotes>

    constructor ()
      ensures deploymentCount == 0 && releaseLog == []
    {
      deploymentCount := 0;
      releaseLog := [];
    }

    /** `execute`: the counter goes up first, whatever happens next; the log
        is written only after a successful publish, and whether that write
        succeeds does not change the result. */
    method Execute(build: BuildResult, audit: AuditReport, publish: PublishOutcome, logWritten: bool)
      returns (r: Completion<Deployment>)
      modifies this
      ensures deploymentCount == old(deploymentCount) + 1
      ensures r == DeployResult(deploymentCount, build, audit, publish)
      ensures releaseLog == old(releaseLog) + LogEntries(build, audit, publish, logWritten)
    {
      deploymentCount := deploymentCount + 1;
      var suffix := VersionSuffix(build, audit);
      if suffix.Raised? {
        return Raised(suffix.exception);
      }
      var fullVersion := FullVersion(suffix.value);
      var notes := RenderReleaseNotes(fullVersion, build, audit);
      if notes.Raised? {
        return Raised(notes.exception);
      }
      var deployment := Publish(fullVersion, deploymentCount, publish);
      if deployment.Deployed? {
        var _ := UpdateReleaseLog(notes.value, logWritten);
      }
      return Normal(deployment);
    }

    /** `_update_release_log`: reports whether the write went through. */
    method UpdateReleaseLog(notes: ReleaseNotes, written: bool) returns (ok: bool)
      modifies this
      ensures ok == written && deploymentCount == old(deploymentCount)
      ensures releaseLog == old(releaseLog) + (if written then [notes] else [])
    {
      if written {
        releaseLog := releaseLog + [notes];
      }
      ok := written;
    }
  }

  /** A score of 9.0 or more always yields "inversion-survivor", whatever the
      build's strategy, even for a failed build. */
  lemma SurvivorOverridesStrategy(build: BuildResult, audit: AuditReport)
    requires audit.resilienceScore >= 90
    ensures VersionSuffix(build, audit) == Normal(SurvivorSuffix)
  {
  }

  /** Of the chain's strategy names, only docker-in-docker's mentions "docker". */
  lemma StrategyMentionsDocker(s: Strategy)
    ensures Contains(s.Name(), "docker") <==> s == BuildDockerInDocker
  {
    match s
    case BuildLocal =>
      NotContainsMissingChar(LocalName, "docker", 3);
    case BuildDockerInDocker =>
      assert OccursAt(DockerInDockerName, "docker", 6);
    case BuildFromTemplate =>
      NotContainsMissingChar(TemplateName, "docker", 3);
  }

  /** The rebuild's name does not mention "docker". */
  lemma RebuildOmitsDocker()
    ensures !Contains(RebuildName, "docker")
  {
    NotContainsMissingChar(RebuildName, "docker", 3);
  }

  /** Below 9.0 the suffix follows the strategy that produced the build. */
  lemma SuffixByStrategy(s: Strategy, audit: AuditReport)
    requires audit.resilienceScore < 90
    ensures VersionSuffix(RunStrategy(s, Succeeded), audit) ==
      match s
      case BuildLocal => Normal(SuccessSuffix)
      case BuildDockerInDocker => Normal(DockerSuffix)
      case BuildFromTemplate => Normal(RecoverySuffix)
  {
    StrategyMentionsDocker(s);
    match s
    case BuildLocal =>
    case BuildDockerInDocker =>
      assert DockerInDockerName != LocalName by {
        assert DockerInDockerName[6] != LocalName[6];
      }
    case BuildFromTemplate =>
      assert TemplateName != LocalName by {
        assert TemplateName[6] != LocalName[6];
      }
  }

  /** Below 9.0 a successful rebuild is a recovery build. */
  lemma SuffixOfRebuild(rebuild: StepOutcome, audit: AuditReport)
    requires audit.resilienceScore < 90 && rebuild.Completes?
    ensures VersionSuffix(RebuildFromScratch(rebuild), audit) == Normal(RecoverySuffix)
  {
    RebuildOmitsDocker();
    assert RebuildName != LocalName by {
      assert |RebuildName| != |LocalName|;
    }
  }

  /** The suffix is decided by the score and the strategy name alone. */
  lemma SuffixDependsOnScoreAndStrategy(b1: BuildResult, a1: AuditReport, b2: BuildResult, a2: AuditReport)
    requires a1.resilienceScore == a2.resilienceScore
    requires b1.Built? == b2.Built? && (b1.Built? ==> b1.strategy == b2.strategy)
    ensures VersionSuffix(b1, a1) == VersionSuffix(b2, a2)
  {
  }

  /** A build with a single reason renders an empty second reason line. */
  lemma SingleThoughtLeavesSecondLineEmpty(version: string, build: BuildResult, audit: AuditReport)
    requires build.Built? && |build.thoughtProcess| == 1
    ensures RenderReleaseNotes(version, build, audit).Normal?
    ensures RenderReleaseNotes(version, build, audit).value.secondThought == ""
    ensures RenderReleaseNotes(version, build, audit).value.firstThought == build.thoughtProcess[0]
  {
  }

  /** Handing the deployer a failed build raises instead of producing a
      deployment, whatever the audit and the sink. */
  lemma FailedBuildRaises(deploymentId: nat, error: string, audit: AuditReport, publish: PublishOutcome)
    ensures DeployResult(deploymentId, BuildFailed(error), audit, publish) == Raised(MissingStrategy)
  {
  }

  /** A deployment that went through was published under `v1.0.0-<suffix>`,
      carries the counter's value, and its notes reach the log exactly when
      the log write succeeds. */
  lemma DeployedVersionAndLog(deploymentId: nat, build: BuildResult, audit: AuditReport, publish: PublishOutcome, logWritten: bool)
    requires DeployResult(deploymentId, build, audit, publish).Normal?
    requires DeployResult(deploymentId, build, audit, publish).value.Deployed?
    ensures var d := DeployResult(deploymentId, build, audit, publish).value;
      && d.deploymentId == deploymentId
      && d.version[..7] == "v1.0.0-"
      && d.version[7..] in Suffixes
    ensures |LogEntries(build, audit, publish, logWritten)| == (if logWritten then 1 else 0)
    ensures logWritten ==> LogEntries(build, audit, publish, logWritten)[0].version == DeployResult(deploymentId, build, audit, publish).value.version
  {
    var d := DeployResult(deploymentId, build, audit, publish).value;
    var suffix := VersionSuffix(build, audit).value;
    assert d.version == "v1.0.0-" + suffix;
  }
}
