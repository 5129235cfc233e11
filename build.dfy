/**
 * Layer 1, the genesis build (`GenesisBuild` in build_layer1.py).
 *
 * Three strategies are tried in a fixed order; the first one that succeeds
 * decides the build, and when all fail the chain reports a synthetic failure.
 * `RebuildFromScratch` is the last-resort strategy that only the orchestrator
 * calls.  Whether a strategy succeeds, fails or raises is decided by the
 * environment, so each outcome is an input.  Times are tenths of a second.
 */
module Build {
  import opened Outcomes

  /** The fallback chain's strategies, each named after its method. */
  datatype Strategy = BuildLocal | BuildDockerInDocker | BuildFromTemplate {

    function Name(): string {
      match this
      case BuildLocal => LocalName
      case BuildDockerInDocker => DockerInDockerName
      case BuildFromTemplate => TemplateName
    }

    /** The reasons the strategy gives for being attempted. */
    function ThoughtProcess(): seq<string> {
      match this
      case BuildLocal => LocalThoughts
      case BuildDockerInDocker => DockerThoughts
      case BuildFromTemplate => TemplateThoughts
    }

    /** Reported build time, in tenths of a second. */
    function TimeTaken(): nat {
      match this
      case BuildLocal => 21
      case BuildDockerInDocker => 32
      case BuildFromTemplate => 53
    }

    /** The error of a strategy whose build step reports failure. */
    function FailureMessage(): string {
      match this
      case BuildLocal => LocalFailure
      case BuildDockerInDocker => DockerInDockerFailure
      case BuildFromTemplate => TemplateFailure
    }
  }

  /** The names of the three strategies' methods. */
  const LocalName: string := "build_local"
  const DockerInDockerName: string := "build_docker_in_docker"
  const TemplateName: string := "build_from_template"

  /** The errors of the three strategies when their build step fails. */
  const LocalFailure: string := "Build failed during local execution"
  const DockerInDockerFailure: string := "Docker build failed"
  const TemplateFailure: string := "Template build failed"

  /** The thought processes of the three strategies. */
  const LocalThoughts: seq<string> := [
    "Choosing build_local because:",
    "- Direct execution is fastest path",
    "- Historical success rate: ~70%",
    "- No container overhead"]
  const DockerThoughts: seq<string> := [
    "Falling back to build_docker_in_docker because:",
    "- Local build failed",
    "- Docker daemon is available",
    "- Provides better isolation"]
  const TemplateThoughts: seq<string> := [
    "Falling back to build_from_template because:",
    "- Previous strategies failed",
    "- Using golden snapshot for recovery",
    "- Most reliable but slowest approach"]

  /** The order of `self.build_strategies`. */
  const Strategies: seq<Strategy> := [BuildLocal, BuildDockerInDocker, BuildFromTemplate]

  const AllFailedMessage: string := "All build strategies failed"

  /** The last-resort strategy: its name, its one reason and the prefix of
      its error. */
  const RebuildName: string := "rebuild_from_scratch"
  const RebuildThoughts: seq<string> := ["Nuclear rebuild initiated due to complete failure"]
  const RebuildFailurePrefix: string := "Rebuild from scratch failed: "

  /** What the environment does to one strategy's build step. */
  datatype StrategyOutcome = Succeeded | Failed | Crashed(message: string)

  /** One outcome per strategy of the chain. */
  datatype ChainOutcomes = ChainOutcomes(local: StrategyOutcome, dockerInDocker: StrategyOutcome, template: StrategyOutcome) {
    function Of(s: Strategy): StrategyOutcome {
      match s
      case BuildLocal => local
      case BuildDockerInDocker => dockerInDocker
      case BuildFromTemplate => template
    }
  }

  /** A build result dictionary: the success shape carries strategy, time and
      thought process; the failure shape carries only an error. */
  datatype BuildResult =
    | Built(strategy: string, timeTaken: nat, thoughtProcess: seq<string>)
    | BuildFailed(error: string)

  /** The snapshot taken before the chain runs; it only reaches the logger. */
  datatype BuildContext = BuildContext(dockerAvailable: bool, freePortAvailable: bool, freePort: Option<int>, timestamp: int)

  /** `_assess_context`: the daemon check and the port probe are inputs. */
  function AssessContext(dockerAvailable: bool, freePort: Option<int>, timestamp: int): (c: BuildContext)
    ensures c.freePortAvailable <==> freePort.Some?
    ensures c.dockerAvailable == dockerAvailable && c.freePort == freePort
  {
    BuildContext(dockerAvailable, freePort != None, freePort, timestamp)
  }

  /** One strategy method: never raises, an exception becomes a failure that
      names the strategy. */
  function RunStrategy(s: Strategy, o: StrategyOutcome): (r: BuildResult)
    ensures r.Built? <==> o.Succeeded?
    ensures r.Built? ==> r.strategy == s.Name() && |r.thoughtProcess| == 4 && r.timeTaken == s.TimeTaken()
    ensures o.Failed? ==> r == BuildFailed(s.FailureMessage())
    ensures o.Crashed? ==> r.BuildFailed? && r.error == "Exception in " + s.Name() + ": " + o.message
  {
    match o
    case Succeeded => Built(s.Name(), s.TimeTaken(), s.ThoughtProcess())
    case Failed => BuildFailed(s.FailureMessage())
    case Crashed(msg) => BuildFailed("Exception in " + s.Name() + ": " + msg)
  }

  predicate Succeeds(s: Strategy, o: ChainOutcomes) {
    RunStrategy(s, o.Of(s)).Built?
  }

  /** Index of the first strategy of `ss` that succeeds, if any. */
  function FirstSuccess(ss: seq<Strategy>, o: ChainOutcomes): (r: Option<nat>)
    ensures r.Some? ==> r.value < |ss| && Succeeds(ss[r.value], o)
    ensures r.Some? ==> forall j :: 0 <= j < r.value ==> !Succeeds(ss[j], o)
    ensures r.None? ==> forall j :: 0 <= j < |ss| ==> !Succeeds(ss[j], o)
  {
    if ss == [] then None
    else if Succeeds(ss[0], o) then Some(0)
    else match FirstSuccess(ss[1..], o)
      case None => None
      case Some(i) => Some(i + 1)
  }

  /** What `execute` returns: the first successful strategy's own result,
      else the synthetic all-failed result. */
  function Chain(o: ChainOutcomes): BuildResult {
    match FirstSuccess(Strategies, o)
    case Some(i) => RunStrategy(Strategies[i], o.Of(Strategies[i]))
    case None => BuildFailed(AllFailedMessage)
  }

  /** The strategies `execute` invokes, in order. */
  function Attempted(o: ChainOutcomes): seq<Strategy> {
    match FirstSuccess(Strategies, o)
    case Some(i) => Strategies[..i + 1]
    case None => Strategies
  }

  /** `GenesisBuild.execute`: the ordered fallback loop.  `attempted` lists
      the strategies called, which the source reports through its log. */
  method Execute(o: ChainOutcomes) returns (r: BuildResult, attempted: seq<Strategy>)
    ensures r == Chain(o) && attempted == Attempted(o)
    ensures attempted <= Strategies && |attempted| > 0
    ensures forall j :: 0 <= j < |attempted| - 1 ==> !Succeeds(attempted[j], o)
    ensures r.Built? ==> Succeeds(attempted[|attempted| - 1], o) && r == RunStrategy(attempted[|attempted| - 1], o.Of(attempted[|attempted| - 1]))
    ensures r.BuildFailed? ==> attempted == Strategies && r == BuildFailed(AllFailedMessage)
  {
    attempted := [];
    var k := 0;
    while k < |Strategies|
      invariant 0 <= k <= |Strategies|
      invariant attempted == Strategies[..k]
      invariant forall j :: 0 <= j < k ==> !Succeeds(Strategies[j], o)
    {
      var s := Strategies[k];
      attempted := attempted + [s];
      var result := RunStrategy(s, o.Of(s));
      if result.Built? {
        assert FirstSuccess(Strategies, o) == Some(k);
        return result, attempted;
      }
      k := k + 1;
    }
    assert FirstSuccess(Strategies, o) == None;
    return BuildFailed(AllFailedMessage), attempted;
  }

  /** `rebuild_from_scratch`: a one-line thought process on success, an
      error naming the rebuild on exception. */
  function RebuildFromScratch(o: StepOutcome): (r: BuildResult)
    ensures r.Built? <==> o.Completes?
    ensures r.Built? ==> r.strategy == RebuildName && |r.thoughtProcess| == 1 && r.timeTaken == 85
    ensures o.Raises? ==> r.BuildFailed? && r.error == RebuildFailurePrefix + o.message
  {
    match o
    case Completes => Built(RebuildName, 85, RebuildThoughts)
    case Raises(msg) => BuildFailed(RebuildFailurePrefix + msg)
  }

  /** The chain succeeds exactly when one of its strategies does. */
  lemma ChainSucceedsIffSomeStrategySucceeds(o: ChainOutcomes)
    ensures Chain(o).Built? <==> exists j :: 0 <= j < |Strategies| && Succeeds(Strategies[j], o)
  {
    if FirstSuccess(Strategies, o).None? {
      forall j | 0 <= j < |Strategies| ensures !Succeeds(Strategies[j], o) { }
    }
  }

  /** A successful chain returns its first successful strategy's result
      unchanged, and no later strategy is attempted. */
  lemma ChainReturnsFirstSuccess(o: ChainOutcomes, i: nat)
    requires i < |Strategies| && Succeeds(Strategies[i], o)
    requires forall j :: 0 <= j < i ==> !Succeeds(Strategies[j], o)
    ensures Chain(o) == RunStrategy(Strategies[i], o.Of(Strategies[i]))
    ensures Attempted(o) == Strategies[..i + 1]
  {
    var f := FirstSuccess(Strategies, o);
    assert f.Some?;
    assert !(f.value < i) && !(f.value > i);
  }

  /** The fallback example: local fails, docker-in-docker succeeds, so the
      result is docker's and the template strategy is never invoked. */
  lemma LocalFailsDockerSucceeds(template: StrategyOutcome)
    ensures Chain(ChainOutcomes(Failed, Succeeded, template)).Built?
    ensures Chain(ChainOutcomes(Failed, Succeeded, template)).strategy == DockerInDockerName
    ensures Attempted(ChainOutcomes(Failed, Succeeded, template)) == [BuildLocal, BuildDockerInDocker]
  {
    var o := ChainOutcomes(Failed, Succeeded, template);
    ChainReturnsFirstSuccess(o, 1);
  }

  /** Every successful build, from the chain or from the rebuild, names its
      strategy and gives at least one reason. */
  lemma SuccessfulBuildsExplainThemselves(o: ChainOutcomes, rebuild: StepOutcome)
    ensures Chain(o).Built? ==> Chain(o).strategy in {LocalName, DockerInDockerName, TemplateName}
    ensures Chain(o).Built? ==> |Chain(o).thoughtProcess| > 0
    ensures RebuildFromScratch(rebuild).Built? ==> |RebuildFromScratch(rebuild).thoughtProcess| > 0
  {
  }
}
