# Meta-systems builder: build → audit → deploy, modelled in Dafny

This project models the pipeline at the heart of the meta-systems builder.
One full cycle runs three layers in order:

- **Layer 1, the genesis build.** Three strategies (`build_local`, `build_docker_in_docker`, `build_from_template`) are tried in that order. The first success is kept. `rebuild_from_scratch` is the last resort.
- **Layer 2, the inversion audit.** Fault vectors 1, 2 and 3 of the inversion engine's catalog are injected against the build. The audit counts the vectors that passed and scores the build out of ten.
- **Layer 3, autonomous deployment.** The deployer picks a version suffix and renders release notes. It then publishes and, when publishing succeeded, appends the notes to the release log.

The orchestrator (`MetaSystemsBuilder.execute_full_cycle`) handles a failed build with one rebuild from scratch. If that also fails, the cycle stops before any audit. A first audit below 8.0 triggers exactly one rebuild and one re-audit. Every cycle that has a build then deploys once. Beside the pipeline, the failure predictor filters a five-risk catalog with a per-risk heuristic and sorts the survivors by probability.

One module per source file:

| module | file | source |
|---|---|---|
| `Outcomes` | outcomes.dfy | shared: `Option`, `Completion` (a value, or an exception that escapes), the environment's step outcome, Python's `in` on strings and `str` on integers |
| `Build` | build.dfy | `build_layer1.py` |
| `Inversions` | inversions.dfy | `utils/inversions.py` |
| `Audit` | audit.dfy | `audit_layer2.py` |
| `Deploy` | deploy.dfy | `deploy_layer3.py` |
| `Engine` | engine.dfy | `core_engine.py` |
| `Predictor` | predictor.dfy | `utils/predictor.py` |

The source simulates its effects: a sleep, then a hard-coded success. In the model every such outcome is an **input**:

- `StrategyOutcome` for each build strategy;
- `StepOutcome` for the rebuild and for each injector;
- `VectorProbe` for each audit test, which may itself raise;
- `PublishOutcome` for the publish step;
- a boolean for the release-log write.

This makes every failure branch of the source reachable. `Engine.CycleInputs` gathers one cycle's answers. It holds separate outcomes for the first and second `rebuild_from_scratch` calls, because a cycle can make two of them. It also holds separate vector outcomes for the first audit and the re-audit.

Scores are integer **tenths**. The audit's rounded score is `RoundedTenths(passed, 3)`, one of 0, 33, 67 and 100. The thresholds 8.0 and 9.0 are 80 and 90. The predictor's probabilities are integer hundredths. Build times are tenths of a second.

The stateful parts are classes whose methods are proved against pure functions that define their results:

- `Build.Execute` is the fallback loop, proved against `Chain`.
- `Audit.InversionAudit.Execute` runs the audit loop and appends to the score history, proved against `Report`.
- `Deploy.AutonomousDeployer.Execute` bumps the counter, publishes and logs, proved against `DeployResult` and `LogEntries`.
- `Engine.MetaSystemsBuilder.ExecuteFullCycle` is proved against `Cycle`. `Cycle` is one full cycle as a function of the counters and the environment. Its result, the collaborator calls made in order (`stages`), the scores appended to the history and the notes appended to the log are all stated exactly.

The orchestrator lemmas state the state-machine promises about `Cycle`: the early stop, the at-most-once escalation, one deployment and success equal to the deployment's success.

One behaviour of the source is kept as written. After a low first score the rebuild's result replaces the build even when the rebuild failed. The deployer then reads `build_result["strategy"]` from a failure result that has no such key. The resulting `KeyError` is not caught anywhere, so `execute_full_cycle` raises. The model returns `Raised("KeyError: 'strategy'")` in exactly that case (`Engine.RaisesOnlyAfterFailedEscalation`). This happens after the deployer's counter was already bumped.

Three details of the code that the model keeps exactly:

- `total_vectors` is the constant 3 (audit_layer2.py:18), so the score never divides by zero.
- `deployment_count` is bumped on every `execute` call, before publishing, whatever the outcome (deploy_layer3.py:18).
- The suffix rules match the exact name `build_local` and the substring `docker` (deploy_layer3.py:45-48).

## Model

| member | source | states |
|---|---|---|
| `Outcomes.IntToString` | meta-systems-builder/src/utils/inversions.py:50 | Python's `str` on the vector id: non-empty, starting with `-` exactly for negative ids, and digits after the sign |
| `Outcomes.IntToStringRoundTrip` | meta-systems-builder/src/utils/inversions.py:50 | reading the rendering back as a decimal numeral gives the id itself, so distinct ids give distinct `Vector <id> not found` messages |
| `Build.AssessContext` | meta-systems-builder/src/build_layer1.py:43-53 | `free_port_available` holds exactly when a free port was found; `docker_available` and `free_port` mirror the daemon check and the port probe |
| `Build.RunStrategy` | meta-systems-builder/src/build_layer1.py:55-167 | a strategy never raises: it succeeds exactly when its build step does, naming itself with a four-line thought process and its own time; a reported failure gives the strategy's fixed error; an exception gives `Exception in <strategy>: <message>` |
| `Build.FirstSuccess` | meta-systems-builder/src/build_layer1.py:28-33 | the index found is a strategy that succeeds and every earlier one fails; no index means no strategy succeeds |
| `Build.Execute` | meta-systems-builder/src/build_layer1.py:19-41 | the loop attempts a prefix of local, docker-in-docker, template in that order, where every attempt but the last failed; on success it returns the last attempted strategy's own result unchanged; otherwise all three were attempted and the result is `All build strategies failed` |
| `Build.RebuildFromScratch` | meta-systems-builder/src/build_layer1.py:169-187 | success exactly when the rebuild completes, with strategy `rebuild_from_scratch`, a one-entry thought process and 8.5 s; on exception a failure whose error is `Rebuild from scratch failed: ` plus the message |
| `Build.ChainSucceedsIffSomeStrategySucceeds` | meta-systems-builder/src/build_layer1.py:28-41 | the chain's result is a success exactly when at least one of the three strategies succeeds |
| `Build.ChainReturnsFirstSuccess` | meta-systems-builder/src/build_layer1.py:28-33 | when strategy `i` is the first to succeed, the chain returns its result unchanged and attempts no strategy after it |
| `Build.LocalFailsDockerSucceeds` | meta-systems-builder/src/build_layer1.py:28-33 | local failing and docker-in-docker succeeding gives docker-in-docker's result, and the template strategy is never attempted |
| `Build.SuccessfulBuildsExplainThemselves` | meta-systems-builder/src/build_layer1.py:74-80 | a successful chain result names one of the three strategy methods, and every successful result (chain or rebuild) has a non-empty thought process |
| `Inversions.Inject` | meta-systems-builder/src/utils/inversions.py:67-93 | every injector reports status `injected` with two flags, all true |
| `Inversions.Lookup` | meta-systems-builder/src/utils/inversions.py:48 | finds the first catalog entry whose id matches, and finds nothing exactly when no entry has the id |
| `Inversions.ExecuteVector` | meta-systems-builder/src/utils/inversions.py:46-65 | an unknown id gives `Vector <id> not found` with no injector involved; a returning injector gives success with the vector's name, category and the injector's output; a raising injector gives failure with the vector's name and the message; success exactly when the id is known and the injector returns |
| `Inversions.CatalogShape` | meta-systems-builder/src/utils/inversions.py:13-44 | the catalog has three critical vectors with ids 1, 2, 3 in order, all distinct |
| `Inversions.CatalogLookup` | meta-systems-builder/src/utils/inversions.py:48-50 | ids 1..3 are found at their own positions and every other id is absent |
| `Inversions.CatalogVectorRuns` | meta-systems-builder/src/utils/inversions.py:52-65 | for a catalogued id, the result carries that vector's name with category `critical` and the injector's output, or its name and the exception's message |
| `Inversions.UnknownVectorNeverInjects` | meta-systems-builder/src/utils/inversions.py:48-50 | an id outside 1..3 fails with `Vector <id> not found` whatever the injector would have done |
| `Audit.EvaluateResponse` | meta-systems-builder/src/audit_layer2.py:69-73 | a vector passes exactly when the engine result's `success` is true |
| `Audit.TestVector` | meta-systems-builder/src/audit_layer2.py:43-67 | the detail carries the tested id; a raising test gives an error detail that did not pass; otherwise the detail holds the engine's result; it passes exactly when the test did not raise and the engine reported success |
| `Audit.RoundedTenths` | meta-systems-builder/src/audit_layer2.py:30-36 | the score in tenths is the nearest integer to `100 * passed / total`, halves rounded up |
| `Audit.InversionAudit.constructor` | meta-systems-builder/src/audit_layer2.py:9-11 | a fresh auditor holds the inversion engine's catalog and an empty score history |
| `Audit.InversionAudit.Execute` | meta-systems-builder/src/audit_layer2.py:13-41 | the loop returns the summary `Report` describes (ids 1, 2, 3 tested in order, passes counted, rounded score) and appends exactly one unrounded score to the history, leaving earlier entries unchanged |
| `Audit.DetailsInOrder` | meta-systems-builder/src/audit_layer2.py:22-24 | testing ids 1..n yields exactly n details, and the k-th detail is the test of id k+1 |
| `Audit.CountPassedBounds` | meta-systems-builder/src/audit_layer2.py:26-27 | the pass count is at most the number of details, is the maximum exactly when every detail passed and is zero exactly when none did |
| `Audit.VectorPassesIffInjectorReturns` | meta-systems-builder/src/audit_layer2.py:47-58 | against the real catalog, vector 1, 2 or 3 passes exactly when its injector returns normally |
| `Audit.ReportShape` | meta-systems-builder/src/audit_layer2.py:33-38 | the summary tests three vectors, holds one detail per id 1, 2, 3 in order, counts the passing details (at most three) and scores within [0, 10] |
| `Audit.FullMarksIffAllInjectorsReturn` | meta-systems-builder/src/audit_layer2.py:17-27 | all three vectors pass exactly when all three injectors return normally |
| `Audit.AuditIgnoresBuild` | meta-systems-builder/src/audit_layer2.py:51 | the details do not depend on the build handed to the audit |
| `Audit.ScoreValues` | meta-systems-builder/src/audit_layer2.py:18-36 | with three vectors the rounded score is 0.0, 3.3, 6.7 or 10.0 for 0, 1, 2 or 3 passes |
| `Audit.ThresholdsOnPassCount` | meta-systems-builder/src/audit_layer2.py:30-36 | a score below 8.0 means fewer than three passes, and a score of at least 9.0 means all three passed |
| `Audit.NoRoundingTie` | meta-systems-builder/src/audit_layer2.py:36 | `10 * passed / 3` never lies exactly halfway between two tenths, so the choice of tie-breaking rule cannot matter |
| `Deploy.VersionSuffix` | meta-systems-builder/src/deploy_layer3.py:41-50 | the suffix is one of the four fixed suffixes; reading the strategy of a failed build raises `KeyError`, which happens exactly when the score is below 9.0 and the build failed |
| `Deploy.RenderReleaseNotes` | meta-systems-builder/src/deploy_layer3.py:52-57 | notes are produced exactly for a successful build with a non-empty thought process; they carry the version, strategy, time, first reason, second reason or empty, and the audit's counts and score; a failed build raises `KeyError` |
| `Deploy.Publish` | meta-systems-builder/src/deploy_layer3.py:59-93 | success exactly when the sink accepted, carrying the version and the current deployment count; a rejection or an exception becomes a failure with its error text |
| `Deploy.DeployResult` | meta-systems-builder/src/deploy_layer3.py:14-39 | a deployment returns normally exactly for a successful build with a reason; a failed build raises `KeyError`; it succeeds exactly when publishing did, under version `v1.0.0-<suffix>` and the counter's value |
| `Deploy.LogEntries` | meta-systems-builder/src/deploy_layer3.py:30-34 | at most one entry is logged, and only when publishing succeeded, the log write went through and the build succeeded |
| `Deploy.AutonomousDeployer.constructor` | meta-systems-builder/src/deploy_layer3.py:10-12 | a fresh deployer has counter 0 and an empty release log |
| `Deploy.AutonomousDeployer.Execute` | meta-systems-builder/src/deploy_layer3.py:14-39 | the counter goes up by exactly one on every call, however the call ends; the result is `DeployResult` at the new count; the log grows by exactly `LogEntries` |
| `Deploy.AutonomousDeployer.UpdateReleaseLog` | meta-systems-builder/src/deploy_layer3.py:95-103 | the notes are appended exactly when the write succeeds, which is what the method reports; the counter is untouched |
| `Deploy.SurvivorOverridesStrategy` | meta-systems-builder/src/deploy_layer3.py:43-44 | a score of at least 9.0 gives `inversion-survivor` whatever the build |
| `Deploy.StrategyMentionsDocker` | meta-systems-builder/src/deploy_layer3.py:47 | of the three strategy names, only `build_docker_in_docker` contains `docker` |
| `Deploy.RebuildOmitsDocker` | meta-systems-builder/src/deploy_layer3.py:47 | `rebuild_from_scratch` does not contain `docker` |
| `Deploy.SuffixByStrategy` | meta-systems-builder/src/deploy_layer3.py:41-50 | below 9.0 a local build is `build-success`, a docker-in-docker build `docker-build` and a template build `recovery-build` |
| `Deploy.SuffixOfRebuild` | meta-systems-builder/src/deploy_layer3.py:41-50 | below 9.0 a successful rebuild from scratch is `recovery-build` |
| `Deploy.SuffixDependsOnScoreAndStrategy` | meta-systems-builder/src/deploy_layer3.py:41-50 | two builds and audits with the same score and the same strategy get the same suffix |
| `Deploy.SingleThoughtLeavesSecondLineEmpty` | meta-systems-builder/src/deploy_layer3.py:56 | a build with one reason renders that reason first and an empty second line |
| `Deploy.FailedBuildRaises` | meta-systems-builder/src/deploy_layer3.py:45 | handing the deployer a failed build raises `KeyError: 'strategy'` whatever the audit and the sink |
| `Deploy.DeployedVersionAndLog` | meta-systems-builder/src/deploy_layer3.py:22-34 | a successful deployment is versioned `v1.0.0-` plus one of the four suffixes and carries the counter; its notes, under the same version, reach the log exactly when the write succeeds |
| `Engine.MetaSystemsBuilder.constructor` | meta-systems-builder/src/core_engine.py:12-16 | a fresh orchestrator owns a fresh auditor over the catalog with no scores, a fresh deployer at count 0 with an empty log, and a cycle counter at 0 |
| `Engine.MetaSystemsBuilder.ExecuteFullCycle` | meta-systems-builder/src/core_engine.py:18-63 | the cycle counter goes up by one; result, calls made, scores recorded and notes logged are those of `Cycle` from the old counters; the deployer's counter goes up by one exactly when the build was not fatal |
| `Engine.MetaSystemsBuilder.BuildWithFallback` | meta-systems-builder/src/core_engine.py:26-29 | the build is the chain's result, or the rebuild's when the chain failed, with the rebuild called exactly once in that case |
| `Engine.MetaSystemsBuilder.AuditWithEscalation` | meta-systems-builder/src/core_engine.py:37-43 | audits once; below 8.0 rebuilds once and re-audits once, keeping the second build and audit; each audit appends its score |
| `Engine.MetaSystemsBuilder.AuditAndDeploy` | meta-systems-builder/src/core_engine.py:37-56 | after the audit phase the deployer is called exactly once with the final build and audit, and the report is built from its result |
| `Engine.CycleIdEmbedsCount` | meta-systems-builder/src/core_engine.py:20-21 | every report carries the id made from the bumped cycle count and the clock |
| `Engine.FatalOnlyWhenBothBuildsFail` | meta-systems-builder/src/core_engine.py:27-34 | a cycle ends fatally exactly when the chain fails and the rebuild raises; then only those two calls were made, no score or note was recorded, and the report carries only the error and the cycle id |
| `Engine.RebuildPrecedesAuditAfterChainFailure` | meta-systems-builder/src/core_engine.py:27-29 | after a failed chain the very next call is the rebuild, before any audit |
| `Engine.StageSequence` | meta-systems-builder/src/core_engine.py:26-46 | the calls of a cycle are exactly: the build step; then, if not fatal, an audit, a rebuild and re-audit only after a low first score, and one deployment |
| `Engine.CallCounts` | meta-systems-builder/src/core_engine.py:37-46 | at most two audits and two rebuilds per cycle; two audits exactly after a low first score; one history entry per audit; exactly one deployment, the last call, in every cycle that is not fatal |
| `Engine.RebuildReplacesBuild` | meta-systems-builder/src/core_engine.py:40-43 | after a low first score the report carries the rebuild's result, even a failed one, and the re-audit |
| `Engine.SuccessMirrorsDeployment` | meta-systems-builder/src/core_engine.py:46-56 | a completed cycle succeeds exactly when its deployment did, which is exactly when publishing succeeded, and it reports the deployment made from its final build and audit |
| `Engine.RaisesOnlyAfterFailedEscalation` | meta-systems-builder/src/core_engine.py:40-46 | a cycle raises exactly when a low first score triggers a rebuild that fails, and the exception is the deployer's `KeyError` |
| `Engine.LocalBuildScoresFullMarks` | meta-systems-builder/src/core_engine.py:26-43 | a successful local build whose three injectors return scores 10.0 with three passes, and the audit phase keeps it with a single audit |
| `Engine.SurvivorDeploysWithoutRebuild` | meta-systems-builder/src/core_engine.py:37-56 | a first score of at least 9.0 and a successful publish give a successful cycle with no escalation, reporting the first build and audit and the deployment `v1.0.0-inversion-survivor` at the next count |
| `Engine.LocalBuildSurvivesAllVectors` | meta-systems-builder/src/core_engine.py:18-63 | the happy path: the local build passes every vector and is deployed as `v1.0.0-inversion-survivor` after exactly a chain, an audit and a deployment |
| `Predictor.IsRiskLikely` | meta-systems-builder/src/utils/predictor.py:53-65 | `docker_daemon_issues` is likely unless `docker_available` is present and true; `network_timeouts` only when a latency is present and above 100; `dependency_conflicts` only when `has_complex_dependencies` is present and true; every other risk is likely |
| `Predictor.PredictRisks` | meta-systems-builder/src/utils/predictor.py:38-51 | the loop returns the likely risks sorted by non-increasing probability, and a risk is in the output exactly when it is a catalog entry whose heuristic holds |
| `Predictor.InsertPermutation` | meta-systems-builder/src/utils/predictor.py:51 | one insertion step of the sort adds exactly the inserted risk |
| `Predictor.InsertSorted` | meta-systems-builder/src/utils/predictor.py:51 | inserting into a list in descending probability order keeps it in that order |
| `Predictor.SortSortedAndPermutation` | meta-systems-builder/src/utils/predictor.py:51 | the sort's output is in non-increasing probability order and is a permutation of its input |
| `Predictor.SortKeepsSortedInput` | meta-systems-builder/src/utils/predictor.py:51 | the sort is stable: input already in non-increasing order comes back unchanged, ties included |
| `Predictor.LikelyMembers` | meta-systems-builder/src/utils/predictor.py:42-49 | the filter keeps exactly the entries whose heuristic holds |
| `Predictor.LikelyKeepsOrder` | meta-systems-builder/src/utils/predictor.py:42-49 | the filter keeps its input's order, so a sorted input gives a sorted output |
| `Predictor.PredictionFollowsCatalogOrder` | meta-systems-builder/src/utils/predictor.py:12-51 | the catalog's probabilities 0.5, 0.45, 0.4, 0.35, 0.3 already descend, so the prediction lists the likely risks in catalog order |
| `Predictor.PredictedNames` | meta-systems-builder/src/utils/predictor.py:53-65 | `docker_daemon_issues` is predicted exactly when `docker_available` is absent or false, `network_timeouts` exactly when the latency (default 0) exceeds 100, and `dependency_conflicts` exactly when `has_complex_dependencies` is true; `configuration_errors` and `test_flakiness` are always predicted |

## Left out

- Sleeps, logging (`logger.*` and the logger module) and the `timestamp` fields of build contexts, audit details, deployments and cycle reports. They carry no decision. The cycle id's wall-clock part and the context's timestamp are integer inputs.
- The Docker SDK wrapper and the port scanner. Their answers (daemon available, free port or none) are inputs of `Build.AssessContext`. utils/docker_builder.py and utils/port_scanner.py are not part of this model.
- The hard-coded `success = True` of the strategies, the injectors and the publish step, and the release-log write that cannot fail. Each is replaced by an outcome input, so the failure branches are modelled and the constants are not.
- Audit.RoundedTenths: Python rounds the binary float `passed / 3 * 10` to one decimal. The model rounds the exact fraction half up. `Audit.NoRoundingTie` shows that no tie can occur with three vectors, so both give 0.0, 3.3, 6.7 or 10.0.
- Audit.InversionAudit.Execute: the history stores the unrounded score as the exact pair (passed, 3), not as a float.
- Deploy.RenderReleaseNotes: the date stamp, emoji and Markdown layout are not modelled. The notes are the record of what they embed.
- Build.RunStrategy: the float build times (2.1, 3.2, 5.3, 8.5 s) are integer tenths. The predictor's float probabilities are integer hundredths, and the network latency is an integer number of milliseconds.
- The auditor's inversion engine is represented by its vector list, the `vectors` field of `Audit.InversionAudit`. `Cycle` and the orchestrator lemmas are stated for any such list. The scenario lemmas use the real catalog.
- Injector tags: each catalog entry names its injector by a tag rather than holding a bound method. Injector exceptions are the `Raises` outcome.
- Engine.MetaSystemsBuilder.ExecuteFullCycle: the genesis builder holds no state, so it is not a field. `stages` is a ghost record of the collaborator calls made, with no counterpart in the source. The helper methods `BuildWithFallback`, `AuditWithEscalation` and `AuditAndDeploy` split the one source method into its three steps.
- Build.Execute: the context assessment that `execute` performs before its loop (build_layer1.py:24) is not evaluated there, because the context only reaches the logger and changes no result. `Build.AssessContext` models that assessment on its own.
- `main()` in core_engine.py only prints a summary.
- The unused `joblib` import in predictor.py.
