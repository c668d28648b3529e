# Deployment safety enforcer, modelled in Dafny

The deployment safety enforcer is a scheduled function. On each run it reads a
CodePipeline's state and decides two things:

- **Transition gates.** The inbound transition of every configured stage is
  disabled while any of its change calendars is `CLOSED`. It is enabled again
  once all of them are open. A transition that someone else disabled is never
  touched.
- **Bake steps.** Every configured manual-approval "bake" action is approved
  once its bake time has elapsed. Before that it is rejected if one of its
  CloudWatch alarms failed, and otherwise left to continue.

The enforcer remembers nothing between runs except what it writes into a
transition's disabled-reason: a JSON tag with its own actor, fenced as a
markdown code block. On a later run it reads that tag back to tell its own
disables from an operator's. The calls a run makes are issued in four strict
phases: disable, reject, approve, enable. A failing phase stops the run.

A companion construct, `CodePipelineHelper`, collects the change calendars
stage by stage. It builds the enforcer from them exactly once.

The project has these modules:

| module | file | models |
|---|---|---|
| `Wrappers` | wrappers.dfy | `Option` and `Result` |
| `Records` | records.dfy | the JavaScript objects the source uses as ordered dictionaries |
| `Json` | json.dfy | `JSON.stringify(value, null, 2)` and `JSON.parse`, on the subset the tag uses |
| `Provenance` | provenance.dfy | the tag: `toMarkdown` and `transitionDisabledByEnforcer` |
| `Pipeline` | pipeline.dfy | the pipeline-state snapshot |
| `Transitions` | transitions.dfy | `calculatePipelineTransitionActions` |
| `Alarms` | alarms.dfy | the classification of `getAlarmStates` |
| `Bake` | bake.dfy | `calculateBakeActions`, step by step |
| `Sequencer` | sequencer.dfy | `execute` and its phase ordering |
| `Helper` | helper.dfy | the `CodePipelineHelper` class |

Pure code is modelled as functions. The source's loops are methods with loop
invariants, and each method is proved equal to a specification function. The
properties are lemmas about those functions. `CodePipelineHelper` mutates its
fields in place, so it is a class.

Everything outside the process becomes an input:

- `describeAlarms` is a function from region, role and names to a response. `None` stands for a call that failed.
- The `listActionExecutions` pages of each pipeline execution are a map.
- The calendar states are a map.
- The current time is `now`.
- The set of calls that fail is a set.

## Model

| member | source | states |
|---|---|---|
| Provenance.ToMarkdown | src/DeploymentSafetyEnforcer.function.ts:41-42 | The disabled-reason text opens with a code fence and a newline. |
| Provenance.JsSubstring | src/DeploymentSafetyEnforcer.function.ts:72 | Like `String.prototype.substring`: bounds are clamped and swapped, so the result is never longer than the input. |
| Provenance.TransitionDisabledByEnforcer | src/DeploymentSafetyEnforcer.function.ts:65-89 | A reason is read as the enforcer's own only when it is present and non-empty. |
| Provenance.RecognisesOwnTag | src/DeploymentSafetyEnforcer.function.ts:65-89 | A tag the enforcer writes reads as its own exactly when its actor starts with `DeploymentSafetyEnforcer@`. Both directions are proved. |
| Provenance.RecognisesEnforcerTag | src/DeploymentSafetyEnforcer.function.ts:83-86 | The tag written for a run (actor is prefix + request id) is recognised on a later run, with or without calendars. |
| Provenance.UnbracedReasonIsForeign | src/DeploymentSafetyEnforcer.function.ts:71-76 | Any reason whose text, after the three dropped characters and any whitespace, does not open with `{` fails to parse and reads as foreign. |
| Provenance.ManualReasonIsForeign | test/DeploymentSafetyEnforcer.function.test.ts:37 | The operator's reason `Manually disabled` used in the tests reads as foreign. |
| Provenance.CompactTagIsRecognised | src/DeploymentSafetyEnforcer.function.ts:72 | The three characters at each end are dropped without being checked, so any 3-character fence around a compact actor object is accepted. |
| Json.ParseSerialise | src/DeploymentSafetyEnforcer.function.ts:41-42 | Parsing the indented print of an object, with any whitespace around it, gives back the same object. This is the round trip the tag relies on. |
| Json.Lookup | src/DeploymentSafetyEnforcer.function.ts:78 | An absent key gives None. A present key gives the value of its last member with that key, as `JSON.parse` keeps the last duplicate. |
| Json.ParseCompactMember | src/DeploymentSafetyEnforcer.function.ts:72 | The unindented `{"key":"value"}` parses to that one-member object. |
| Records.Get | src/CodePipelineHelper.ts:61 | A key is absent exactly when no entry has it. Otherwise the value comes from one of its entries. |
| Records.PutGet | src/CodePipelineHelper.ts:106 | Assigning a key keeps the keys unique. The assigned key reads back the new value and every other key reads what it read before. A present key keeps its place; a new key goes last. |
| Records.AppendMultiset | src/DeploymentSafetyEnforcer.function.ts:231-234 | The grouping idiom (create the list if missing, then push) adds exactly one element to the flattened values and keeps keys unique. |
| Records.MapMultiset | src/DeploymentSafetyEnforcer.function.ts:292 | Mapping preserves permutation: lists with equal multisets map to lists with equal multisets. |
| Transitions.ClosedCalendars | src/DeploymentSafetyEnforcer.function.ts:186 | The result is a subsequence of the configured calendars, so in configured order. Each calendar whose state is `CLOSED` occurs as often as it is configured, and no other calendar occurs. It is empty iff none is closed, and all of them iff all are closed. |
| Transitions.CalculatePipelineTransitionActions | src/DeploymentSafetyEnforcer.function.ts:153-213 | One action per configured stage, in configuration order, carrying the snapshot's pipeline name and that stage's name. Unconfigured stages get no action. |
| Transitions.DecisionPrecedence | src/DeploymentSafetyEnforcer.function.ts:161-212 | Each decision, stated iff against the first stage of that name: NOT_FOUND when the stage is absent; EXTERNAL_ACTOR (carrying the reason) when it is disabled by someone else; DISABLE when some calendar is closed; NO_OP when it is enabled; otherwise ENABLE. So a stage configured with no calendars is still re-enabled when the enforcer's own tag disabled it. |
| Transitions.DisableReasonContents | src/DeploymentSafetyEnforcer.function.ts:186-197 | Only a DISABLE carries a reason. Its actor is `DeploymentSafetyEnforcer@` + request id, its calendars are ClosedCalendars of the stage (the closed ones, in configured order), and its printed tag reads as the enforcer's own. |
| Transitions.NoCalendarsNeverDisabled | src/DeploymentSafetyEnforcer.function.ts:186-187 | A stage with no calendars is never disabled. It can still be re-enabled or skipped, by the other rules. |
| Transitions.ForeignDisableIsLeftAlone | src/DeploymentSafetyEnforcer.function.ts:174-184 | A transition disabled by anyone else is skipped, whatever the calendars say. |
| Transitions.EnforcerDisableIsLifted | src/DeploymentSafetyEnforcer.function.ts:199-211 | A transition an earlier run disabled, with that run's tag, is enabled once no calendar of the stage is closed. |
| Pipeline.FindStage | src/DeploymentSafetyEnforcer.function.ts:162 | Finds the first stage of the name. None iff no stage has it. |
| Alarms.FindLast | src/DeploymentSafetyEnforcer.function.ts:112-116 | The lookup, built front to back, holds the last description of each name. None iff the name is never described. |
| Alarms.Classify | src/DeploymentSafetyEnforcer.function.ts:118-150 | MISSING iff nothing of the name is described. IN_ALARM iff the last description is not OK or changed state after the bake started. OK iff it is OK and unchanged since the start. |
| Alarms.GetAlarmStates | src/DeploymentSafetyEnforcer.function.ts:97-151 | One result per query, in order, with that query's classification against metric alarms followed by composite alarms. The loop that builds the lookup is proved against FindLast. |
| Alarms.FailedCallMeansMissing | src/DeploymentSafetyEnforcer.function.ts:107-110 | A failed `describeAlarms` call makes every alarm MISSING. |
| Alarms.CompositeShadowsMetric | src/DeploymentSafetyEnforcer.function.ts:113-116 | A composite alarm is judged in place of a metric alarm of the same name. |
| Bake.Relevant | src/DeploymentSafetyEnforcer.function.ts:227 | A subsequence of the stage's actions, so in snapshot order, keeping each configured bake step as often as it occurs and nothing else. |
| Bake.CollectStage | src/DeploymentSafetyEnforcer.function.ts:228-248 | The loop over one stage's configured actions equals the step-1 fold over them, including the error for a stage without a latest execution. |
| Bake.Collect | src/DeploymentSafetyEnforcer.function.ts:223-249 | Step 1 over all stages equals the fold over every configured action; the first failure stops it. |
| Bake.CollectSucceeds | src/DeploymentSafetyEnforcer.function.ts:230 | Step 1 fails exactly when an in-progress action's stage has no latest pipeline execution. |
| Bake.CollectContents | src/DeploymentSafetyEnforcer.function.ts:229-247 | On success, DONE lists every configured action not in progress, in order. The grouping holds every in-progress action exactly once (as a multiset), under unique pipeline-execution keys. |
| Bake.FindDetail | src/DeploymentSafetyEnforcer.function.ts:269 | None iff no detail has the id. Otherwise the result is the first detail with that id. |
| Bake.Dedup | src/DeploymentSafetyEnforcer.function.ts:255 | Has the same elements as the input, each once, as a subsequence of the input. |
| Bake.Scan | src/DeploymentSafetyEnforcer.function.ts:268-274 | An id stays unresolved iff the page does not list it. The action name the page gives each found id gets a time, and no earlier name is dropped. |
| Bake.ScanTimes | src/DeploymentSafetyEnforcer.function.ts:268-274 | After one page, a name the page gives to a found id holds the start time of a detail found under that name. Every other name keeps its earlier time, and no other name appears. |
| Bake.ScanPage | src/DeploymentSafetyEnforcer.function.ts:268-274 | The loop over one page equals Scan. |
| Bake.ListActionExecutions | src/DeploymentSafetyEnforcer.function.ts:257-277 | The do-while over pages equals PageThrough. It stops when the next token is missing or empty, or when nothing is unresolved; asking past the last page fails. |
| Bake.ResolveStartTimes | src/DeploymentSafetyEnforcer.function.ts:251-282 | Step 2 over all groups equals StartTimesOf: an unresolved execution throws, and the first failing group decides the error. |
| Bake.ResolveGroupFinds | src/DeploymentSafetyEnforcer.function.ts:279-281 | A group resolves only if every one of its executions was listed under an action name that has a time. No earlier name is dropped. |
| Bake.FirstPageSuffices | src/DeploymentSafetyEnforcer.function.ts:277 | A group whose executions are all listed on the first page resolves, whatever its next token. |
| Bake.StartTimesFound | src/DeploymentSafetyEnforcer.function.ts:254-282 | When step 2 succeeds, every grouped action's execution was listed on its group's pages under an action name that has a time. |
| Bake.PageThroughTimes | src/DeploymentSafetyEnforcer.function.ts:257-277 | Every time the do-while ends with is the one it was given, or the start time of a detail of that action on a page it read. |
| Bake.StartTimesListed | src/DeploymentSafetyEnforcer.function.ts:253-282 | Every time step 2 records under an action name is the start time of a detail of that action on some group's pages. |
| Bake.StartTimeOfEachAction | src/DeploymentSafetyEnforcer.function.ts:269-271 | When the pages list a grouped action's execution under its name, and every listing of that action gives one start time, step 2 records exactly that time for it. |
| Bake.Triage | src/DeploymentSafetyEnforcer.function.ts:291-318 | Step 3 succeeds iff every grouped action has a start time. Every pending action is one of the grouped ones. |
| Bake.TriageInProgress | src/DeploymentSafetyEnforcer.function.ts:291-318 | The loop equals Triage. |
| Bake.GroupAlarmSettings | src/DeploymentSafetyEnforcer.function.ts:327-337 | The loop over one action's alarms equals the grouping fold. |
| Bake.GroupAlarms | src/DeploymentSafetyEnforcer.function.ts:324-338 | The loop over pending actions equals GroupPending. |
| Bake.FailedOf | src/DeploymentSafetyEnforcer.function.ts:360-366 | The role-and-name key of exactly the results that are IN_ALARM, or MISSING and to be rejected. |
| Bake.FailedAlarms | src/DeploymentSafetyEnforcer.function.ts:340-368 | One query per region-and-role group against that group's response. The result equals the union of the groups' failed keys. |
| Bake.FailedSettings | src/DeploymentSafetyEnforcer.function.ts:371-375 | Exactly the action's alarm settings whose role-and-name key failed, in configured order. |
| Bake.SplitGroupKey | src/DeploymentSafetyEnforcer.function.ts:343 | Splitting a group key at newlines gives back its region and role, when neither holds a newline. |
| Bake.DecidePending | src/DeploymentSafetyEnforcer.function.ts:370-390 | The last loop appends one decision per pending action, in order. |
| Bake.CalculateBakeActions | src/DeploymentSafetyEnforcer.function.ts:215-393 | The whole evaluation equals BakeActions: DONE decisions first, then step 3's decisions, then step 4's; or the first step's error. |
| Bake.EveryActionDecided | src/DeploymentSafetyEnforcer.function.ts:215-393 | On success the result starts with DONE for every configured action not in progress, in snapshot order. Besides those, it holds exactly one decision per in-progress action (as a multiset): its expected one. |
| Bake.ElapsedIsApproved | src/DeploymentSafetyEnforcer.function.ts:295-304 | An in-progress action whose bake has elapsed is approved with its props, before any alarm is consulted. |
| Bake.NotInProgressIsDone | src/DeploymentSafetyEnforcer.function.ts:242-246 | A configured action whose latest execution is not in progress is DONE. |
| Bake.ElapsedOrDecided | src/DeploymentSafetyEnforcer.function.ts:291-390 | Every in-progress action's expected decision is among the results. |
| Bake.DecideRejects | src/DeploymentSafetyEnforcer.function.ts:370-383 | A pending action with a failed alarm is rejected with its props, and the alarm's name is among the reasons. |
| Bake.FailedFromMeans | src/DeploymentSafetyEnforcer.function.ts:340-368 | A role-and-name key is in the failed set iff some group queried under that role has an alarm of that name whose result fails. Both directions are proved. |
| Bake.PendingAlarmFails | src/DeploymentSafetyEnforcer.function.ts:325-368 | An alarm that CloudWatch reports failing whenever it is asked about it, from the region and role of a pending action's setting, puts that setting's key in the failed set. |
| Bake.AlarmingDescriberReports | src/DeploymentSafetyEnforcer.function.ts:128-134 | A service that describes the alarm as in alarm whenever asked about it reports it failing, whatever its missing-alarm policy. |
| Bake.FailureIgnoresRegion | src/DeploymentSafetyEnforcer.function.ts:362-373 | The failed set is keyed by role and alarm name only. So an alarm failing in one region also rejects a pending action whose alarm has that name and role in another region. |
| Bake.FailingAlarmRejects | src/DeploymentSafetyEnforcer.function.ts:320-390 | An in-progress action still baking is rejected, naming the alarm, when one of its alarms is reported failing. |
| Bake.DecideVerdict | src/DeploymentSafetyEnforcer.function.ts:370-389 | A pending action is rejected iff one of its alarms' role-and-name keys is in the failed set; otherwise it continues. |
| Bake.AlarmVerdict | src/DeploymentSafetyEnforcer.function.ts:320-390 | For an in-progress action still baking whose step has alarms, its decision is among the results. It is REJECT, with its props, iff some alarm with the role and name of one of its alarms fails in some group of the run; otherwise it is CONTINUE. |
| Bake.NoFailingAlarmContinues | src/DeploymentSafetyEnforcer.function.ts:384-389 | Such an action continues when no alarm with the role and name of one of its alarms fails in any group. |
| Sequencer.RejectSummary | src/DeploymentSafetyEnforcer.function.ts:443 | The rejection summary starts with the run's actor followed by " due to ". |
| Sequencer.Calls | src/DeploymentSafetyEnforcer.function.ts:421 | The calls of a filtered-and-mapped decision list. Each comes from one of the decisions, and there are no more calls than decisions. |
| Sequencer.CallsHas | src/DeploymentSafetyEnforcer.function.ts:421 | Every decision that makes a call has its call among the calls. |
| Sequencer.SilentDecisions | src/DeploymentSafetyEnforcer.function.ts:420-474 | SKIP, CONTINUE and DONE decisions make no call. |
| Sequencer.FirstFailingMeans | src/DeploymentSafetyEnforcer.function.ts:420-431 | A phase reports a failure exactly when one of its calls fails, and the call it reports is one of those. |
| Sequencer.IssuePhase | src/DeploymentSafetyEnforcer.function.ts:420-431 | One `await Promise.all`: every call of the phase is issued, and the first failing one is reported. |
| Sequencer.IssuePhases | src/DeploymentSafetyEnforcer.function.ts:418-474 | The phases in order: each is issued in full, and the first phase with a failure is the last issued. |
| Sequencer.AllIssuedWhenNoneFail | src/DeploymentSafetyEnforcer.function.ts:418-474 | With no failing call, every phase is issued in order and nothing is reported. |
| Sequencer.FailureStopsLaterPhases | src/DeploymentSafetyEnforcer.function.ts:418-474 | A reported failure is a failing call of some phase k; no earlier phase failed; exactly phases 0..k were issued. |
| Sequencer.PhaseRank | src/DeploymentSafetyEnforcer.function.ts:420-474 | Every command of phase k is of kind k: disable, reject, approve, enable. |
| Sequencer.RunIsOrdered | src/DeploymentSafetyEnforcer.function.ts:418-474 | Issued commands come out phase by phase: no disable after a rejection, no rejection after an approval, no approval after an enable. |
| Sequencer.NoLaterPhaseAfterFailure | src/DeploymentSafetyEnforcer.function.ts:418-474 | When a call fails, every issued command belongs to that call's phase or an earlier one. |
| Sequencer.BakeActionsCarryProps | src/DeploymentSafetyEnforcer.function.ts:435-451 | Every APPROVE and REJECT the evaluation produces carries the props its call needs. |
| Sequencer.TransitionActionsCarryReasons | src/DeploymentSafetyEnforcer.function.ts:427 | Every DISABLE carries the reason its call prints. |
| Sequencer.Execute | src/DeploymentSafetyEnforcer.function.ts:398-475 | A failed bake evaluation issues nothing and ends with that error. Otherwise the issued commands are those RunPhases gives for the planned phases, and the run succeeds iff no call fails, reporting the failing call otherwise. |
| Helper.WaveKey | src/CodePipelineHelper.ts:86-93 | A one-stage wave's blockers are recorded under its stage's name; any other wave's under the wave's id. |
| Helper.CodePipelineHelper.constructor | src/CodePipelineHelper.ts:65-74 | A new helper has no blockers, is not built and has no enforcer. |
| Helper.CodePipelineHelper.BlockStageOnChangeCalendars | src/CodePipelineHelper.ts:105-107 | Adds or replaces one stage's blockers. Every other stage keeps its own, and the build state is unchanged. |
| Helper.CodePipelineHelper.BlockWaveOnChangeCalendars | src/CodePipelineHelper.ts:86-93 | The same, under the wave's key. |
| Helper.CodePipelineHelper.BuildEnforcer | src/CodePipelineHelper.ts:114-120 | The first call builds one enforcer from the recorded blockers, the pipeline and the frequency. A later call fails with the source's message and builds nothing. |
| Helper.CodePipelineHelper.DoBuild | src/CodePipelineHelper.ts:122-128 | Adds one enforcer built from the current blockers. |
| Helper.CodePipelineHelper.BuildJustInTime | src/CodePipelineHelper.ts:130-134 | The synthesis hook builds only if nothing was built, so it never fails. Afterwards exactly one enforcer exists. |
| Helper.BuildOnce | src/CodePipelineHelper.ts:73-134 | Record blockers, build explicitly, then run the hook: exactly one enforcer, holding both blockers, and a second explicit build fails. |

## Left out

- The AWS calls are never made. Their results are inputs. The pipeline state is a snapshot, `describeAlarms` is a function, the pages are a map, and the calls that fail are a set.
- The credentials and clients of `describeAlarms` are passed as the region and an optional role; nothing about assuming a role is modelled.
- `getCalendarStates` is not modelled. The calendar states are an input, so a failing calendar fetch, which throws before anything is evaluated, is not modelled either.
- `Date.now()` is the parameter `now`. Dates are integers of milliseconds.
- `Promise.all`'s concurrency is not modelled. The calls of a phase, the groups of step 2 and the groups of step 4 are handled one after another in list order. So a failing phase reports its first failing call in list order, where the source reports the first to reject in time.
- Bake.ResolveStartTimes: in the source, concurrent groups interleave their writes to the shared `startTimes` object, which is keyed by action name. The model applies whole groups in order, so when two in-progress actions share an action name, the model's last-writer-wins order need not be the source's.
- Provenance.TransitionDisabledByEnforcer: when `JSON.parse` returns something other than an object, or an `actor` that is not a string, the source reads it as foreign or throws a `TypeError`. The model reads every such reason as foreign, and its parser accepts only objects of strings and string arrays.
- `Json`: only the subset of JSON the tag uses is modelled: objects whose members hold a string or an array of strings. Dafny's `char` is a Unicode scalar value, so lone surrogates, which `JSON.stringify` escapes as `\u` sequences, cannot occur.
- Provenance.JsSubstring: counts Unicode scalar values, where JavaScript's `substring` counts UTF-16 code units. A reason that opens with a character outside the Basic Multilingual Plane therefore loses a different prefix in the model than in the source.
- JavaScript objects inherit keys from `Object.prototype` (`"constructor" in {}` holds), and they list integer-like keys before others. The model treats every key as an ordinary key in insertion order.
- Fields the source dereferences with `!` are assumed present, except the stage's latest pipeline execution (its absence is the `MissingPipelineExecution` error) and an action with no recorded start time (`MissingStartTime`, the source's `TypeError`).
- Logging (`console.log`) is left out.
- The `CodePipelineHelper` model keeps the blockers as a value. In the source, the built enforcer shares the helper's object, so blockers added after building would still reach it; the model's enforcer keeps a copy.
- The `cdk.Aspects` registration in the constructor is modelled only as the `BuildJustInTime` method it calls, not as the synthesis machinery that calls it.
- src/DeploymentSafetyEnforcer.ts (the scheduled function and its IAM permissions), src/common.ts (the settings types) and the handler's event plumbing are not part of this model.
