/**
 * The snapshot the enforcer reads at the start of a run: the pipeline's
 * stages, each with its inbound transition and the latest execution of each
 * of its actions.
 */
module Pipeline {
  import opened Wrappers

  datatype TransitionState = TransitionState(enabled: bool, disabledReason: Option<string>)

  /** The latest execution of an action; `status` is the service's string, e.g. "InProgress". */
  datatype ActionExecution = ActionExecution(status: string, token: string, actionExecutionId: string)

  datatype ActionState = ActionState(actionName: string, latestExecution: Option<ActionExecution>)

  /** `latestPipelineExecutionId` is the id of the stage's latest pipeline execution, when it has one. */
  datatype StageState = StageState(
    stageName: string,
    inboundTransitionState: TransitionState,
    latestPipelineExecutionId: Option<string>,
    actionStates: seq<ActionState>)

  datatype PipelineState = PipelineState(pipelineName: string, stageStates: seq<StageState>)

  /** Stage `i` is the first one called `name`. */
  predicate FirstNamed(stages: seq<StageState>, i: int, name: string) {
    0 <= i < |stages| && stages[i].stageName == name
    && forall j :: 0 <= j < i ==> stages[j].stageName != name
  }

  /** `stageStates.find(s => s.stageName === name)`: the first stage of that name. */
  function FindStage(stages: seq<StageState>, name: string): (found: Option<StageState>)
    ensures found.None? <==> forall i :: 0 <= i < |stages| ==> stages[i].stageName != name
    ensures found.Some? ==> exists i :: FirstNamed(stages, i, name) && stages[i] == found.value
  {
    if |stages| == 0 then None
    else if stages[0].stageName == name then
      assert FirstNamed(stages, 0, name);
      Some(stages[0])
    else
      var found := FindStage(stages[1..], name);
      assert found.Some? ==> exists i :: FirstNamed(stages, i, name) && stages[i] == found.value by {
        if found.Some? {
          var i :| FirstNamed(stages[1..], i, name) && stages[1..][i] == found.value;
          forall j | 0 <= j < i + 1 ensures stages[j].stageName != name {
            if j > 0 { assert stages[j] == stages[1..][j - 1]; }
          }
          assert FirstNamed(stages, i + 1, name);
        }
      }
      found
  }
}
