/**
 * The companion of a pipeline: it collects, stage by stage, the change
 * calendars that block promotions into that stage, and builds the enforcer
 * from them exactly once (on the first explicit `buildEnforcer`, or just in
 * time at synthesis).
 */
module Helper {
  import opened Wrappers
  import opened Records

  /** A stage of the pipeline, by its name. */
  datatype StageDeployment = StageDeployment(stageName: string)

  /** A wave: an identifier and the stages deployed in it. */
  datatype Wave = Wave(id: string, stages: seq<StageDeployment>)

  /** What an enforcer is built from. */
  datatype EnforcerProps = EnforcerProps(pipelineName: string, changeCalendars: Record<seq<string>>,
                                         enforcementFrequency: Option<int>)

  const AlreadyBuilt := "build() has already been called: can only call it once"

  /** The stage name a wave's blockers are recorded under: its only stage's name, or else the wave's id. */
  function WaveKey(wave: Wave): (key: string)
    ensures |wave.stages| == 1 ==> key == wave.stages[0].stageName
    ensures |wave.stages| != 1 ==> key == wave.id
  {
    if |wave.stages| == 1 then wave.stages[0].stageName else wave.id
  }

  class CodePipelineHelper {
    const pipelineName: string
    const enforcementFrequency: Option<int>
    /** Calendars to consult for promotions into each stage, by stage name. */
    var changeCalendarsByStageName: Record<seq<string>>
    var built: bool
    /** The enforcers built so far, each with the props it was built from. */
    var enforcers: seq<EnforcerProps>

    /** The map is a JavaScript object, and at most one enforcer exists, exactly once built. */
    ghost predicate Valid()
      reads this
    {
      && UniqueKeys(changeCalendarsByStageName)
      && |enforcers| <= 1
      && (built <==> |enforcers| == 1)
    }

    constructor(pipelineName: string, enforcementFrequency: Option<int>)
      ensures Valid()
      ensures this.pipelineName == pipelineName && this.enforcementFrequency == enforcementFrequency
      ensures changeCalendarsByStageName == [] && !built && enforcers == []
    {
      this.pipelineName := pipelineName;
      this.enforcementFrequency := enforcementFrequency;
      changeCalendarsByStageName := [];
      built := false;
      enforcers := [];
    }

    /** Adds or replaces the blockers of one stage; every other stage keeps its own. */
    method BlockStageOnChangeCalendars(stage: StageDeployment, changeCalendarNames: seq<string>)
      requires Valid()
      modifies this
      ensures Valid()
      ensures changeCalendarsByStageName == Put(old(changeCalendarsByStageName), stage.stageName, changeCalendarNames)
      ensures forall k :: (Get(changeCalendarsByStageName, k) ==
        if k == stage.stageName then Some(changeCalendarNames) else Get(old(changeCalendarsByStageName), k))
      ensures built == old(built) && enforcers == old(enforcers)
    {
      forall k ensures Get(Put(changeCalendarsByStageName, stage.stageName, changeCalendarNames), k) ==
        (if k == stage.stageName then Some(changeCalendarNames) else Get(changeCalendarsByStageName, k)) {
        PutGet(changeCalendarsByStageName, stage.stageName, changeCalendarNames, k);
      }
      PutGet(changeCalendarsByStageName, stage.stageName, changeCalendarNames, stage.stageName);
      changeCalendarsByStageName := Put(changeCalendarsByStageName, stage.stageName, changeCalendarNames);
    }

    /** A one-stage wave blocks that stage; any other wave is recorded under its own id. */
    method BlockWaveOnChangeCalendars(wave: Wave, changeCalendarNames: seq<string>)
      requires Valid()
      modifies this
      ensures Valid()
      ensures changeCalendarsByStageName == Put(old(changeCalendarsByStageName), WaveKey(wave), changeCalendarNames)
      ensures forall k :: (Get(changeCalendarsByStageName, k) ==
        if k == WaveKey(wave) then Some(changeCalendarNames) else Get(old(changeCalendarsByStageName), k))
      ensures built == old(built) && enforcers == old(enforcers)
    {
      var stageName := wave.id;
      if |wave.stages| == 1 {
        BlockStageOnChangeCalendars(wave.stages[0], changeCalendarNames);
      } else {
        forall k ensures Get(Put(changeCalendarsByStageName, stageName, changeCalendarNames), k) ==
          (if k == stageName then Some(changeCalendarNames) else Get(changeCalendarsByStageName, k)) {
          PutGet(changeCalendarsByStageName, stageName, changeCalendarNames, k);
        }
        PutGet(changeCalendarsByStageName, stageName, changeCalendarNames, stageName);
        changeCalendarsByStageName := Put(changeCalendarsByStageName, stageName, changeCalendarNames);
      }
    }

    /**
     * One-time building: the first call builds one enforcer from the blockers
     * recorded so far; every later call fails and builds nothing.
     */
    method BuildEnforcer() returns (r: Result<(), string>)
      requires Valid()
      modifies this
      ensures Valid() && built
      ensures old(built) ==> r == Err(AlreadyBuilt) && enforcers == old(enforcers)
      ensures !old(built) ==> r.Ok? && enforcers == [EnforcerProps(pipelineName, changeCalendarsByStageName, enforcementFrequency)]
      ensures changeCalendarsByStageName == old(changeCalendarsByStageName)
    {
      if built {
        return Err(AlreadyBuilt);
      }
      DoBuild();
      built := true;
      r := Ok(());
    }

    /** Constructs the enforcer from the current blockers. */
    method DoBuild()
      modifies this`enforcers
      ensures enforcers == old(enforcers) + [EnforcerProps(pipelineName, changeCalendarsByStageName, enforcementFrequency)]
    {
      enforcers := enforcers + [EnforcerProps(pipelineName, changeCalendarsByStageName, enforcementFrequency)];
    }

    /** The synthesis hook: builds only when nothing was built yet, so it never fails. */
    method BuildJustInTime()
      requires Valid()
      modifies this
      ensures Valid() && built
      ensures old(built) ==> enforcers == old(enforcers)
      ensures !old(built) ==> enforcers == [EnforcerProps(pipelineName, changeCalendarsByStageName, enforcementFrequency)]
      ensures changeCalendarsByStageName == old(changeCalendarsByStageName)
    {
      if !built {
        var r := BuildEnforcer();
      }
    }
  }

  /**
   * A typical life: blockers are recorded, the enforcer is built explicitly,
   * and synthesis then runs the hook, which neither fails nor builds again;
   * a second explicit build fails.
   */
  method BuildOnce(pipelineName: string, stage: StageDeployment, wave: Wave, names: seq<string>, others: seq<string>)
    returns (enforcers: seq<EnforcerProps>, second: Result<(), string>)
    ensures |enforcers| == 1
    ensures Get(enforcers[0].changeCalendars, WaveKey(wave)) == Some(others)
    ensures WaveKey(wave) != stage.stageName ==> Get(enforcers[0].changeCalendars, stage.stageName) == Some(names)
    ensures second == Err(AlreadyBuilt)
  {
    var h := new CodePipelineHelper(pipelineName, None);
    h.BlockStageOnChangeCalendars(stage, names);
    h.BlockWaveOnChangeCalendars(wave, others);
    var first := h.BuildEnforcer();
    h.BuildJustInTime();
    second := h.BuildEnforcer();
    enforcers := h.enforcers;
  }
}
