/**
 * The bake-step evaluator (`calculateBakeActions`): for every configured
 * bake action of the snapshot, whether to approve it, reject it, let it
 * continue baking, or leave it alone.  The service calls it depends on are
 * inputs: the pages `listActionExecutions` returns for each pipeline
 * execution, the `describeAlarms` responses, and the current time.
 */
module Bake {
  import opened Wrappers
  import opened Records
  import opened Pipeline
  import opened Alarms
  import opened Sequences

  /** Alarm settings of a bake step; absent options take the source's defaults. */
  datatype AlarmSetting = AlarmSetting(
    alarmName: string,
    region: string,
    assumeRoleArn: Option<string>,
    treatMissingAlarm: Option<string>)

  datatype BakeStepSettings = BakeStepSettings(bakeTimeMillis: int, alarmSettings: Option<seq<AlarmSetting>>)

  /** What the source needs to answer a manual approval later. */
  datatype ApprovalProps = ApprovalProps(
    pipelineName: string,
    stageName: string,
    actionName: string,
    actionExecutionId: string,
    pipelineExecutionId: string,
    token: string)

  datatype BakeDecision = Approve | Reject | Continue | Done

  datatype BakeAction = BakeAction(
    decision: BakeDecision,
    actionName: string,
    rejectReasons: Option<seq<string>>,
    approvalProps: Option<ApprovalProps>)

  /** The ways the source's evaluation throws. */
  datatype BakeError =
    | MissingPipelineExecution(stageName: string)
    | ListFailed(pipelineExecutionId: string)
    | UnresolvedStartTimes(actionExecutionIds: seq<string>)
    | MissingStartTime(actionName: string)

  // ===== 1. bake actions in progress, grouped by pipeline execution =====

  /** A configured bake action together with the stage it is in. */
  type Candidate = (StageState, ActionState)

  predicate IsInProgress(a: ActionState) {
    a.latestExecution.Some? && a.latestExecution.value.status == "InProgress"
  }

  /** The stage's actions that are configured as bake steps, in order. */
  function Relevant(actions: seq<ActionState>, bakeSteps: map<string, BakeStepSettings>): (relevant: seq<ActionState>)
    ensures forall a :: a in relevant <==> a in actions && a.actionName in bakeSteps
    ensures |relevant| <= |actions|
    ensures Subsequence(relevant, actions)
    ensures forall a :: multiset(relevant)[a] == if a.actionName in bakeSteps then multiset(actions)[a] else 0
  {
    if |actions| == 0 then []
    else
      var n := |actions| - 1;
      var init, last := actions[..n], actions[n];
      var rest := Relevant(init, bakeSteps);
      assert actions == init + [last];
      if last.actionName in bakeSteps then
        SubsequenceKeep(rest, actions);
        rest + [last]
      else
        SubsequenceSkip(rest, actions);
        rest
  }

  function StageCandidates(stage: StageState, actions: seq<ActionState>): (cs: seq<Candidate>)
    ensures |cs| == |actions|
    ensures forall i :: 0 <= i < |actions| ==> cs[i] == (stage, actions[i])
  {
    seq(|actions|, i requires 0 <= i < |actions| => (stage, actions[i]))
  }

  /** Every configured bake action of the snapshot, stage by stage. */
  function Candidates(stages: seq<StageState>, bakeSteps: map<string, BakeStepSettings>): seq<Candidate>
  {
    if |stages| == 0 then []
    else
      var n := |stages| - 1;
      Candidates(stages[..n], bakeSteps) + StageCandidates(stages[n], Relevant(stages[n].actionStates, bakeSteps))
  }

  datatype Collected = Collected(dones: seq<BakeAction>, inProgress: Record<seq<ApprovalProps>>)

  /** The props an in-progress action is grouped with, under its stage's pipeline execution. */
  function PropsOf(pipelineName: string, stage: StageState, a: ActionState, pipelineExecutionId: string): ApprovalProps
    requires IsInProgress(a)
  {
    ApprovalProps(pipelineName, stage.stageName, a.actionName, a.latestExecution.value.actionExecutionId,
                  pipelineExecutionId, a.latestExecution.value.token)
  }

  function DoneOf(a: ActionState): BakeAction {
    BakeAction(Done, a.actionName, None, None)
  }

  /** The first step of the source for one action. */
  function CollectOne(pipelineName: string, acc: Collected, c: Candidate): Result<Collected, BakeError> {
    var (stage, a) := c;
    if IsInProgress(a) then
      match stage.latestPipelineExecutionId
      case None => Err(MissingPipelineExecution(stage.stageName))
      case Some(id) => Ok(Collected(acc.dones, Append(acc.inProgress, id, PropsOf(pipelineName, stage, a, id))))
    else Ok(Collected(acc.dones + [DoneOf(a)], acc.inProgress))
  }

  /** The first step over a run of candidates, starting from `acc`; the first failure stops it. */
  function CollectFrom(pipelineName: string, acc: Collected, cs: seq<Candidate>): Result<Collected, BakeError> {
    if |cs| == 0 then Ok(acc)
    else
      match CollectFrom(pipelineName, acc, cs[..|cs| - 1])
      case Err(e) => Err(e)
      case Ok(c) => CollectOne(pipelineName, c, cs[|cs| - 1])
  }

  lemma {:induction false} CollectErrSticks(pipelineName: string, acc: Collected, cs: seq<Candidate>, ds: seq<Candidate>)
    requires cs <= ds && CollectFrom(pipelineName, acc, cs).Err?
    ensures CollectFrom(pipelineName, acc, ds) == CollectFrom(pipelineName, acc, cs)
    decreases |ds|
  {
    if |ds| > |cs| {
      assert cs <= ds[..|ds| - 1];
      CollectErrSticks(pipelineName, acc, cs, ds[..|ds| - 1]);
    } else {
      assert cs == ds;
    }
  }

  lemma {:induction false} CandidatesPrefix(stages: seq<StageState>, bakeSteps: map<string, BakeStepSettings>, s: nat, t: nat)
    requires s <= t <= |stages|
    ensures Candidates(stages[..s], bakeSteps) <= Candidates(stages[..t], bakeSteps)
    decreases t - s
  {
    if s < t {
      CandidatesPrefix(stages, bakeSteps, s, t - 1);
      assert stages[..t][..t - 1] == stages[..t - 1];
    }
  }

  lemma {:induction false} CollectFromConcat(pipelineName: string, acc: Collected, cs: seq<Candidate>, ds: seq<Candidate>)
    ensures CollectFrom(pipelineName, acc, cs + ds)
         == match CollectFrom(pipelineName, acc, cs)
            case Err(e) => Err(e)
            case Ok(c) => CollectFrom(pipelineName, c, ds)
    decreases |ds|
  {
    if |ds| == 0 {
      assert cs + ds == cs;
    } else {
      var n := |ds| - 1;
      assert (cs + ds)[..|cs + ds| - 1] == cs + ds[..n];
      CollectFromConcat(pipelineName, acc, cs, ds[..n]);
    }
  }

  /** The configured actions of one stage, in order, from `acc`; the first failure stops it. */
  method CollectStage(pipelineName: string, stage: StageState, relevant: seq<ActionState>, acc: Collected)
    returns (r: Result<Collected, BakeError>)
    ensures r == CollectFrom(pipelineName, acc, StageCandidates(stage, relevant))
  {
    var dones, inProgress := acc.dones, acc.inProgress;
    assert StageCandidates(stage, relevant[..0]) == [];
    for j := 0 to |relevant|
      invariant CollectFrom(pipelineName, acc, StageCandidates(stage, relevant[..j])) == Ok(Collected(dones, inProgress))
    {
      var a := relevant[j];
      ghost var cs := StageCandidates(stage, relevant[..j + 1]);
      assert cs[..j] == StageCandidates(stage, relevant[..j]);
      if IsInProgress(a) {
        if stage.latestPipelineExecutionId.None? {
          r := Err(MissingPipelineExecution(stage.stageName));
          assert relevant[..j + 1] <= relevant;
          CollectErrSticks(pipelineName, acc, cs, StageCandidates(stage, relevant));
          return;
        }
        var id := stage.latestPipelineExecutionId.value;
        inProgress := Append(inProgress, id, PropsOf(pipelineName, stage, a, id));
      } else {
        dones := dones + [DoneOf(a)];
      }
    }
    assert relevant[..|relevant|] == relevant;
    r := Ok(Collected(dones, inProgress));
  }

  /**
   * Step 1 of `calculateBakeActions`: walks the stages and their configured
   * actions; an action whose latest execution is in progress is grouped
   * under its stage's pipeline execution, any other one is DONE.
   */
  method Collect(ps: PipelineState, bakeSteps: map<string, BakeStepSettings>) returns (r: Result<Collected, BakeError>)
    ensures r == CollectFrom(ps.pipelineName, Collected([], []), Candidates(ps.stageStates, bakeSteps))
  {
    var stages := ps.stageStates;
    var acc := Collected([], []);
    for s := 0 to |stages|
      invariant CollectFrom(ps.pipelineName, Collected([], []), Candidates(stages[..s], bakeSteps)) == Ok(acc)
    {
      var relevant := Relevant(stages[s].actionStates, bakeSteps);
      r := CollectStage(ps.pipelineName, stages[s], relevant, acc);
      CollectNextStage(ps.pipelineName, stages, bakeSteps, s, acc);
      if r.Err? {
        CollectStops(ps.pipelineName, stages, bakeSteps, s);
        return;
      }
      acc := r.value;
    }
    assert stages[..|stages|] == stages;
    r := Ok(acc);
  }

  /** Step 1 up to stage `s + 1` is step 1 up to stage `s`, then stage `s`. */
  lemma CollectNextStage(pipelineName: string, stages: seq<StageState>, bakeSteps: map<string, BakeStepSettings>,
                         s: nat, acc: Collected)
    requires s < |stages|
    requires CollectFrom(pipelineName, Collected([], []), Candidates(stages[..s], bakeSteps)) == Ok(acc)
    ensures CollectFrom(pipelineName, Collected([], []), Candidates(stages[..s + 1], bakeSteps))
         == CollectFrom(pipelineName, acc, StageCandidates(stages[s], Relevant(stages[s].actionStates, bakeSteps)))
  {
    assert stages[..s + 1][..s] == stages[..s];
    CollectFromConcat(pipelineName, Collected([], []), Candidates(stages[..s], bakeSteps),
                      StageCandidates(stages[s], Relevant(stages[s].actionStates, bakeSteps)));
  }

  /** A failure in stage `s` is the failure of step 1 as a whole. */
  lemma CollectStops(pipelineName: string, stages: seq<StageState>, bakeSteps: map<string, BakeStepSettings>, s: nat)
    requires s < |stages|
    requires CollectFrom(pipelineName, Collected([], []), Candidates(stages[..s + 1], bakeSteps)).Err?
    ensures CollectFrom(pipelineName, Collected([], []), Candidates(stages, bakeSteps))
         == CollectFrom(pipelineName, Collected([], []), Candidates(stages[..s + 1], bakeSteps))
  {
    CandidatesPrefix(stages, bakeSteps, s + 1, |stages|);
    assert stages[..|stages|] == stages;
    CollectErrSticks(pipelineName, Collected([], []), Candidates(stages[..s + 1], bakeSteps), Candidates(stages, bakeSteps));
  }

  // ----- what step 1 produces, stated against the list of configured actions -----

  /** DONE, in order, for every configured action that is not in progress. */
  function DoneList(cs: seq<Candidate>): (dones: seq<BakeAction>)
    ensures forall d :: d in dones ==> d.decision == Done
  {
    if |cs| == 0 then []
    else
      var n := |cs| - 1;
      DoneList(cs[..n]) + (if IsInProgress(cs[n].1) then [] else [DoneOf(cs[n].1)])
  }

  /** Every in-progress action's stage has a latest pipeline execution. */
  ghost predicate Groupable(cs: seq<Candidate>) {
    forall i :: 0 <= i < |cs| && IsInProgress(cs[i].1) ==> cs[i].0.latestPipelineExecutionId.Some?
  }

  /** The props of every in-progress action, in the order of the snapshot. */
  function PropsList(pipelineName: string, cs: seq<Candidate>): (props: seq<ApprovalProps>)
    ensures forall p :: p in props ==> exists c :: c in cs && c.1.actionName == p.actionName
  {
    if |cs| == 0 then []
    else
      var n := |cs| - 1;
      var (stage, a) := cs[n];
      var rest := PropsList(pipelineName, cs[..n]);
      assert forall c :: c in cs[..n] ==> c in cs;
      if IsInProgress(a) && stage.latestPipelineExecutionId.Some? then
        rest + [PropsOf(pipelineName, stage, a, stage.latestPipelineExecutionId.value)]
      else rest
  }

  lemma GroupableSnoc(cs: seq<Candidate>)
    requires |cs| > 0
    ensures Groupable(cs) <==>
              Groupable(cs[..|cs| - 1])
              && (IsInProgress(cs[|cs| - 1].1) ==> cs[|cs| - 1].0.latestPipelineExecutionId.Some?)
  {
    var n := |cs| - 1;
    assert forall i :: 0 <= i < n ==> cs[..n][i] == cs[i];
  }

  /** Step 1 fails exactly when an in-progress action's stage has no latest execution. */
  lemma {:induction false} CollectSucceeds(pipelineName: string, cs: seq<Candidate>)
    ensures CollectFrom(pipelineName, Collected([], []), cs).Ok? <==> Groupable(cs)
  {
    if |cs| > 0 {
      CollectSucceeds(pipelineName, cs[..|cs| - 1]);
      GroupableSnoc(cs);
    }
  }

  /**
   * When step 1 succeeds, the DONE list holds every configured action that is
   * not in progress, in order, and the grouping holds every in-progress
   * action, each exactly once.
   */
  lemma {:induction false} CollectContents(pipelineName: string, cs: seq<Candidate>)
    requires CollectFrom(pipelineName, Collected([], []), cs).Ok?
    ensures var c := CollectFrom(pipelineName, Collected([], []), cs).value;
      && c.dones == DoneList(cs)
      && UniqueKeys(c.inProgress)
      && multiset(Flatten(Values(c.inProgress))) == multiset(PropsList(pipelineName, cs))
  {
    if |cs| > 0 {
      var n := |cs| - 1;
      CollectContents(pipelineName, cs[..n]);
      var c := CollectFrom(pipelineName, Collected([], []), cs[..n]).value;
      var (stage, a) := cs[n];
      if IsInProgress(a) {
        var id := stage.latestPipelineExecutionId.value;
        AppendMultiset(c.inProgress, id, PropsOf(pipelineName, stage, a, id));
      }
    }
  }

  /** Every configured action names a bake step. */
  lemma {:induction false} CandidatesConfigured(stages: seq<StageState>, bakeSteps: map<string, BakeStepSettings>)
    ensures forall c :: c in Candidates(stages, bakeSteps) ==> c.1.actionName in bakeSteps
  {
    if |stages| > 0 {
      CandidatesConfigured(stages[..|stages| - 1], bakeSteps);
    }
  }

  // ===== 2. start times, from the paginated action-execution listing =====

  /** One entry of a `listActionExecutions` page; times are in milliseconds. */
  datatype ExecutionDetail = ExecutionDetail(actionExecutionId: string, actionName: string, startTime: int)

  /** One response: its details, and the token of the next page, if any. */
  datatype Page = Page(details: seq<ExecutionDetail>, nextToken: Option<string>)

  /** A token asks for another page only when it is present and not empty. */
  predicate Truthy(token: Option<string>) {
    token.Some? && token.value != ""
  }

  /** Detail `i` is the first one listing execution `id`. */
  predicate FirstListing(details: seq<ExecutionDetail>, i: int, id: string) {
    0 <= i < |details| && details[i].actionExecutionId == id
    && forall j :: 0 <= j < i ==> details[j].actionExecutionId != id
  }

  /** `details.find(d => d.actionExecutionId === id)`: the first match. */
  function FindDetail(details: seq<ExecutionDetail>, id: string): (found: Option<ExecutionDetail>)
    ensures found.None? <==> forall i :: 0 <= i < |details| ==> details[i].actionExecutionId != id
    ensures found.Some? ==> found.value in details && found.value.actionExecutionId == id
    ensures found.Some? ==> exists i :: FirstListing(details, i, id) && details[i] == found.value
  {
    if |details| == 0 then None
    else if details[0].actionExecutionId == id then
      assert FirstListing(details, 0, id);
      Some(details[0])
    else
      assert forall i :: 1 <= i < |details| ==> details[i] == details[1..][i - 1];
      var found := FindDetail(details[1..], id);
      assert found.Some? ==> exists i :: FirstListing(details, i, id) && details[i] == found.value by {
        if found.Some? {
          var i :| FirstListing(details[1..], i, id) && details[1..][i] == found.value;
          assert FirstListing(details, i + 1, id);
        }
      }
      found
  }

  /** `new Set(ids)`: the ids, each once, in first-seen order. */
  function Dedup(ids: seq<string>): (d: seq<string>)
    ensures forall x :: x in d <==> x in ids
    ensures Distinct(d)
    ensures Subsequence(d, ids)
  {
    if |ids| == 0 then []
    else
      var n := |ids| - 1;
      var init, last := ids[..n], ids[n];
      var d := Dedup(init);
      assert ids == init + [last];
      if last in d then
        SubsequenceSkip(d, ids);
        d
      else
        SubsequenceKeep(d, ids);
        d + [last]
  }

  function ExecutionIds(group: seq<ApprovalProps>): (ids: seq<string>)
    ensures forall x :: x in ids <==> exists p :: p in group && p.actionExecutionId == x
  {
    MapSeq((p: ApprovalProps) => p.actionExecutionId, group)
  }

  /**
   * One page against the still-unresolved ids: each id found on the page has
   * its start time recorded under the action name the page gives, and is no
   * longer unresolved.  `ScanTimes` says which time each name ends up with.
   */
  function Scan(remaining: seq<string>, details: seq<ExecutionDetail>, times: map<string, int>)
    : (r: (seq<string>, map<string, int>))
    ensures forall x :: x in r.0 <==> x in remaining && FindDetail(details, x).None?
    ensures forall x :: x in remaining && FindDetail(details, x).Some? ==> FindDetail(details, x).value.actionName in r.1
    ensures times.Keys <= r.1.Keys
  {
    if |remaining| == 0 then ([], times)
    else
      var n := |remaining| - 1;
      var (rest, t) := Scan(remaining[..n], details, times);
      assert remaining == remaining[..n] + [remaining[n]];
      match FindDetail(details, remaining[n])
      case None => (rest + [remaining[n]], t)
      case Some(d) => (rest, t[d.actionName := d.startTime])
  }

  /** Some still-unresolved id is found on the page under action name `name`. */
  ghost predicate Named(remaining: seq<string>, details: seq<ExecutionDetail>, name: string) {
    exists x :: x in remaining && FindDetail(details, x).Some? && FindDetail(details, x).value.actionName == name
  }

  /** Some still-unresolved id is found on the page under action name `name`, starting at `v`. */
  ghost predicate FoundAs(remaining: seq<string>, details: seq<ExecutionDetail>, name: string, v: int) {
    exists x :: x in remaining && FindDetail(details, x).Some?
      && FindDetail(details, x).value.actionName == name && FindDetail(details, x).value.startTime == v
  }

  /**
   * The times after one page: a name the page gives to a found id holds the
   * start time of one of the details found under it; every other name keeps
   * the time it had, and no name appears from nowhere.
   */
  lemma {:induction false} ScanTimes(remaining: seq<string>, details: seq<ExecutionDetail>, times: map<string, int>)
    ensures var t := Scan(remaining, details, times).1;
      && (forall n :: n in t ==> n in times || Named(remaining, details, n))
      && (forall n :: Named(remaining, details, n) ==> n in t && FoundAs(remaining, details, n, t[n]))
      && (forall n :: n in times && !Named(remaining, details, n) ==> n in t && t[n] == times[n])
    decreases |remaining|
  {
    if |remaining| > 0 {
      var k := |remaining| - 1;
      var init, x := remaining[..k], remaining[k];
      assert remaining == init + [x];
      ScanTimes(init, details, times);
      var t0 := Scan(init, details, times).1;
      ScanTimesStep(init, x, details, times, t0, Scan(remaining, details, times).1);
    }
  }

  /** Whether a name is given by the page, with one more id scanned. */
  lemma NamedSnoc(init: seq<string>, x: string, details: seq<ExecutionDetail>, name: string)
    ensures Named(init + [x], details, name) <==>
      Named(init, details, name) || (FindDetail(details, x).Some? && FindDetail(details, x).value.actionName == name)
    ensures forall v :: FoundAs(init, details, name, v) ==> FoundAs(init + [x], details, name, v)
  {
    if Named(init + [x], details, name) && !Named(init, details, name) {
      var y :| y in init + [x] && FindDetail(details, y).Some? && FindDetail(details, y).value.actionName == name;
      assert y !in init;
    }
    if FindDetail(details, x).Some? && FindDetail(details, x).value.actionName == name {
      assert x in init + [x];
    }
    forall v | FoundAs(init, details, name, v) ensures FoundAs(init + [x], details, name, v) {
      var y :| y in init && FindDetail(details, y).Some?
        && FindDetail(details, y).value.actionName == name && FindDetail(details, y).value.startTime == v;
      assert y in init + [x];
    }
    if Named(init, details, name) {
      var y :| y in init && FindDetail(details, y).Some? && FindDetail(details, y).value.actionName == name;
      assert y in init + [x];
    }
  }

  /** One more id scanned keeps what `ScanTimes` promises. */
  lemma ScanTimesStep(init: seq<string>, x: string, details: seq<ExecutionDetail>, times: map<string, int>,
                      t0: map<string, int>, t: map<string, int>)
    requires forall n :: n in t0 ==> n in times || Named(init, details, n)
    requires forall n :: Named(init, details, n) ==> n in t0 && FoundAs(init, details, n, t0[n])
    requires forall n :: n in times && !Named(init, details, n) ==> n in t0 && t0[n] == times[n]
    requires t == match FindDetail(details, x)
      case None => t0
      case Some(d) => t0[d.actionName := d.startTime]
    ensures forall n :: n in t ==> n in times || Named(init + [x], details, n)
    ensures forall n :: Named(init + [x], details, n) ==> n in t && FoundAs(init + [x], details, n, t[n])
    ensures forall n :: n in times && !Named(init + [x], details, n) ==> n in t && t[n] == times[n]
  {
    forall n ensures Named(init + [x], details, n) <==>
      Named(init, details, n) || (FindDetail(details, x).Some? && FindDetail(details, x).value.actionName == n)
    ensures forall v :: FoundAs(init, details, n, v) ==> FoundAs(init + [x], details, n, v)
    {
      NamedSnoc(init, x, details, n);
    }
    if FindDetail(details, x).Some? {
      var d := FindDetail(details, x).value;
      assert x in init + [x];
      assert FoundAs(init + [x], details, d.actionName, d.startTime);
    }
  }

  /**
   * The do-while over pages `k`, `k + 1`, ...: it stops once a page has no
   * next token or nothing is unresolved; asking for a page past the last one
   * is a call that fails.
   */
  function PageThrough(executionId: string, remaining: seq<string>, times: map<string, int>, pages: seq<Page>, k: nat)
    : Result<(seq<string>, map<string, int>), BakeError>
    decreases |pages| - k
  {
    if k >= |pages| then Err(ListFailed(executionId))
    else
      var (rest, t) := Scan(remaining, pages[k].details, times);
      if Truthy(pages[k].nextToken) && |rest| > 0 then PageThrough(executionId, rest, t, pages, k + 1)
      else Ok((rest, t))
  }

  /** The pages the service returns for a pipeline execution; none means the call fails. */
  function PagesFor(pages: map<string, seq<Page>>, executionId: string): seq<Page> {
    if executionId in pages then pages[executionId] else []
  }

  /** Step 2 for one group: every execution must be found, or the step fails. */
  function ResolveGroup(executionId: string, group: seq<ApprovalProps>, pages: map<string, seq<Page>>,
                        times: map<string, int>): Result<map<string, int>, BakeError>
  {
    match PageThrough(executionId, Dedup(ExecutionIds(group)), times, PagesFor(pages, executionId), 0)
    case Err(e) => Err(e)
    case Ok((rest, t)) => if |rest| > 0 then Err(UnresolvedStartTimes(rest)) else Ok(t)
  }

  /** Step 2 over all groups; the first group that fails decides the error. */
  function StartTimesOf(groups: Record<seq<ApprovalProps>>, pages: map<string, seq<Page>>)
    : Result<map<string, int>, BakeError>
  {
    if |groups| == 0 then Ok(map[])
    else
      var n := |groups| - 1;
      match StartTimesOf(groups[..n], pages)
      case Err(e) => Err(e)
      case Ok(t) => ResolveGroup(groups[n].0, groups[n].1, pages, t)
  }

  /** The `remainingActions.forEach` over one page, deleting what it finds. */
  method ScanPage(remaining: seq<string>, details: seq<ExecutionDetail>, times: map<string, int>)
    returns (rest: seq<string>, t: map<string, int>)
    ensures (rest, t) == Scan(remaining, details, times)
  {
    rest, t := [], times;
    for i := 0 to |remaining|
      invariant (rest, t) == Scan(remaining[..i], details, times)
    {
      assert remaining[..i + 1][..i] == remaining[..i];
      var found := FindDetail(details, remaining[i]);
      if found.Some? {
        t := t[found.value.actionName := found.value.startTime];
      } else {
        rest := rest + [remaining[i]];
      }
    }
    assert remaining[..|remaining|] == remaining;
  }

  /** The source's do-while loop for one pipeline execution. */
  method ListActionExecutions(executionId: string, ids: seq<string>, times: map<string, int>, pages: seq<Page>)
    returns (r: Result<(seq<string>, map<string, int>), BakeError>)
    ensures r == PageThrough(executionId, ids, times, pages, 0)
  {
    var remaining, t := ids, times;
    var k := 0;
    while true
      invariant k <= |pages|
      invariant PageThrough(executionId, ids, times, pages, 0) == PageThrough(executionId, remaining, t, pages, k)
      decreases |pages| - k
    {
      if k == |pages| {
        return Err(ListFailed(executionId));
      }
      var page := pages[k];
      remaining, t := ScanPage(remaining, page.details, t);
      k := k + 1;
      if !(Truthy(page.nextToken) && |remaining| > 0) {
        return Ok((remaining, t));
      }
    }
  }

  /** Step 2 of `calculateBakeActions`, one group after another. */
  method ResolveStartTimes(groups: Record<seq<ApprovalProps>>, pages: map<string, seq<Page>>)
    returns (r: Result<map<string, int>, BakeError>)
    ensures r == StartTimesOf(groups, pages)
  {
    r := Ok(map[]);
    for g := 0 to |groups|
      invariant r == StartTimesOf(groups[..g], pages)
    {
      StartTimesSnoc(groups, pages, g);
      if r.Ok? {
        var (executionId, group) := groups[g];
        var listed := ListActionExecutions(executionId, Dedup(ExecutionIds(group)), r.value, PagesFor(pages, executionId));
        if listed.Err? {
          r := Err(listed.error);
        } else if |listed.value.0| > 0 {
          r := Err(UnresolvedStartTimes(listed.value.0));
        } else {
          r := Ok(listed.value.1);
        }
      }
    }
    assert groups[..|groups|] == groups;
  }

  /** Step 2 over one more group. */
  lemma StartTimesSnoc(groups: Record<seq<ApprovalProps>>, pages: map<string, seq<Page>>, g: nat)
    requires g < |groups|
    ensures var before := StartTimesOf(groups[..g], pages);
      StartTimesOf(groups[..g + 1], pages) ==
        if before.Err? then Err(before.error) else ResolveGroup(groups[g].0, groups[g].1, pages, before.value)
  {
    assert groups[..g + 1][..g] == groups[..g];
  }

  // ----- what step 2 establishes -----

  /** Execution `x` is listed on one of the pages, under an action name that has a start time in `t`. */
  ghost predicate Found(pages: seq<Page>, x: string, t: map<string, int>) {
    exists k, i :: 0 <= k < |pages| && 0 <= i < |pages[k].details|
      && pages[k].details[i].actionExecutionId == x && pages[k].details[i].actionName in t
  }

  /**
   * When the do-while ends without failure, whatever is no longer unresolved
   * was listed on a page it read, and its start time is recorded.
   */
  lemma {:induction false} PageThroughFinds(executionId: string, remaining: seq<string>, times: map<string, int>,
                                            pages: seq<Page>, k: nat)
    requires PageThrough(executionId, remaining, times, pages, k).Ok?
    ensures var (rest, t) := PageThrough(executionId, remaining, times, pages, k).value;
      && times.Keys <= t.Keys
      && (forall x :: x in rest ==> x in remaining)
      && (forall x :: x in remaining && x !in rest ==> Found(pages, x, t))
    decreases |pages| - k
  {
    var (rest, t) := Scan(remaining, pages[k].details, times);
    var (rest', t') := PageThrough(executionId, remaining, times, pages, k).value;
    if Truthy(pages[k].nextToken) && |rest| > 0 {
      PageThroughFinds(executionId, rest, t, pages, k + 1);
    }
    forall x | x in remaining && x !in rest' ensures Found(pages, x, t') {
      if x !in rest {
        var d := FindDetail(pages[k].details, x).value;
        var i :| 0 <= i < |pages[k].details| && pages[k].details[i] == d;
        assert d.actionName in t';
      }
    }
  }

  /**
   * Step 2 succeeds for a group only if every one of its executions is
   * listed, with its start time recorded; so an execution that no page lists
   * makes it fail.
   */
  lemma ResolveGroupFinds(executionId: string, group: seq<ApprovalProps>, pages: map<string, seq<Page>>,
                          times: map<string, int>)
    requires ResolveGroup(executionId, group, pages, times).Ok?
    ensures var t := ResolveGroup(executionId, group, pages, times).value;
      && times.Keys <= t.Keys
      && forall p :: p in group ==> Found(PagesFor(pages, executionId), p.actionExecutionId, t)
  {
    var ids := Dedup(ExecutionIds(group));
    PageThroughFinds(executionId, ids, times, PagesFor(pages, executionId), 0);
    forall p | p in group ensures p.actionExecutionId in ids {
      assert p.actionExecutionId in ExecutionIds(group);
    }
  }

  /** A group whose executions are all on the first page resolves, whatever its token says. */
  lemma FirstPageSuffices(executionId: string, group: seq<ApprovalProps>, pages: map<string, seq<Page>>,
                          times: map<string, int>)
    requires |PagesFor(pages, executionId)| > 0
    requires forall p :: p in group ==> FindDetail(PagesFor(pages, executionId)[0].details, p.actionExecutionId).Some?
    ensures ResolveGroup(executionId, group, pages, times).Ok?
  {
    var ids := Dedup(ExecutionIds(group));
    var first := PagesFor(pages, executionId)[0];
    forall x | x in ids ensures FindDetail(first.details, x).Some? {
      assert x in ExecutionIds(group);
    }
    ScanResolvesAll(ids, first.details, times);
  }

  lemma ScanResolvesAll(remaining: seq<string>, details: seq<ExecutionDetail>, times: map<string, int>)
    requires forall x :: x in remaining ==> FindDetail(details, x).Some?
    ensures Scan(remaining, details, times).0 == []
  {
  }

  lemma FoundGrows(pages: seq<Page>, x: string, t: map<string, int>, t': map<string, int>)
    requires Found(pages, x, t) && t.Keys <= t'.Keys
    ensures Found(pages, x, t')
  {
  }

  /** When step 2 succeeds, every grouped action's execution was listed with a recorded start time. */
  lemma {:induction false} StartTimesFound(groups: Record<seq<ApprovalProps>>, pages: map<string, seq<Page>>)
    requires StartTimesOf(groups, pages).Ok?
    ensures forall g, p :: 0 <= g < |groups| && p in groups[g].1 ==>
      Found(PagesFor(pages, groups[g].0), p.actionExecutionId, StartTimesOf(groups, pages).value)
  {
    if |groups| > 0 {
      var n := |groups| - 1;
      StartTimesFound(groups[..n], pages);
      var t0 := StartTimesOf(groups[..n], pages).value;
      var t := StartTimesOf(groups, pages).value;
      ResolveGroupFinds(groups[n].0, groups[n].1, pages, t0);
      forall g, p | 0 <= g < |groups| && p in groups[g].1
        ensures Found(PagesFor(pages, groups[g].0), p.actionExecutionId, t)
      {
        if g < n {
          assert groups[..n][g] == groups[g];
          FoundGrows(PagesFor(pages, groups[g].0), p.actionExecutionId, t0, t);
        }
      }
    }
  }

  /** Some page lists a detail of action `name` that started at `v`. */
  ghost predicate Listed(pages: seq<Page>, name: string, v: int) {
    exists k, i :: 0 <= k < |pages| && 0 <= i < |pages[k].details|
      && pages[k].details[i].actionName == name && pages[k].details[i].startTime == v
  }

  /** A time one page records is the start time of a detail on that page. */
  lemma ScanListed(remaining: seq<string>, times: map<string, int>, pages: seq<Page>, k: nat)
    requires k < |pages|
    ensures var t := Scan(remaining, pages[k].details, times).1;
      forall n :: n in t ==> (n in times && t[n] == times[n]) || Listed(pages, n, t[n])
  {
    var details := pages[k].details;
    var t := Scan(remaining, details, times).1;
    ScanTimes(remaining, details, times);
    forall n | n in t && Named(remaining, details, n) ensures Listed(pages, n, t[n]) {
      var x :| x in remaining && FindDetail(details, x).Some?
        && FindDetail(details, x).value.actionName == n && FindDetail(details, x).value.startTime == t[n];
      var i :| FirstListing(details, i, x) && details[i] == FindDetail(details, x).value;
      assert pages[k].details[i].actionName == n;
    }
  }

  /**
   * When the do-while ends without failure, every time it holds is either
   * the one it was given or the start time of a detail, of that action,
   * listed on a page it read.
   */
  lemma {:induction false} PageThroughTimes(executionId: string, remaining: seq<string>, times: map<string, int>,
                                            pages: seq<Page>, k: nat)
    requires PageThrough(executionId, remaining, times, pages, k).Ok?
    ensures var t := PageThrough(executionId, remaining, times, pages, k).value.1;
      forall n :: n in t ==> (n in times && t[n] == times[n]) || Listed(pages, n, t[n])
    decreases |pages| - k
  {
    var (rest, t1) := Scan(remaining, pages[k].details, times);
    ScanListed(remaining, times, pages, k);
    if Truthy(pages[k].nextToken) && |rest| > 0 {
      PageThroughTimes(executionId, rest, t1, pages, k + 1);
    }
  }

  /** A group's start times come from its own execution's pages, or were there before. */
  lemma ResolveGroupTimes(executionId: string, group: seq<ApprovalProps>, pages: map<string, seq<Page>>,
                          times: map<string, int>)
    requires ResolveGroup(executionId, group, pages, times).Ok?
    ensures var t := ResolveGroup(executionId, group, pages, times).value;
      forall n :: n in t ==> (n in times && t[n] == times[n]) || Listed(PagesFor(pages, executionId), n, t[n])
  {
    PageThroughTimes(executionId, Dedup(ExecutionIds(group)), times, PagesFor(pages, executionId), 0);
  }

  /** Every start time step 2 yields is that of a listed detail of the action it is recorded for. */
  lemma {:induction false} StartTimesListed(groups: Record<seq<ApprovalProps>>, pages: map<string, seq<Page>>)
    requires StartTimesOf(groups, pages).Ok?
    ensures var t := StartTimesOf(groups, pages).value;
      forall n :: n in t ==> exists g :: 0 <= g < |groups| && Listed(PagesFor(pages, groups[g].0), n, t[n])
  {
    if |groups| > 0 {
      var last := |groups| - 1;
      StartTimesListed(groups[..last], pages);
      var t0 := StartTimesOf(groups[..last], pages).value;
      var t := StartTimesOf(groups, pages).value;
      ResolveGroupTimes(groups[last].0, groups[last].1, pages, t0);
      forall n | n in t ensures exists g :: 0 <= g < |groups| && Listed(PagesFor(pages, groups[g].0), n, t[n]) {
        if !Listed(PagesFor(pages, groups[last].0), n, t[n]) {
          var g :| 0 <= g < last && Listed(PagesFor(pages, groups[..last][g].0), n, t0[n]);
          assert groups[..last][g] == groups[g];
        }
      }
    }
  }

  /** Every detail on `pages` that lists execution `x` is a detail of action `name`. */
  ghost predicate ListsAs(pages: seq<Page>, x: string, name: string) {
    forall k, i :: 0 <= k < |pages| && 0 <= i < |pages[k].details| && pages[k].details[i].actionExecutionId == x
      ==> pages[k].details[i].actionName == name
  }

  /** Every detail of action `name` on any group's pages started at `v`. */
  ghost predicate StartsAt(groups: Record<seq<ApprovalProps>>, pages: map<string, seq<Page>>, name: string, v: int) {
    forall g, k, i :: 0 <= g < |groups| && 0 <= k < |PagesFor(pages, groups[g].0)|
      && 0 <= i < |PagesFor(pages, groups[g].0)[k].details| && PagesFor(pages, groups[g].0)[k].details[i].actionName == name
      ==> PagesFor(pages, groups[g].0)[k].details[i].startTime == v
  }

  /**
   * When the listings agree with the snapshot (the execution of a grouped
   * action is listed under that action's name) and every listing of the
   * action gives the same start time, step 2 records exactly that time.
   */
  lemma StartTimeOfEachAction(groups: Record<seq<ApprovalProps>>, pages: map<string, seq<Page>>,
                              g: int, p: ApprovalProps, v: int)
    requires StartTimesOf(groups, pages).Ok?
    requires 0 <= g < |groups| && p in groups[g].1
    requires ListsAs(PagesFor(pages, groups[g].0), p.actionExecutionId, p.actionName)
    requires StartsAt(groups, pages, p.actionName, v)
    ensures p.actionName in StartTimesOf(groups, pages).value
    ensures StartTimesOf(groups, pages).value[p.actionName] == v
  {
    var t := StartTimesOf(groups, pages).value;
    StartTimesFound(groups, pages);
    assert Found(PagesFor(pages, groups[g].0), p.actionExecutionId, t);
    StartTimesListed(groups, pages);
    var h :| 0 <= h < |groups| && Listed(PagesFor(pages, groups[h].0), p.actionName, t[p.actionName]);
  }

  // ===== 3. elapsed bakes are approved; the rest wait for alarms or continue =====

  datatype Pending = Pending(props: ApprovalProps, alarmSettings: seq<AlarmSetting>)

  datatype Triaged = Triaged(decisions: seq<BakeAction>, pending: seq<Pending>)

  /** The bake of `p` has ended: its start plus the bake time is before `now`. */
  predicate Elapsed(p: ApprovalProps, bakeSteps: map<string, BakeStepSettings>, times: map<string, int>, now: int)
    requires p.actionName in bakeSteps && p.actionName in times
  {
    times[p.actionName] + bakeSteps[p.actionName].bakeTimeMillis < now
  }

  function TriageOne(p: ApprovalProps, bakeSteps: map<string, BakeStepSettings>, times: map<string, int>, now: int,
                     acc: Triaged): Result<Triaged, BakeError>
    requires p.actionName in bakeSteps
  {
    if p.actionName !in times then Err(MissingStartTime(p.actionName))
    else if Elapsed(p, bakeSteps, times, now) then
      Ok(Triaged(acc.decisions + [BakeAction(Approve, p.actionName, None, Some(p))], acc.pending))
    else
      var alarms := bakeSteps[p.actionName].alarmSettings.GetOr([]);
      if |alarms| > 0 then Ok(Triaged(acc.decisions, acc.pending + [Pending(p, alarms)]))
      else Ok(Triaged(acc.decisions + [BakeAction(Continue, p.actionName, None, None)], acc.pending))
  }

  /** Step 3 over the grouped actions, in order; the first action without a start time decides the error. */
  function Triage(ps: seq<ApprovalProps>, bakeSteps: map<string, BakeStepSettings>, times: map<string, int>, now: int)
    : (r: Result<Triaged, BakeError>)
    requires forall p :: p in ps ==> p.actionName in bakeSteps
    ensures r.Ok? <==> forall p :: p in ps ==> p.actionName in times
    ensures r.Ok? ==> forall q :: q in r.value.pending ==> q.props in ps
  {
    if |ps| == 0 then Ok(Triaged([], []))
    else
      var n := |ps| - 1;
      assert ps == ps[..n] + [ps[n]];
      match Triage(ps[..n], bakeSteps, times, now)
      case Err(e) => Err(e)
      case Ok(acc) => TriageOne(ps[n], bakeSteps, times, now, acc)
  }

  /** Step 3 of `calculateBakeActions`. */
  method TriageInProgress(ps: seq<ApprovalProps>, bakeSteps: map<string, BakeStepSettings>, times: map<string, int>,
                          now: int) returns (r: Result<Triaged, BakeError>)
    requires forall p :: p in ps ==> p.actionName in bakeSteps
    ensures r == Triage(ps, bakeSteps, times, now)
  {
    r := Ok(Triaged([], []));
    for i := 0 to |ps|
      invariant r == Triage(ps[..i], bakeSteps, times, now)
    {
      assert ps[..i + 1][..i] == ps[..i];
      if r.Ok? {
        var p := ps[i];
        if p.actionName !in times {
          r := Err(MissingStartTime(p.actionName));
        } else if times[p.actionName] + bakeSteps[p.actionName].bakeTimeMillis < now {
          r := Ok(Triaged(r.value.decisions + [BakeAction(Approve, p.actionName, None, Some(p))], r.value.pending));
        } else if |bakeSteps[p.actionName].alarmSettings.GetOr([])| > 0 {
          r := Ok(Triaged(r.value.decisions, r.value.pending + [Pending(p, bakeSteps[p.actionName].alarmSettings.value)]));
        } else {
          r := Ok(Triaged(r.value.decisions + [BakeAction(Continue, p.actionName, None, None)], r.value.pending));
        }
      }
    }
    assert ps[..|ps|] == ps;
  }

  // ===== 4. alarm checks, grouped by region and role =====

  const NoRole: string := "NO-ROLE"

  /** The `region\nrole` group an alarm is queried in. */
  function GroupKey(s: AlarmSetting): string {
    s.region + "\n" + s.assumeRoleArn.GetOr(NoRole)
  }

  /** The `role\nname` key an alarm is judged by: the region is not part of it. */
  function FailKey(role: string, alarmName: string): string {
    role + "\n" + alarmName
  }

  function QueryOf(s: AlarmSetting, startTime: int): AlarmQuery {
    AlarmQuery(s.alarmName, startTime, s.treatMissingAlarm.GetOr("REJECT"))
  }

  /** One pending action's alarms added to the groups, in order. */
  function GroupSettings(groups: Record<seq<AlarmQuery>>, settings: seq<AlarmSetting>, startTime: int)
    : Record<seq<AlarmQuery>>
  {
    if |settings| == 0 then groups
    else
      var n := |settings| - 1;
      Append(GroupSettings(groups, settings[..n], startTime), GroupKey(settings[n]), QueryOf(settings[n], startTime))
  }

  /** Every pending action's alarms, grouped by `GroupKey`, each with its action's start time. */
  function GroupPending(pending: seq<Pending>, times: map<string, int>): Record<seq<AlarmQuery>>
    requires forall q :: q in pending ==> q.props.actionName in times
  {
    if |pending| == 0 then []
    else
      var n := |pending| - 1;
      assert pending[n] in pending;
      assert forall q :: q in pending[..n] ==> q in pending;
      GroupSettings(GroupPending(pending[..n], times), pending[n].alarmSettings, times[pending[n].props.actionName])
  }

  method GroupAlarmSettings(groups: Record<seq<AlarmQuery>>, settings: seq<AlarmSetting>, startTime: int)
    returns (r: Record<seq<AlarmQuery>>)
    ensures r == GroupSettings(groups, settings, startTime)
  {
    r := groups;
    for i := 0 to |settings|
      invariant r == GroupSettings(groups, settings[..i], startTime)
    {
      assert settings[..i + 1][..i] == settings[..i];
      r := Append(r, GroupKey(settings[i]), QueryOf(settings[i], startTime));
    }
    assert settings[..|settings|] == settings;
  }

  /** The first half of step 4 of `calculateBakeActions`: `alarmNamesByRoleArn`. */
  method GroupAlarms(pending: seq<Pending>, times: map<string, int>) returns (r: Record<seq<AlarmQuery>>)
    requires forall q :: q in pending ==> q.props.actionName in times
    ensures r == GroupPending(pending, times)
  {
    r := [];
    for i := 0 to |pending|
      invariant r == GroupPending(pending[..i], times)
    {
      assert pending[..i + 1][..i] == pending[..i];
      r := GroupAlarmSettings(r, pending[i].alarmSettings, times[pending[i].props.actionName]);
    }
    assert pending[..|pending|] == pending;
  }

  /** `describeAlarms` for a region, a role to assume (`None`: the function's own), and the names asked for. */
  type Describer = (string, Option<string>, seq<string>) -> Option<DescribeOutput>

  /** `key.split('\n')[0]`. */
  function BeforeNewline(key: string): (field: string)
    ensures field <= key
  {
    if |key| == 0 || key[0] == '\n' then [] else [key[0]] + BeforeNewline(key[1..])
  }

  /** What follows the first newline of `key`; empty when it has none. */
  function AfterNewline(key: string): (tail: string)
    ensures |tail| <= |key|
  {
    if |key| == 0 then [] else if key[0] == '\n' then key[1..] else AfterNewline(key[1..])
  }

  /** `const [region, roleArn] = key.split('\n')`. */
  function SplitKey(key: string): (string, string) {
    (BeforeNewline(key), BeforeNewline(AfterNewline(key)))
  }

  function RoleToAssume(roleArn: string): Option<string> {
    if roleArn == NoRole then None else Some(roleArn)
  }

  function AlarmNames(queries: seq<AlarmQuery>): seq<string> {
    MapSeq((q: AlarmQuery) => q.alarmName, queries)
  }

  /** An alarm fails its bake when it is in alarm, or missing and to be treated as a rejection. */
  predicate Fails(r: AlarmResult) {
    r.state == StateInAlarm || (r.state == StateMissing && r.alarm.treatMissingAlarm == "REJECT")
  }

  /** The failed keys one group's results contribute. */
  function FailedOf(roleArn: string, results: seq<AlarmResult>): (failed: set<string>)
    ensures forall i :: 0 <= i < |results| && Fails(results[i]) ==> FailKey(roleArn, results[i].alarm.alarmName) in failed
    ensures forall k :: k in failed ==> exists i :: 0 <= i < |results| && Fails(results[i])
                                                    && k == FailKey(roleArn, results[i].alarm.alarmName)
  {
    if |results| == 0 then {}
    else
      var n := |results| - 1;
      var rest := FailedOf(roleArn, results[..n]);
      assert forall i :: 0 <= i < n ==> results[..n][i] == results[i];
      if Fails(results[n]) then rest + {FailKey(roleArn, results[n].alarm.alarmName)} else rest
  }

  /** One group's queries, classified against the response for its region and role. */
  function GroupResults(key: string, queries: seq<AlarmQuery>, describe: Describer): seq<AlarmResult> {
    var (region, roleArn) := SplitKey(key);
    var described := Described(describe(region, RoleToAssume(roleArn), AlarmNames(queries)));
    MapSeq((q: AlarmQuery) => AlarmResult(q, Classify(q, described)), queries)
  }

  /** The failed keys of one group: its results, under the role its key splits into. */
  function GroupFailures(key: string, queries: seq<AlarmQuery>, describe: Describer): set<string> {
    FailedOf(SplitKey(key).1, GroupResults(key, queries, describe))
  }

  /** The union of `f` over the groups. */
  function UnionOver(groups: Record<seq<AlarmQuery>>, f: (string, seq<AlarmQuery>) -> set<string>): set<string> {
    if |groups| == 0 then {}
    else
      var n := |groups| - 1;
      UnionOver(groups[..n], f) + f(groups[n].0, groups[n].1)
  }

  /** `failedAlarmsByName` over all groups. */
  function FailedFrom(groups: Record<seq<AlarmQuery>>, describe: Describer): set<string> {
    UnionOver(groups, (key: string, queries: seq<AlarmQuery>) => GroupFailures(key, queries, describe))
  }

  method AddFailures(roleArn: string, results: seq<AlarmResult>, failed: set<string>) returns (r: set<string>)
    ensures r == failed + FailedOf(roleArn, results)
  {
    r := failed;
    for i := 0 to |results|
      invariant r == failed + FailedOf(roleArn, results[..i])
    {
      assert results[..i + 1][..i] == results[..i];
      if results[i].state == StateInAlarm {
        r := r + {FailKey(roleArn, results[i].alarm.alarmName)};
      } else if results[i].state == StateMissing && results[i].alarm.treatMissingAlarm == "REJECT" {
        r := r + {FailKey(roleArn, results[i].alarm.alarmName)};
      }
    }
    assert results[..|results|] == results;
  }

  /** The second half of step 4 of `calculateBakeActions`: one `describeAlarms` call per group. */
  method FailedAlarms(groups: Record<seq<AlarmQuery>>, describe: Describer) returns (failed: set<string>)
    ensures failed == FailedFrom(groups, describe)
  {
    failed := {};
    for g := 0 to |groups|
      invariant failed == FailedFrom(groups[..g], describe)
    {
      assert groups[..g + 1][..g] == groups[..g];
      var (key, queries) := groups[g];
      var (region, roleArn) := SplitKey(key);
      var results := GetAlarmStates(queries, describe(region, RoleToAssume(roleArn), AlarmNames(queries)));
      assert results == GroupResults(key, queries, describe);
      failed := AddFailures(roleArn, results, failed);
    }
    assert groups[..|groups|] == groups;
  }

  /** The alarms of a bake step that failed, in configured order. */
  function FailedSettings(settings: seq<AlarmSetting>, failed: set<string>): (bad: seq<AlarmSetting>)
    ensures forall s :: s in bad <==> s in settings && FailKey(s.assumeRoleArn.GetOr(NoRole), s.alarmName) in failed
    ensures Subsequence(bad, settings)
    ensures forall s :: (multiset(bad)[s] ==
      if FailKey(s.assumeRoleArn.GetOr(NoRole), s.alarmName) in failed then multiset(settings)[s] else 0)
  {
    if |settings| == 0 then []
    else
      var n := |settings| - 1;
      var init, last := settings[..n], settings[n];
      var rest := FailedSettings(init, failed);
      assert settings == init + [last];
      if FailKey(last.assumeRoleArn.GetOr(NoRole), last.alarmName) in failed then
        SubsequenceKeep(rest, settings);
        rest + [last]
      else
        SubsequenceSkip(rest, settings);
        rest
  }

  /** REJECT, naming the failed alarms, when any alarm of the step failed; CONTINUE otherwise. */
  function Decide(q: Pending, failed: set<string>): BakeAction {
    var bad := FailedSettings(q.alarmSettings, failed);
    if |bad| > 0 then
      BakeAction(Reject, q.props.actionName, Some(MapSeq((s: AlarmSetting) => s.alarmName, bad)), Some(q.props))
    else BakeAction(Continue, q.props.actionName, None, None)
  }

  function DecideAll(pending: seq<Pending>, failed: set<string>): seq<BakeAction> {
    MapSeq((q: Pending) => Decide(q, failed), pending)
  }

  // ===== the whole evaluation =====

  /** What a successful evaluation computes along the way. */
  datatype Run = Run(collected: Collected, times: map<string, int>, triaged: Triaged, failed: set<string>)

  /** Steps 1 to 4 of `calculateBakeActions`; the first step that fails decides the error. */
  function Evaluate(ps: PipelineState, bakeSteps: map<string, BakeStepSettings>, pages: map<string, seq<Page>>,
                    describe: Describer, now: int): Result<Run, BakeError>
  {
    match CollectFrom(ps.pipelineName, Collected([], []), Candidates(ps.stageStates, bakeSteps))
    case Err(e) => Err(e)
    case Ok(c) =>
      match StartTimesOf(c.inProgress, pages)
      case Err(e) => Err(e)
      case Ok(times) =>
        CollectedConfigured(ps, bakeSteps);
        match Triage(Flatten(Values(c.inProgress)), bakeSteps, times, now)
        case Err(e) => Err(e)
        case Ok(tr) => Ok(Run(c, times, tr, FailedFrom(GroupPending(tr.pending, times), describe)))
  }

  /** `calculateBakeActions`: DONE first, then step 3's decisions, then step 4's. */
  function BakeActions(ps: PipelineState, bakeSteps: map<string, BakeStepSettings>, pages: map<string, seq<Page>>,
                       describe: Describer, now: int): Result<seq<BakeAction>, BakeError>
  {
    match Evaluate(ps, bakeSteps, pages, describe, now)
    case Err(e) => Err(e)
    case Ok(run) => Ok(run.collected.dones + run.triaged.decisions + DecideAll(run.triaged.pending, run.failed))
  }

  /** Every grouped action names a bake step. */
  lemma CollectedConfigured(ps: PipelineState, bakeSteps: map<string, BakeStepSettings>)
    requires CollectFrom(ps.pipelineName, Collected([], []), Candidates(ps.stageStates, bakeSteps)).Ok?
    ensures var c := CollectFrom(ps.pipelineName, Collected([], []), Candidates(ps.stageStates, bakeSteps)).value;
      forall p :: p in Flatten(Values(c.inProgress)) ==> p.actionName in bakeSteps
  {
    var cs := Candidates(ps.stageStates, bakeSteps);
    var c := CollectFrom(ps.pipelineName, Collected([], []), cs).value;
    CollectContents(ps.pipelineName, cs);
    CandidatesConfigured(ps.stageStates, bakeSteps);
    forall p | p in Flatten(Values(c.inProgress)) ensures p.actionName in bakeSteps {
      assert p in multiset(PropsList(ps.pipelineName, cs));
    }
  }

  /** The last loop of `calculateBakeActions`: one decision per pending action, after `decisions`. */
  method DecidePending(pending: seq<Pending>, failed: set<string>, decisions: seq<BakeAction>)
    returns (r: seq<BakeAction>)
    ensures r == decisions + DecideAll(pending, failed)
  {
    r := decisions;
    for i := 0 to |pending|
      invariant r == decisions + DecideAll(pending[..i], failed)
    {
      assert pending[..i + 1] == pending[..i] + [pending[i]];
      MapConcat((q: Pending) => Decide(q, failed), pending[..i], [pending[i]]);
      assert DecideAll(pending[..i + 1], failed) == DecideAll(pending[..i], failed) + [Decide(pending[i], failed)];
      r := r + [Decide(pending[i], failed)];
    }
    assert pending[..|pending|] == pending;
  }

  /** The source's `calculateBakeActions`, step by step. */
  method CalculateBakeActions(ps: PipelineState, bakeSteps: map<string, BakeStepSettings>,
                              pages: map<string, seq<Page>>, describe: Describer, now: int)
    returns (r: Result<seq<BakeAction>, BakeError>)
    ensures r == BakeActions(ps, bakeSteps, pages, describe, now)
  {
    var collected := Collect(ps, bakeSteps);
    if collected.Err? {
      return Err(collected.error);
    }
    var c := collected.value;
    var startTimes := ResolveStartTimes(c.inProgress, pages);
    if startTimes.Err? {
      return Err(startTimes.error);
    }
    var times := startTimes.value;
    CollectedConfigured(ps, bakeSteps);
    var triaged := TriageInProgress(Flatten(Values(c.inProgress)), bakeSteps, times, now);
    if triaged.Err? {
      return Err(triaged.error);
    }
    var tr := triaged.value;
    var groups := GroupAlarms(tr.pending, times);
    var failed := FailedAlarms(groups, describe);
    var decisions := DecidePending(tr.pending, failed, c.dones + tr.decisions);
    r := Ok(decisions);
  }

  // ===== what the evaluation decides, action by action =====

  /**
   * The decision for one in-progress action, given the run's start times and
   * failed alarms: APPROVE once the bake has elapsed, whatever the alarms say;
   * otherwise judged by its alarms when it has any, CONTINUE when it has none.
   */
  function Expected(p: ApprovalProps, bakeSteps: map<string, BakeStepSettings>, times: map<string, int>, now: int,
                    failed: set<string>): BakeAction
    requires p.actionName in bakeSteps && p.actionName in times
  {
    if Elapsed(p, bakeSteps, times, now) then BakeAction(Approve, p.actionName, None, Some(p))
    else
      var alarms := bakeSteps[p.actionName].alarmSettings.GetOr([]);
      if |alarms| > 0 then Decide(Pending(p, alarms), failed) else BakeAction(Continue, p.actionName, None, None)
  }

  function ExpectedFn(bakeSteps: map<string, BakeStepSettings>, times: map<string, int>, now: int, failed: set<string>)
    : ApprovalProps --> BakeAction
  {
    (p: ApprovalProps) requires p.actionName in bakeSteps && p.actionName in times =>
      Expected(p, bakeSteps, times, now, failed)
  }

  lemma MultisetSnoc<X>(a: seq<X>, b: seq<X>, x: X)
    ensures multiset(a + [x] + b) == multiset(a + b) + multiset{x}
  {
    assert a + [x] + b == a + ([x] + b);
  }

  /** Steps 3 and 4 give each grouped action exactly one decision: its expected one. */
  lemma {:induction false} TriageDecides(flat: seq<ApprovalProps>, bakeSteps: map<string, BakeStepSettings>,
                                         times: map<string, int>, now: int, failed: set<string>)
    requires forall p :: p in flat ==> p.actionName in bakeSteps
    requires Triage(flat, bakeSteps, times, now).Ok?
    ensures forall p :: p in flat ==> p.actionName in times
    ensures var tr := Triage(flat, bakeSteps, times, now).value;
      multiset(tr.decisions + DecideAll(tr.pending, failed))
        == multiset(MapSeq(ExpectedFn(bakeSteps, times, now, failed), flat))
  {
    var f := ExpectedFn(bakeSteps, times, now, failed);
    if |flat| > 0 {
      var n := |flat| - 1;
      var p := flat[n];
      assert flat == flat[..n] + [p];
      TriageDecides(flat[..n], bakeSteps, times, now, failed);
      var acc := Triage(flat[..n], bakeSteps, times, now).value;
      assert Triage(flat, bakeSteps, times, now) == TriageOne(p, bakeSteps, times, now, acc);
      TriageOneDecides(p, bakeSteps, times, now, failed, acc);
      MapConcat(f, flat[..n], [p]);
      assert MapSeq(f, [p]) == [f(p)];
    }
  }

  /** Step 3 for one action, followed by step 4, adds exactly that action's expected decision. */
  lemma TriageOneDecides(p: ApprovalProps, bakeSteps: map<string, BakeStepSettings>, times: map<string, int>, now: int,
                         failed: set<string>, acc: Triaged)
    requires p.actionName in bakeSteps && p.actionName in times
    ensures var tr := TriageOne(p, bakeSteps, times, now, acc).value;
      multiset(tr.decisions + DecideAll(tr.pending, failed))
        == multiset(acc.decisions + DecideAll(acc.pending, failed)) + multiset{Expected(p, bakeSteps, times, now, failed)}
  {
    var tr := TriageOne(p, bakeSteps, times, now, acc).value;
    var e := Expected(p, bakeSteps, times, now, failed);
    if tr.pending == acc.pending {
      assert tr.decisions == acc.decisions + [e];
      MultisetSnoc(acc.decisions, DecideAll(acc.pending, failed), e);
    } else {
      var q := Pending(p, bakeSteps[p.actionName].alarmSettings.value);
      assert tr.decisions == acc.decisions && tr.pending == acc.pending + [q];
      MapConcat((q: Pending) => Decide(q, failed), acc.pending, [q]);
      assert DecideAll(tr.pending, failed) == DecideAll(acc.pending, failed) + [e];
    }
  }

  lemma {:induction false} DoneListHas(cs: seq<Candidate>, c: Candidate)
    requires c in cs && !IsInProgress(c.1)
    ensures DoneOf(c.1) in DoneList(cs)
  {
    var n := |cs| - 1;
    if cs[n] != c {
      assert c in cs[..n] by { assert cs == cs[..n] + [cs[n]]; }
      DoneListHas(cs[..n], c);
    }
  }

  /**
   * When the evaluation succeeds, its result starts with DONE for every
   * configured action that is not in progress, in snapshot order, and holds
   * besides exactly one decision for every in-progress action: its expected
   * one.
   */
  lemma EveryActionDecided(ps: PipelineState, bakeSteps: map<string, BakeStepSettings>, pages: map<string, seq<Page>>,
                           describe: Describer, now: int)
    requires Evaluate(ps, bakeSteps, pages, describe, now).Ok?
    ensures BakeActions(ps, bakeSteps, pages, describe, now).Ok?
    ensures var run := Evaluate(ps, bakeSteps, pages, describe, now).value;
      var cs := Candidates(ps.stageStates, bakeSteps);
      var out := BakeActions(ps, bakeSteps, pages, describe, now).value;
      && (forall p :: p in PropsList(ps.pipelineName, cs) ==> p.actionName in bakeSteps && p.actionName in run.times)
      && DoneList(cs) <= out
      && multiset(out) == multiset(DoneList(cs))
                        + multiset(MapSeq(ExpectedFn(bakeSteps, run.times, now, run.failed), PropsList(ps.pipelineName, cs)))
  {
    var run := Evaluate(ps, bakeSteps, pages, describe, now).value;
    RunParts(ps, bakeSteps, pages, describe, now);
    var cs := Candidates(ps.stageStates, bakeSteps);
    CollectContents(ps.pipelineName, cs);
    var props := PropsList(ps.pipelineName, cs);
    var flat := Flatten(Values(run.collected.inProgress));
    var tr := run.triaged;
    TriageDecides(flat, bakeSteps, run.times, now, run.failed);
    Combine(run.collected.dones, props, flat, tr.decisions + DecideAll(tr.pending, run.failed),
            ExpectedFn(bakeSteps, run.times, now, run.failed));
  }

  /** What each step of a successful evaluation computed, and how the result is put together. */
  lemma RunParts(ps: PipelineState, bakeSteps: map<string, BakeStepSettings>, pages: map<string, seq<Page>>,
                 describe: Describer, now: int)
    requires Evaluate(ps, bakeSteps, pages, describe, now).Ok?
    ensures var run := Evaluate(ps, bakeSteps, pages, describe, now).value;
      var flat := Flatten(Values(run.collected.inProgress));
      && CollectFrom(ps.pipelineName, Collected([], []), Candidates(ps.stageStates, bakeSteps)) == Ok(run.collected)
      && StartTimesOf(run.collected.inProgress, pages) == Ok(run.times)
      && (forall p :: p in flat ==> p.actionName in bakeSteps)
      && Triage(flat, bakeSteps, run.times, now) == Ok(run.triaged)
      && run.failed == FailedFrom(GroupPending(run.triaged.pending, run.times), describe)
      && BakeActions(ps, bakeSteps, pages, describe, now)
         == Ok(run.collected.dones + run.triaged.decisions + DecideAll(run.triaged.pending, run.failed))
  {
    CollectedConfigured(ps, bakeSteps);
  }

  lemma Combine(dones: seq<BakeAction>, props: seq<ApprovalProps>, flat: seq<ApprovalProps>, rest: seq<BakeAction>,
                f: ApprovalProps --> BakeAction)
    requires multiset(flat) == multiset(props)
    requires forall p :: p in flat ==> f.requires(p)
    requires multiset(rest) == multiset(MapSeq(f, flat))
    ensures forall p :: p in props ==> p in flat && f.requires(p)
    ensures multiset(dones + rest) == multiset(dones) + multiset(MapSeq(f, props))
  {
    forall p | p in props ensures p in flat {
      assert p in multiset(props);
    }
    MapMultiset(f, flat, props);
  }

  /** An in-progress action whose bake has elapsed is approved, before any alarm is consulted. */
  lemma ElapsedIsApproved(ps: PipelineState, bakeSteps: map<string, BakeStepSettings>, pages: map<string, seq<Page>>,
                          describe: Describer, now: int, p: ApprovalProps)
    requires Evaluate(ps, bakeSteps, pages, describe, now).Ok?
    requires p in PropsList(ps.pipelineName, Candidates(ps.stageStates, bakeSteps))
    requires var times := Evaluate(ps, bakeSteps, pages, describe, now).value.times;
      p.actionName in bakeSteps && p.actionName in times && Elapsed(p, bakeSteps, times, now)
    ensures BakeAction(Approve, p.actionName, None, Some(p)) in BakeActions(ps, bakeSteps, pages, describe, now).value
  {
    var run := Evaluate(ps, bakeSteps, pages, describe, now).value;
    var props := PropsList(ps.pipelineName, Candidates(ps.stageStates, bakeSteps));
    EveryActionDecided(ps, bakeSteps, pages, describe, now);
    var f := ExpectedFn(bakeSteps, run.times, now, run.failed);
    var i :| 0 <= i < |props| && props[i] == p;
    assert MapSeq(f, props)[i] == BakeAction(Approve, p.actionName, None, Some(p));
    assert BakeAction(Approve, p.actionName, None, Some(p)) in multiset(BakeActions(ps, bakeSteps, pages, describe, now).value);
  }

  /** A configured action that is not in progress is DONE. */
  lemma NotInProgressIsDone(ps: PipelineState, bakeSteps: map<string, BakeStepSettings>, pages: map<string, seq<Page>>,
                            describe: Describer, now: int, c: Candidate)
    requires Evaluate(ps, bakeSteps, pages, describe, now).Ok?
    requires c in Candidates(ps.stageStates, bakeSteps) && !IsInProgress(c.1)
    ensures BakeAction(Done, c.1.actionName, None, None) in BakeActions(ps, bakeSteps, pages, describe, now).value
  {
    EveryActionDecided(ps, bakeSteps, pages, describe, now);
    DoneListHas(Candidates(ps.stageStates, bakeSteps), c);
  }

  // ----- a failing alarm rejects its bake -----

  lemma {:induction false} TriagePending(flat: seq<ApprovalProps>, bakeSteps: map<string, BakeStepSettings>,
                                         times: map<string, int>, now: int, p: ApprovalProps)
    requires forall p :: p in flat ==> p.actionName in bakeSteps
    requires Triage(flat, bakeSteps, times, now).Ok?
    requires p in flat && p.actionName in times && !Elapsed(p, bakeSteps, times, now)
    requires |bakeSteps[p.actionName].alarmSettings.GetOr([])| > 0
    ensures Pending(p, bakeSteps[p.actionName].alarmSettings.value) in Triage(flat, bakeSteps, times, now).value.pending
  {
    var n := |flat| - 1;
    assert flat == flat[..n] + [flat[n]];
    if flat[n] != p {
      TriagePending(flat[..n], bakeSteps, times, now, p);
    }
  }

  lemma AppendGet<X>(r: Record<seq<X>>, k: string, x: X, k': string)
    requires UniqueKeys(r)
    ensures UniqueKeys(Append(r, k, x))
    ensures Get(Append(r, k, x), k').GetOr([]) == Get(r, k').GetOr([]) + (if k' == k then [x] else [])
  {
    PutGet(r, k, Get(r, k).GetOr([]) + [x], k');
  }

  lemma {:induction false} GroupSettingsUnique(groups: Record<seq<AlarmQuery>>, settings: seq<AlarmSetting>, startTime: int)
    requires UniqueKeys(groups)
    ensures UniqueKeys(GroupSettings(groups, settings, startTime))
  {
    if |settings| > 0 {
      var n := |settings| - 1;
      GroupSettingsUnique(groups, settings[..n], startTime);
      AppendGet(GroupSettings(groups, settings[..n], startTime), GroupKey(settings[n]), QueryOf(settings[n], startTime), "");
    }
  }

  lemma {:induction false} GroupSettingsKeeps(groups: Record<seq<AlarmQuery>>, settings: seq<AlarmSetting>, startTime: int,
                                              k: string, x: AlarmQuery)
    requires UniqueKeys(groups) && x in Get(groups, k).GetOr([])
    ensures x in Get(GroupSettings(groups, settings, startTime), k).GetOr([])
  {
    if |settings| > 0 {
      var n := |settings| - 1;
      GroupSettingsKeeps(groups, settings[..n], startTime, k, x);
      GroupSettingsUnique(groups, settings[..n], startTime);
      AppendGet(GroupSettings(groups, settings[..n], startTime), GroupKey(settings[n]), QueryOf(settings[n], startTime), k);
    }
  }

  lemma {:induction false} GroupSettingsAdds(groups: Record<seq<AlarmQuery>>, settings: seq<AlarmSetting>, startTime: int,
                                             s: AlarmSetting)
    requires UniqueKeys(groups) && s in settings
    ensures QueryOf(s, startTime) in Get(GroupSettings(groups, settings, startTime), GroupKey(s)).GetOr([])
  {
    var n := |settings| - 1;
    var last := settings[n];
    var before := GroupSettings(groups, settings[..n], startTime);
    var after := Append(before, GroupKey(last), QueryOf(last, startTime));
    assert GroupSettings(groups, settings, startTime) == after;
    GroupSettingsUnique(groups, settings[..n], startTime);
    AppendGet(before, GroupKey(last), QueryOf(last, startTime), GroupKey(s));
    var old_, new_ := Get(before, GroupKey(s)).GetOr([]), Get(after, GroupKey(s)).GetOr([]);
    if last != s {
      assert s in settings[..n] by { assert settings == settings[..n] + [last]; }
      GroupSettingsAdds(groups, settings[..n], startTime, s);
      assert QueryOf(s, startTime) in old_;
      assert new_[..|old_|] == old_;
    } else {
      assert new_ == old_ + [QueryOf(s, startTime)];
    }
  }

  lemma {:induction false} GroupPendingUnique(pending: seq<Pending>, times: map<string, int>)
    requires forall q :: q in pending ==> q.props.actionName in times
    ensures UniqueKeys(GroupPending(pending, times))
  {
    if |pending| > 0 {
      var n := |pending| - 1;
      assert forall q :: q in pending[..n] ==> q in pending;
      GroupPendingUnique(pending[..n], times);
      GroupSettingsUnique(GroupPending(pending[..n], times), pending[n].alarmSettings, times[pending[n].props.actionName]);
    }
  }

  /** Every pending action's alarms are queried in their region-and-role group, with the action's start time. */
  lemma {:induction false} GroupPendingHas(pending: seq<Pending>, times: map<string, int>, q: Pending, s: AlarmSetting)
    requires forall q :: q in pending ==> q.props.actionName in times
    requires q in pending && s in q.alarmSettings
    ensures QueryOf(s, times[q.props.actionName]) in Get(GroupPending(pending, times), GroupKey(s)).GetOr([])
  {
    var n := |pending| - 1;
    var last := pending[n];
    var init := pending[..n];
    assert pending == init + [last];
    assert forall q :: q in init ==> q in pending;
    var before := GroupPending(init, times);
    assert GroupPending(pending, times) == GroupSettings(before, last.alarmSettings, times[last.props.actionName]);
    GroupPendingUnique(init, times);
    if last == q {
      GroupSettingsAdds(before, q.alarmSettings, times[q.props.actionName], s);
    } else {
      assert q in init;
      GroupPendingHas(init, times, q, s);
      GroupSettingsKeeps(before, last.alarmSettings, times[last.props.actionName], GroupKey(s),
                         QueryOf(s, times[q.props.actionName]));
    }
  }

  lemma {:induction false} UnionOverIncludes(groups: Record<seq<AlarmQuery>>, f: (string, seq<AlarmQuery>) -> set<string>,
                                             i: nat)
    requires i < |groups|
    ensures f(groups[i].0, groups[i].1) <= UnionOver(groups, f)
  {
    var n := |groups| - 1;
    if i < n {
      assert groups[..n][i] == groups[i];
      UnionOverIncludes(groups[..n], f, i);
      SubsetUnion(f(groups[i].0, groups[i].1), UnionOver(groups[..n], f), f(groups[n].0, groups[n].1));
    } else {
      UnionIncludes(UnionOver(groups[..n], f), f(groups[n].0, groups[n].1));
    }
  }

  /** Every group's failing results are in the failed set, under the role its key splits into. */
  lemma FailedFromIncludes(groups: Record<seq<AlarmQuery>>, describe: Describer, i: nat)
    requires i < |groups|
    ensures GroupFailures(groups[i].0, groups[i].1, describe) <= FailedFrom(groups, describe)
  {
    UnionOverIncludes(groups, (key: string, queries: seq<AlarmQuery>) => GroupFailures(key, queries, describe), i);
  }

  /** Every key in the union comes from one of the groups. */
  lemma {:induction false} UnionOverFrom(groups: Record<seq<AlarmQuery>>, f: (string, seq<AlarmQuery>) -> set<string>,
                                         k: string)
    requires k in UnionOver(groups, f)
    ensures exists i :: 0 <= i < |groups| && k in f(groups[i].0, groups[i].1)
  {
    var n := |groups| - 1;
    if k !in f(groups[n].0, groups[n].1) {
      UnionOverFrom(groups[..n], f, k);
      var i :| 0 <= i < n && k in f(groups[..n][i].0, groups[..n][i].1);
      assert groups[..n][i] == groups[i];
    }
  }

  /** Some group queried under `role` has an alarm called `name` whose result fails. */
  ghost predicate KeyFails(groups: Record<seq<AlarmQuery>>, describe: Describer, role: string, name: string) {
    exists i, j :: 0 <= i < |groups| && 0 <= j < |groups[i].1|
      && SplitKey(groups[i].0).1 == role && groups[i].1[j].alarmName == name
      && Fails(GroupResults(groups[i].0, groups[i].1, describe)[j])
  }

  /**
   * The failed set holds the key of a role and an alarm name exactly when
   * some group queried under that role reports an alarm of that name failing
   * (for a role without newlines, which is what makes the key split back).
   */
  lemma FailedFromMeans(groups: Record<seq<AlarmQuery>>, describe: Describer, role: string, name: string)
    requires '\n' !in role
    ensures FailKey(role, name) in FailedFrom(groups, describe) <==> KeyFails(groups, describe, role, name)
  {
    if FailKey(role, name) in FailedFrom(groups, describe) {
      FailedKeyFails(groups, describe, role, name);
    }
    if KeyFails(groups, describe, role, name) {
      var i, j :| 0 <= i < |groups| && 0 <= j < |groups[i].1|
        && SplitKey(groups[i].0).1 == role && groups[i].1[j].alarmName == name
        && Fails(GroupResults(groups[i].0, groups[i].1, describe)[j]);
      FailedFromIncludes(groups, describe, i);
    }
  }

  lemma FailedKeyFails(groups: Record<seq<AlarmQuery>>, describe: Describer, role: string, name: string)
    requires '\n' !in role
    requires FailKey(role, name) in FailedFrom(groups, describe)
    ensures KeyFails(groups, describe, role, name)
  {
    var f := (key: string, queries: seq<AlarmQuery>) => GroupFailures(key, queries, describe);
    UnionOverFrom(groups, f, FailKey(role, name));
    var i :| 0 <= i < |groups| && FailKey(role, name) in f(groups[i].0, groups[i].1);
    var results := GroupResults(groups[i].0, groups[i].1, describe);
    var role' := SplitKey(groups[i].0).1;
    assert FailKey(role, name) in FailedOf(role', results);
    var j :| 0 <= j < |results| && Fails(results[j]) && FailKey(role, name) == FailKey(role', results[j].alarm.alarmName);
    BeforeNewlineClean(AfterNewline(groups[i].0));
    FailKeyInjective(role, name, role', results[j].alarm.alarmName);
    assert results[j].alarm == groups[i].1[j];
  }

  lemma {:induction false} BeforeNewlineClean(key: string)
    ensures '\n' !in BeforeNewline(key)
  {
    if |key| > 0 && key[0] != '\n' {
      BeforeNewlineClean(key[1..]);
    }
  }

  /** A role without newlines and an alarm name are recovered from their key. */
  lemma FailKeyInjective(role: string, name: string, role': string, name': string)
    requires '\n' !in role && '\n' !in role'
    requires FailKey(role, name) == FailKey(role', name')
    ensures role == role' && name == name'
  {
    SplitFields(role, name);
    SplitFields(role', name');
  }

  lemma SubsetUnion(a: set<string>, b: set<string>, c: set<string>)
    requires a <= b
    ensures a <= b + c
  {
  }

  lemma UnionIncludes(a: set<string>, b: set<string>)
    ensures b <= a + b
  {
  }

  lemma {:induction false} SplitFields(a: string, b: string)
    requires '\n' !in a
    ensures BeforeNewline(a + "\n" + b) == a
    ensures AfterNewline(a + "\n" + b) == b
  {
    if |a| > 0 {
      assert (a + "\n" + b)[1..] == a[1..] + "\n" + b;
      SplitFields(a[1..], b);
    } else {
      assert a + "\n" + b == "\n" + b;
    }
  }

  lemma {:induction false} NoNewlineField(b: string)
    requires '\n' !in b
    ensures BeforeNewline(b) == b
  {
    if |b| > 0 {
      NoNewlineField(b[1..]);
    }
  }

  /** Splitting a group key gives back its region and role, when neither holds a newline. */
  lemma SplitGroupKey(s: AlarmSetting)
    requires '\n' !in s.region && '\n' !in s.assumeRoleArn.GetOr(NoRole)
    ensures SplitKey(GroupKey(s)) == (s.region, s.assumeRoleArn.GetOr(NoRole))
  {
    SplitFields(s.region, s.assumeRoleArn.GetOr(NoRole));
    NoNewlineField(s.assumeRoleArn.GetOr(NoRole));
  }

  /**
   * CloudWatch, asked from `region` with `role` for any list of names that
   * includes `q`'s, reports `q` failing whatever else is asked alongside it.
   */
  ghost predicate ReportedFailing(describe: Describer, region: string, role: string, q: AlarmQuery) {
    forall names :: q.alarmName in names ==>
      Fails(AlarmResult(q, Classify(q, Described(describe(region, RoleToAssume(role), names)))))
  }

  /** A service that describes the alarm called `name` as in alarm whenever it is asked about it. */
  function AlarmingDescriber(name: string): Describer {
    (region: string, role: Option<string>, names: seq<string>) =>
      if name in names then Some(DescribeOutput(Some([DescribedAlarm(name, Some("ALARM"), None)]), None)) else None
  }

  /** Such a service reports the alarm failing, whatever the alarm's treatment of missing data. */
  lemma AlarmingDescriberReports(q: AlarmQuery, region: string, role: string)
    ensures ReportedFailing(AlarmingDescriber(q.alarmName), region, role, q)
  {
    forall names | q.alarmName in names
      ensures Fails(AlarmResult(q, Classify(q, Described(AlarmingDescriber(q.alarmName)(region, RoleToAssume(role), names)))))
    {
      var described := [DescribedAlarm(q.alarmName, Some("ALARM"), None)];
      assert Described(AlarmingDescriber(q.alarmName)(region, RoleToAssume(role), names)) == described;
      assert LastNamed(described, 0, q.alarmName);
    }
  }

  /** An alarm setting of a pending action whose alarm fails puts its key in the run's failed set. */
  lemma PendingAlarmFails(pending: seq<Pending>, times: map<string, int>, describe: Describer, q: Pending, s: AlarmSetting)
    requires forall q :: q in pending ==> q.props.actionName in times
    requires q in pending && s in q.alarmSettings
    requires '\n' !in s.region && '\n' !in s.assumeRoleArn.GetOr(NoRole)
    requires ReportedFailing(describe, s.region, s.assumeRoleArn.GetOr(NoRole), QueryOf(s, times[q.props.actionName]))
    ensures FailKey(s.assumeRoleArn.GetOr(NoRole), s.alarmName) in FailedFrom(GroupPending(pending, times), describe)
  {
    var groups := GroupPending(pending, times);
    var query := QueryOf(s, times[q.props.actionName]);
    GroupPendingHas(pending, times, q, s);
    GroupPendingUnique(pending, times);
    var found := Get(groups, GroupKey(s));
    assert query in found.GetOr([]);
    var i :| 0 <= i < |groups| && groups[i] == (GroupKey(s), found.value);
    var j :| 0 <= j < |groups[i].1| && groups[i].1[j] == query;
    SplitGroupKey(s);
    assert AlarmNames(groups[i].1)[j] == query.alarmName;
    var results := GroupResults(groups[i].0, groups[i].1, describe);
    assert results[j]
        == AlarmResult(query, Classify(query, Described(describe(s.region, RoleToAssume(s.assumeRoleArn.GetOr(NoRole)),
                                                                 AlarmNames(groups[i].1)))));
    assert FailKey(s.assumeRoleArn.GetOr(NoRole), s.alarmName) in FailedOf(SplitKey(groups[i].0).1, results);
    assert FailKey(s.assumeRoleArn.GetOr(NoRole), s.alarmName) in GroupFailures(groups[i].0, groups[i].1, describe);
    FailedFromIncludes(groups, describe, i);
  }

  /** An in-progress action still baking, whose step has alarms, is among the run's pending actions. */
  lemma StillBakingIsPending(ps: PipelineState, bakeSteps: map<string, BakeStepSettings>, pages: map<string, seq<Page>>,
                             describe: Describer, now: int, p: ApprovalProps)
    requires Evaluate(ps, bakeSteps, pages, describe, now).Ok?
    requires p in PropsList(ps.pipelineName, Candidates(ps.stageStates, bakeSteps))
    requires p.actionName in bakeSteps && |bakeSteps[p.actionName].alarmSettings.GetOr([])| > 0
    requires var times := Evaluate(ps, bakeSteps, pages, describe, now).value.times;
      p.actionName in times && !Elapsed(p, bakeSteps, times, now)
    ensures var run := Evaluate(ps, bakeSteps, pages, describe, now).value;
      && Pending(p, bakeSteps[p.actionName].alarmSettings.value) in run.triaged.pending
      && (forall q :: q in run.triaged.pending ==> q.props.actionName in run.times)
      && run.failed == FailedFrom(GroupPending(run.triaged.pending, run.times), describe)
  {
    var run := Evaluate(ps, bakeSteps, pages, describe, now).value;
    RunParts(ps, bakeSteps, pages, describe, now);
    var cs := Candidates(ps.stageStates, bakeSteps);
    var flat := Flatten(Values(run.collected.inProgress));
    CollectContents(ps.pipelineName, cs);
    assert p in flat by { assert p in multiset(PropsList(ps.pipelineName, cs)); }
    TriagePending(flat, bakeSteps, run.times, now, p);
    assert forall q :: q in run.triaged.pending ==> q.props in flat;
  }

  /** A pending action with a failed alarm is rejected, and the alarm's name is among the reasons. */
  lemma DecideRejects(q: Pending, failed: set<string>, s: AlarmSetting)
    requires s in q.alarmSettings && FailKey(s.assumeRoleArn.GetOr(NoRole), s.alarmName) in failed
    ensures Decide(q, failed).decision == Reject && Decide(q, failed).approvalProps == Some(q.props)
    ensures s.alarmName in Decide(q, failed).rejectReasons.value
  {
    var bad := FailedSettings(q.alarmSettings, failed);
    assert s in bad;
    var k :| 0 <= k < |bad| && bad[k] == s;
    assert Decide(q, failed).rejectReasons.value[k] == s.alarmName;
  }

  /**
   * The failed set is keyed by role and alarm name only: an alarm failing in
   * one region rejects every pending action with an alarm of the same name
   * and role, whatever region that one names.
   */
  lemma FailureIgnoresRegion(pending: seq<Pending>, times: map<string, int>, describe: Describer,
                             q: Pending, s: AlarmSetting, q': Pending, s': AlarmSetting)
    requires forall q :: q in pending ==> q.props.actionName in times
    requires q in pending && s in q.alarmSettings
    requires '\n' !in s.region && '\n' !in s.assumeRoleArn.GetOr(NoRole)
    requires ReportedFailing(describe, s.region, s.assumeRoleArn.GetOr(NoRole), QueryOf(s, times[q.props.actionName]))
    requires s' in q'.alarmSettings && s'.alarmName == s.alarmName && s'.assumeRoleArn.GetOr(NoRole) == s.assumeRoleArn.GetOr(NoRole)
    ensures Decide(q', FailedFrom(GroupPending(pending, times), describe)).decision == Reject
    ensures s.alarmName in Decide(q', FailedFrom(GroupPending(pending, times), describe)).rejectReasons.value
  {
    PendingAlarmFails(pending, times, describe, q, s);
    DecideRejects(q', FailedFrom(GroupPending(pending, times), describe), s');
  }

  /** Some decision rejects `p`, naming `alarmName` among its reasons. */
  ghost predicate RejectedNaming(out: seq<BakeAction>, p: ApprovalProps, alarmName: string) {
    exists d :: d in out && d.decision == Reject && d.approvalProps == Some(p)
                && d.rejectReasons.Some? && alarmName in d.rejectReasons.value
  }

  /**
   * An in-progress action still baking is rejected, with the alarm's name
   * among the reasons, when one of its bake step's alarms fails (region and
   * role free of newlines, so that the group key splits back into them).
   */
  lemma FailingAlarmRejects(ps: PipelineState, bakeSteps: map<string, BakeStepSettings>, pages: map<string, seq<Page>>,
                            describe: Describer, now: int, p: ApprovalProps, s: AlarmSetting)
    requires Evaluate(ps, bakeSteps, pages, describe, now).Ok?
    requires p in PropsList(ps.pipelineName, Candidates(ps.stageStates, bakeSteps))
    requires p.actionName in bakeSteps
    requires s in bakeSteps[p.actionName].alarmSettings.GetOr([])
    requires '\n' !in s.region && '\n' !in s.assumeRoleArn.GetOr(NoRole)
    requires var times := Evaluate(ps, bakeSteps, pages, describe, now).value.times;
      && p.actionName in times
      && !Elapsed(p, bakeSteps, times, now)
      && ReportedFailing(describe, s.region, s.assumeRoleArn.GetOr(NoRole), QueryOf(s, times[p.actionName]))
    ensures RejectedNaming(BakeActions(ps, bakeSteps, pages, describe, now).value, p, s.alarmName)
  {
    var run := Evaluate(ps, bakeSteps, pages, describe, now).value;
    var q := Pending(p, bakeSteps[p.actionName].alarmSettings.value);
    StillBakingIsPending(ps, bakeSteps, pages, describe, now, p);
    PendingAlarmFails(run.triaged.pending, run.times, describe, q, s);
    DecideRejects(q, run.failed, s);
    ElapsedOrDecided(ps, bakeSteps, pages, describe, now, p);
    assert Expected(p, bakeSteps, run.times, now, run.failed) == Decide(q, run.failed);
  }

  /** Every in-progress action's expected decision is among the results. */
  lemma ElapsedOrDecided(ps: PipelineState, bakeSteps: map<string, BakeStepSettings>, pages: map<string, seq<Page>>,
                         describe: Describer, now: int, p: ApprovalProps)
    requires Evaluate(ps, bakeSteps, pages, describe, now).Ok?
    requires p in PropsList(ps.pipelineName, Candidates(ps.stageStates, bakeSteps))
    requires p.actionName in bakeSteps && p.actionName in Evaluate(ps, bakeSteps, pages, describe, now).value.times
    ensures var run := Evaluate(ps, bakeSteps, pages, describe, now).value;
      Expected(p, bakeSteps, run.times, now, run.failed) in BakeActions(ps, bakeSteps, pages, describe, now).value
  {
    var run := Evaluate(ps, bakeSteps, pages, describe, now).value;
    var props := PropsList(ps.pipelineName, Candidates(ps.stageStates, bakeSteps));
    EveryActionDecided(ps, bakeSteps, pages, describe, now);
    var f := ExpectedFn(bakeSteps, run.times, now, run.failed);
    var i :| 0 <= i < |props| && props[i] == p;
    assert MapSeq(f, props)[i] == Expected(p, bakeSteps, run.times, now, run.failed);
    assert Expected(p, bakeSteps, run.times, now, run.failed) in multiset(BakeActions(ps, bakeSteps, pages, describe, now).value);
  }

  /** A pending action is rejected exactly when one of its alarms' keys failed; otherwise it continues. */
  lemma DecideVerdict(q: Pending, failed: set<string>)
    ensures Decide(q, failed).decision == Reject <==>
      exists s :: s in q.alarmSettings && FailKey(s.assumeRoleArn.GetOr(NoRole), s.alarmName) in failed
    ensures Decide(q, failed).decision != Reject ==> Decide(q, failed) == BakeAction(Continue, q.props.actionName, None, None)
  {
    var bad := FailedSettings(q.alarmSettings, failed);
    if |bad| > 0 {
      assert bad[0] in bad;
    }
  }

  /**
   * The verdict on an in-progress action still baking, whose step has alarms:
   * it is rejected, with its props, exactly when one of its alarms' role and
   * name fails in some group of the run, and it continues otherwise.
   */
  lemma AlarmVerdict(ps: PipelineState, bakeSteps: map<string, BakeStepSettings>, pages: map<string, seq<Page>>,
                     describe: Describer, now: int, p: ApprovalProps)
    requires Evaluate(ps, bakeSteps, pages, describe, now).Ok?
    requires p in PropsList(ps.pipelineName, Candidates(ps.stageStates, bakeSteps))
    requires p.actionName in bakeSteps && |bakeSteps[p.actionName].alarmSettings.GetOr([])| > 0
    requires forall s :: s in bakeSteps[p.actionName].alarmSettings.GetOr([]) ==> '\n' !in s.assumeRoleArn.GetOr(NoRole)
    requires var times := Evaluate(ps, bakeSteps, pages, describe, now).value.times;
      p.actionName in times && !Elapsed(p, bakeSteps, times, now)
    ensures var run := Evaluate(ps, bakeSteps, pages, describe, now).value;
      var groups := GroupPending(run.triaged.pending, run.times);
      var settings := bakeSteps[p.actionName].alarmSettings.GetOr([]);
      var e := Expected(p, bakeSteps, run.times, now, run.failed);
      && e in BakeActions(ps, bakeSteps, pages, describe, now).value
      && (e.decision == Reject <==>
            exists s :: s in settings && KeyFails(groups, describe, s.assumeRoleArn.GetOr(NoRole), s.alarmName))
      && (e.decision == Reject ==> e.approvalProps == Some(p))
      && (e.decision != Reject ==> e == BakeAction(Continue, p.actionName, None, None))
  {
    var run := Evaluate(ps, bakeSteps, pages, describe, now).value;
    var groups := GroupPending(run.triaged.pending, run.times);
    var settings := bakeSteps[p.actionName].alarmSettings.GetOr([]);
    var q := Pending(p, settings);
    StillBakingIsPending(ps, bakeSteps, pages, describe, now, p);
    ElapsedOrDecided(ps, bakeSteps, pages, describe, now, p);
    assert Expected(p, bakeSteps, run.times, now, run.failed) == Decide(q, run.failed);
    DecideVerdict(q, run.failed);
    forall s | s in settings
      ensures FailKey(s.assumeRoleArn.GetOr(NoRole), s.alarmName) in run.failed
          <==> KeyFails(groups, describe, s.assumeRoleArn.GetOr(NoRole), s.alarmName)
    {
      FailedFromMeans(groups, describe, s.assumeRoleArn.GetOr(NoRole), s.alarmName);
    }
  }

  /**
   * An in-progress action still baking continues when no alarm with the role
   * and name of one of its step's alarms fails in any group of the run.
   */
  lemma NoFailingAlarmContinues(ps: PipelineState, bakeSteps: map<string, BakeStepSettings>, pages: map<string, seq<Page>>,
                                describe: Describer, now: int, p: ApprovalProps)
    requires Evaluate(ps, bakeSteps, pages, describe, now).Ok?
    requires p in PropsList(ps.pipelineName, Candidates(ps.stageStates, bakeSteps))
    requires p.actionName in bakeSteps && |bakeSteps[p.actionName].alarmSettings.GetOr([])| > 0
    requires forall s :: s in bakeSteps[p.actionName].alarmSettings.GetOr([]) ==> '\n' !in s.assumeRoleArn.GetOr(NoRole)
    requires var run := Evaluate(ps, bakeSteps, pages, describe, now).value;
      && p.actionName in run.times && !Elapsed(p, bakeSteps, run.times, now)
      && forall s :: s in bakeSteps[p.actionName].alarmSettings.GetOr([]) ==>
           !KeyFails(GroupPending(run.triaged.pending, run.times), describe, s.assumeRoleArn.GetOr(NoRole), s.alarmName)
    ensures BakeAction(Continue, p.actionName, None, None) in BakeActions(ps, bakeSteps, pages, describe, now).value
  {
    AlarmVerdict(ps, bakeSteps, pages, describe, now, p);
  }
}
