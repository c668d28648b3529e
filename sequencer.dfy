/**
 * The action sequencer (`execute`): one run evaluates the transitions and
 * the bake steps, then issues the resulting service calls in four strict
 * phases (disable, reject, approve, enable).  A phase is issued as a whole;
 * when any call of it fails, no later phase is issued.  The calls are
 * recorded as an ordered list of commands instead of being sent, and which
 * of them fail is an input.
 */
module Sequencer {
  import opened Wrappers
  import opened Records
  import opened Pipeline
  import opened Provenance
  import opened Transitions
  import opened Bake

  datatype ApprovalStatus = Approved | Rejected

  /** The service calls the source makes. */
  datatype Command =
    | DisableTransition(pipelineName: string, stageName: string, reason: string)
    | PutApprovalResult(pipelineName: string, stageName: string, actionName: string, token: string,
                        status: ApprovalStatus, summary: string)
    | EnableTransition(pipelineName: string, stageName: string)

  /** The phase a command belongs to. */
  function Rank(c: Command): nat {
    match c
    case DisableTransition(_, _, _) => 0
    case PutApprovalResult(_, _, _, _, status, _) => if status == Rejected then 1 else 2
    case EnableTransition(_, _) => 3
  }

  /** `xs.join(sep)`. */
  function Join(xs: seq<string>, sep: string): (s: string)
    ensures |xs| == 1 ==> s == xs[0]
  {
    if |xs| == 0 then ""
    else if |xs| == 1 then xs[0]
    else Join(xs[..|xs| - 1], sep) + sep + xs[|xs| - 1]
  }

  /** The summary of a rejection: the run's actor, then the reasons; absent reasons print as `undefined`. */
  function RejectSummary(requestId: string, reasons: Option<seq<string>>): (summary: string)
    ensures StartsWith(summary, ActorPrefix + requestId + " due to ")
  {
    var tail := match reasons case None => "undefined" case Some(rs) => Join(rs, ", ");
    assert (ActorPrefix + requestId + " due to " + tail)[..|ActorPrefix + requestId + " due to "|]
        == ActorPrefix + requestId + " due to ";
    ActorPrefix + requestId + " due to " + tail
  }

  function ApproveSummary(requestId: string): string {
    "Approved by " + ActorPrefix + requestId
  }

  predicate DisablesCarryReasons(ts: seq<TransitionAction>) {
    forall a :: a in ts && a.decision == Disable ==> a.disableReason.Some?
  }

  predicate ApprovalsCarryProps(bs: seq<BakeAction>) {
    forall b :: b in bs && b.decision in {Approve, Reject} ==> b.approvalProps.Some?
  }

  /** The calls a list of decisions makes, in its order: `xs.filter(...).map(...)`. */
  function Calls<X>(xs: seq<X>, call: X --> Option<Command>): (cs: seq<Command>)
    requires forall x :: x in xs ==> call.requires(x)
    ensures |cs| <= |xs|
    ensures forall c :: c in cs ==> exists x :: x in xs && call(x) == Some(c)
  {
    if |xs| == 0 then []
    else
      var n := |xs| - 1;
      assert forall x :: x in xs[..n] ==> x in xs;
      Calls(xs[..n], call) + (if call(xs[n]).Some? then [call(xs[n]).value] else [])
  }

  /** Every decision that makes a call has its call among the calls. */
  lemma {:induction false} CallsHas<X>(xs: seq<X>, call: X --> Option<Command>, i: nat)
    requires forall x :: x in xs ==> call.requires(x)
    requires i < |xs| && call(xs[i]).Some?
    ensures call(xs[i]).value in Calls(xs, call)
  {
    var n := |xs| - 1;
    assert forall x :: x in xs[..n] ==> x in xs;
    if i < n {
      assert xs[..n][i] == xs[i];
      CallsHas(xs[..n], call, i);
    }
  }

  /** Phase 1: a DISABLE disables the stage's inbound transition with its reason written as the fenced tag. */
  function DisableCall(a: TransitionAction): Option<Command>
    requires a.decision == Disable ==> a.disableReason.Some?
  {
    if a.decision == Disable then Some(DisableTransition(a.pipelineName, a.stageName, ToMarkdown(a.disableReason.value)))
    else None
  }

  /** Phase 2: a REJECT rejects the approval, naming the failed alarms. */
  function RejectCall(requestId: string, b: BakeAction): Option<Command>
    requires b.decision == Reject ==> b.approvalProps.Some?
  {
    if b.decision == Reject then Some(ApprovalCommand(b.approvalProps.value, Rejected, RejectSummary(requestId, b.rejectReasons)))
    else None
  }

  /** Phase 3: an APPROVE approves the approval. */
  function ApproveCall(requestId: string, b: BakeAction): Option<Command>
    requires b.decision == Approve ==> b.approvalProps.Some?
  {
    if b.decision == Approve then Some(ApprovalCommand(b.approvalProps.value, Approved, ApproveSummary(requestId)))
    else None
  }

  /** Phase 4: an ENABLE enables the stage's inbound transition. */
  function EnableCall(a: TransitionAction): Option<Command> {
    if a.decision == Enable then Some(EnableTransition(a.pipelineName, a.stageName)) else None
  }

  function ApprovalCommand(p: ApprovalProps, status: ApprovalStatus, summary: string): Command {
    PutApprovalResult(p.pipelineName, p.stageName, p.actionName, p.token, status, summary)
  }

  /** SKIP, CONTINUE and DONE decisions make no call at all. */
  lemma SilentDecisions(requestId: string, a: TransitionAction, b: BakeAction)
    requires a.decision in {SkipNotFound, SkipNoOp, SkipExternalActor}
    requires b.decision in {Continue, Done}
    ensures DisableCall(a).None? && EnableCall(a).None?
    ensures RejectCall(requestId, b).None? && ApproveCall(requestId, b).None?
  {
  }

  /** The four phases, in the order they are issued; every command of phase `k` has rank `k`. */
  function Phases(ts: seq<TransitionAction>, bs: seq<BakeAction>, requestId: string): (phases: seq<seq<Command>>)
    requires DisablesCarryReasons(ts) && ApprovalsCarryProps(bs)
    ensures |phases| == 4
  {
    [Calls(ts, DisableCall), Calls(bs, (b: BakeAction) requires b.decision == Reject ==> b.approvalProps.Some? => RejectCall(requestId, b)),
     Calls(bs, (b: BakeAction) requires b.decision == Approve ==> b.approvalProps.Some? => ApproveCall(requestId, b)), Calls(ts, EnableCall)]
  }

  /** The first command of `cs` that fails. */
  function FirstFailing(cs: seq<Command>, failing: set<Command>): Option<Command>
  {
    if |cs| == 0 then None
    else
      var n := |cs| - 1;
      match FirstFailing(cs[..n], failing)
      case Some(c) => Some(c)
      case None => if cs[n] in failing then Some(cs[n]) else None
  }

  /** A failure is reported exactly when some command fails, and it is one of those. */
  lemma {:induction false} FirstFailingMeans(cs: seq<Command>, failing: set<Command>)
    ensures FirstFailing(cs, failing).None? <==> forall c :: c in cs ==> c !in failing
    ensures FirstFailing(cs, failing).Some? ==> FirstFailing(cs, failing).value in cs && FirstFailing(cs, failing).value in failing
  {
    if |cs| > 0 {
      var n := |cs| - 1;
      assert cs == cs[..n] + [cs[n]];
      FirstFailingMeans(cs[..n], failing);
    }
  }

  /** `cs[0] + cs[1] + ...`. */
  function Concat(cs: seq<seq<Command>>): seq<Command> {
    if |cs| == 0 then [] else cs[0] + Concat(cs[1..])
  }

  /** Each phase is issued in full; the first phase with a failing call is the last one issued. */
  function RunPhases(phases: seq<seq<Command>>, failing: set<Command>): (seq<Command>, Option<Command>) {
    if |phases| == 0 then ([], None)
    else
      var f := FirstFailing(phases[0], failing);
      if f.Some? then (phases[0], f)
      else
        var (rest, failure) := RunPhases(phases[1..], failing);
        (phases[0] + rest, failure)
  }

  /** One `await Promise.all(...)`: every call of the phase is made; the first that fails is reported. */
  method IssuePhase(phase: seq<Command>, failing: set<Command>, issued: seq<Command>)
    returns (issued': seq<Command>, failure: Option<Command>)
    ensures issued' == issued + phase
    ensures failure == FirstFailing(phase, failing)
  {
    issued', failure := issued, None;
    for i := 0 to |phase|
      invariant issued' == issued + phase[..i]
      invariant failure == FirstFailing(phase[..i], failing)
    {
      assert phase[..i + 1][..i] == phase[..i];
      issued' := issued' + [phase[i]];
      if failure.None? && phase[i] in failing {
        failure := Some(phase[i]);
      }
    }
    assert phase[..|phase|] == phase;
  }

  /** The phases of `execute`, in order, the first failing one ending the run. */
  method IssuePhases(phases: seq<seq<Command>>, failing: set<Command>) returns (issued: seq<Command>, failure: Option<Command>)
    ensures issued == RunPhases(phases, failing).0
    ensures failure == RunPhases(phases, failing).1
  {
    issued, failure := [], None;
    assert phases[0..] == phases;
    for k := 0 to |phases|
      invariant failure.None?
      invariant RunPhases(phases, failing).0 == issued + RunPhases(phases[k..], failing).0
      invariant RunPhases(phases, failing).1 == RunPhases(phases[k..], failing).1
    {
      RunPhasesStep(phases, failing, k);
      issued, failure := IssuePhase(phases[k], failing, issued);
      if failure.Some? {
        return;
      }
    }
    assert phases[|phases|..] == [];
  }

  /** One phase of `RunPhases`, from phase `k` on. */
  lemma RunPhasesStep(phases: seq<seq<Command>>, failing: set<Command>, k: nat)
    requires k < |phases|
    ensures var (rest, failure) := RunPhases(phases[k + 1..], failing);
      RunPhases(phases[k..], failing) ==
        if FirstFailing(phases[k], failing).Some? then (phases[k], FirstFailing(phases[k], failing))
        else (phases[k] + rest, failure)
  {
    assert phases[k..][1..] == phases[k + 1..] && phases[k..][0] == phases[k];
  }

  // ----- what the sequencing guarantees -----

  predicate Ordered(cs: seq<Command>) {
    forall i, j :: 0 <= i < j < |cs| ==> Rank(cs[i]) <= Rank(cs[j])
  }

  lemma {:induction false} Ranked(phases: seq<seq<Command>>, failing: set<Command>, k: nat)
    requires forall j, c :: 0 <= j < |phases| && c in phases[j] ==> Rank(c) == j + k
    ensures Ordered(RunPhases(phases, failing).0)
    ensures forall c :: c in RunPhases(phases, failing).0 ==> Rank(c) >= k
  {
    if |phases| > 0 {
      var f := FirstFailing(phases[0], failing);
      if f.None? {
        forall j, c | 0 <= j < |phases[1..]| && c in phases[1..][j] ensures Rank(c) == j + (k + 1) {
          assert phases[1..][j] == phases[j + 1];
        }
        Ranked(phases[1..], failing, k + 1);
        var rest := RunPhases(phases[1..], failing).0;
        var all := phases[0] + rest;
        forall i, j | 0 <= i < j < |all| ensures Rank(all[i]) <= Rank(all[j]) {
          if i < |phases[0]| {
            assert all[i] in phases[0];
            if j >= |phases[0]| { assert all[j] == rest[j - |phases[0]|]; } else { assert all[j] in phases[0]; }
          } else {
            assert all[i] == rest[i - |phases[0]|] && all[j] == rest[j - |phases[0]|];
          }
        }
      } else {
        forall i, j | 0 <= i < j < |phases[0]| ensures Rank(phases[0][i]) <= Rank(phases[0][j]) {
          assert phases[0][i] in phases[0] && phases[0][j] in phases[0];
        }
      }
    }
  }

  /** With no call failing, every phase is issued, in order, and nothing is reported. */
  lemma {:induction false} AllIssuedWhenNoneFail(phases: seq<seq<Command>>, failing: set<Command>)
    requires forall k, c :: 0 <= k < |phases| && c in phases[k] ==> c !in failing
    ensures RunPhases(phases, failing) == (Concat(phases), None)
  {
    if |phases| > 0 {
      FirstFailingMeans(phases[0], failing);
      forall k, c | 0 <= k < |phases[1..]| && c in phases[1..][k] ensures c !in failing {
        assert phases[1..][k] == phases[k + 1];
      }
      AllIssuedWhenNoneFail(phases[1..], failing);
    }
  }

  /**
   * A failure reports a failing call of some phase `k`; the phases before it
   * had no failure, and exactly the phases up to `k` were issued.
   */
  lemma {:induction false} FailureStopsLaterPhases(phases: seq<seq<Command>>, failing: set<Command>)
    requires RunPhases(phases, failing).1.Some?
    ensures var (issued, failure) := RunPhases(phases, failing);
      exists k :: 0 <= k < |phases| && FailedAt(phases, failing, k, issued, failure.value)
  {
    var f := FirstFailing(phases[0], failing);
    FirstFailingMeans(phases[0], failing);
    if f.Some? {
      assert phases[..1] == [phases[0]];
      assert Concat([phases[0]]) == phases[0];
      assert FailedAt(phases, failing, 0, phases[0], f.value);
    } else {
      FailureStopsLaterPhases(phases[1..], failing);
      var (rest, failure) := RunPhases(phases[1..], failing);
      var k :| 0 <= k < |phases[1..]| && FailedAt(phases[1..], failing, k, rest, failure.value);
      assert phases[..k + 2] == [phases[0]] + phases[1..][..k + 1];
      assert Concat(phases[..k + 2]) == phases[0] + Concat(phases[1..][..k + 1]);
      forall j, c | 0 <= j < k + 1 && c in phases[j] ensures c !in failing {
        if j > 0 { assert phases[j] == phases[1..][j - 1]; }
      }
      assert FailedAt(phases, failing, k + 1, phases[0] + rest, failure.value);
    }
  }

  /** Phase `k` is the first with a failing call `c`, and `issued` is the phases up to it. */
  ghost predicate FailedAt(phases: seq<seq<Command>>, failing: set<Command>, k: nat, issued: seq<Command>, c: Command)
    requires k < |phases|
  {
    && c in phases[k] && c in failing
    && (forall j, d :: 0 <= j < k && d in phases[j] ==> d !in failing)
    && issued == Concat(phases[..k + 1])
  }

  // ----- the whole run -----

  /** The settings a run is given: calendars per stage, and bake steps per action. */
  datatype Settings = Settings(changeCalendars: Record<seq<string>>, bakeSteps: map<string, BakeStepSettings>)

  datatype RunError = EvaluationFailed(cause: BakeError) | CallFailed(call: Command)

  lemma BakeActionsCarryProps(ps: PipelineState, bakeSteps: map<string, BakeStepSettings>, pages: map<string, seq<Page>>,
                              describe: Describer, now: int)
    requires BakeActions(ps, bakeSteps, pages, describe, now).Ok?
    ensures ApprovalsCarryProps(BakeActions(ps, bakeSteps, pages, describe, now).value)
  {
    var run := Evaluate(ps, bakeSteps, pages, describe, now).value;
    var c := CollectFrom(ps.pipelineName, Collected([], []), Candidates(ps.stageStates, bakeSteps)).value;
    var flat := Flatten(Values(c.inProgress));
    CollectContents(ps.pipelineName, Candidates(ps.stageStates, bakeSteps));
    CollectedConfigured(ps, bakeSteps);
    var times := StartTimesOf(c.inProgress, pages).value;
    var tr := Triage(flat, bakeSteps, times, now).value;
    assert run == Run(c, times, tr, FailedFrom(GroupPending(tr.pending, times), describe));
    TriageCarriesProps(flat, bakeSteps, times, now);
    DecideAllCarriesProps(tr.pending, run.failed);
    CarryProps(c.dones, tr.decisions, DecideAll(tr.pending, run.failed));
  }

  lemma CarryProps(dones: seq<BakeAction>, decided: seq<BakeAction>, final: seq<BakeAction>)
    requires forall d :: d in dones ==> d.decision == Done
    requires forall d :: d in decided ==> d.decision in {Approve, Continue} && (d.decision == Approve ==> d.approvalProps.Some?)
    requires forall d :: d in final ==> d.decision in {Reject, Continue} && (d.decision == Reject ==> d.approvalProps.Some?)
    ensures ApprovalsCarryProps(dones + decided + final)
  {
  }

  lemma DecideAllCarriesProps(pending: seq<Pending>, failed: set<string>)
    ensures forall d :: d in DecideAll(pending, failed) ==>
      d.decision in {Reject, Continue} && (d.decision == Reject ==> d.approvalProps.Some?)
  {
    var final := DecideAll(pending, failed);
    forall d | d in final ensures d.decision in {Reject, Continue} && (d.decision == Reject ==> d.approvalProps.Some?) {
      var i :| 0 <= i < |final| && final[i] == d;
      assert d == Decide(pending[i], failed);
    }
  }

  lemma {:induction false} TriageCarriesProps(flat: seq<ApprovalProps>, bakeSteps: map<string, BakeStepSettings>,
                                              times: map<string, int>, now: int)
    requires forall p :: p in flat ==> p.actionName in bakeSteps
    requires Triage(flat, bakeSteps, times, now).Ok?
    ensures forall d :: d in Triage(flat, bakeSteps, times, now).value.decisions ==>
      d.decision in {Approve, Continue} && (d.decision == Approve ==> d.approvalProps.Some?)
  {
    if |flat| > 0 {
      var n := |flat| - 1;
      assert forall p :: p in flat[..n] ==> p in flat;
      TriageCarriesProps(flat[..n], bakeSteps, times, now);
    }
  }

  lemma TransitionActionsCarryReasons(ps: PipelineState, calendars: Record<seq<string>>, states: map<string, string>,
                                      requestId: string)
    ensures DisablesCarryReasons(CalculatePipelineTransitionActions(ps, calendars, states, requestId))
  {
    var ts := CalculatePipelineTransitionActions(ps, calendars, states, requestId);
    forall a | a in ts && a.decision == Disable ensures a.disableReason.Some? {
      var i :| 0 <= i < |ts| && ts[i] == a;
      DisableReasonContents(ps, calendars, states, requestId, i);
    }
  }

  /**
   * The phases a run issues: the transition decisions and the bake
   * decisions turned into commands, or the evaluation error when the bake
   * steps cannot be evaluated.
   */
  function Plan(settings: Settings, ps: PipelineState, requestId: string, calendarStates: map<string, string>,
                pages: map<string, seq<Page>>, describe: Describer, now: int): Result<seq<seq<Command>>, BakeError>
  {
    var bake := BakeActions(ps, settings.bakeSteps, pages, describe, now);
    if bake.Err? then Err(bake.error)
    else
      var ts := CalculatePipelineTransitionActions(ps, settings.changeCalendars, calendarStates, requestId);
      BakeActionsCarryProps(ps, settings.bakeSteps, pages, describe, now);
      TransitionActionsCarryReasons(ps, settings.changeCalendars, calendarStates, requestId);
      Ok(Phases(ts, bake.value, requestId))
  }

  /**
   * `execute`: evaluate, then issue the four phases.  A failed bake
   * evaluation issues nothing; otherwise the commands issued are those
   * `RunPhases` gives for the planned phases.
   */
  method Execute(settings: Settings, ps: PipelineState, requestId: string, calendarStates: map<string, string>,
                 pages: map<string, seq<Page>>, describe: Describer, now: int, failing: set<Command>)
    returns (issued: seq<Command>, outcome: Result<(), RunError>)
    ensures var plan := Plan(settings, ps, requestId, calendarStates, pages, describe, now);
      if plan.Err? then issued == [] && outcome == Err(EvaluationFailed(plan.error))
      else
        && issued == RunPhases(plan.value, failing).0
        && (outcome.Ok? <==> RunPhases(plan.value, failing).1.None?)
        && (outcome.Err? ==> outcome == Err(CallFailed(RunPhases(plan.value, failing).1.value)))
  {
    var ts := CalculatePipelineTransitionActions(ps, settings.changeCalendars, calendarStates, requestId);
    var bake := CalculateBakeActions(ps, settings.bakeSteps, pages, describe, now);
    if bake.Err? {
      return [], Err(EvaluationFailed(bake.error));
    }
    BakeActionsCarryProps(ps, settings.bakeSteps, pages, describe, now);
    TransitionActionsCarryReasons(ps, settings.changeCalendars, calendarStates, requestId);
    var failure;
    issued, failure := IssuePhases(Phases(ts, bake.value, requestId), failing);
    outcome := if failure.Some? then Err(CallFailed(failure.value)) else Ok(());
  }

  lemma PhaseRank(ts: seq<TransitionAction>, bs: seq<BakeAction>, requestId: string, k: nat, c: Command)
    requires DisablesCarryReasons(ts) && ApprovalsCarryProps(bs)
    requires k < 4 && c in Phases(ts, bs, requestId)[k]
    ensures Rank(c) == k
  {
    var phases := Phases(ts, bs, requestId);
    if k == 0 {
      var a :| a in ts && DisableCall(a) == Some(c);
    } else if k == 1 {
      var b :| b in bs && RejectCall(requestId, b) == Some(c);
    } else if k == 2 {
      var b :| b in bs && ApproveCall(requestId, b) == Some(c);
    } else {
      var a :| a in ts && EnableCall(a) == Some(c);
    }
  }

  /** The commands of a run come out phase by phase: disables, rejections, approvals, enables. */
  lemma RunIsOrdered(ts: seq<TransitionAction>, bs: seq<BakeAction>, requestId: string, failing: set<Command>)
    requires DisablesCarryReasons(ts) && ApprovalsCarryProps(bs)
    ensures Ordered(RunPhases(Phases(ts, bs, requestId), failing).0)
  {
    var phases := Phases(ts, bs, requestId);
    forall k, c | 0 <= k < |phases| && c in phases[k] ensures Rank(c) == k + 0 {
      PhaseRank(ts, bs, requestId, k, c);
    }
    Ranked(phases, failing, 0);
  }

  lemma {:induction false} ConcatHas(cs: seq<seq<Command>>, d: Command)
    requires d in Concat(cs)
    ensures exists j :: 0 <= j < |cs| && d in cs[j]
  {
    if d !in cs[0] {
      ConcatHas(cs[1..], d);
      var j :| 0 <= j < |cs[1..]| && d in cs[1..][j];
      assert d in cs[j + 1];
    }
  }

  /**
   * When a call of a run fails, every command issued belongs to the failing
   * call's phase or an earlier one: no later phase starts.
   */
  lemma NoLaterPhaseAfterFailure(ts: seq<TransitionAction>, bs: seq<BakeAction>, requestId: string, failing: set<Command>)
    requires DisablesCarryReasons(ts) && ApprovalsCarryProps(bs)
    requires RunPhases(Phases(ts, bs, requestId), failing).1.Some?
    ensures var (issued, failure) := RunPhases(Phases(ts, bs, requestId), failing);
      failure.value in failing && forall d :: d in issued ==> Rank(d) <= Rank(failure.value)
  {
    var phases := Phases(ts, bs, requestId);
    var (issued, failure) := RunPhases(phases, failing);
    FailureStopsLaterPhases(phases, failing);
    var k :| 0 <= k < |phases| && FailedAt(phases, failing, k, issued, failure.value);
    PhaseRank(ts, bs, requestId, k, failure.value);
    forall d | d in issued ensures Rank(d) <= k {
      ConcatHas(phases[..k + 1], d);
      var j :| 0 <= j < |phases[..k + 1]| && d in phases[..k + 1][j];
      PhaseRank(ts, bs, requestId, j, d);
    }
  }
}
