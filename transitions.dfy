/**
 * The transition gate evaluator: for every stage named in the change-calendar
 * configuration, whether its inbound transition should be enabled, disabled
 * or left alone.  It is a pure function of the snapshot, the configuration,
 * the calendar states and the run's request id.
 */
module Transitions {
  import opened Wrappers
  import opened Records
  import opened Pipeline
  import opened Provenance
  import opened Sequences

  datatype Decision = Enable | Disable | SkipNotFound | SkipNoOp | SkipExternalActor

  datatype TransitionAction = TransitionAction(
    pipelineName: string,
    stageName: string,
    decision: Decision,
    disableReason: Option<DisableReason>,
    error: Option<string>)

  /** The calendar's state is the string "CLOSED"; a calendar with no state is not closed. */
  predicate IsClosed(states: map<string, string>, calendar: string) {
    calendar in states && states[calendar] == "CLOSED"
  }

  /** `calendars.filter(c => states[c] === 'CLOSED')`. */
  function ClosedCalendars(calendars: seq<string>, states: map<string, string>): (closed: seq<string>)
    ensures |closed| <= |calendars|
    ensures Subsequence(closed, calendars)
    ensures forall c :: multiset(closed)[c] == if IsClosed(states, c) then multiset(calendars)[c] else 0
    ensures forall c :: c in closed <==> c in calendars && IsClosed(states, c)
    ensures closed == [] <==> forall i :: 0 <= i < |calendars| ==> !IsClosed(states, calendars[i])
    ensures (forall i :: 0 <= i < |calendars| ==> IsClosed(states, calendars[i])) ==> closed == calendars
  {
    if |calendars| == 0 then []
    else
      var n := |calendars| - 1;
      var rest := ClosedCalendars(calendars[..n], states);
      var closed := if IsClosed(states, calendars[n]) then rest + [calendars[n]] else rest;
      ClosedStep(calendars, states, rest, closed);
      closed
  }

  /** One step of the filter: the properties of `closed` for a prefix carry over to one more calendar. */
  lemma ClosedStep(calendars: seq<string>, states: map<string, string>, rest: seq<string>, closed: seq<string>)
    requires |calendars| > 0
    requires var init := calendars[..|calendars| - 1];
      && |rest| <= |init|
      && Subsequence(rest, init)
      && (forall c :: multiset(rest)[c] == if IsClosed(states, c) then multiset(init)[c] else 0)
      && (forall c :: c in rest <==> c in init && IsClosed(states, c))
      && ((forall i :: 0 <= i < |init| ==> IsClosed(states, init[i])) ==> rest == init)
    requires closed == if IsClosed(states, calendars[|calendars| - 1]) then rest + [calendars[|calendars| - 1]] else rest
    ensures |closed| <= |calendars|
    ensures Subsequence(closed, calendars)
    ensures forall c :: multiset(closed)[c] == if IsClosed(states, c) then multiset(calendars)[c] else 0
    ensures forall c :: c in closed <==> c in calendars && IsClosed(states, c)
    ensures closed == [] <==> forall i :: 0 <= i < |calendars| ==> !IsClosed(states, calendars[i])
    ensures (forall i :: 0 <= i < |calendars| ==> IsClosed(states, calendars[i])) ==> closed == calendars
  {
    var n := |calendars| - 1;
    var init, last := calendars[..n], calendars[n];
    assert calendars == init + [last];
    if IsClosed(states, last) {
      SubsequenceKeep(rest, calendars);
      if forall i :: 0 <= i < |calendars| ==> IsClosed(states, calendars[i]) {
        assert forall i :: 0 <= i < n ==> init[i] == calendars[i];
      }
    } else {
      SubsequenceSkip(rest, calendars);
    }
  }

  /** The decision for one configured stage, in the source's order of precedence. */
  function DecideStage(ps: PipelineState, stageName: string, calendars: seq<string>,
                       states: map<string, string>, requestId: string): TransitionAction
  {
    match FindStage(ps.stageStates, stageName)
    case None => TransitionAction(ps.pipelineName, stageName, SkipNotFound, None, None)
    case Some(stage) =>
      var inbound := stage.inboundTransitionState;
      if !inbound.enabled && !TransitionDisabledByEnforcer(inbound.disabledReason) then
        TransitionAction(ps.pipelineName, stageName, SkipExternalActor, None, inbound.disabledReason)
      else
        var closed := ClosedCalendars(calendars, states);
        if |closed| > 0 then
          TransitionAction(ps.pipelineName, stageName, Disable,
                           Some(DisableReason(ActorPrefix + requestId, Some(closed))), None)
        else if inbound.enabled then TransitionAction(ps.pipelineName, stageName, SkipNoOp, None, None)
        else TransitionAction(ps.pipelineName, stageName, Enable, None, None)
  }

  /**
   * `calculatePipelineTransitionActions`: one action per configured stage, in
   * configuration order, each carrying the snapshot's pipeline name; stages of
   * the snapshot that are not configured get none.
   */
  function CalculatePipelineTransitionActions(ps: PipelineState, calendarsByStage: Record<seq<string>>,
                                              states: map<string, string>, requestId: string)
    : (actions: seq<TransitionAction>)
    ensures |actions| == |calendarsByStage|
    ensures forall i :: 0 <= i < |actions| ==>
      actions[i].pipelineName == ps.pipelineName && actions[i].stageName == calendarsByStage[i].0
    ensures forall a :: a in actions ==> a.stageName in Keys(calendarsByStage)
  {
    seq(|calendarsByStage|, i requires 0 <= i < |calendarsByStage| =>
      DecideStage(ps, calendarsByStage[i].0, calendarsByStage[i].1, states, requestId))
  }

  // ----- the decision's precedence, stated against the snapshot -----

  ghost predicate Present(ps: PipelineState, name: string) {
    exists i :: 0 <= i < |ps.stageStates| && ps.stageStates[i].stageName == name
  }

  /** The inbound state the evaluator consults: that of the first stage so named. */
  ghost predicate FirstInbound(ps: PipelineState, name: string, t: TransitionState) {
    exists i :: FirstNamed(ps.stageStates, i, name) && ps.stageStates[i].inboundTransitionState == t
  }

  ghost predicate AnyClosed(calendars: seq<string>, states: map<string, string>) {
    exists i :: 0 <= i < |calendars| && IsClosed(states, calendars[i])
  }

  lemma FirstInboundUnique(ps: PipelineState, name: string, t: TransitionState, t': TransitionState)
    requires FirstInbound(ps, name, t) && FirstInbound(ps, name, t')
    ensures t == t'
  {
    var i :| FirstNamed(ps.stageStates, i, name) && ps.stageStates[i].inboundTransitionState == t;
    var j :| FirstNamed(ps.stageStates, j, name) && ps.stageStates[j].inboundTransitionState == t';
    assert !(i < j) && !(j < i);
  }

  /**
   * The precedence of the decision for the stage configured at position `k`:
   * absent, then disabled by someone else, then any calendar closed, then
   * already enabled; otherwise enable.  `t` is the stage's inbound state.
   */
  lemma {:induction false} DecisionPrecedence(ps: PipelineState, calendarsByStage: Record<seq<string>>,
                                              states: map<string, string>, requestId: string,
                                              k: nat, t: TransitionState)
    requires k < |calendarsByStage|
    requires Present(ps, calendarsByStage[k].0) ==> FirstInbound(ps, calendarsByStage[k].0, t)
    ensures var a := CalculatePipelineTransitionActions(ps, calendarsByStage, states, requestId)[k];
      var name, calendars := calendarsByStage[k].0, calendarsByStage[k].1;
      var foreign := !t.enabled && !TransitionDisabledByEnforcer(t.disabledReason);
      && (a.decision == SkipNotFound <==> !Present(ps, name))
      && (a.decision == SkipExternalActor <==> Present(ps, name) && foreign)
      && (a.decision == SkipExternalActor ==> a.error == t.disabledReason)
      && (a.decision == Disable <==> Present(ps, name) && !foreign && AnyClosed(calendars, states))
      && (a.decision == SkipNoOp <==> Present(ps, name) && t.enabled && !AnyClosed(calendars, states))
      && (a.decision == Enable <==> Present(ps, name) && !t.enabled && !foreign && !AnyClosed(calendars, states))
  {
    var name := calendarsByStage[k].0;
    var found := FindStage(ps.stageStates, name);
    if found.Some? {
      var i :| FirstNamed(ps.stageStates, i, name) && ps.stageStates[i] == found.value;
      assert FirstInbound(ps, name, found.value.inboundTransitionState);
      FirstInboundUnique(ps, name, t, found.value.inboundTransitionState);
    }
  }

  /**
   * A DISABLE carries the enforcer's own tag for this run, listing exactly the
   * stage's calendars that are closed (in configured order, none missing);
   * no other decision carries a reason.
   */
  lemma DisableReasonContents(ps: PipelineState, calendarsByStage: Record<seq<string>>,
                              states: map<string, string>, requestId: string, k: nat)
    requires k < |calendarsByStage|
    ensures var a := CalculatePipelineTransitionActions(ps, calendarsByStage, states, requestId)[k];
      var calendars := calendarsByStage[k].1;
      && (a.disableReason.Some? <==> a.decision == Disable)
      && (a.decision == Disable ==>
            && a.disableReason.value.actor == ActorPrefix + requestId
            && a.disableReason.value.calendars == Some(ClosedCalendars(calendars, states))
            && (forall c :: c in a.disableReason.value.calendars.value <==> c in calendars && IsClosed(states, c))
            && TransitionDisabledByEnforcer(Some(ToMarkdown(a.disableReason.value))))
  {
    var a := CalculatePipelineTransitionActions(ps, calendarsByStage, states, requestId)[k];
    if a.decision == Disable {
      RecognisesEnforcerTag(requestId, a.disableReason.value.calendars);
    }
  }

  /** A stage with no calendars is never disabled. */
  lemma NoCalendarsNeverDisabled(ps: PipelineState, calendarsByStage: Record<seq<string>>,
                                 states: map<string, string>, requestId: string, k: nat)
    requires k < |calendarsByStage| && calendarsByStage[k].1 == []
    ensures CalculatePipelineTransitionActions(ps, calendarsByStage, states, requestId)[k].decision != Disable
  {
  }

  /**
   * A transition disabled by anyone else is never touched: neither enabled
   * when every calendar is open, nor disabled again when one is closed.
   */
  lemma ForeignDisableIsLeftAlone(ps: PipelineState, calendarsByStage: Record<seq<string>>,
                                  states: map<string, string>, requestId: string, k: nat, t: TransitionState)
    requires k < |calendarsByStage|
    requires FirstInbound(ps, calendarsByStage[k].0, t)
    requires !t.enabled && !TransitionDisabledByEnforcer(t.disabledReason)
    ensures CalculatePipelineTransitionActions(ps, calendarsByStage, states, requestId)[k].decision == SkipExternalActor
  {
    DecisionPrecedence(ps, calendarsByStage, states, requestId, k, t);
  }

  /**
   * The cross-run memory works: a transition that an earlier run disabled,
   * with the tag that run wrote, is enabled again once none of the stage's
   * calendars is closed.
   */
  lemma EnforcerDisableIsLifted(ps: PipelineState, calendarsByStage: Record<seq<string>>,
                                states: map<string, string>, requestId: string, k: nat,
                                earlierRequestId: string, earlierClosed: seq<string>)
    requires k < |calendarsByStage|
    requires FirstInbound(ps, calendarsByStage[k].0, TransitionState(false,
      Some(ToMarkdown(DisableReason(ActorPrefix + earlierRequestId, Some(earlierClosed))))))
    requires forall i :: 0 <= i < |calendarsByStage[k].1| ==> !IsClosed(states, calendarsByStage[k].1[i])
    ensures CalculatePipelineTransitionActions(ps, calendarsByStage, states, requestId)[k].decision == Enable
  {
    RecognisesEnforcerTag(earlierRequestId, Some(earlierClosed));
    DecisionPrecedence(ps, calendarsByStage, states, requestId, k, TransitionState(false,
      Some(ToMarkdown(DisableReason(ActorPrefix + earlierRequestId, Some(earlierClosed))))));
  }
}
