/**
 * The provenance tag: the only memory the enforcer keeps between runs.  When
 * it disables a stage transition it writes a JSON object naming itself as the
 * actor, fenced as a markdown code block, into the transition's
 * disabled-reason; on a later run it reads the reason back to tell its own
 * disables from an operator's.
 */
module Provenance {
  import opened Wrappers
  import Json

  /** Every actor the enforcer writes starts with this. */
  const ActorPrefix: string := "DeploymentSafetyEnforcer@"

  datatype DisableReason = DisableReason(actor: string, calendars: Option<seq<string>>)

  predicate StartsWith(s: string, prefix: string) {
    |prefix| <= |s| && s[..|prefix|] == prefix
  }

  /** The object `JSON.stringify` sees: `actor` first, `calendars` only when present. */
  function ReasonObject(r: DisableReason): Json.Object
  {
    var actor := [Json.Member("actor", Json.JString(r.actor))];
    match r.calendars
    case None => Json.Object(actor)
    case Some(cs) => Json.Object(actor + [Json.Member("calendars", Json.JArray(cs))])
  }

  /** The disabled-reason text written for `r`: its indented JSON inside a code fence. */
  function ToMarkdown(r: DisableReason): (text: string)
    ensures StartsWith(text, "```\n")
  {
    "```\n" + Json.Serialise(ReasonObject(r)) + "\n```"
  }

  function Clamp(x: int, len: nat): (c: nat)
    ensures c <= len
  {
    if x < 0 then 0 else if x > len then len else x
  }

  /**
   * `String.prototype.substring(start, end)`: both bounds are clamped to the
   * string, and swapped when `start` is the larger.
   */
  function JsSubstring(s: string, start: int, end: int): (t: string)
    ensures |t| <= |s|
  {
    var a, b := Clamp(start, |s|), Clamp(end, |s|);
    if a <= b then s[a..b] else s[b..a]
  }

  /**
   * Whether a transition's disabled-reason was written by the enforcer.  The
   * three characters at each end are dropped without looking at them, the
   * rest is given to `JSON.parse`, and the result must carry an `actor` that
   * starts with the enforcer's prefix.  An absent or empty reason, text that
   * does not parse and an object without `actor` all read as foreign.
   */
  function TransitionDisabledByEnforcer(reason: Option<string>): (mine: bool)
    ensures mine ==> reason.Some? && |reason.value| > 0
  {
    match reason
    case None => false
    case Some(text) =>
      if text == "" then false
      else
        match Json.Parse(JsSubstring(text, 3, |text| - 3))
        case None => false
        case Some(o) =>
          match Json.Lookup(o.members, "actor")
          case None => false
          case Some(actor) => actor.JString? && StartsWith(actor.str, ActorPrefix)
  }

  /** Dropping three characters from each end of a fenced tag leaves the JSON between two newlines. */
  lemma FenceInner(json: string)
    ensures var text := "```\n" + json + "\n```";
      JsSubstring(text, 3, |text| - 3) == "\n" + json + "\n"
  {
    var text := "```\n" + json + "\n```";
    assert text == "```" + ("\n" + json + "\n") + "```";
    assert text[3..|text| - 3] == "\n" + json + "\n";
  }

  lemma ActorOfReason(r: DisableReason)
    ensures Json.Lookup(ReasonObject(r).members, "actor") == Some(Json.JString(r.actor))
  {
    var ms := ReasonObject(r).members;
    if r.calendars.Some? {
      assert ms[..1] == [Json.Member("actor", Json.JString(r.actor))];
    }
  }

  /**
   * The enforcer recognises exactly its own tags: a reason it printed for
   * `r` reads as its own if and only if `r`'s actor carries the prefix.
   */
  lemma RecognisesOwnTag(r: DisableReason)
    ensures TransitionDisabledByEnforcer(Some(ToMarkdown(r))) <==> StartsWith(r.actor, ActorPrefix)
  {
    FenceInner(Json.Serialise(ReasonObject(r)));
    assert Json.AllWhitespace("\n");
    Json.ParseSerialise(ReasonObject(r), "\n", "\n");
    ActorOfReason(r);
  }

  /** A tag the enforcer writes for a run is recognised on the next run. */
  lemma RecognisesEnforcerTag(requestId: string, calendars: Option<seq<string>>)
    ensures TransitionDisabledByEnforcer(Some(ToMarkdown(DisableReason(ActorPrefix + requestId, calendars))))
  {
    RecognisesOwnTag(DisableReason(ActorPrefix + requestId, calendars));
    assert (ActorPrefix + requestId)[..|ActorPrefix|] == ActorPrefix;
  }

  /**
   * Any reason whose text, once the three characters at each end are dropped
   * and leading whitespace skipped, does not open with `{` is foreign: it does
   * not parse as an object.
   */
  lemma UnbracedReasonIsForeign(text: string)
    requires var t := Json.SkipWhitespace(JsSubstring(text, 3, |text| - 3)); |t| == 0 || t[0] != '{'
    ensures !TransitionDisabledByEnforcer(Some(text))
  {
    assert Json.Parse(JsSubstring(text, 3, |text| - 3)).None?;
  }

  /** The operator's reason `Manually disabled`, as the source's tests write it, is foreign. */
  lemma ManualReasonIsForeign()
    ensures !TransitionDisabledByEnforcer(Some("Manually disabled"))
  {
    var inner := JsSubstring("Manually disabled", 3, 14);
    assert inner == "Manually disabled"[3..14];
    assert inner[0] == 'u' && !Json.IsWhitespace('u');
    assert Json.SkipWhitespace(inner) == inner;
    UnbracedReasonIsForeign("Manually disabled");
  }

  /**
   * A compact, unindented tag such as `{"actor":"DeploymentSafetyEnforcer@id"}`
   * is recognised too, whatever three characters fence it: they are dropped
   * without being checked to be backticks.
   */
  lemma CompactTagIsRecognised(fence: string, id: string)
    requires |fence| == 3
    ensures TransitionDisabledByEnforcer(Some(fence + CompactTag("actor", ActorPrefix + id) + fence))
  {
    var inner := CompactTag("actor", ActorPrefix + id);
    var text := fence + inner + fence;
    assert text[3..|text| - 3] == inner;
    Json.ParseCompactMember("actor", ActorPrefix + id);
    assert (ActorPrefix + id)[..|ActorPrefix|] == ActorPrefix;
  }

  /** `{"key":"value"}`, the unindented one-member object. */
  function CompactTag(key: string, value: string): string
  {
    "{" + Json.Quote(key) + ":" + Json.Quote(value) + "}"
  }
}
