/** What the registration probe can observe, what it records, and what the gateway makes of
    the record: the vocabulary of the probe and of the request hook. */
module Capabilities {
  import opened Common

  // ---- Shapes and requests -----------------------------------------------------------------

  datatype Shape =
    | ToolsAuto | ToolRoundTrip | StreamingTools | ForcedToolChoice | NamedToolChoice
    | ResponseFormat | ThinkingOff | ThinkingFloor | ThinkingReplay

  const SHAPES := [ToolsAuto, ToolRoundTrip, StreamingTools, ForcedToolChoice, NamedToolChoice,
                   ResponseFormat, ThinkingOff, ThinkingFloor, ThinkingReplay]

  /** `planned_shapes` */
  function PlannedShapes(supportsReasoning: bool): seq<Shape> {
    if supportsReasoning then SHAPES else SHAPES[..8]
  }

  const DISABLED := "disabled"
  const BETWEEN_TOOLS := "between_tools"
  const NONE := "none"

  /** One probe request.  `Off(None)` sends `reasoning_effort: none` alone. */
  datatype Request =
    | Plain(shape: Shape)
    | Off(switch: Option<string>)
    | Control
    | Floor(effort: string)
    | ReplayTurn
    | Replay

  /** The two request fields a thinking verdict depends on. */
  datatype Pair = Pair(effort: Option<string>, thinking: Option<string>)

  /** The pair a thinking-off or thinking-floor request carries. */
  function PairOf(r: Request): Pair
    requires r.Off? || r.Floor?
  {
    match r
    case Off(switch) => Pair(Some(NONE), switch)
    case Floor(effort) => Pair(Some(effort), None)
  }

  // ---- Answers -----------------------------------------------------------------------------

  /** A parsed reply, as far as the probe looks at it. */
  datatype Reply = Reply(
    toolNames: seq<string>, matchesSchema: bool, truncated: bool,
    reasoningTokens: Option<int>, reasoningText: bool, thinkingBlocks: bool)
  {
    /** `_reasoned` */
    predicate Reasoned() { reasoningTokens.GetOr(0) > 0 || reasoningText || thinkingBlocks }
  }

  /** What happens when the probe comes to send a request.  `Late`: the budget is spent, so
      nothing is sent.  `Refused`: a `ProbeCallError`.  `Crashed`: any other exception. */
  datatype Answer =
    | Late
    | Replied(reply: Reply)
    | Refused(message: string, status: Option<int>)
    | Crashed

  predicate Contains(s: string, part: string) {
    exists i :: 0 <= i <= |s| && part <= s[i..]
  }

  /** `_is_cooldown` */
  predicate IsCooldown(a: Answer) {
    a.Refused? && (Contains(a.message, "No deployments available") || Contains(a.message, "cooldown_list"))
  }

  /** `is_transient_status` */
  predicate TransientStatus(status: Option<int>) {
    status.None? || status.value == 408 || status.value == 429 || status.value >= 500
  }

  /** The deployment itself said no. */
  predicate Definite(a: Answer) { a.Refused? && !IsCooldown(a) && !TransientStatus(a.status) }

  // The same, in plain terms.

  ghost predicate Mentions(message: string, words: string) {
    exists i, j :: 0 <= i <= j <= |message| && message[i..j] == words
  }

  ghost predicate FromCooldown(message: string) {
    Mentions(message, "No deployments available") || Mentions(message, "cooldown_list")
  }

  /** The deployment itself said no: a status below 500 but for two, and not the router's. */
  ghost predicate SaidNo(a: Answer) {
    match a
    case Refused(message, Some(status)) =>
      status < 500 && status != 408 && status != 429 && !FromCooldown(message)
    case _ => false
  }

  predicate ShowsReasoning(r: Reply) {
    || (match r.reasoningTokens case Some(n) => n > 0 case None => false)
    || r.reasoningText || r.thinkingBlocks
  }

  lemma ContainsMentions(message: string, words: string)
    ensures Contains(message, words) <==> Mentions(message, words)
  {
    if Contains(message, words) {
      var i :| 0 <= i <= |message| && words <= message[i..];
      assert message[i..i + |words|] == words;
    }
    if Mentions(message, words) {
      var i, j :| 0 <= i <= j <= |message| && message[i..j] == words;
      assert message[i..][..j - i] == words;
    }
  }

  /** What counts against a model is exactly that; any other failure is inconclusive. */
  lemma DefiniteMeans(a: Answer)
    ensures Definite(a) <==> SaidNo(a)
    ensures IsCooldown(a) <==> a.Refused? && FromCooldown(a.message)
  {
    if a.Refused? {
      ContainsMentions(a.message, "No deployments available");
      ContainsMentions(a.message, "cooldown_list");
    }
  }

  datatype Sent = Sent(request: Request, answer: Answer)

  // ---- What is recorded ----------------------------------------------------------------------

  datatype OffWay = ByDisabled | ByBetweenTools | ByEffort | AlwaysOn | Unsupported

  /** The record; `None` is an absent key.  `thinkingFloor == Some(None)` is the explicit
      "no floor". */
  datatype Record = Record(
    forcedToolChoice: Option<bool>,
    responseFormat: Option<bool>,
    thinkingOff: Option<OffWay>,
    thinkingFloor: Option<Option<string>>,
    thinkingReplay: Option<Option<bool>>)

  const UNPROBED := Record(None, None, None, None, None)

  datatype ShapeResult = ShapeResult(shape: Shape, ok: bool, unavoidable: bool, inconclusive: bool)
  {
    /** A verdict against the model. */
    predicate Against() { !ok && !inconclusive }
  }

  datatype Report = Report(results: seq<ShapeResult>, caps: Record)

  // ---- What the gateway does with the record -----------------------------------------------

  /** `apply_thinking_off`, as a function of the two fields. */
  function RewriteThinking(p: Pair, caps: Record): Pair {
    if p.effort != Some(NONE) then p
    else
      match caps.thinkingOff
      case Some(ByDisabled) => Pair(Some(NONE), Some(DISABLED))
      case Some(ByBetweenTools) => Pair(Some(NONE), Some(BETWEEN_TOOLS))
      case Some(AlwaysOn) =>
        if caps.thinkingFloor.Some? && caps.thinkingFloor.value.Some? && caps.thinkingFloor.value.value != ""
        then Pair(caps.thinkingFloor.value, None) else Pair(Some(NONE), None)
      case Some(Unsupported) => Pair(None, None)
      case _ => Pair(Some(NONE), None)
  }

  /** Only a request for no thinking is touched; what it becomes, way by way. */
  lemma ThinkingSent(p: Pair, caps: Record)
    ensures p.effort != Some("none") ==> RewriteThinking(p, caps) == p
    ensures p.effort == Some("none") ==>
      RewriteThinking(p, caps) ==
        match caps.thinkingOff
        case None => Pair(Some("none"), None)
        case Some(ByDisabled) => Pair(Some("none"), Some("disabled"))
        case Some(ByBetweenTools) => Pair(Some("none"), Some("between_tools"))
        case Some(ByEffort) => Pair(Some("none"), None)
        case Some(Unsupported) => Pair(None, None)
        case Some(AlwaysOn) =>
          match caps.thinkingFloor
          case Some(Some(level)) => if level == "" then Pair(Some("none"), None) else Pair(Some(level), None)
          case _ => Pair(Some("none"), None)
  {
  }

  /** The shapes that were attempted but not measured. */
  ghost function Unmeasured(results: seq<ShapeResult>): set<Shape> {
    set r | r in results && r.inconclusive :: r.shape
  }

  /** The shapes whose stored value is kept where nothing was measured: those attempted in vain, or
      all, when the probe could not run on the deployment's own declaration. */
  ghost function Kept(results: seq<ShapeResult>, ownDeclaration: bool): set<Shape> {
    if ownDeclaration then Unmeasured(results) else set s | s in SHAPES
  }

  /** A fresh record over a stored one. */
  ghost function Merge(prior: Record, measured: Record, unmeasured: set<Shape>): Record {
    Record(
      if measured.forcedToolChoice.Some? then measured.forcedToolChoice
      else if ForcedToolChoice in unmeasured || NamedToolChoice in unmeasured then prior.forcedToolChoice else None,
      if measured.responseFormat.Some? then measured.responseFormat
      else if ResponseFormat in unmeasured then prior.responseFormat else None,
      if measured.thinkingOff.Some? then measured.thinkingOff
      else if ThinkingOff in unmeasured then prior.thinkingOff else None,
      if measured.thinkingFloor.Some? then measured.thinkingFloor
      else if ThinkingFloor in unmeasured then prior.thinkingFloor else None,
      if measured.thinkingReplay.Some? then measured.thinkingReplay
      else if ThinkingReplay in unmeasured then prior.thinkingReplay else None)
  }

  // ---- Evidence -----------------------------------------------------------------------------

  ghost predicate SawRefused(log: seq<Sent>, p: Pair) {
    exists i :: 0 <= i < |log| && (log[i].request.Off? || log[i].request.Floor?)
      && PairOf(log[i].request) == p && Definite(log[i].answer)
  }

  ghost predicate SawAccepted(log: seq<Sent>, p: Pair) {
    exists i :: 0 <= i < |log| && (log[i].request.Off? || log[i].request.Floor?)
      && PairOf(log[i].request) == p && log[i].answer.Replied?
  }

  /** The deployment's verdict on a thinking request depends on the pair alone. */
  ghost predicate PairDecides(log: seq<Sent>) { forall p :: !(SawRefused(log, p) && SawAccepted(log, p)) }

  /** What the log says for each recorded way of turning thinking off. */
  ghost predicate OffEvidence(log: seq<Sent>, caps: Record) {
    match caps.thinkingOff
    case None =>
      // Inconclusive: only explicit switches were refused, and no floor was tried.
      forall p :: SawRefused(log, p) ==> p.effort == Some(NONE) && p.thinking.Some?
    case Some(ByDisabled) => SawAccepted(log, Pair(Some(NONE), Some(DISABLED)))
    case Some(ByBetweenTools) => SawAccepted(log, Pair(Some(NONE), Some(BETWEEN_TOOLS)))
    case Some(ByEffort) => SawAccepted(log, Pair(Some(NONE), None))
    case Some(AlwaysOn) =>
      && SawAccepted(log, Pair(Some(NONE), None))
      && (caps.thinkingFloor.Some? && caps.thinkingFloor.value.Some? ==>
            SawAccepted(log, Pair(caps.thinkingFloor.value, None)))
    case Some(Unsupported) => forall p :: SawRefused(log, p) ==> p.effort.Some?
  }

  /** The stored switch was refused by this very probe, which then could not finish. */
  ghost predicate StaleSwitch(log: seq<Sent>, prior: Record, measured: Record) {
    && measured.thinkingOff.None?
    && ((prior.thinkingOff == Some(ByDisabled) && SawRefused(log, Pair(Some(NONE), Some(DISABLED))))
        || (prior.thinkingOff == Some(ByBetweenTools) && SawRefused(log, Pair(Some(NONE), Some(BETWEEN_TOOLS)))))
  }

  /** The stored floor was refused by this very probe, which then lost the reason of a failure
      and wrote no floor. */
  ghost predicate StaleFloor(log: seq<Sent>, prior: Record, measured: Record) {
    && measured.thinkingOff == Some(AlwaysOn) && measured.thinkingFloor.None?
    && prior.thinkingFloor.Some? && prior.thinkingFloor.value.Some? && prior.thinkingFloor.value.value != ""
    && SawRefused(log, Pair(prior.thinkingFloor.value, None))
  }
}
