/** What the probe's report and record say, read off the answers themselves: status codes,
    messages and replies, in plain terms.  Each lemma takes what `Probe.ProbeModel` promises of
    its log, and gives every flag an if-and-only-if. */
module ProbeVerdicts {
  import opened Common
  import opened Capabilities
  import opened Probe

  // ---- Reading the log ----------------------------------------------------------------------------

  ghost predicate SaidNoTo(log: seq<Sent>, r: Request) {
    exists i :: 0 <= i < |log| && log[i].request == r && SaidNo(log[i].answer)
  }

  ghost predicate Answered(log: seq<Sent>, r: Request) {
    exists i :: 0 <= i < |log| && log[i].request == r && log[i].answer.Replied?
  }

  lemma SeenNo(log: seq<Sent>, r: Request, i: nat)
    requires i < |log| && log[i].request == r && Definite(log[i].answer)
    ensures SaidNoTo(log, r)
  {
    DefiniteMeans(log[i].answer);
  }

  /** The pairs the probe saw refused are those of the requests the deployment said no to. */
  lemma RefusedPairs(log: seq<Sent>, effort: string, switch: Option<string>)
    requires effort != "none"
    ensures SawRefused(log, Pair(Some("none"), switch)) <==>
      SaidNoTo(log, Off(switch)) || (switch.None? && SaidNoTo(log, Floor("none")))
    ensures SawRefused(log, Pair(Some(effort), None)) <==> SaidNoTo(log, Floor(effort))
    ensures !SawRefused(log, Pair(None, switch))
  {
    forall i | 0 <= i < |log| ensures Definite(log[i].answer) <==> SaidNo(log[i].answer) { DefiniteMeans(log[i].answer); }
    if SaidNoTo(log, Off(switch)) { RefusedBy(log, Off(switch)); }
    if SaidNoTo(log, Floor("none")) { RefusedBy(log, Floor("none")); }
    if SaidNoTo(log, Floor(effort)) { RefusedBy(log, Floor(effort)); }
  }

  lemma RefusedBy(log: seq<Sent>, r: Request)
    requires (r.Off? || r.Floor?) && SaidNoTo(log, r)
    ensures SawRefused(log, PairOf(r))
  {
    var i :| 0 <= i < |log| && log[i].request == r && SaidNo(log[i].answer);
    DefiniteMeans(log[i].answer);
  }

  // ---- The verdict on the model --------------------------------------------------------------------

  /** A shape every turn sends passes exactly when it was answered, and rejects the model exactly
      when the deployment itself said no to it: never for a 408, a 429, a 5xx, a missing status, a
      cooldown, a crash or an exhausted budget. */
  lemma EveryTurnVerdicts(log: seq<Sent>, results: seq<ShapeResult>, k: nat)
    requires FairResults(log, results) && k < |results|
    requires results[k].shape == ToolsAuto || results[k].shape == ToolRoundTrip || results[k].shape == StreamingTools
    ensures var r := Plain(results[k].shape);
      && (results[k].ok <==> Answered(log, r))
      && (!results[k].ok && !results[k].inconclusive <==> SaidNoTo(log, r))
  {
    var r := Plain(results[k].shape);
    assert Fair(log, r, results[k].ok, results[k].inconclusive);
    if Answered(log, r) {
      var i :| 0 <= i < |log| && log[i].request == r && log[i].answer.Replied?;
      assert Passed(log[i]);
    }
    if SaidNoTo(log, r) {
      var i :| 0 <= i < |log| && log[i].request == r && SaidNo(log[i].answer);
      DefiniteMeans(log[i].answer);
      assert Failed(log[i]);
    }
    if Seen(log, r, Failed) {
      var i: nat :| i < |log| && log[i].request == r && Failed(log[i]);
      SeenNo(log, r, i);
    }
  }

  // ---- The flags of one request ----------------------------------------------------------------------

  ghost predicate Complied(log: seq<Sent>, shape: Shape, honours: Reply -> bool) {
    exists i :: 0 <= i < |log| && log[i].request == Plain(shape) && log[i].answer.Replied? && honours(log[i].answer.reply)
  }

  /** The whole reply is there and does something else. */
  ghost predicate Evaded(log: seq<Sent>, shape: Shape, honours: Reply -> bool) {
    exists i :: 0 <= i < |log| && log[i].request == Plain(shape) && log[i].answer.Replied?
      && !honours(log[i].answer.reply) && !log[i].answer.reply.truncated
  }

  predicate CallsATool(r: Reply) { |r.toolNames| > 0 }
  predicate CallsTheNamedTool(r: Reply) { exists i :: 0 <= i < |r.toolNames| && r.toolNames[i] == "get_weather" }
  predicate FitsTheSchema(r: Reply) { r.matchesSchema }

  ghost predicate Denied(log: seq<Sent>, shape: Shape, honours: Reply -> bool) {
    SaidNoTo(log, Plain(shape)) || Evaded(log, shape, honours)
  }

  lemma GradedMeans(log: seq<Sent>, shape: Shape, honours: Reply -> bool)
    requires forall reply :: Honoured(Plain(shape), reply) <==> honours(reply)
    ensures Seen(log, Plain(shape), Passed) <==> Complied(log, shape, honours)
    ensures Seen(log, Plain(shape), Failed) <==> Denied(log, shape, honours)
  {
    var r := Plain(shape);
    if Complied(log, shape, honours) {
      var i :| 0 <= i < |log| && log[i].request == r && log[i].answer.Replied? && honours(log[i].answer.reply);
      assert Passed(log[i]);
    }
    if SaidNoTo(log, r) {
      var i :| 0 <= i < |log| && log[i].request == r && SaidNo(log[i].answer);
      DefiniteMeans(log[i].answer);
      assert Failed(log[i]);
    }
    if Evaded(log, shape, honours) {
      var i :| 0 <= i < |log| && log[i].request == r && log[i].answer.Replied?
        && !honours(log[i].answer.reply) && !log[i].answer.reply.truncated;
      assert Failed(log[i]);
    }
    if Seen(log, r, Failed) {
      var i: nat :| i < |log| && log[i].request == r && Failed(log[i]);
      if Definite(log[i].answer) { SeenNo(log, r, i); }
    }
  }

  /** The flags the agent harness relies on.  A forced choice counts as honoured when both forms
      called a tool, the named one by its name; as refused when the deployment said no to either,
      or a whole reply went another way.  Anything else leaves the flag unset. */
  lemma FlagVerdicts(log: seq<Sent>, caps: Record)
    requires PlainRecord(log, caps)
    ensures caps.forcedToolChoice == Some(true) <==>
      Complied(log, ForcedToolChoice, CallsATool) && Complied(log, NamedToolChoice, CallsTheNamedTool)
    ensures caps.forcedToolChoice == Some(false) <==>
      Denied(log, ForcedToolChoice, CallsATool) || Denied(log, NamedToolChoice, CallsTheNamedTool)
    ensures caps.responseFormat == Some(true) <==> Complied(log, ResponseFormat, FitsTheSchema)
    ensures caps.responseFormat == Some(false) <==> Denied(log, ResponseFormat, FitsTheSchema)
  {
    GradedMeans(log, ForcedToolChoice, CallsATool);
    GradedMeans(log, NamedToolChoice, CallsTheNamedTool);
    GradedMeans(log, ResponseFormat, FitsTheSchema);
  }

  // ---- Thinking off --------------------------------------------------------------------------------

  /** Thinking was asked off in this way and the reply shows no reasoning, or does. */
  ghost predicate Quieted(log: seq<Sent>, switch: Option<string>) {
    exists i :: 0 <= i < |log| && log[i].request == Off(switch) && log[i].answer.Replied?
      && !ShowsReasoning(log[i].answer.reply)
  }

  ghost predicate ReasonedStill(log: seq<Sent>, switch: Option<string>) {
    exists i :: 0 <= i < |log| && log[i].request == Off(switch) && log[i].answer.Replied?
      && ShowsReasoning(log[i].answer.reply)
  }

  /** Where the request for one way can be in the log. */
  lemma OffAt(log: seq<Sent>, at: Parts, candidates: seq<string>, caps: Record, i: nat)
    requires ThinkingTrail(log, at, candidates, caps) && i < |log| && log[i].request.Off?
    ensures at.off <= i < at.floor && log[..at.floor][i] == log[i]
  {
    if at.floor <= i < at.replay { FloorRequest(log, at, candidates, caps, i); }
  }

  /** The way recorded is decided by one answer. */
  lemma OneWayOnly(log: seq<Sent>, at: nat, way: Option<OffWay>, i: nat)
    requires OffTrail(log, at, way) && at <= i < |log| && log[i].request.Off?
    ensures i < at + 3 && log[i].request == Off(SWITCHES[i - at])
    ensures log[i].answer.Replied? && !log[i].answer.reply.Reasoned() ==>
      way == Some([ByDisabled, ByBetweenTools, ByEffort][i - at])
    ensures i == at + 2 && log[i].answer.Replied? && log[i].answer.reply.Reasoned() ==> way == Some(AlwaysOn)
    ensures i == at + 2 && Definite(log[i].answer) ==> way == Some(Unsupported)
  {
    var k: nat := i - at;
    match way
    case None =>
      assert Spent(log, at, k) || (k == |log| - 1 - at && Tried(log, at, k) && NoVerdict(log[i]));
    case Some(ByDisabled) =>
    case Some(ByBetweenTools) => assert k <= 1;
    case Some(ByEffort) => assert k <= 2;
    case Some(AlwaysOn) =>
    case Some(Unsupported) =>
  }

  /** What one answer to a way says about the record. */
  lemma WayDecides(log: seq<Sent>, at: Parts, candidates: seq<string>, caps: Record, i: nat)
    requires ThinkingTrail(log, at, candidates, caps) && i < |log| && log[i].request.Off?
    ensures log[i].request == Off(Some("disabled")) || log[i].request == Off(Some("between_tools"))
      || log[i].request == Off(None)
    ensures log[i].answer.Replied? && !ShowsReasoning(log[i].answer.reply) ==>
      caps.thinkingOff == Some(match log[i].request.switch
                               case Some(switch) => if switch == "disabled" then ByDisabled else ByBetweenTools
                               case None => ByEffort)
    ensures log[i].request == Off(None) && log[i].answer.Replied? && ShowsReasoning(log[i].answer.reply) ==>
      caps.thinkingOff == Some(AlwaysOn)
    ensures log[i].request == Off(None) && SaidNo(log[i].answer) ==> caps.thinkingOff == Some(Unsupported)
  {
    OffAt(log, at, candidates, caps, i);
    OneWayOnly(log[..at.floor], at.off, caps.thinkingOff, i);
    DefiniteMeans(log[i].answer);
    assert DISABLED == "disabled" && BETWEEN_TOOLS == "between_tools" && "disabled" != "between_tools";
  }

  lemma WayShown(log: seq<Sent>, at: Parts, candidates: seq<string>, caps: Record, k: nat) returns (i: nat)
    requires ThinkingTrail(log, at, candidates, caps) && k < 3
    requires OffTrail(log[..at.floor], at.off, caps.thinkingOff) && Tried(log[..at.floor], at.off, k)
    ensures i < |log| && log[i].request == Off(SWITCHES[k]) && log[i] == log[..at.floor][at.off + k]
  {
    i := at.off + k;
  }

  /** The way recorded, from the answers alone: the one whose reply showed no reasoning; "always
      on" when the effort alone was answered with reasoning; "unsupported" when it was refused.
      In any other case nothing is recorded. */
  lemma OffWayVerdict(log: seq<Sent>, candidates: seq<string>, caps: Record)
    requires ProbedBy(log, candidates, caps)
    ensures caps.thinkingOff == Some(ByDisabled) <==> Quieted(log, Some("disabled"))
    ensures caps.thinkingOff == Some(ByBetweenTools) <==> Quieted(log, Some("between_tools"))
    ensures caps.thinkingOff == Some(ByEffort) <==> Quieted(log, None)
    ensures caps.thinkingOff == Some(AlwaysOn) <==> ReasonedStill(log, None)
    ensures caps.thinkingOff == Some(Unsupported) <==> SaidNoTo(log, Off(None))
  {
    var at :| ThinkingTrail(log, at, candidates, caps);
    AnswersDecide(log, at, candidates, caps);
    RecordIsBacked(log, at, candidates, caps);
  }

  lemma AnswersDecide(log: seq<Sent>, at: Parts, candidates: seq<string>, caps: Record)
    requires ThinkingTrail(log, at, candidates, caps)
    ensures Quieted(log, Some("disabled")) ==> caps.thinkingOff == Some(ByDisabled)
    ensures Quieted(log, Some("between_tools")) ==> caps.thinkingOff == Some(ByBetweenTools)
    ensures Quieted(log, None) ==> caps.thinkingOff == Some(ByEffort)
    ensures ReasonedStill(log, None) ==> caps.thinkingOff == Some(AlwaysOn)
    ensures SaidNoTo(log, Off(None)) ==> caps.thinkingOff == Some(Unsupported)
  {
    forall i: nat | i < |log| && log[i].request.Off? { WayDecides(log, at, candidates, caps, i); }
  }

  lemma RecordIsBacked(log: seq<Sent>, at: Parts, candidates: seq<string>, caps: Record)
    requires ThinkingTrail(log, at, candidates, caps)
    ensures caps.thinkingOff == Some(ByDisabled) ==> Quieted(log, Some("disabled"))
    ensures caps.thinkingOff == Some(ByBetweenTools) ==> Quieted(log, Some("between_tools"))
    ensures caps.thinkingOff == Some(ByEffort) ==> Quieted(log, None)
    ensures caps.thinkingOff == Some(AlwaysOn) ==> ReasonedStill(log, None)
    ensures caps.thinkingOff == Some(Unsupported) ==> SaidNoTo(log, Off(None))
  {
    match caps.thinkingOff
    case None =>
    case Some(ByDisabled) => var i := WayShown(log, at, candidates, caps, 0);
    case Some(ByBetweenTools) => var i := WayShown(log, at, candidates, caps, 1);
    case Some(ByEffort) => var i := WayShown(log, at, candidates, caps, 2);
    case Some(AlwaysOn) => var i := WayShown(log, at, candidates, caps, 2);
    case Some(Unsupported) =>
      var i := WayShown(log, at, candidates, caps, 2);
      DefiniteMeans(log[i].answer);
  }

  /** The ways are tried in one order, each only after the ones before it failed. */
  lemma WaysInOrder(log: seq<Sent>, candidates: seq<string>, caps: Record, i: nat)
    requires ProbedBy(log, candidates, caps) && i < |log|
    ensures log[i].request == Off(Some("between_tools")) ==>
      SaidNoTo(log, Off(Some("disabled"))) || ReasonedStill(log, Some("disabled"))
    ensures log[i].request == Off(None) ==>
      SaidNoTo(log, Off(Some("between_tools"))) || ReasonedStill(log, Some("between_tools"))
  {
    var at :| ThinkingTrail(log, at, candidates, caps);
    if log[i].request.Off? {
      OffAt(log, at, candidates, caps, i);
      OneWayOnly(log[..at.floor], at.off, caps.thinkingOff, i);
      if i > at.off { OneBefore(log, at, candidates, caps, i); }
    }
  }

  lemma OneBefore(log: seq<Sent>, at: Parts, candidates: seq<string>, caps: Record, i: nat)
    requires ThinkingTrail(log, at, candidates, caps) && at.off < i < at.floor && log[i].request.Off?
    ensures i - at.off < 3
    ensures var before := SWITCHES[i - 1 - at.off]; SaidNoTo(log, Off(before)) || ReasonedStill(log, before)
  {
    var off := log[..at.floor];
    assert off[i] == log[i] && off[i - 1] == log[i - 1];
    EarlierSpent(off, at.off, caps.thinkingOff, i);
    OneWayOnly(off, at.off, caps.thinkingOff, i);
    DefiniteMeans(log[i - 1].answer);
  }

  lemma EarlierSpent(log: seq<Sent>, at: nat, way: Option<OffWay>, i: nat)
    requires OffTrail(log, at, way) && at < i < |log| && log[i].request.Off?
    ensures Spent(log, at, i - 1 - at)
  {
    OneWayOnly(log, at, way, i);
    if way.None? && |log| <= at + 2 { assert Spent(log, at, i - 1 - at); }
  }

  // ---- The floor ------------------------------------------------------------------------------------

  /** A level was asked for and the answer said neither yes nor no, nor why. */
  ghost predicate LostOn(log: seq<Sent>) {
    exists i :: 0 <= i < |log| && log[i].request.Floor? && log[i].answer.Refused?
      && log[i].answer.message == "" && !SaidNo(log[i].answer)
  }

  ghost predicate SomeLevelRefused(log: seq<Sent>) {
    exists i :: 0 <= i < |log| && log[i].request.Floor? && SaidNo(log[i].answer)
  }

  ghost predicate SomeLevelAccepted(log: seq<Sent>) {
    exists i :: 0 <= i < |log| && log[i].request.Floor? && log[i].answer.Replied?
  }

  lemma LostMeans(log: seq<Sent>)
    ensures FloorLost(log) <==> LostOn(log)
  {
    forall i | 0 <= i < |log| ensures Definite(log[i].answer) <==> SaidNo(log[i].answer) { DefiniteMeans(log[i].answer); }
    if LostOn(log) {
      var i :| 0 <= i < |log| && log[i].request.Floor? && log[i].answer.Refused?
        && log[i].answer.message == "" && !SaidNo(log[i].answer);
      assert LostReason(log[i]);
    }
  }

  /** Floor requests before the last are refused. */
  lemma FloorAt(log: seq<Sent>, at: Parts, candidates: seq<string>, caps: Record, i: nat)
    requires ThinkingTrail(log, at, candidates, caps) && i < |log| && log[i].request.Floor?
    ensures at.floor <= i < at.replay && caps.thinkingOff == Some(AlwaysOn)
    ensures i < at.replay - 1 ==> SaidNo(log[i].answer)
  {
    if i < at.floor { NoFloorBefore(log, at, candidates, caps, i); }
    FloorRequest(log, at, candidates, caps, i);
    if i < at.replay - 1 { FloorRequestRefused(log, at, candidates, caps, i); }
    DefiniteMeans(log[i].answer);
  }

  /** On a deployment that cannot turn thinking off the floor is the level accepted; "no floor" is
      recorded when levels were refused, none was accepted and no reason was lost; otherwise
      nothing is.  Where thinking turns off it is "no floor" outright. */
  lemma FloorVerdict(log: seq<Sent>, candidates: seq<string>, caps: Record)
    requires ProbedBy(log, candidates, caps) && candidates != []
    ensures caps.thinkingOff == Some(AlwaysOn) ==>
      && (forall e :: caps.thinkingFloor == Some(Some(e)) <==> Answered(log, Floor(e)))
      && (caps.thinkingFloor == Some(None) <==> SomeLevelRefused(log) && !SomeLevelAccepted(log) && !LostOn(log))
    ensures caps.thinkingOff != Some(AlwaysOn) ==>
      caps.thinkingFloor == if caps.thinkingOff.None? then None else Some(None)
  {
    var at :| ThinkingTrail(log, at, candidates, caps);
    if caps.thinkingOff == Some(AlwaysOn) {
      LastLevelDecides(log, at, candidates, caps);
    }
  }

  lemma LastLevelDecides(log: seq<Sent>, at: Parts, candidates: seq<string>, caps: Record)
    requires ThinkingTrail(log, at, candidates, caps) && candidates != [] && caps.thinkingOff == Some(AlwaysOn)
    ensures forall e :: caps.thinkingFloor == Some(Some(e)) <==> Answered(log, Floor(e))
    ensures caps.thinkingFloor == Some(None) <==> SomeLevelRefused(log) && !SomeLevelAccepted(log) && !LostOn(log)
  {
    var tail, last := log[..at.replay], at.replay - 1;
    LostMeans(log);
    FloorLostLast(log, at, candidates, caps);
    forall i: nat | i < |log| && log[i].request.Floor?
      ensures at.floor <= i <= last && (i < last ==> SaidNo(log[i].answer))
    {
      FloorAt(log, at, candidates, caps, i);
    }
    if at.floor < at.replay {
      assert tail[last] == log[last];
      FloorRequest(log, at, candidates, caps, last);
      DefiniteMeans(log[last].answer);
      if at.floor < last {
        FloorRequest(log, at, candidates, caps, at.floor);
        FloorAt(log, at, candidates, caps, at.floor);
      }
      if caps.thinkingFloor == Some(None) {
        assert RefusedFloor(tail, at.floor, candidates, 0) && tail[at.floor] == log[at.floor];
        DefiniteMeans(log[at.floor].answer);
      }
    }
  }

  /** The levels tried. */
  lemma LevelsTried(declared: seq<string>)
    ensures Candidates([]) == ["minimal", "low"]
    ensures |declared| == 1 ==> Candidates(declared) == declared
    ensures |declared| >= 2 ==> Candidates(declared) == [declared[0], declared[1]]
  {
  }

  // ---- The replay ----------------------------------------------------------------------------------

  /** The replay flag: set when the replayed turn was answered, cleared when the deployment said no
      to it or to the turn that was to show a block, "nothing to replay" when no block came back. */
  lemma ReplayVerdictMeans(log: seq<Sent>, flag: Option<Option<bool>>)
    requires ReplayVerdict(log, true, flag)
    ensures flag == Some(Some(true)) <==> Answered(log, Replay)
    ensures flag == Some(Some(false)) <==> SaidNoTo(log, ReplayTurn) || SaidNoTo(log, Replay)
    ensures flag == Some(None) <==>
      exists i :: 0 <= i < |log| && log[i].request == ReplayTurn && log[i].answer.Replied?
        && !log[i].answer.reply.thinkingBlocks
  {
    var at: nat :| at <= |log| && NoReplayIn(log[..at]) && ReplayTrail(log, at, flag);
    forall i | 0 <= i < at ensures log[i].request != ReplayTurn && log[i].request != Replay {
      assert log[..at][i] == log[i];
    }
    forall i | 0 <= i < |log| ensures Definite(log[i].answer) <==> SaidNo(log[i].answer) { DefiniteMeans(log[i].answer); }
  }

  // ---- The requests ----------------------------------------------------------------------------------

  /** Nothing follows an answer that names the cooldown. */
  lemma NothingAfterCooldown(log: seq<Sent>, i: nat)
    requires StopsAtCooldown(log) && i < |log| && log[i].answer.Refused? && FromCooldown(log[i].answer.message)
    ensures i == |log| - 1
  {
    DefiniteMeans(log[i].answer);
  }

  /** The rows of a report, in their order. */
  lemma RowsInOrder(supportsReasoning: bool)
    ensures Reported(supportsReasoning, false) ==
      [ToolsAuto, ToolRoundTrip, StreamingTools, ForcedToolChoice, NamedToolChoice, ResponseFormat, ThinkingOff,
       ThinkingFloor] + if supportsReasoning then [ThinkingReplay] else []
    ensures Reported(supportsReasoning, true) ==
      [ToolsAuto, ToolRoundTrip, StreamingTools, ForcedToolChoice, NamedToolChoice, ResponseFormat, ThinkingOff]
        + if supportsReasoning then [ThinkingReplay] else []
  {
  }

  /** The row for thinking off agrees: passed when a way was found, against the model's limits
      when none works, inconclusive when nothing was recorded. */
  lemma ThinkingRowMeans(rows: seq<ShapeResult>, caps: Record)
    requires ThinkingRows(rows, caps)
    ensures rows[0].shape == ThinkingOff
    ensures rows[0].ok <==>
      caps.thinkingOff == Some(ByDisabled) || caps.thinkingOff == Some(ByBetweenTools) || caps.thinkingOff == Some(ByEffort)
    ensures !rows[0].ok && !rows[0].inconclusive <==>
      caps.thinkingOff == Some(AlwaysOn) || caps.thinkingOff == Some(Unsupported)
  {
    var way := caps.thinkingOff;
    assert rows[0].ok <==> way == Some(ByDisabled) || way == Some(ByBetweenTools) || way == Some(ByEffort);
    match way
    case None =>
    case Some(w) =>
      assert w == ByDisabled || w == ByBetweenTools || w == ByEffort || w == AlwaysOn || w == Unsupported;
  }

  // ---- The record that is kept -------------------------------------------------------------------------

  /** The shape was attempted and not measured. */
  ghost predicate Unsettled(results: seq<ShapeResult>, shape: Shape) {
    exists i :: 0 <= i < |results| && results[i].shape == shape && results[i].inconclusive
  }

  /** What is stored, key by key: what was measured; else what was stored before, if the probe could not
      run on the deployment's own declaration or attempted the shape in vain; else nothing. */
  lemma StoredKeyByKey(prior: Record, report: Report, own: bool)
    ensures var m, r := Merge(prior, report.caps, Kept(report.results, own)), report.results;
      && m.forcedToolChoice ==
           (if report.caps.forcedToolChoice.Some? then report.caps.forcedToolChoice
            else if !own || Unsettled(r, ForcedToolChoice) || Unsettled(r, NamedToolChoice) then prior.forcedToolChoice
            else None)
      && m.responseFormat ==
           (if report.caps.responseFormat.Some? then report.caps.responseFormat
            else if !own || Unsettled(r, ResponseFormat) then prior.responseFormat else None)
      && m.thinkingOff ==
           (if report.caps.thinkingOff.Some? then report.caps.thinkingOff
            else if !own || Unsettled(r, ThinkingOff) then prior.thinkingOff else None)
      && m.thinkingFloor ==
           (if report.caps.thinkingFloor.Some? then report.caps.thinkingFloor
            else if !own || Unsettled(r, ThinkingFloor) then prior.thinkingFloor else None)
      && m.thinkingReplay ==
           (if report.caps.thinkingReplay.Some? then report.caps.thinkingReplay
            else if !own || Unsettled(r, ThinkingReplay) then prior.thinkingReplay else None)
  {
    forall shape ensures shape in Kept(report.results, own) <==> !own || Unsettled(report.results, shape) {
      KeptMeans(report.results, own, shape);
    }
  }

  lemma KeptMeans(results: seq<ShapeResult>, own: bool, shape: Shape)
    ensures shape in Kept(results, own) <==> !own || Unsettled(results, shape)
  {
    assert shape in SHAPES;
    if i :| 0 <= i < |results| && results[i].shape == shape && results[i].inconclusive { assert results[i] in results; }
  }
}
