/** The registration probe: replays every request shape of the harness against one
    deployment and writes down what it accepts.  The deployment, the network and the clock
    are an arbitrary function from request numbers to answers. */
module Probe {
  import opened Common
  import opened Capabilities

  type World = nat -> Answer

  // ---- Reading a verdict off the log -------------------------------------------------------

  /** The checks that tell an honoured reply from one to a rewritten request. */
  predicate Honoured(r: Request, reply: Reply) {
    match r
    case Plain(ForcedToolChoice) => reply.toolNames != []
    case Plain(NamedToolChoice) => "get_weather" in reply.toolNames
    case Plain(ResponseFormat) => reply.matchesSchema
    case _ => true
  }

  /** The answer, if the request was sent, was a success that honoured the shape. */
  predicate Passed(s: Sent) { s.answer.Replied? && Honoured(s.request, s.answer.reply) }

  /** The answer was a verdict against the shape: a definite refusal, or a complete reply that
      did not honour it. */
  predicate Failed(s: Sent) {
    || Definite(s.answer)
    || (s.answer.Replied? && !Honoured(s.request, s.answer.reply) && !s.answer.reply.truncated)
  }

  ghost predicate Seen(log: seq<Sent>, r: Request, p: Sent -> bool) {
    exists i :: 0 <= i < |log| && log[i].request == r && p(log[i])
  }

  /** A shape of one request: passed or failed exactly as its answer in the log says. */
  ghost predicate Fair(log: seq<Sent>, r: Request, ok: bool, inconclusive: bool) {
    && (ok <==> Seen(log, r, Passed))
    && (!ok && !inconclusive <==> Seen(log, r, Failed))
  }

  /** Nothing is sent once the gateway has answered that the deployment is cooled down. */
  ghost predicate StopsAtCooldown(log: seq<Sent>) {
    forall i :: 0 <= i < |log| - 1 ==> !IsCooldown(log[i].answer)
  }

  /** A request that failed transiently without giving a reason. */
  ghost predicate LostReason(s: Sent) { s.answer.Refused? && s.answer.message == "" && !Definite(s.answer) }

  ghost predicate FloorLost(log: seq<Sent>) {
    exists i :: 0 <= i < |log| && log[i].request.Floor? && LostReason(log[i])
  }

  function Shapes(results: seq<ShapeResult>): seq<Shape> {
    if results == [] then [] else Shapes(results[..|results| - 1]) + [results[|results| - 1].shape]
  }

  /** The position of a shape in the plan; a request belongs to one shape. */
  function Rank(shape: Shape): nat {
    match shape
    case ToolsAuto => 0 case ToolRoundTrip => 1 case StreamingTools => 2
    case ForcedToolChoice => 3 case NamedToolChoice => 4 case ResponseFormat => 5
    case ThinkingOff => 6 case ThinkingFloor => 7 case ThinkingReplay => 8
  }

  function ShapeOf(r: Request): Shape {
    match r
    case Plain(shape) => shape
    case Off(_) => ThinkingOff
    case Control => ThinkingOff
    case Floor(_) => ThinkingFloor
    case ReplayTurn => ThinkingReplay
    case Replay => ThinkingReplay
  }

  /** The requests so far belong to the first `n` shapes. */
  ghost predicate Below(log: seq<Sent>, n: nat) {
    forall i :: 0 <= i < |log| ==> Rank(ShapeOf(log[i].request)) < n
  }

  /** `after` continues `before` with at most `most` requests, all for `shape`. */
  ghost predicate Continues(before: seq<Sent>, after: seq<Sent>, shape: Shape, most: nat) {
    && before <= after && |after| <= |before| + most
    && forall i :: |before| <= i < |after| ==> ShapeOf(after[i].request) == shape
  }

  /** The single-request shapes' results agree with the log. */
  ghost predicate FairResults(log: seq<Sent>, results: seq<ShapeResult>) {
    forall k :: 0 <= k < |results| && Rank(results[k].shape) < 6 ==>
      Fair(log, Plain(results[k].shape), results[k].ok, results[k].inconclusive)
  }

  /** Requests for another shape do not change what the log says about `r`. */
  lemma SeenFrame(before: seq<Sent>, after: seq<Sent>, shape: Shape, most: nat, r: Request, p: Sent -> bool)
    requires Continues(before, after, shape, most) && ShapeOf(r) != shape
    ensures Seen(after, r, p) <==> Seen(before, r, p)
  {
    if Seen(before, r, p) {
      var i :| 0 <= i < |before| && before[i].request == r && p(before[i]);
      assert after[i] == before[i];
    }
    if Seen(after, r, p) {
      var i :| 0 <= i < |after| && after[i].request == r && p(after[i]);
      assert i < |before| && before[i] == after[i];
    }
  }

  lemma FairFrame(before: seq<Sent>, after: seq<Sent>, results: seq<ShapeResult>, shape: Shape, most: nat)
    requires Continues(before, after, shape, most) && FairResults(before, results)
    requires forall k :: 0 <= k < |results| ==> results[k].shape != shape
    ensures FairResults(after, results)
  {
    forall k | 0 <= k < |results| && Rank(results[k].shape) < 6
      ensures Fair(after, Plain(results[k].shape), results[k].ok, results[k].inconclusive)
    {
      SeenFrame(before, after, shape, most, Plain(results[k].shape), Passed);
      SeenFrame(before, after, shape, most, Plain(results[k].shape), Failed);
    }
  }

  // ---- The probe's own state -------------------------------------------------------------------

  class Prober {
    const world: World
    var tick: nat
    var log: seq<Sent>
    var cooledDown: bool
    var results: seq<ShapeResult>
    var caps: Record

    constructor (world: World)
      ensures this.world == world && log == [] && results == [] && caps == UNPROBED && Valid()
    {
      this.world := world;
      tick, log, cooledDown, results, caps := 0, [], false, [], UNPROBED;
    }

    ghost predicate Valid()
      reads this
    {
      && StopsAtCooldown(log)
      && (cooledDown <==> exists i :: 0 <= i < |log| && IsCooldown(log[i].answer))
    }

    /** One request.  `transient` failures say nothing about the shape. */
    method Attempt(r: Request) returns (ok: bool, reply: Option<Reply>, err: string, transient: bool)
      requires Valid()
      modifies this`tick, this`log, this`cooledDown
      ensures Valid()
      ensures log == old(log) || (|log| == |old(log)| + 1 && log[..|old(log)|] == old(log) && log[|old(log)|].request == r)
      ensures ok ==> log != old(log) && reply.Some? && log[|old(log)|].answer == Replied(reply.value)
      ensures !ok ==> reply.None?
      ensures !ok && !transient ==> log != old(log) && Definite(log[|old(log)|].answer)
      ensures !ok && transient && log != old(log) ==>
        !Definite(log[|old(log)|].answer) && !log[|old(log)|].answer.Replied?
      ensures !ok && !transient <==> log != old(log) && SaidNo(log[|old(log)|].answer)
      ensures !ok && transient && err == "" <==>
        log != old(log) && log[|old(log)|].answer.Refused? && log[|old(log)|].answer.message == ""
        && !Definite(log[|old(log)|].answer)
    {
      reply := None;
      if cooledDown {
        return false, None, "not probed", true;
      }
      var answer := world(tick);
      tick := tick + 1;
      if answer.Late? {
        return false, None, "budget exhausted", true;
      }
      log := log + [Sent(r, answer)];
      DefiniteMeans(answer);
      match answer
      case Replied(got) =>
        ok, reply, err, transient := true, Some(got), "", false;
      case Refused(message, status) =>
        if IsCooldown(answer) {
          cooledDown := true;
          assert IsCooldown(log[|old(log)|].answer);
          ok, err, transient := false, "not probed", true;
        } else {
          ok, err, transient := false, message, TransientStatus(status);
        }
      case Crashed =>
        ok, err, transient := false, "transport failure", true;
    }

    /** Requests for the shapes up to `n` were sent and reported. */
    ghost predicate Done(n: nat)
      reads this
    {
      && Valid() && Below(log, n) && FairResults(log, results)
      && forall k :: 0 <= k < |results| ==> Rank(results[k].shape) < n
    }

    /** Send one routable shape and judge the reply. */
    method Graded(shape: Shape) returns (ok: bool, inconclusive: bool)
      requires Done(Rank(shape)) && Rank(shape) < 6
      modifies this`tick, this`log, this`cooledDown
      ensures Valid() && Continues(old(log), log, shape, 1)
      ensures Fair(log, Plain(shape), ok, inconclusive)
      ensures !(ok && inconclusive)
    {
      var reply, err, transient;
      ok, reply, err, transient := Attempt(Plain(shape));
      if !ok {
        inconclusive := transient;
      } else if Honoured(Plain(shape), reply.value) {
        ok, inconclusive := true, false;
      } else {
        ok, inconclusive := false, reply.value.truncated;
      }
      OneAttempt(old(log), shape, ok, inconclusive);
    }

    /** The one request of a shape decides its result. */
    lemma OneAttempt(before: seq<Sent>, shape: Shape, ok: bool, inconclusive: bool)
      requires Below(before, Rank(shape)) && Rank(shape) < 6
      requires before <= log && |log| <= |before| + 1
      requires |log| > |before| ==> log[|before|].request == Plain(shape)
      requires ok <==> |log| > |before| && Passed(log[|before|])
      requires !ok && !inconclusive <==> |log| > |before| && Failed(log[|before|])
      ensures Fair(log, Plain(shape), ok, inconclusive)
    {
      assert forall i :: 0 <= i < |before| ==> log[i] == before[i];
    }

    /** `add` */
    method Add(result: ShapeResult)
      requires Valid() && FairResults(log, results)
      requires Rank(result.shape) < 6 ==> Fair(log, Plain(result.shape), result.ok, result.inconclusive)
      modifies this`results
      ensures Valid() && results == old(results) + [result] && FairResults(log, results)
    {
      results := results + [result];
    }

    /** The shapes every agent turn sends; all run, whatever fails. */
    method ProbeUnavoidable()
      requires Done(0) && results == [] && log == []
      modifies this`tick, this`log, this`cooledDown, this`results
      ensures Done(3) && |log| <= 3 && |results| == 3
      ensures forall k :: 0 <= k < 3 ==> results[k].shape == SHAPES[k] && results[k].unavoidable
    {
      for k := 0 to 3
        invariant Done(k) && |log| <= k && |results| == k
        invariant forall m :: 0 <= m < k ==> results[m].shape == SHAPES[m] && results[m].unavoidable
      {
        ProbeEveryTurn(SHAPES[k]);
      }
    }

    method ProbeEveryTurn(shape: Shape)
      requires Done(Rank(shape)) && Rank(shape) < 3
      modifies this`tick, this`log, this`cooledDown, this`results
      ensures Done(Rank(shape) + 1) && |log| <= |old(log)| + 1
      ensures |results| == |old(results)| + 1 && results[..|old(results)|] == old(results)
      ensures results[|old(results)|].shape == shape && results[|old(results)|].unavoidable
    {
      ghost var before, done := log, results;
      var ok, _, _, transient := Attempt(Plain(shape));
      OneAttempt(before, shape, ok, !ok && transient);
      FairFrame(before, log, done, shape, 1);
      Add(ShapeResult(shape, ok, true, !ok && transient));
    }

    /** One routable single-request shape, reported. */
    method ProbeRoutable(shape: Shape) returns (ok: bool, inconclusive: bool)
      requires Done(Rank(shape)) && 3 <= Rank(shape) < 6
      modifies this`tick, this`log, this`cooledDown, this`results
      ensures Done(Rank(shape) + 1) && Continues(old(log), log, shape, 1)
      ensures results == old(results) + [ShapeResult(shape, ok, false, inconclusive)]
      ensures !(ok && inconclusive)
    {
      ghost var before, done := log, results;
      ok, inconclusive := Graded(shape);
      FairFrame(before, log, done, shape, 1);
      Add(ShapeResult(shape, ok, false, inconclusive));
    }

    /** Forced tool choice: both forms must work for the flag to be True. */
    method ProbeForced()
      requires Done(3) && |results| == 3 && caps == UNPROBED
      modifies this`tick, this`log, this`cooledDown, this`results, this`caps
      ensures Done(5) && old(log) <= log && |log| <= |old(log)| + 2
      ensures |results| == 5 && results[..3] == old(results)
      ensures results[3].shape == ForcedToolChoice && !results[3].unavoidable
      ensures results[4].shape == NamedToolChoice && !results[4].unavoidable
      ensures !(results[3].ok && results[3].inconclusive) && !(results[4].ok && results[4].inconclusive)
      ensures caps == UNPROBED.(forcedToolChoice := ForcedFlag(results[3], results[4]))
    {
      var forcedOk, forcedInc := ProbeRoutable(ForcedToolChoice);
      var namedOk, namedInc := ProbeRoutable(NamedToolChoice);
      if forcedOk && namedOk {
        caps := caps.(forcedToolChoice := Some(true));
      } else if (!forcedOk && !forcedInc) || (!namedOk && !namedInc) {
        caps := caps.(forcedToolChoice := Some(false));
      }
    }

    method ProbeFormat()
      requires Done(5) && |results| == 5
      modifies this`tick, this`log, this`cooledDown, this`results, this`caps
      ensures Done(6) && old(log) <= log && |log| <= |old(log)| + 1
      ensures |results| == 6 && results[..5] == old(results)
      ensures results[5].shape == ResponseFormat && !results[5].unavoidable
      ensures !(results[5].ok && results[5].inconclusive)
      ensures caps == old(caps).(responseFormat :=
        if results[5].inconclusive then old(caps).responseFormat else Some(results[5].ok))
    {
      var formatOk, formatInc := ProbeRoutable(ResponseFormat);
      if !formatInc {
        caps := caps.(responseFormat := Some(formatOk));
      }
    }

    /** A clean reply is checked once against a turn with thinking on. */
    method Verify(ghost start: nat, ghost k: nat)
      requires Valid() && Clean(log, start, k) && |log| == start + k + 1
      requires forall i: nat :: i < k ==> Spent(log, start, i)
      requires forall i :: start <= i < |log| ==> log[i].request.Off?
      modifies this`tick, this`log, this`cooledDown
      ensures Valid() && old(log) <= log && |log| <= |old(log)| + 1 && Clean(log, start, k)
      ensures forall i: nat :: i < k ==> Spent(log, start, i)
      ensures forall i :: start <= i < |log| ==> log[i].request.Off? || log[i].request.Control?
      ensures ThenControl(log, start, k)
    {
      ghost var clean := log;
      var _, _, _, _ := Attempt(Control);
      SpentGrows(clean, log, start, k);
      assert log[start + k] == clean[start + k];
    }

    /** Thinking off: the first way whose reply shows no reasoning. */
    method ProbeThinkingOff() returns (way: Option<OffWay>)
      requires Valid()
      modifies this`tick, this`log, this`cooledDown
      ensures Valid() && Continues(old(log), log, ThinkingOff, 4)
      ensures OffTrail(log, |old(log)|, way)
    {
      ghost var start := |log|;
      way := None;
      var k := 0;
      while k < 3
        invariant 0 <= k <= 3 && Valid() && Continues(old(log), log, ThinkingOff, k) && |log| == start + k
        invariant forall i: nat :: i < k ==> Spent(log, start, i)
        invariant forall i :: start <= i < |log| ==> log[i].request.Off?
        invariant k == 3 ==> way == Some(if Definite(log[start + 2].answer) then Unsupported else AlwaysOn)
      {
        var switch := SWITCHES[k];
        ghost var before := log;
        var ok, reply, _, transient := Attempt(Off(switch));
        SpentGrows(before, log, start, k);
        if !ok && transient {
          OffBreaksOff(before, log, start, k);
          return None;
        }
        k := k + 1;
        if !ok {
          if switch.None? { way := Some(Unsupported); }
          continue;
        }
        if reply.value.Reasoned() {
          if switch.None? { way := Some(AlwaysOn); }
          continue;
        }
        way := Some(if switch == Some(DISABLED) then ByDisabled
                    else if switch == Some(BETWEEN_TOOLS) then ByBetweenTools else ByEffort);
        Verify(start, k - 1);
        OffCleared(log, start, k - 1, way);
        return way;
      }
      assert Spent(log, start, 0) && Spent(log, start, 1) && Spent(log, start, 2);
    }

    /** The lowest effort an always-on deployment accepts, lowest candidate first. */
    method ProbeFloor(candidates: seq<string>) returns (floor: Option<Option<string>>, result: Option<ShapeResult>)
      requires Valid()
      modifies this`tick, this`log, this`cooledDown
      ensures Valid() && Continues(old(log), log, ThinkingFloor, |candidates|)
      ensures FloorTrail(log, |old(log)|, candidates, floor)
      ensures result.None? <==> |log| > |old(log)| && LostReason(log[|log| - 1])
      ensures result.Some? ==> result.value.shape == ThinkingFloor && !result.value.unavoidable
      ensures result.Some? ==> (result.value.ok <==> floor.Some? && floor.value.Some?)
    {
      ghost var start := |log|;
      var k := 0;
      while k < |candidates|
        invariant 0 <= k <= |candidates| && Valid() && Continues(old(log), log, ThinkingFloor, k) && |log| == start + k
        invariant forall i: nat :: i < k ==> RefusedFloor(log, start, candidates, i)
      {
        ghost var before := log;
        var ok, _, err, transient := Attempt(Floor(candidates[k]));
        RefusedGrows(before, log, start, candidates, k);
        if ok {
          return Some(Some(candidates[k])), Some(ShapeResult(ThinkingFloor, true, false, false));
        }
        if transient {
          if k > 0 { assert RefusedFloor(log, start, candidates, k - 1) && RefusedFloor(log, start, candidates, 0); }
          // A level refused outright may be the stored floor: "no floor" is the safe record.  It
          // is not written when the failure came without a reason.
          floor := if k > 0 && err != "" then Some(None) else None;
          result := if err != "" then Some(ShapeResult(ThinkingFloor, false, false, true)) else None;
          return;
        }
        k := k + 1;
      }
      if k > 0 { assert RefusedFloor(log, start, candidates, k - 1) && RefusedFloor(log, start, candidates, 0); }
      return Some(None), Some(ShapeResult(ThinkingFloor, false, false, false));
    }

    /** The floor row: measured on an always-on deployment, "no floor" where thinking turns off. */
    method ProbeFloorRow(way: Option<OffWay>, candidates: seq<string>) returns (result: Option<ShapeResult>)
      requires Valid()
      modifies this`tick, this`log, this`cooledDown, this`caps
      ensures Valid() && Continues(old(log), log, ThinkingFloor, |candidates|)
      ensures caps == old(caps).(thinkingFloor := caps.thinkingFloor)
      ensures way == Some(AlwaysOn) ==> FloorTrail(log, |old(log)|, candidates, caps.thinkingFloor)
      ensures way != Some(AlwaysOn) ==> log == old(log)
      ensures way != Some(AlwaysOn) ==>
        caps.thinkingFloor == if way.None? then old(caps).thinkingFloor else Some(None)
      ensures result.None? <==> |log| > |old(log)| && LostReason(log[|log| - 1])
      ensures result.Some? ==> result.value.shape == ThinkingFloor && !result.value.unavoidable
    {
      if way == Some(AlwaysOn) {
        var floor;
        floor, result := ProbeFloor(candidates);
        caps := caps.(thinkingFloor := floor);
      } else if way.None? {
        result := Some(ShapeResult(ThinkingFloor, false, false, true));
      } else {
        caps := caps.(thinkingFloor := Some(None));
        result := Some(ShapeResult(ThinkingFloor, true, false, false));
      }
    }

    /** Thinking replay, for models declared to think. */
    method ProbeReplay() returns (flag: Option<Option<bool>>, result: ShapeResult)
      requires Valid()
      modifies this`tick, this`log, this`cooledDown
      ensures Valid() && Continues(old(log), log, ThinkingReplay, 2)
      ensures result.shape == ThinkingReplay && !result.unavoidable
      ensures result.inconclusive <==> flag.None?
      ensures result.Against() <==> flag == Some(Some(false))
      ensures ReplayTrail(log, |old(log)|, flag)
    {
      var onOk, reply, _, onTransient := Attempt(ReplayTurn);
      if onOk && reply.value.thinkingBlocks {
        var ok, _, _, transient := Attempt(Replay);
        result := ShapeResult(ThinkingReplay, ok, false, !ok && transient);
        flag := if ok || !transient then Some(Some(ok)) else None;
      } else if onOk {
        result, flag := ShapeResult(ThinkingReplay, true, false, false), Some(None);
      } else {
        result := ShapeResult(ThinkingReplay, false, false, onTransient);
        flag := if onTransient then None else Some(Some(false));
      }
    }
  }

  function ForcedFlag(forced: ShapeResult, named: ShapeResult): Option<bool> {
    if forced.ok && named.ok then Some(true)
    else if forced.Against() || named.Against() then Some(false) else None
  }

  /** The turn that should show a thinking block, then that block replayed, if there was one: it
      was accepted; one of the two was refused; no block came back; or nothing was learnt. */
  ghost predicate ReplayTrail(log: seq<Sent>, at: nat, flag: Option<Option<bool>>) {
    && at <= |log| <= at + 2
    && (at < |log| ==> log[at].request == ReplayTurn)
    && (|log| == at + 2 ==>
          log[at].answer.Replied? && log[at].answer.reply.thinkingBlocks && log[at + 1].request == Replay)
    && match flag
       case Some(Some(true)) => |log| == at + 2 && log[at + 1].answer.Replied?
       case Some(Some(false)) => at < |log| && Definite(log[|log| - 1].answer)
       case Some(None) => |log| == at + 1 && log[at].answer.Replied? && !log[at].answer.reply.thinkingBlocks
       case None =>
         || |log| == at
         || NoVerdict(log[|log| - 1])
         || (|log| == at + 1 && log[at].answer.Replied? && log[at].answer.reply.thinkingBlocks)
  }

  // ---- What the thinking requests show --------------------------------------------------------
  // The requests of one shape are the part of the log from an index `at` on.

  /** The ways tried, in order. */
  const SWITCHES: seq<Option<string>> := [Some(DISABLED), Some(BETWEEN_TOOLS), None]

  ghost predicate Tried(log: seq<Sent>, at: nat, k: nat) {
    k < 3 && at + k < |log| && log[at + k].request == Off(SWITCHES[k])
  }

  /** Refused, or answered by a model that still reasoned. */
  ghost predicate Spent(log: seq<Sent>, at: nat, k: nat) {
    && Tried(log, at, k)
    && var a := log[at + k].answer; Definite(a) || (a.Replied? && a.reply.Reasoned())
  }

  ghost predicate Clean(log: seq<Sent>, at: nat, k: nat) {
    Tried(log, at, k) && log[at + k].answer.Replied? && !log[at + k].answer.reply.Reasoned()
  }

  /** After the clean reply the control at most was sent. */
  ghost predicate ThenControl(log: seq<Sent>, at: nat, k: nat) {
    |log| <= at + k + 2 && (|log| == at + k + 2 ==> log[at + k + 1].request == Control)
  }

  ghost predicate NoVerdict(s: Sent) { !Definite(s.answer) && !s.answer.Replied? }

  /** The recorded way is the first one, in order, that left no reasoning; every earlier one
      was refused or did not work. */
  ghost predicate OffTrail(log: seq<Sent>, at: nat, way: Option<OffWay>) {
    && at <= |log|
    && (forall i :: at <= i < |log| ==> log[i].request.Off? || log[i].request.Control?)
    && match way
       case None =>
         || (|log| <= at + 2 && forall i: nat :: at + i < |log| ==> Spent(log, at, i))
         || (at < |log| <= at + 3 && Tried(log, at, |log| - 1 - at) && NoVerdict(log[|log| - 1])
             && forall i: nat :: at + i < |log| - 1 ==> Spent(log, at, i))
       case Some(ByDisabled) => Clean(log, at, 0) && ThenControl(log, at, 0)
       case Some(ByBetweenTools) => Spent(log, at, 0) && Clean(log, at, 1) && ThenControl(log, at, 1)
       case Some(ByEffort) => Spent(log, at, 0) && Spent(log, at, 1) && Clean(log, at, 2) && ThenControl(log, at, 2)
       case Some(AlwaysOn) =>
         && |log| == at + 3 && Spent(log, at, 0) && Spent(log, at, 1) && Spent(log, at, 2)
         && log[at + 2].answer.Replied?
       case Some(Unsupported) =>
         && |log| == at + 3 && Spent(log, at, 0) && Spent(log, at, 1) && Spent(log, at, 2)
         && Definite(log[at + 2].answer)
  }

  lemma OffBreaksOff(before: seq<Sent>, log: seq<Sent>, at: nat, k: nat)
    requires k < 3 && |before| == at + k && forall i: nat :: i < k ==> Spent(before, at, i)
    requires forall i :: at <= i < at + k ==> before[i].request.Off?
    requires log == before || (|log| == at + k + 1 && before <= log && Tried(log, at, k) && NoVerdict(log[at + k]))
    ensures OffTrail(log, at, None)
  {
    SpentGrows(before, log, at, k);
    assert forall i :: at <= i < at + k ==> log[i] == before[i];
  }

  lemma OffCleared(log: seq<Sent>, at: nat, k: nat, way: Option<OffWay>)
    requires Clean(log, at, k) && ThenControl(log, at, k) && k < 3 && forall i: nat :: i < k ==> Spent(log, at, i)
    requires forall i :: at <= i < |log| ==> log[i].request.Off? || log[i].request.Control?
    requires way == Some(if k == 0 then ByDisabled else if k == 1 then ByBetweenTools else ByEffort)
    ensures OffTrail(log, at, way)
  {
  }

  ghost predicate RefusedFloor(log: seq<Sent>, at: nat, candidates: seq<string>, k: nat) {
    && k < |candidates| && at + k < |log|
    && log[at + k].request == Floor(candidates[k]) && Definite(log[at + k].answer)
  }

  lemma SpentGrows(before: seq<Sent>, log: seq<Sent>, at: nat, k: nat)
    requires before <= log && forall i: nat :: i < k ==> Spent(before, at, i)
    ensures forall i: nat :: i < k ==> Spent(log, at, i)
  {
    forall i: nat | i < k ensures Spent(log, at, i) { assert Spent(before, at, i); }
  }

  lemma RefusedGrows(before: seq<Sent>, log: seq<Sent>, at: nat, candidates: seq<string>, k: nat)
    requires before <= log && forall i: nat :: i < k ==> RefusedFloor(before, at, candidates, i)
    ensures forall i: nat :: i < k ==> RefusedFloor(log, at, candidates, i)
  {
    forall i: nat | i < k ensures RefusedFloor(log, at, candidates, i) { assert RefusedFloor(before, at, candidates, i); }
  }

  /** The recorded floor is the first candidate accepted; "no floor" means some level was
      refused, or there was none to try, and none accepted; no record means that nothing was
      learnt, or that the last failure, whatever was refused before it, came without a reason. */
  ghost predicate FloorTrail(log: seq<Sent>, at: nat, candidates: seq<string>, floor: Option<Option<string>>) {
    && at <= |log| <= at + |candidates|
    && (forall i: nat :: at + i < |log| - 1 ==> RefusedFloor(log, at, candidates, i))
    && (at < |log| ==> log[|log| - 1].request == Floor(candidates[|log| - 1 - at]))
    && match floor
       case Some(Some(e)) =>
         at < |log| && log[|log| - 1].answer.Replied? && e == candidates[|log| - 1 - at]
       case Some(None) =>
         && (at < |log| ==> !log[|log| - 1].answer.Replied? && !LostReason(log[|log| - 1]))
         && (candidates == [] || RefusedFloor(log, at, candidates, 0))
       case None =>
         |log| == at || (NoVerdict(log[|log| - 1]) && (|log| == at + 1 || LostReason(log[|log| - 1])))
  }

  // ---- The whole probe ---------------------------------------------------------------------------

  /** The log of a probe: single-request shapes, thinking-off, floor, replay. */
  datatype Parts = Parts(off: nat, floor: nat, replay: nat)

  ghost predicate Parted(log: seq<Sent>, at: Parts) {
    && at.off <= at.floor <= at.replay <= |log|
    && (forall i :: 0 <= i < at.off ==> Rank(ShapeOf(log[i].request)) < 6)
    && (forall i :: at.replay <= i < |log| ==> ShapeOf(log[i].request) == ThinkingReplay)
  }

  /** What the thinking part of the probe did: the floor is only tried where nothing turned
      thinking off, and written as "no floor" where something did. */
  ghost predicate ThinkingTrail(log: seq<Sent>, at: Parts, candidates: seq<string>, caps: Record) {
    && Parted(log, at)
    && OffTrail(log[..at.floor], at.off, caps.thinkingOff)
    && if caps.thinkingOff == Some(AlwaysOn)
       then FloorTrail(log[..at.replay], at.floor, candidates, caps.thinkingFloor)
       else at.replay == at.floor && caps.thinkingFloor == if caps.thinkingOff.None? then None else Some(None)
  }

  ghost predicate SawSpent(log: seq<Sent>, k: nat)
    requires k < 3
  {
    exists i :: 0 <= i < |log| && log[i].request == Off(SWITCHES[k])
      && (Definite(log[i].answer) || (log[i].answer.Replied? && log[i].answer.reply.Reasoned()))
  }

  ghost predicate SawClean(log: seq<Sent>, k: nat)
    requires k < 3
  {
    exists i :: 0 <= i < |log| && log[i].request == Off(SWITCHES[k])
      && log[i].answer.Replied? && !log[i].answer.reply.Reasoned()
  }

  /** The recorded way is the first that works; the ways before it were seen not to. */
  ghost predicate FirstWay(log: seq<Sent>, way: Option<OffWay>) {
    match way
    case None => true
    case Some(ByDisabled) => SawClean(log, 0)
    case Some(ByBetweenTools) => SawSpent(log, 0) && SawClean(log, 1)
    case Some(ByEffort) => SawSpent(log, 0) && SawSpent(log, 1) && SawClean(log, 2)
    case Some(AlwaysOn) =>
      SawSpent(log, 0) && SawSpent(log, 1) && SawSpent(log, 2) && SawAccepted(log, Pair(Some(NONE), None))
    case Some(Unsupported) =>
      SawSpent(log, 0) && SawSpent(log, 1) && SawRefused(log, Pair(Some(NONE), None))
  }

  /** The recorded floor was accepted, and every lower candidate refused. */
  ghost predicate LowestFloor(log: seq<Sent>, candidates: seq<string>, floor: string) {
    exists k: nat :: k < |candidates| && candidates[k] == floor
      && SawAccepted(log, Pair(Some(floor), None))
      && forall i: nat :: i < k ==> SawRefused(log, Pair(Some(candidates[i]), None))
  }

  lemma SpentSeen(log: seq<Sent>, n: nat, at: nat, k: nat)
    requires n <= |log| && Spent(log[..n], at, k)
    ensures SawSpent(log, k)
  {
    assert log[..n][at + k] == log[at + k];
  }

  lemma CleanSeen(log: seq<Sent>, n: nat, at: nat, k: nat)
    requires n <= |log| && Clean(log[..n], at, k)
    ensures SawClean(log, k) && SawAccepted(log, Pair(Some(NONE), SWITCHES[k]))
  {
    assert log[..n][at + k] == log[at + k];
    assert PairOf(log[at + k].request) == Pair(Some(NONE), SWITCHES[k]);
  }

  lemma OffWaySeen(log: seq<Sent>, at: Parts, candidates: seq<string>, caps: Record)
    requires ThinkingTrail(log, at, candidates, caps)
    ensures FirstWay(log, caps.thinkingOff)
    ensures caps.thinkingOff == Some(ByDisabled) ==> SawAccepted(log, Pair(Some(NONE), Some(DISABLED)))
    ensures caps.thinkingOff == Some(ByBetweenTools) ==> SawAccepted(log, Pair(Some(NONE), Some(BETWEEN_TOOLS)))
    ensures caps.thinkingOff == Some(ByEffort) ==> SawAccepted(log, Pair(Some(NONE), None))
  {
    var n, off := at.floor, log[..at.floor];
    forall k: nat | k < 3 && Spent(off, at.off, k) ensures SawSpent(log, k) { SpentSeen(log, n, at.off, k); }
    forall k: nat | k < 3 && Clean(off, at.off, k)
      ensures SawClean(log, k) && SawAccepted(log, Pair(Some(NONE), SWITCHES[k]))
    {
      CleanSeen(log, n, at.off, k);
    }
    if caps.thinkingOff == Some(AlwaysOn) || caps.thinkingOff == Some(Unsupported) {
      assert off[at.off + 2] == log[at.off + 2];
      assert PairOf(log[at.off + 2].request) == Pair(Some(NONE), None);
    }
  }

  /** Which refusals the log can hold at all. */
  lemma RefusalsLocated(log: seq<Sent>, at: Parts, candidates: seq<string>, caps: Record, p: Pair)
    requires ThinkingTrail(log, at, candidates, caps) && SawRefused(log, p)
    ensures p.effort.Some?
    ensures caps.thinkingOff.None? ==> p.effort == Some(NONE) && p.thinking.Some?
    ensures caps.thinkingOff == Some(AlwaysOn) && caps.thinkingFloor.None? ==> p.thinking.Some? || FloorLost(log)
  {
    var i :| 0 <= i < |log| && (log[i].request.Off? || log[i].request.Floor?)
      && PairOf(log[i].request) == p && Definite(log[i].answer);
    assert at.off <= i < at.replay;
    if i < at.floor {
      assert log[..at.floor][i] == log[i];
      OffRefusal(log[..at.floor], at.off, caps.thinkingOff, i);
    } else {
      var last := at.replay - 1;
      assert log[..at.replay][i] == log[i] && log[..at.replay][last] == log[last];
      assert LostReason(log[last]) ==> FloorLost(log);
    }
  }

  lemma OffRefusal(log: seq<Sent>, at: nat, way: Option<OffWay>, i: nat)
    requires OffTrail(log, at, way) && at <= i < |log| && Definite(log[i].answer) && log[i].request.Off?
    ensures way.None? || way == Some(AlwaysOn) ==> log[i].request.switch.Some?
  {
    if way.None? || way == Some(AlwaysOn) {
      var k: nat := i - at;
      if way == Some(AlwaysOn) {
        assert Spent(log, at, 0) && Spent(log, at, 1) && Spent(log, at, 2);
      } else if |log| <= at + 2 {
        assert Spent(log, at, k);
      } else {
        assert k < 2 ==> Spent(log, at, k);
      }
    }
  }

  lemma FloorSeen(log: seq<Sent>, at: Parts, candidates: seq<string>, caps: Record)
    requires ThinkingTrail(log, at, candidates, caps)
    requires caps.thinkingFloor.Some? && caps.thinkingFloor.value.Some?
    ensures caps.thinkingOff == Some(AlwaysOn) && LowestFloor(log, candidates, caps.thinkingFloor.value.value)
    ensures SawAccepted(log, Pair(caps.thinkingFloor.value, None))
  {
    var tail, e := log[..at.replay], caps.thinkingFloor.value.value;
    var k: nat := |tail| - 1 - at.floor;
    assert tail[|tail| - 1] == log[at.floor + k];
    assert PairOf(log[at.floor + k].request) == Pair(Some(e), None);
    forall i: nat | i < k ensures SawRefused(log, Pair(Some(candidates[i]), None)) {
      assert RefusedFloor(tail, at.floor, candidates, i);
      assert tail[at.floor + i] == log[at.floor + i];
      assert PairOf(log[at.floor + i].request) == Pair(Some(candidates[i]), None);
    }
  }

  lemma EvidenceHolds(log: seq<Sent>, at: Parts, candidates: seq<string>, caps: Record)
    requires ThinkingTrail(log, at, candidates, caps)
    ensures OffEvidence(log, caps)
  {
    OffWaySeen(log, at, candidates, caps);
    forall p | SawRefused(log, p)
      ensures p.effort.Some?
      ensures caps.thinkingOff.None? ==> p.effort == Some(NONE) && p.thinking.Some?
    {
      RefusalsLocated(log, at, candidates, caps, p);
    }
    if caps.thinkingFloor.Some? && caps.thinkingFloor.value.Some? { FloorSeen(log, at, candidates, caps); }
  }

  ghost predicate ProbedBy(log: seq<Sent>, candidates: seq<string>, caps: Record) {
    exists at: Parts :: ThinkingTrail(log, at, candidates, caps)
  }

  /** From probe to hook: a thinking-off request rewritten with the freshly written record is
      never a pair this probe saw definitely refused. */
  lemma {:induction false} FreshRecordIsSound(log: seq<Sent>, candidates: seq<string>, caps: Record, asked: Pair)
    requires PairDecides(log) && ProbedBy(log, candidates, caps) && asked.effort == Some(NONE)
    ensures !SawRefused(log, RewriteThinking(asked, caps))
  {
    var at :| ThinkingTrail(log, at, candidates, caps);
    EvidenceHolds(log, at, candidates, caps);
  }

  /** A lost floor has no row, so nothing stored is kept for it. */
  lemma {:induction false} LostFloorHasNoRow(results: seq<ShapeResult>, supportsReasoning: bool)
    requires Shapes(results) == Reported(supportsReasoning, true)
    ensures ThinkingFloor !in Unmeasured(results)
  {
    forall r | r in results ensures r.shape != ThinkingFloor {
      ShapeListed(results, r);
      assert ThinkingFloor !in SHAPES[..7];
    }
  }

  lemma {:induction false} ShapeListed(results: seq<ShapeResult>, r: ShapeResult)
    requires r in results
    ensures r.shape in Shapes(results)
  {
    var last := |results| - 1;
    if r != results[last] { ShapeListed(results[..last], r); }
  }

  /** Where thinking turns off, or was not measured, only a stored switch can be stale. */
  lemma MergedSwitch(log: seq<Sent>, prior: Record, caps: Record, kept: set<Shape>, asked: Pair)
    requires PairDecides(log) && OffEvidence(log, caps) && asked.effort == Some(NONE)
    requires caps.thinkingOff != Some(AlwaysOn) && (caps.thinkingOff.None? ==> ThinkingOff in kept)
    ensures SawRefused(log, RewriteThinking(asked, Merge(prior, caps, kept))) <==> StaleSwitch(log, prior, caps)
  {
    if caps.thinkingOff.Some? { assert RewriteThinking(asked, Merge(prior, caps, kept)) == RewriteThinking(asked, caps); }
  }

  /** Where it is always on, only a floor that was kept can. */
  lemma MergedFloor(log: seq<Sent>, prior: Record, caps: Record, kept: set<Shape>, asked: Pair)
    requires PairDecides(log) && OffEvidence(log, caps) && asked.effort == Some(NONE)
    requires caps.thinkingOff == Some(AlwaysOn)
    ensures SawRefused(log, RewriteThinking(asked, Merge(prior, caps, kept))) <==>
      ThinkingFloor in kept && StaleFloor(log, prior, caps)
  {
    if caps.thinkingFloor.Some? { assert RewriteThinking(asked, Merge(prior, caps, kept)) == RewriteThinking(asked, caps); }
  }

  /** A record merged over a stored one goes on sending what this probe saw refused in exactly two
      cases: a stored switch was refused before the probe was cut short; or a stored floor was,
      its own row was lost, and the whole stored record was kept. */
  lemma {:induction false} MergedRecordIsSound(
      log: seq<Sent>, candidates: seq<string>, prior: Record, report: Report, supportsReasoning: bool,
      ownDeclaration: bool, asked: Pair)
    requires PairDecides(log) && ProbedBy(log, candidates, report.caps) && asked.effort == Some(NONE)
    requires |report.results| > 6 && ThinkingRows(report.results[6..], report.caps)
    requires Shapes(report.results) == Reported(supportsReasoning, FloorLost(log))
    ensures var merged := Merge(prior, report.caps, Kept(report.results, ownDeclaration));
      SawRefused(log, RewriteThinking(asked, merged)) <==>
        StaleSwitch(log, prior, report.caps) || (!ownDeclaration && StaleFloor(log, prior, report.caps))
  {
    var caps, row, kept := report.caps, report.results[6], Kept(report.results, ownDeclaration);
    assert row == report.results[6..][0] && row in report.results;
    assert SHAPES[6] == ThinkingOff && SHAPES[7] == ThinkingFloor;
    assert caps.thinkingOff.None? ==> ThinkingOff in kept;
    var at :| ThinkingTrail(log, at, candidates, caps);
    EvidenceHolds(log, at, candidates, caps);
    if caps.thinkingOff != Some(AlwaysOn) {
      MergedSwitch(log, prior, caps, kept, asked);
    } else {
      MergedFloor(log, prior, caps, kept, asked);
      if ownDeclaration && FloorLost(log) { LostFloorHasNoRow(report.results, supportsReasoning); }
      if StaleFloor(log, prior, caps) { RefusalsLocated(log, at, candidates, caps, Pair(prior.thinkingFloor.value, None)); }
    }
  }

  /** The recorded way is the first that works, and a recorded floor the lowest accepted. */
  lemma {:induction false} RecordIsFirstThatWorks(log: seq<Sent>, candidates: seq<string>, caps: Record)
    requires ProbedBy(log, candidates, caps)
    ensures FirstWay(log, caps.thinkingOff)
    ensures caps.thinkingFloor.Some? && caps.thinkingFloor.value.Some? ==>
      caps.thinkingOff == Some(AlwaysOn) && LowestFloor(log, candidates, caps.thinkingFloor.value.value)
  {
    var at :| ThinkingTrail(log, at, candidates, caps);
    OffWaySeen(log, at, candidates, caps);
    if caps.thinkingFloor.Some? && caps.thinkingFloor.value.Some? { FloorSeen(log, at, candidates, caps); }
  }

  /** A model is only rejected on a definite refusal of a shape every turn sends. */
  lemma {:induction false} RejectedMeansRefused(log: seq<Sent>, results: seq<ShapeResult>, k: nat)
    requires FairResults(log, results) && k < |results| && results[k].Against() && Rank(results[k].shape) < 3
    ensures exists i :: 0 <= i < |log| && log[i].request == Plain(results[k].shape) && SaidNo(log[i].answer)
  {
    var r := Plain(results[k].shape);
    assert Fair(log, r, results[k].ok, results[k].inconclusive);
    var i :| 0 <= i < |log| && log[i].request == r && Failed(log[i]);
    DefiniteMeans(log[i].answer);
  }

  /** The levels tried as floor: the first two declared, else two fixed ones. */
  function Candidates(declared: seq<string>): (c: seq<string>)
    ensures 1 <= |c| <= 2
  {
    if declared == [] then ["minimal", "low"] else if |declared| <= 2 then declared else declared[..2]
  }

  /** The shapes reported: the plan, but for a floor whose failure came without a reason. */
  function Reported(supportsReasoning: bool, floorLost: bool): seq<Shape> {
    SHAPES[..7] + (if floorLost then [] else [ThinkingFloor]) + (if supportsReasoning then [ThinkingReplay] else [])
  }

  lemma {:induction false} ReportIsPlanUnlessFloorLost(supportsReasoning: bool, floorLost: bool)
    ensures Reported(supportsReasoning, floorLost) == PlannedShapes(supportsReasoning) <==> !floorLost
  {
    var r := Reported(supportsReasoning, floorLost);
    assert !floorLost ==> r == PlannedShapes(supportsReasoning);
    assert floorLost ==> |r| == |PlannedShapes(supportsReasoning)| - 1;
  }

  lemma ShapesSnoc(results: seq<ShapeResult>, r: ShapeResult)
    ensures Shapes(results + [r]) == Shapes(results) + [r.shape]
  {
    assert (results + [r])[..|results|] == results;
  }

  lemma {:induction false} FirstSixShapes(results: seq<ShapeResult>)
    requires |results| == 6 && forall k :: 0 <= k < 6 ==> results[k].shape == SHAPES[k]
    ensures Shapes(results) == SHAPES[..6]
  {
    var r := results;
    forall k | 0 <= k < 6 ensures Shapes(r[..k + 1]) == Shapes(r[..k]) + [r[k].shape] {
      ShapesSnoc(r[..k], r[k]);
      assert r[..k] + [r[k]] == r[..k + 1];
    }
    assert r[..0] == [] && r[..6] == r;
    assert Shapes(r[..3]) == SHAPES[..3];
    assert Shapes(r[..6]) == SHAPES[..6];
  }

  lemma FloorRequestRefused(log: seq<Sent>, at: Parts, candidates: seq<string>, caps: Record, i: nat)
    requires ThinkingTrail(log, at, candidates, caps) && at.floor <= i < at.replay - 1
    ensures Definite(log[i].answer)
  {
    assert RefusedFloor(log[..at.replay], at.floor, candidates, i - at.floor);
    assert log[..at.replay][i] == log[i];
  }

  lemma NoFloorBefore(log: seq<Sent>, at: Parts, candidates: seq<string>, caps: Record, i: nat)
    requires ThinkingTrail(log, at, candidates, caps) && i < at.floor
    ensures !log[i].request.Floor?
  {
    if at.off <= i { assert log[..at.floor][i] == log[i]; }
  }

  /** Only the last floor request can have lost its reason. */
  lemma {:induction false} FloorLostLast(log: seq<Sent>, at: Parts, candidates: seq<string>, caps: Record)
    requires ThinkingTrail(log, at, candidates, caps)
    ensures FloorLost(log) <==> at.floor < at.replay && LostReason(log[at.replay - 1])
  {
    if at.floor < at.replay {
      assert log[..at.replay][at.replay - 1] == log[at.replay - 1];
    }
    if FloorLost(log) {
      var i: nat :| i < |log| && log[i].request.Floor? && LostReason(log[i]);
      if i < at.floor { NoFloorBefore(log, at, candidates, caps, i); }
      if at.floor <= i < at.replay - 1 { FloorRequestRefused(log, at, candidates, caps, i); }
    }
  }

  /** The flags of the single-request shapes, read off the log. */
  ghost predicate PlainRecord(log: seq<Sent>, caps: Record) {
    && (caps.forcedToolChoice == Some(true) <==>
          Seen(log, Plain(ForcedToolChoice), Passed) && Seen(log, Plain(NamedToolChoice), Passed))
    && (caps.forcedToolChoice == Some(false) <==>
          Seen(log, Plain(ForcedToolChoice), Failed) || Seen(log, Plain(NamedToolChoice), Failed))
    && (caps.responseFormat == Some(true) <==> Seen(log, Plain(ResponseFormat), Passed))
    && (caps.responseFormat == Some(false) <==> Seen(log, Plain(ResponseFormat), Failed))
  }

  /** `after` continues `before` with thinking requests only. */
  ghost predicate ThinksOn(before: seq<Sent>, after: seq<Sent>) {
    before <= after && forall i :: |before| <= i < |after| ==> Rank(ShapeOf(after[i].request)) >= 6
  }

  lemma PlainUnaffected(before: seq<Sent>, after: seq<Sent>, r: Request, p: Sent -> bool)
    requires ThinksOn(before, after) && Rank(ShapeOf(r)) < 6
    ensures Seen(after, r, p) <==> Seen(before, r, p)
  {
    if Seen(before, r, p) {
      var i :| 0 <= i < |before| && before[i].request == r && p(before[i]);
      assert after[i] == before[i];
    }
    if Seen(after, r, p) {
      var i :| 0 <= i < |after| && after[i].request == r && p(after[i]);
      assert i < |before| && before[i] == after[i];
    }
  }

  lemma PlainRecordKept(before: seq<Sent>, after: seq<Sent>, caps: Record, caps': Record)
    requires ThinksOn(before, after) && PlainRecord(before, caps)
    requires caps'.forcedToolChoice == caps.forcedToolChoice && caps'.responseFormat == caps.responseFormat
    ensures PlainRecord(after, caps')
  {
    PlainUnaffected(before, after, Plain(ForcedToolChoice), Passed);
    PlainUnaffected(before, after, Plain(ForcedToolChoice), Failed);
    PlainUnaffected(before, after, Plain(NamedToolChoice), Passed);
    PlainUnaffected(before, after, Plain(NamedToolChoice), Failed);
    PlainUnaffected(before, after, Plain(ResponseFormat), Passed);
    PlainUnaffected(before, after, Plain(ResponseFormat), Failed);
  }

  lemma FairKept(before: seq<Sent>, after: seq<Sent>, results: seq<ShapeResult>, more: seq<ShapeResult>)
    requires ThinksOn(before, after) && FairResults(before, results)
    requires forall k :: 0 <= k < |more| ==> Rank(more[k].shape) >= 6
    ensures FairResults(after, results + more)
  {
    var all := results + more;
    forall k | 0 <= k < |all| && Rank(all[k].shape) < 6
      ensures Fair(after, Plain(all[k].shape), all[k].ok, all[k].inconclusive)
    {
      assert k < |results| && all[k] == results[k];
      PlainUnaffected(before, after, Plain(all[k].shape), Passed);
      PlainUnaffected(before, after, Plain(all[k].shape), Failed);
    }
  }

  lemma PlainFlags(log: seq<Sent>, results: seq<ShapeResult>, caps: Record)
    requires |results| == 6 && forall k :: 3 <= k < 6 ==> results[k].shape == SHAPES[k]
    requires FairResults(log, results)
    requires forall k :: 3 <= k < 6 ==> !(results[k].ok && results[k].inconclusive)
    requires caps.forcedToolChoice == ForcedFlag(results[3], results[4])
    requires caps.responseFormat == if results[5].inconclusive then None else Some(results[5].ok)
    ensures PlainRecord(log, caps)
  {
    assert Fair(log, Plain(ForcedToolChoice), results[3].ok, results[3].inconclusive);
    assert Fair(log, Plain(NamedToolChoice), results[4].ok, results[4].inconclusive);
    assert Fair(log, Plain(ResponseFormat), results[5].ok, results[5].inconclusive);
  }

  lemma SixResults(three: seq<ShapeResult>, five: seq<ShapeResult>, six: seq<ShapeResult>)
    requires |three| == 3 && forall k :: 0 <= k < 3 ==> three[k].shape == SHAPES[k] && three[k].unavoidable
    requires |five| == 5 && five[..3] == three && forall k :: 3 <= k < 5 ==> five[k].shape == SHAPES[k] && !five[k].unavoidable
    requires |six| == 6 && six[..5] == five && six[5].shape == ResponseFormat && !six[5].unavoidable
    ensures forall k :: 0 <= k < 6 ==> six[k].shape == SHAPES[k] && (six[k].unavoidable <==> k < 3)
    ensures six[3] == five[3] && six[4] == five[4]
  {
    assert forall k :: 0 <= k < 5 ==> six[k] == five[k];
    assert forall k :: 0 <= k < 3 ==> five[k] == three[k];
  }

  /** Everything that needs one request. */
  method ProbeSingles(p: Prober)
    requires p.Done(0) && p.results == [] && p.log == [] && p.caps == UNPROBED
    modifies p
    ensures p.Done(6) && |p.log| <= 6 && |p.results| == 6 && Shapes(p.results) == SHAPES[..6]
    ensures forall k :: 0 <= k < 6 ==> (p.results[k].unavoidable <==> Rank(p.results[k].shape) < 3)
    ensures PlainRecord(p.log, p.caps)
    ensures p.caps.thinkingOff.None? && p.caps.thinkingFloor.None? && p.caps.thinkingReplay.None?
  {
    p.ProbeUnavoidable();
    ghost var three := p.results;
    p.ProbeForced();
    ghost var five := p.results;
    p.ProbeFormat();
    SinglesReported(three, five, p.results, p.log, p.caps);
  }

  lemma {:induction false} SinglesReported(
      three: seq<ShapeResult>, five: seq<ShapeResult>, six: seq<ShapeResult>, log: seq<Sent>, caps: Record)
    requires |three| == 3 && forall k :: 0 <= k < 3 ==> three[k].shape == SHAPES[k] && three[k].unavoidable
    requires |five| == 5 && five[..3] == three && |six| == 6 && six[..5] == five
    requires five[3].shape == ForcedToolChoice && five[4].shape == NamedToolChoice
    requires !five[3].unavoidable && !five[4].unavoidable && six[5].shape == ResponseFormat && !six[5].unavoidable
    requires FairResults(log, six) && !(five[3].ok && five[3].inconclusive) && !(five[4].ok && five[4].inconclusive)
    requires !(six[5].ok && six[5].inconclusive)
    requires caps.forcedToolChoice == ForcedFlag(five[3], five[4])
    requires caps.responseFormat == if six[5].inconclusive then None else Some(six[5].ok)
    ensures Shapes(six) == SHAPES[..6] && PlainRecord(log, caps)
    ensures forall k :: 0 <= k < 6 ==> (six[k].unavoidable <==> Rank(six[k].shape) < 3)
  {
    SixResults(three, five, six);
    FirstSixShapes(six);
    PlainFlags(log, six, caps);
  }

  /** Thinking off, and the floor where nothing turns it off. */
  method ProbeThinking(p: Prober, candidates: seq<string>) returns (more: seq<ShapeResult>, ghost at: Parts)
    requires p.Done(6) && 1 <= |candidates| <= 2
    requires p.caps.thinkingOff.None? && p.caps.thinkingFloor.None?
    modifies p`tick, p`log, p`cooledDown, p`caps
    ensures p.Valid() && ThinksOn(old(p.log), p.log) && |p.log| <= |old(p.log)| + 5
    ensures p.caps == old(p.caps).(thinkingOff := p.caps.thinkingOff, thinkingFloor := p.caps.thinkingFloor)
    ensures at.replay == |p.log| && ThinkingTrail(p.log, at, candidates, p.caps)
    ensures |more| <= 2 && ThinkingRows(more, p.caps) && (|more| == 2 ==> more[1].shape == ThinkingFloor)
    ensures |more| == 1 <==> FloorLost(p.log)
  {
    ghost var off := |p.log|;
    ghost var before := p.log;
    var way := p.ProbeThinkingOff();
    ghost var offLog := p.log;
    p.caps := p.caps.(thinkingOff := way);
    more := [OffRow(way)];
    var result := p.ProbeFloorRow(way, candidates);
    if result.Some? { more := more + [result.value]; }
    at := Parts(off, |offLog|, |p.log|);
    RowsAgree(more, way, result, p.caps);
    ThinkingDone(before, offLog, p.log, at, candidates, p.caps);
  }

  lemma RowsAgree(more: seq<ShapeResult>, way: Option<OffWay>, result: Option<ShapeResult>, caps: Record)
    requires caps.thinkingOff == way
    requires result.Some? ==> result.value.shape == ThinkingFloor && !result.value.unavoidable
    requires more == [OffRow(way)] + if result.Some? then [result.value] else []
    ensures |more| <= 2 && ThinkingRows(more, caps) && (|more| == 2 ==> more[1].shape == ThinkingFloor)
    ensures |more| == 1 <==> result.None?
  {
  }

  function OffRow(way: Option<OffWay>): ShapeResult {
    ShapeResult(ThinkingOff, way in {Some(ByDisabled), Some(ByBetweenTools), Some(ByEffort)}, false, way.None?)
  }

  lemma ThinkingDone(before: seq<Sent>, offLog: seq<Sent>, log: seq<Sent>, at: Parts, candidates: seq<string>, caps: Record)
    requires Below(before, 6) && Continues(before, offLog, ThinkingOff, 4)
    requires Continues(offLog, log, ThinkingFloor, |candidates|)
    requires at == Parts(|before|, |offLog|, |log|)
    requires OffTrail(offLog, at.off, caps.thinkingOff)
    requires if caps.thinkingOff == Some(AlwaysOn) then FloorTrail(log, at.floor, candidates, caps.thinkingFloor)
             else log == offLog && caps.thinkingFloor == if caps.thinkingOff.None? then None else Some(None)
    ensures ThinksOn(before, log) && ThinkingTrail(log, at, candidates, caps)
    ensures |log| <= |before| + Larger(4, 3 + |candidates|)
    ensures FloorLost(log) <==> at.floor < at.replay && LostReason(log[at.replay - 1])
  {
    TrailSoFar(before, offLog, log, at, candidates, caps);
    FloorLostLast(log, at, candidates, caps);
    assert forall i :: |before| <= i < |offLog| ==> log[i] == offLog[i];
  }

  function Larger(a: nat, b: nat): nat { if a < b then b else a }

  lemma TrailSoFar(before: seq<Sent>, offLog: seq<Sent>, log: seq<Sent>, at: Parts, candidates: seq<string>, caps: Record)
    requires Below(before, 6) && Continues(before, offLog, ThinkingOff, 4) && offLog <= log
    requires at == Parts(|before|, |offLog|, |log|)
    requires OffTrail(offLog, at.off, caps.thinkingOff)
    requires if caps.thinkingOff == Some(AlwaysOn) then FloorTrail(log, at.floor, candidates, caps.thinkingFloor)
             else log == offLog && caps.thinkingFloor == if caps.thinkingOff.None? then None else Some(None)
    ensures ThinkingTrail(log, at, candidates, caps)
  {
    assert log[..at.floor] == offLog && log[..at.replay] == log;
    assert forall i :: 0 <= i < |before| ==> log[i] == before[i];
  }

  /** The thinking rows agree with the record. */
  ghost predicate ThinkingRows(more: seq<ShapeResult>, caps: Record) {
    && 1 <= |more| <= 3
    && more[0].shape == ThinkingOff
    && (more[0].inconclusive <==> caps.thinkingOff.None?)
    && (more[0].ok <==> caps.thinkingOff in {Some(ByDisabled), Some(ByBetweenTools), Some(ByEffort)})
    && forall k :: 0 <= k < |more| ==> !more[k].unavoidable && Rank(more[k].shape) >= 6
  }

  lemma {:induction false} ReportShapes(six: seq<ShapeResult>, more: seq<ShapeResult>, last: seq<ShapeResult>, lost: bool)
    requires Shapes(six) == SHAPES[..6]
    requires 1 <= |more| <= 2 && more[0].shape == ThinkingOff && (|more| == 2 ==> more[1].shape == ThinkingFloor)
    requires |more| == 1 <==> lost
    requires |last| <= 1 && (|last| == 1 ==> last[0].shape == ThinkingReplay)
    ensures Shapes(six + more + last) == Reported(|last| == 1, lost)
  {
    ShapesSnoc(six, more[0]);
    var all := six + [more[0]];
    if |more| == 2 {
      ShapesSnoc(all, more[1]);
      all := all + [more[1]];
    }
    assert all == six + more;
    if |last| == 1 { ShapesSnoc(all, last[0]); }
    assert six + more + last == if |last| == 1 then all + [last[0]] else all;
  }

  /** Everything but the replay. */
  method ProbeWithoutReplay(p: Prober, candidates: seq<string>)
      returns (six: seq<ShapeResult>, more: seq<ShapeResult>, ghost at: Parts)
    requires p.Done(0) && p.results == [] && p.log == [] && p.caps == UNPROBED && 1 <= |candidates| <= 2
    modifies p
    ensures p.Valid() && |p.log| <= 11 && at.replay == |p.log| && ThinkingTrail(p.log, at, candidates, p.caps)
    ensures PlainRecord(p.log, p.caps) && p.caps.thinkingReplay.None? && FairResults(p.log, six + more)
    ensures |six| == 6 && Shapes(six) == SHAPES[..6]
    ensures forall k :: 0 <= k < 6 ==> (six[k].unavoidable <==> Rank(six[k].shape) < 3)
    ensures |more| <= 2 && ThinkingRows(more, p.caps) && (|more| == 2 ==> more[1].shape == ThinkingFloor)
    ensures |more| == 1 <==> FloorLost(p.log)
  {
    ProbeSingles(p);
    six := p.results;
    ghost var singles, caps := p.log, p.caps;
    more, at := ProbeThinking(p, candidates);
    PlainRecordKept(singles, p.log, caps, p.caps);
    FairKept(singles, p.log, six, more);
  }

  method ProbeModel(world: World, supportsReasoning: bool, declared: seq<string>)
      returns (report: Report, log: seq<Sent>)
    ensures |log| <= 13 && StopsAtCooldown(log)
    ensures Shapes(report.results) == Reported(supportsReasoning, FloorLost(log))
    ensures FairResults(log, report.results) && PlainRecord(log, report.caps)
    ensures forall k :: 0 <= k < |report.results| ==>
      (report.results[k].unavoidable <==> Rank(report.results[k].shape) < 3)
    ensures |report.results| > 6 && ThinkingRows(report.results[6..], report.caps)
    ensures ProbedBy(log, Candidates(declared), report.caps)
    ensures ReplayVerdict(log, supportsReasoning, report.caps.thinkingReplay)
  {
    var p := new Prober(world);
    var six, more;
    ghost var at;
    six, more, at := ProbeWithoutReplay(p, Candidates(declared));
    if !supportsReasoning {
      NoReplayYet(p.log, at, Candidates(declared), p.caps);
      ResultsInOrder(six, more, [], FloorLost(p.log), p.caps);
      assert more + [] == more;
      return Report(six + more, p.caps), p.log;
    }
    var result := AddReplay(p, at, Candidates(declared), six, more);
    ResultsInOrder(six, more, [result], FloorLost(p.log), p.caps);
    return Report(six + (more + [result]), p.caps), p.log;
  }

  /** No replay was asked for. */
  ghost predicate NoReplayIn(log: seq<Sent>) {
    forall i :: 0 <= i < |log| ==> log[i].request != ReplayTurn && log[i].request != Replay
  }

  /** The replay was measured after everything else, or not at all. */
  ghost predicate ReplayVerdict(log: seq<Sent>, supportsReasoning: bool, flag: Option<Option<bool>>) {
    if supportsReasoning then exists at: nat :: at <= |log| && NoReplayIn(log[..at]) && ReplayTrail(log, at, flag)
    else NoReplayIn(log) && flag.None?
  }

  lemma NoReplayYet(log: seq<Sent>, at: Parts, candidates: seq<string>, caps: Record)
    requires ThinkingTrail(log, at, candidates, caps) && at.replay == |log|
    ensures NoReplayIn(log)
  {
    forall i | 0 <= i < |log| ensures log[i].request != ReplayTurn && log[i].request != Replay {
      if at.off <= i < at.floor { assert log[..at.floor][i] == log[i]; }
      if at.floor <= i { FloorRequest(log, at, candidates, caps, i); }
    }
  }

  lemma FloorRequest(log: seq<Sent>, at: Parts, candidates: seq<string>, caps: Record, i: nat)
    requires ThinkingTrail(log, at, candidates, caps) && at.floor <= i < at.replay
    ensures caps.thinkingOff == Some(AlwaysOn) && i - at.floor < |candidates|
    ensures log[i].request == Floor(candidates[i - at.floor])
  {
    var tail := log[..at.replay];
    assert tail[i] == log[i];
    if i < at.replay - 1 { assert RefusedFloor(tail, at.floor, candidates, i - at.floor); }
  }

  /** The replay, after everything else. */
  method AddReplay(p: Prober, ghost at: Parts, ghost candidates: seq<string>, ghost six: seq<ShapeResult>,
      ghost more: seq<ShapeResult>) returns (result: ShapeResult)
    requires p.Valid() && at.replay == |p.log| && ThinkingTrail(p.log, at, candidates, p.caps)
    requires PlainRecord(p.log, p.caps) && FairResults(p.log, six + more)
    modifies p
    ensures p.Valid() && old(p.log) <= p.log && |p.log| <= |old(p.log)| + 2 && (FloorLost(p.log) <==> FloorLost(old(p.log)))
    ensures p.caps == old(p.caps).(thinkingReplay := p.caps.thinkingReplay)
    ensures ProbedBy(p.log, candidates, p.caps) && PlainRecord(p.log, p.caps)
    ensures FairResults(p.log, six + (more + [result])) && result.shape == ThinkingReplay && !result.unavoidable
    ensures ReplayVerdict(p.log, true, p.caps.thinkingReplay)
  {
    NoReplayYet(p.log, at, candidates, p.caps);
    ghost var before, caps := p.log, p.caps;
    var flag;
    flag, result := p.ProbeReplay();
    p.caps := p.caps.(thinkingReplay := flag);
    ReplayAppended(before, p.log, at, candidates, caps, p.caps, six, more, result);
    assert p.log[..|before|] == before;
  }

  lemma ReplayAppended(before: seq<Sent>, log: seq<Sent>, at: Parts, candidates: seq<string>, caps: Record,
      caps': Record, six: seq<ShapeResult>, more: seq<ShapeResult>, result: ShapeResult)
    requires Continues(before, log, ThinkingReplay, 2) && at.replay == |before|
    requires ThinkingTrail(before, at, candidates, caps) && PlainRecord(before, caps)
    requires FairResults(before, six + more) && result.shape == ThinkingReplay
    requires caps' == caps.(thinkingReplay := caps'.thinkingReplay)
    ensures ProbedBy(log, candidates, caps') && PlainRecord(log, caps')
    ensures FairResults(log, six + (more + [result])) && (FloorLost(log) <==> FloorLost(before))
  {
    assert ThinksOn(before, log);
    PlainRecordKept(before, log, caps, caps');
    FairKept(before, log, six + more, [result]);
    assert six + more + [result] == six + (more + [result]);
    TrailExtends(before, log, at, candidates, caps, caps');
  }

  lemma {:induction false} ResultsInOrder(
      six: seq<ShapeResult>, more: seq<ShapeResult>, last: seq<ShapeResult>, lost: bool, caps: Record)
    requires |six| == 6 && Shapes(six) == SHAPES[..6]
    requires forall k :: 0 <= k < 6 ==> (six[k].unavoidable <==> Rank(six[k].shape) < 3)
    requires |more| <= 2 && ThinkingRows(more, caps) && (|more| == 2 ==> more[1].shape == ThinkingFloor)
    requires |more| == 1 <==> lost
    requires |last| <= 1 && (|last| == 1 ==> last[0].shape == ThinkingReplay && !last[0].unavoidable)
    ensures var all := six + (more + last);
      && Shapes(all) == Reported(|last| == 1, lost)
      && (forall k :: 0 <= k < |all| ==> (all[k].unavoidable <==> Rank(all[k].shape) < 3))
      && |all| > 6 && ThinkingRows(all[6..], caps)
  {
    var tail := more + last;
    ReportShapes(six, more, last, lost);
    assert six + more + last == six + tail;
    assert (six + tail)[6..] == tail;
    assert forall k :: 6 <= k < |six + tail| ==> (six + tail)[k] == tail[k - 6];
    assert forall k :: 0 <= k < |tail| ==> !tail[k].unavoidable && Rank(tail[k].shape) >= 3;
  }

  /** Replay requests at the end change nothing the thinking part said. */
  lemma TrailExtends(before: seq<Sent>, log: seq<Sent>, at: Parts, candidates: seq<string>, caps: Record, caps': Record)
    requires ThinkingTrail(before, at, candidates, caps) && at.replay == |before|
    requires Continues(before, log, ThinkingReplay, 2)
    requires caps'.thinkingOff == caps.thinkingOff && caps'.thinkingFloor == caps.thinkingFloor
    ensures ThinkingTrail(log, at, candidates, caps')
    ensures FloorLost(log) <==> FloorLost(before)
  {
    assert log[..at.floor] == before[..at.floor] && log[..at.replay] == before[..at.replay];
    assert forall i :: 0 <= i < |before| ==> log[i] == before[i];
    FloorLostLast(before, at, candidates, caps);
    FloorLostLast(log, at, candidates, caps');
  }

  lemma NoCooldownInShort(message: string)
    requires |message| < 10
    ensures !IsCooldown(Refused(message, Some(400))) && !IsCooldown(Refused(message, Some(429)))
  {
    assert |"No deployments available"| > 10 && |"cooldown_list"| > 10;
  }

  /** The stale switch is real: `disabled` refused outright, then a rate limit.  Nothing is
      recorded, a stored `disabled` survives the merge, and the hook goes on sending it. */
  lemma {:induction false} StaleSwitchHappens(prior: Record) returns (log: seq<Sent>)
    requires prior.thinkingOff == Some(ByDisabled)
    ensures ProbedBy(log, Candidates([]), UNPROBED) && PairDecides(log)
    ensures SawRefused(log, RewriteThinking(Pair(Some(NONE), None), Merge(prior, UNPROBED, {ThinkingOff, ThinkingFloor})))
  {
    var no, busy := Refused("no", Some(400)), Refused("busy", Some(429));
    NoCooldownInShort("no");
    NoCooldownInShort("busy");
    log := [Sent(Off(Some(DISABLED)), no), Sent(Off(Some(BETWEEN_TOOLS)), busy)];
    assert log[..2] == log;
    assert Spent(log, 0, 0) && Tried(log, 0, 1) && NoVerdict(log[1]);
    assert ThinkingTrail(log, Parts(0, 2, 2), Candidates([]), UNPROBED);
    assert PairOf(log[0].request) == Pair(Some(NONE), Some(DISABLED)) && Definite(log[0].answer);
  }

  /** And the stale floor: nothing turns thinking off, the lower level is refused, and the other
      fails without a reason.  No floor is recorded, and the stored one, just refused, is kept
      with the rest of the stored record. */
  lemma {:induction false} StaleFloorHappens(low: string, high: string, reply: Reply, prior: Record)
      returns (log: seq<Sent>)
    requires low != NONE && low != "" && reply.Reasoned() && prior.thinkingFloor == Some(Some(low))
    ensures var caps := UNPROBED.(thinkingOff := Some(AlwaysOn));
      && ProbedBy(log, [low, high], caps) && FloorLost(log) && StaleFloor(log, prior, caps)
      && RewriteThinking(Pair(Some(NONE), None), Merge(prior, caps, Kept([], false))) == Pair(Some(low), None)
      && SawRefused(log, Pair(Some(low), None))
  {
    var no, lost := Refused("no", Some(400)), Refused("", Some(503));
    NoCooldownInShort("no");
    NoCooldownInShort("");
    var caps := UNPROBED.(thinkingOff := Some(AlwaysOn));
    var off := [Sent(Off(Some(DISABLED)), no), Sent(Off(Some(BETWEEN_TOOLS)), no), Sent(Off(None), Replied(reply))];
    log := off + [Sent(Floor(low), no), Sent(Floor(high), lost)];
    assert log[..3] == off && log[..5] == log;
    assert Spent(off, 0, 0) && Spent(off, 0, 1) && Spent(off, 0, 2);
    assert OffTrail(off, 0, Some(AlwaysOn));
    assert RefusedFloor(log, 3, [low, high], 0) && LostReason(log[4]);
    assert FloorTrail(log, 3, [low, high], None);
    assert ThinkingTrail(log, Parts(0, 3, 5), [low, high], caps);
    assert PairOf(log[3].request) == Pair(Some(low), None) && Definite(log[3].answer);
    assert SHAPES[7] == ThinkingFloor && ThinkingFloor in Kept([], false);
  }
}
