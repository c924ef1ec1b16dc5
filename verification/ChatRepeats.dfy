/** When a status is dropped as a repeat: what it repeats, and whose answer that is. */
module ChatRepeats {
  import opened Common
  import opened ChatTurn
  import opened ChatProtocol
  import opened ChatOwnership
  import opened ChatThoughts

  // ---- What the log says is remembered ----------------------------------------------------------

  /** The answer last stored since the state was last cleared. */
  function Remembered(log: seq<LogItem>): Option<Row> {
    if log == [] then None
    else
      match log[|log| - 1]
      case AnswerStored(t, text) => Some(Row(t, text))
      case StateCleared => None
      case _ => Remembered(log[..|log| - 1])
  }

  lemma RememberedSnoc(log: seq<LogItem>, i: LogItem)
    ensures Remembered(log + [i]) ==
      if i.AnswerStored? then Some(Row(i.turn, i.text)) else if i.StateCleared? then None else Remembered(log)
  {
    assert (log + [i])[..|log|] == log;
  }

  /** Row `row` was stored at `j`, and from there to the end nothing was stored or cleared. */
  ghost predicate LastStored(log: seq<LogItem>, j: nat, row: Row) {
    && j < |log| && log[j] == AnswerStored(row.turn, row.text)
    && forall m :: j < m < |log| ==> !log[m].AnswerStored? && !log[m].StateCleared?
  }

  lemma {:induction false} RememberedIsLastStored(log: seq<LogItem>) returns (j: nat)
    requires Remembered(log).Some?
    ensures LastStored(log, j, Remembered(log).value)
  {
    var last := |log| - 1;
    if log[last].AnswerStored? { j := last; } else { j := RememberedIsLastStored(log[..last]); }
  }

  /** The turn stored an answer, and since then no other turn did and nothing was cleared. */
  ghost predicate HasOwnAnswer(log: seq<LogItem>, t: TurnId) {
    exists j: nat ::
      && j < |log| && log[j].AnswerStored? && log[j].turn == t
      && forall m :: j < m < |log| ==> !log[m].StateCleared? && (log[m].AnswerStored? ==> log[m].turn == t)
  }

  /** The remembered answer is the turn's own exactly when the turn stored one and neither
      another turn's answer nor a teardown came after. */
  lemma {:induction false} OwnAnswerRemembered(log: seq<LogItem>, t: TurnId)
    ensures HasOwnAnswer(log, t) <==> Remembered(log).Some? && Remembered(log).value.turn == t
  {
    if Remembered(log).Some? && Remembered(log).value.turn == t {
      var j := RememberedIsLastStored(log);
    }
    if HasOwnAnswer(log, t) {
      var j: nat :| j < |log| && log[j].AnswerStored? && log[j].turn == t
        && forall m :: j < m < |log| ==> !log[m].StateCleared? && (log[m].AnswerStored? ==> log[m].turn == t);
      var last := |log| - 1;
      if j < last {
        assert log[..last][j] == log[j];
        assert forall m :: j < m < last ==> log[..last][m] == log[m];
        OwnAnswerRemembered(log[..last], t);
      }
    }
  }

  /** A status is dropped when it says something, and the remembered answer begins with it. */
  ghost predicate DropsEcho(log: seq<LogItem>) {
    log == [] ||
    (DropsEcho(log[..|log| - 1]) && (log[|log| - 1].StatusDropped? ==> Echoes(log[..|log| - 1], log[|log| - 1])))
  }

  ghost predicate Echoes(before: seq<LogItem>, i: LogItem)
    requires i.StatusDropped?
  {
    i.echoed != "" && Remembered(before).Some? && i.echoed <= PyStrip(Remembered(before).value.text)
  }

  lemma EchoSnoc(log: seq<LogItem>, i: LogItem)
    requires DropsEcho(log) && (i.StatusDropped? ==> Echoes(log, i))
    ensures DropsEcho(log + [i])
  {
    assert (log + [i])[..|log|] == log;
  }

  lemma {:induction false} EchoAt(log: seq<LogItem>, i: nat)
    requires DropsEcho(log) && i < |log| && log[i].StatusDropped?
    ensures Echoes(log[..i], log[i])
  {
    if i < |log| - 1 {
      EchoAt(log[..|log| - 1], i);
      assert log[..|log| - 1][..i] == log[..i];
    }
  }

  function Stripped(row: Option<Row>): Option<string> {
    if row.Some? then Some(PyStrip(row.value.text)) else None
  }

  /** The server remembers what the log says it does. */
  ghost predicate Remembering(s: Conv) {
    s.shared.persisted == Stripped(Remembered(s.hist.log)) && DropsEcho(s.hist.log)
  }

  /** A step that neither stores an answer nor clears the state. */
  lemma QuietRemembers(s: Conv, i: Option<LogItem>, s': Conv)
    requires Remembering(s) && s'.shared.persisted == s.shared.persisted
    requires s'.hist.log == s.hist.log + (if i.Some? then [i.value] else [])
    requires i.Some? ==> !i.value.AnswerStored? && !i.value.StateCleared?
    requires i.Some? && i.value.StatusDropped? ==> Echoes(s.hist.log, i.value)
    ensures Remembering(s')
  {
    if i.Some? {
      RememberedSnoc(s.hist.log, i.value);
      EchoSnoc(s.hist.log, i.value);
    } else {
      assert s'.hist.log == s.hist.log;
    }
  }

  lemma StoreRemembers(s: Conv, t: TurnId, s': Conv)
    requires Remembering(s) && t < |s.turns| && s.turns[t].pc.AnswerWait? && s' == AnswerStoredStep(s, t)
    ensures Remembering(s')
  {
    var item := AnswerStored(t, s.turns[t].pc.text);
    RememberedSnoc(s.hist.log, item);
    EchoSnoc(s.hist.log, item);
  }

  lemma TearDownRemembers(s: Conv, t: TurnId, s': Conv)
    requires Remembering(s) && t < |s.turns| && s.turns[t].pc.Done? && s' == TearDownStep(s, t)
    ensures Remembering(s')
  {
    if s'.hist.log == s.hist.log {
      QuietRemembers(s, None, s');
    } else {
      RememberedSnoc(s.hist.log, StateCleared);
      EchoSnoc(s.hist.log, StateCleared);
    }
  }

  lemma SaveRemembers(s: Conv, t: TurnId, s': Conv)
    requires Remembering(s) && t < |s.turns| && s.turns[t].pc.Saving? && s' == SaveStep(s, t)
    ensures Remembering(s')
  {
    var e := s.turns[t].pc.e;
    if RepeatsPersisted(s.shared, e) {
      QuietRemembers(s, Some(StatusDropped(t, PlainStatusText(e).value)), s');
    } else if s'.hist.log == s.hist.log {
      QuietRemembers(s, None, s');
    } else {
      QuietRemembers(s, Some(RowOffered(t, e)), s');
    }
  }

  lemma CaptureRemembers(s: Conv, t: TurnId, s': Conv)
    requires Remembering(s) && t < |s.turns| && s.turns[t].pc.Persisting? && s' == CaptureStep(s, t)
    ensures Remembering(s')
  {
    if s'.hist.log == s.hist.log {
      QuietRemembers(s, None, s');
    } else {
      var e := s.turns[t].pc.e;
      QuietRemembers(s, Some(ThoughtIn(t, e.artifact.agent, e.artifact.text)), s');
    }
  }

  lemma FlushRemembers(s: Conv, t: TurnId, pick: string, s': Conv)
    requires Remembering(s) && t < |s.turns| && s.turns[t].pc.Flushing? && s' == FlushStep(s, t, pick)
    ensures Remembering(s')
  {
    if s'.hist.log == s.hist.log {
      QuietRemembers(s, None, s');
    } else {
      QuietRemembers(s, Some(s'.hist.log[|s.hist.log|]), s');
    }
  }

  lemma AdvanceRemembers(s: Conv, t: TurnId, pick: string, s': Conv)
    requires Remembering(s) && t < |s.turns| && s' == AdvanceStep(s, t, pick)
    ensures Remembering(s')
  {
    var pc := s.turns[t].pc;
    if pc.Persisting? {
      assert s' == CaptureStep(s, t);
      CaptureRemembers(s, t, s');
    } else if pc.Flushing? {
      assert s' == FlushStep(s, t, pick);
      FlushRemembers(s, t, pick, s');
    } else if pc.AnswerWait? {
      assert s' == AnswerStoredStep(s, t);
      StoreRemembers(s, t, s');
    } else if pc.Saving? {
      assert s' == SaveStep(s, t);
      SaveRemembers(s, t, s');
    } else {
      AdvanceFrame(s, t, pick);
      QuietRemembers(s, None, s');
    }
  }

  lemma StepRemembers(s: Conv, l: Label, s': Conv)
    requires Remembering(s) && s' == Step(s, l)
    ensures Remembering(s')
  {
    if l.Advance? && l.t < |s.turns| {
      AdvanceRemembers(s, l.t, l.pick, s');
    } else if l.TearDown? && l.t < |s.turns| && s.turns[l.t].pc.Done? {
      TearDownRemembers(s, l.t, s');
    } else {
      QuietRemembers(s, None, s');
    }
  }

  lemma {:induction false} RunRemembers(ls: seq<Label>)
    ensures Remembering(Exec(ls))
  {
    if ls == [] {
      assert Exec(ls) == Init();
    } else {
      RunRemembers(ls[..|ls| - 1]);
      StepRemembers(Exec(ls[..|ls| - 1]), ls[|ls| - 1], Exec(ls));
    }
  }

  /** In every run a status dropped as a repeat is the beginning of the row last stored since the
      state was last cleared; and that row is the dropping turn's own exactly when this turn
      stored an answer after which no other turn did and no teardown cleared. */
  lemma {:induction false} RepeatsAreStored(ls: seq<Label>, i: nat) returns (j: nat, row: Row)
    requires i < |Exec(ls).hist.log| && Exec(ls).hist.log[i].StatusDropped?
    ensures LastStored(Exec(ls).hist.log[..i], j, row)
    ensures Exec(ls).hist.log[i].echoed != "" && Exec(ls).hist.log[i].echoed <= PyStrip(row.text)
    ensures row.turn == Exec(ls).hist.log[i].turn <==> HasOwnAnswer(Exec(ls).hist.log[..i], Exec(ls).hist.log[i].turn)
  {
    RunRemembers(ls);
    var log := Exec(ls).hist.log;
    EchoAt(log, i);
    row := Remembered(log[..i]).value;
    j := RememberedIsLastStored(log[..i]);
    OwnAnswerRemembered(log[..i], log[i].turn);
  }

  // ---- Calm runs drop only their own repeats ---------------------------------------------------

  ghost predicate DropsOwn(log: seq<LogItem>) {
    log == [] ||
    (DropsOwn(log[..|log| - 1]) &&
     (log[|log| - 1].StatusDropped? ==> HasOwnAnswer(log[..|log| - 1], log[|log| - 1].turn)))
  }

  lemma OwnSnoc(log: seq<LogItem>, i: LogItem)
    requires DropsOwn(log) && (i.StatusDropped? ==> HasOwnAnswer(log, i.turn))
    ensures DropsOwn(log + [i])
  {
    assert (log + [i])[..|log|] == log;
  }

  /** The remembered answer is the last turn's. */
  ghost predicate LastRemembered(s: Conv) {
    Remembered(s.hist.log).Some? ==> |s.turns| > 0 && Remembered(s.hist.log).value.turn == |s.turns| - 1
  }

  /** A step that appends one item to the log, or none. */
  lemma LogsOwn(s: Conv, i: Option<LogItem>, s': Conv)
    requires LastRemembered(s) && DropsOwn(s.hist.log) && |s'.turns| == |s.turns| && |s.turns| > 0
    requires s'.hist.log == s.hist.log + (if i.Some? then [i.value] else [])
    requires i.Some? && i.value.AnswerStored? ==> i.value.turn == |s.turns| - 1
    requires i.Some? && i.value.StatusDropped? ==> i.value.turn == |s.turns| - 1 && Remembered(s.hist.log).Some?
    ensures LastRemembered(s') && DropsOwn(s'.hist.log)
  {
    if i.Some? {
      RememberedSnoc(s.hist.log, i.value);
      if i.value.StatusDropped? { OwnAnswerRemembered(s.hist.log, i.value.turn); }
      OwnSnoc(s.hist.log, i.value);
    } else {
      assert s'.hist.log == s.hist.log;
    }
  }

  lemma CalmAdvance(s: Conv, t: TurnId, pick: string, s': Conv)
    requires LastRemembered(s) && DropsOwn(s.hist.log) && Remembering(s) && OnlyLastAlive(s)
    requires t < |s.turns| && s' == AdvanceStep(s, t, pick)
    ensures LastRemembered(s') && DropsOwn(s'.hist.log)
  {
    AdvanceFrame(s, t, pick);
    var i := StepLogs(s, Advance(t, pick), s');
    LogsOwn(s, i, s');
  }

  lemma CalmTearDown(s: Conv, t: TurnId, s': Conv)
    requires LastRemembered(s) && DropsOwn(s.hist.log)
    requires t < |s.turns| && s.turns[t].pc.Done? && s' == TearDownStep(s, t)
    ensures LastRemembered(s') && DropsOwn(s'.hist.log)
  {
    LogsOwn(s, if s'.hist.log == s.hist.log then None else Some(StateCleared), s');
  }

  /** The steps that log nothing and start no turn. */
  lemma CalmQuiet(s: Conv, l: Label, s': Conv)
    requires LastRemembered(s) && DropsOwn(s.hist.log) && s' == Step(s, l)
    requires !l.Advance? && !l.TearDown? && !l.Send?
    ensures LastRemembered(s') && DropsOwn(s'.hist.log)
  {
    assert s'.hist.log == s.hist.log && |s'.turns| == |s.turns|;
  }

  lemma CalmSend(s: Conv, sid: string, s': Conv)
    requires LastRemembered(s) && DropsOwn(s.hist.log) && Remembering(s) && Tidy(s)
    requires s' == SendStep(s, sid) && (StartsTurn(s) ==> AllTornDown(s))
    ensures LastRemembered(s') && DropsOwn(s'.hist.log)
  {
    assert s'.hist.log == s.hist.log;
  }

  lemma CalmStep(s: Conv, l: Label, s': Conv)
    requires LastRemembered(s) && DropsOwn(s.hist.log) && Remembering(s) && s' == Step(s, l)
    requires OnlyLastAlive(s) && Tidy(s) && (l.Send? && StartsTurn(s) ==> AllTornDown(s))
    ensures LastRemembered(s') && DropsOwn(s'.hist.log)
  {
    match l
    case Advance(t, pick) => if t < |s.turns| { CalmAdvance(s, t, pick, s'); }
    case TearDown(t) => if t < |s.turns| && s.turns[t].pc.Done? { CalmTearDown(s, t, s'); }
    case Send(sid) => CalmSend(s, sid, s');
    case _ => CalmQuiet(s, l, s');
  }

  lemma {:induction false} CalmDropsOwn(ls: seq<Label>)
    requires Calm(ls)
    ensures LastRemembered(Exec(ls)) && DropsOwn(Exec(ls).hist.log)
  {
    if ls == [] {
      assert Exec(ls) == Init();
    } else {
      var init, l := ls[..|ls| - 1], ls[|ls| - 1];
      CalmDropsOwn(init);
      CalmMeansOnlyLastAlive(init);
      RunTidy(init);
      RunRemembers(init);
      CalmStep(Exec(init), l, Exec(ls));
    }
  }

  /** When no turn starts before its predecessors are torn down, a status is dropped as a repeat
      only of an answer its own turn stored. */
  lemma {:induction false} CalmRepeatsAreOwn(ls: seq<Label>, i: nat) returns (j: nat, row: Row)
    requires Calm(ls) && i < |Exec(ls).hist.log| && Exec(ls).hist.log[i].StatusDropped?
    ensures LastStored(Exec(ls).hist.log[..i], j, row) && row.turn == Exec(ls).hist.log[i].turn
    ensures Exec(ls).hist.log[i].echoed <= PyStrip(row.text)
  {
    CalmDropsOwn(ls);
    OwnAt(Exec(ls).hist.log, i);
    j, row := RepeatsAreStored(ls, i);
  }

  lemma {:induction false} OwnAt(log: seq<LogItem>, i: nat)
    requires DropsOwn(log) && i < |log| && log[i].StatusDropped?
    ensures HasOwnAnswer(log[..i], log[i].turn)
  {
    if i < |log| - 1 {
      OwnAt(log[..|log| - 1], i);
      assert log[..|log| - 1][..i] == log[..i];
    }
  }

  // ---- Why turns must not overlap ----------------------------------------------------------------

  /** Text that stripping keeps as it is. */
  predicate Solid(x: string) { x != "" && !PySpace(x[0]) && !PySpace(x[|x| - 1]) }

  function Status1(y: string): Event {
    StatusUpdate(Status(Working, Some(StatusMessage({}, [TextPart(y)]))))
  }

  /** Turn 0 has stored its reply `x`, and stands at `pc`. */
  ghost predicate Remembers(s: Conv, pc: Pc, x: string) {
    && Reached(s) && |s.turns| == 1 && s.turns[0].pc == pc
    && s.shared == Shared(Some(0), None, Some(x), None, map[])
    && s.hist.log == [AnswerOffered(0, x), AnswerStored(0, x)]
  }

  lemma FirstPops(x: string) returns (s: Conv)
    requires Solid(x)
    ensures Reached(s) && |s.turns| == 1 && s.turns[0].pc == AnswerWait(Chunk0(x), Some(Chunk(0, |x|, x, 0)), x)
    ensures s.shared == Active0(None, map[]) && s.hist.log == [AnswerOffered(0, x)]
  {
    var s1 := FirstStarts();
    var s2 := FirstEnds(s1, map[], [], x);
    s := Go(s2, Advance(0, ""));
    PyStripSolid(x);
    assert s == PopAnswerStep(s2, 0);
  }

  lemma FirstStores(x: string) returns (s: Conv)
    requires Solid(x)
    ensures Remembers(s, Settling(Chunk0(x), Some(Chunk(0, |x|, x, 0)), false), x)
  {
    var s1 := FirstPops(x);
    s := Go(s1, Advance(0, ""));
    PyStripSolid(x);
    assert s == AnswerStoredStep(s1, 0);
  }

  /** Turn 0 comes to the end of its event. */
  lemma FirstGoesOn(s1: Conv, pc: Pc, x: string) returns (s: Conv)
    requires Remembers(s1, pc, x) && pc.Running() && pc != Streaming && pc.e == Chunk0(x)
    requires pc.Settling? || pc.Saving? || pc.Tail?
    ensures Remembers(s, match pc
      case Settling(e, chunk, saved) => Saving(e, chunk, saved)
      case Saving(e, chunk, _) => Tail(e, chunk)
      case _ => Streaming, x)
  {
    s := Go(s1, Advance(0, ""));
    if pc.Saving? { assert s == SaveStep(s1, 0); }
  }

  lemma FirstIsOver(x: string) returns (s: Conv)
    requires Solid(x)
    ensures Remembers(s, Done(false), x)
  {
    var e, chunk := Chunk0(x), Some(Chunk(0, |x|, x, 0));
    var s1 := FirstStores(x);
    var s2 := FirstGoesOn(s1, Settling(e, chunk, false), x);
    var s3 := FirstGoesOn(s2, Saving(e, chunk, false), x);
    var s4 := FirstGoesOn(s3, Tail(e, chunk), x);
    OneWaits(s4, Finish(0, false));
    s := Go(s4, Finish(0, false));
  }

  /** Turn 1 started before turn 0's handler tore down, and stands at `pc`. */
  ghost predicate Inherits(s: Conv, pc: Pc, x: string) {
    && Reached(s) && |s.turns| == 2 && s.turns[0].pc == Done(false) && s.turns[1].pc == pc
    && s.shared == Shared(Some(1), None, Some(x), None, map[])
    && s.hist.log == [AnswerOffered(0, x), AnswerStored(0, x)]
  }

  lemma SecondStarts(x: string) returns (s: Conv)
    requires Solid(x)
    ensures Inherits(s, Streaming, x)
  {
    var s1 := FirstIsOver(x);
    s := Go(s1, Send("tab"));
  }

  lemma SecondPersists(x: string, y: string) returns (s: Conv)
    requires Solid(x)
    ensures Inherits(s, Persisting(Status1(y), None), x)
  {
    var s1 := SecondStarts(x);
    TwoAtAwaits(s1, Receive(1, Status1(y)));
    var s2 := Go(s1, Receive(1, Status1(y)));
    assert s2 == ReceiveStep(s1, 1, Status1(y));
    assert Inherits(s2, Received(Status1(y), None), x);
    OneAtAwait(s2, "");
    s := Go(s2, Advance(1, ""));
  }

  lemma SecondSaves(x: string, y: string) returns (s: Conv)
    requires Solid(x)
    ensures Inherits(s, Saving(Status1(y), None, false), x)
  {
    var s1 := SecondPersists(x, y);
    OneAtAwait(s1, "");
    s := Go(s1, Advance(1, ""));
    assert s == CaptureStep(s1, 1);
  }

  lemma Status1Repeats(s: State, x: string, y: string)
    requires s.persisted == Some(x) && Solid(x) && Solid(y) && y <= x
    ensures PlainStatusText(Status1(y)) == Some(y) && RepeatsPersisted(s, Status1(y))
  {
    PyStripSolid(y);
    assert PartsText([TextPart(y)]) == y;
  }

  /** A send that slips in between a turn's end and its teardown inherits the remembered
      answer `x`; its own answer `y`, a prefix of `x`, is dropped though its turn stored
      nothing. */
  lemma OverlapDropsNewText(x: string, y: string) returns (s: Conv)
    requires Solid(x) && Solid(y) && y <= x
    ensures Reached(s) && s.hist.log == [AnswerOffered(0, x), AnswerStored(0, x), StatusDropped(1, y)]
    ensures !HasOwnAnswer(s.hist.log[..2], 1)
  {
    var s1 := SecondSaves(x, y);
    OneAtAwait(s1, "");
    s := Go(s1, Advance(1, ""));
    Status1Repeats(s1.shared, x, y);
    assert s == SaveStep(s1, 1);
    assert s.hist.log[..2] == [AnswerOffered(0, x), AnswerStored(0, x)];
  }
}
