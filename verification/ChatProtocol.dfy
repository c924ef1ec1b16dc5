/** The chat turn protocol of console-backend for one conversation, as a transition
    system.  Handlers and turn tasks are coroutines, and their steps interleave freely.  A
    step is a piece of the code between two awaits, or all of it: what holds of every
    interleaving of steps holds of every run of the code.  The runs of the code are those
    that leave no turn between two of its awaits (`Real`); every schedule that is shown
    as an example is one of them.  A schedule is any sequence of labels; a label whose step
    is not possible does nothing. */
module ChatProtocol {
  import opened Common
  import opened ChatTurn

  /** Turns are numbered by start order; a number stands for the identity of one
      `ActiveTaskInfo` object and its asyncio task. */
  type TurnId = nat

  type State = Shared<TurnId>

  /** A reply chunk on its way to the room.  `off` is its `turnOffset`; `seg` numbers
      the life of the reply buffer it was appended to, `writer` is the turn that did so. */
  datatype Chunk = Chunk(seg: nat, off: nat, text: string, writer: TurnId)

  /** Where a turn's task stands.  `chunk` is the accumulated reply chunk of the event
      in hand, if it is one; `inserting` says that a flushed thought is being stored. */
  datatype Pc =
    | Streaming
    | Received(e: Event, chunk: Option<Chunk>)
    | Persisting(e: Event, chunk: Option<Chunk>)
    | Flushing(e: Event, chunk: Option<Chunk>, keys: set<string>, inserting: bool)
    | AnswerWait(e: Event, chunk: Option<Chunk>, text: string)
    | Settling(e: Event, chunk: Option<Chunk>, saved: bool)
    | Saving(e: Event, chunk: Option<Chunk>, saved: bool)
    | Tail(e: Event, chunk: Option<Chunk>)
    | Done(cancelled: bool)
    | TornDown
  {
    predicate Running() { !Done? && !TornDown? }

    /** Inside the try block whose database errors are logged and swallowed. */
    predicate InTry() { Persisting? || Flushing? || AnswerWait? || Settling? || Saving? }

    /** Between two awaits: nothing else runs before this turn goes on. */
    predicate MidSection() {
      || Received? || Settling? || Saving?
      || (Persisting? && !e.IsStreamingChunk()) || (Flushing? && !inserting)
    }

    /** Waiting for a row to be stored. */
    predicate Inserting() { AnswerWait? || (Flushing? && inserting) }

    /** The reply chunk accumulated but not yet emitted. */
    function Unemitted(): Option<Chunk> {
      if Received? then chunk
      else if (InTry() || Tail?) && !e.IsStreamingChunk() then chunk
      else None
    }
  }

  datatype Turn = Turn(origin: string, popped: bool, cancelRequested: bool, pc: Pc)

  /** What was read for a subscriber: `at` counts the chunks delivered to it before. */
  datatype Snap = Snap(seg: nat, off: nat, text: string, at: nat)

  /** A socket in the conversation's room. */
  datatype Sub = Sub(snap: Option<Snap>, inbox: seq<Chunk>)

  /** The life of one reply buffer: who popped it, and whether by a turn-ending event
      (else by a teardown). */
  datatype Segment = Segment(text: string, popper: TurnId, atEnd: bool)

  /** What happened to sub-agent thoughts, to answers and to rows.  `ThoughtOut` is a pop at
      turn end, whose text is offered to the store unless it is blank; `StateCleared` is a
      teardown that owned the state; `StatusDropped` is a status taken for a repeat. */
  datatype LogItem =
    | ThoughtIn(turn: TurnId, agent: string, text: string)
    | ThoughtOut(agent: string, text: string)
    | StateCleared
    | AnswerOffered(turn: TurnId, text: string)
    | AnswerStored(turn: TurnId, text: string)
    | RowOffered(turn: TurnId, e: Event)
    | StatusDropped(turn: TurnId, echoed: string)

  datatype Row = Row(turn: TurnId, text: string)

  /** What happened so far; read by the theorems, and by a step only to number segments.
      `heard` are the chunks accumulated, `emitted` those sent to the room. */
  datatype History = History(
    received: string,
    segments: seq<Segment>,
    log: seq<LogItem>,
    heard: seq<Chunk>,
    emitted: seq<Chunk>)

  datatype Conv = Conv(shared: State, turns: seq<Turn>, room: map<string, Sub>, hist: History)

  function Init(): Conv {
    Conv(Shared(None, None, None, None, map[]), [], map[], History("", [], [], [], []))
  }

  datatype Label =
    | Send(sid: string)                      // a send whose checks passed
    | Receive(t: TurnId, e: Event)           // the turn's stream yields an event
    | Advance(t: TurnId, pick: string)       // the turn's next piece of code
    | DbFail(t: TurnId)                      // a swallowed exception in the database block
    | Finish(t: TurnId, cancelled: bool)     // the task ends: stream over, error or cancelled
    | TearDown(t: TurnId)                    // the send handler's finally
    | CancelPop                              // a cancel request unregisters the turn
    | CancelFire(t: TurnId)                  // ... and, an await later, cancels its task
    | Disconnect(sid: string)
    | Join(sid: string)
    | ReadSnapshot(sid: string)
    | Leave(sid: string)

  // ---- Steps --------------------------------------------------------------------------

  function SetPc(s: Conv, t: TurnId, pc: Pc): Conv
    requires t < |s.turns|
  {
    s.(turns := s.turns[t := s.turns[t].(pc := pc)])
  }

  predicate RunningTurn(s: Conv, t: TurnId) { t < |s.turns| && s.turns[t].pc.Running() }

  /** A send: steering when a running turn is registered, else a new turn. */
  predicate StartsTurn(s: Conv) { s.shared.active.None? || !RunningTurn(s, s.shared.active.value) }

  function SendStep(s: Conv, sid: string): Conv {
    if StartsTurn(s) then
      s.(shared := Begin(s.shared, |s.turns|), turns := s.turns + [Turn(sid, false, false, Streaming)])
    else s
  }

  function ReceiveStep(s: Conv, t: TurnId, e: Event): Conv
    requires t < |s.turns|
  {
    var chunk :=
      if e.IsReplyChunk()
      then Some(Chunk(|s.hist.segments|, TurnOffset(s.shared, e).value, e.artifact.text, t))
      else None;
    var hist :=
      if chunk.None? then s.hist
      else s.hist.(received := s.hist.received + e.artifact.text, heard := s.hist.heard + [chunk.value]);
    SetPc(s, t, Received(e, chunk)).(shared := Accumulate(s.shared, e), hist := hist)
  }

  /** `sio.emit` to the room: every member's inbox grows. */
  function EmitChunk(s: Conv, chunk: Option<Chunk>): Conv {
    if chunk.None? then s
    else
      s.(room := map sid | sid in s.room :: s.room[sid].(inbox := s.room[sid].inbox + [chunk.value]),
         hist := s.hist.(emitted := s.hist.emitted + [chunk.value]))
  }

  function Log(s: Conv, item: LogItem): Conv { s.(hist := s.hist.(log := s.hist.log + [item])) }

  function CaptureStep(s: Conv, t: TurnId): Conv
    requires t < |s.turns| && s.turns[t].pc.Persisting?
  {
    var pc := s.turns[t].pc;
    var shared := Capture(s.shared, pc.e);
    var s1 := if pc.e.IsThought() && pc.e.artifact.text != ""
      then Log(s, ThoughtIn(t, pc.e.artifact.agent, pc.e.artifact.text)) else s;
    SetPc(s1, t,
      if pc.e.EndsTurn() then Flushing(pc.e, pc.chunk, shared.thoughts.Keys, false)
      else Saving(pc.e, pc.chunk, false)).(shared := shared)
  }

  /** One thought buffer, then the reply buffer.  A key another coroutine already popped
      raises, and the rest of the block is skipped. */
  function FlushStep(s: Conv, t: TurnId, agent: string): Conv
    requires t < |s.turns| && s.turns[t].pc.Flushing?
  {
    var pc := s.turns[t].pc;
    if pc.keys == {} then PopAnswerStep(s, t)
    else if agent !in pc.keys then s
    else if agent !in s.shared.thoughts then SetPc(s, t, Tail(pc.e, pc.chunk))
    else
      var text := s.shared.thoughts[agent];
      Log(SetPc(s, t, Flushing(pc.e, pc.chunk, pc.keys - {agent}, !PyBlank(text))).(shared := PopThought(s.shared, agent)),
          ThoughtOut(agent, text))
  }

  function PopAnswerStep(s: Conv, t: TurnId): Conv
    requires t < |s.turns| && s.turns[t].pc.Flushing?
  {
    var pc := s.turns[t].pc;
    if s.shared.buffer.None? then SetPc(s, t, Settling(pc.e, pc.chunk, false))
    else
      var text := s.shared.buffer.value;
      var popped := s.(shared := PopBuffer(s.shared),
                       hist := s.hist.(segments := s.hist.segments + [Segment(text, t, true)]));
      if PyBlank(text) then SetPc(popped, t, Settling(pc.e, pc.chunk, false))
      else Log(SetPc(popped, t, AnswerWait(pc.e, pc.chunk, text)), AnswerOffered(t, text))
  }

  function AnswerStoredStep(s: Conv, t: TurnId): Conv
    requires t < |s.turns| && s.turns[t].pc.AnswerWait?
  {
    var pc := s.turns[t].pc;
    // A safety-net save of a status event replaces its own row, except for a prompt.
    var saved := !pc.e.IsLastChunk() && !pc.e.Says(InputRequired);
    Log(SetPc(s, t, Settling(pc.e, pc.chunk, saved)).(shared := RememberAnswer(s.shared, pc.text)),
        AnswerStored(t, pc.text))
  }

  function SaveStep(s: Conv, t: TurnId): Conv
    requires t < |s.turns| && s.turns[t].pc.Saving?
  {
    var pc := s.turns[t].pc;
    var s1 := SetPc(s, t, Tail(pc.e, pc.chunk));
    var skip := pc.e.Extends(WorkPlan) || pc.e.Extends(FeedbackRequest) || pc.e.ArtifactUpdate?
                || pc.e.IsBareTerminalSignal() || pc.saved;
    if RepeatsPersisted(s.shared, pc.e) then Log(s1, StatusDropped(t, PlainStatusText(pc.e).value))
    else if skip then s1
    else Log(s1, RowOffered(t, pc.e))
  }

  function AdvanceStep(s: Conv, t: TurnId, pick: string): Conv
    requires t < |s.turns|
  {
    var pc := s.turns[t].pc;
    match pc
    case Received(e, chunk) =>
      SetPc(if e.IsStreamingChunk() then EmitChunk(s, chunk) else s, t, Persisting(e, chunk))
    case Persisting(_, _) => CaptureStep(s, t)
    case Flushing(_, _, _, _) => FlushStep(s, t, pick)
    case AnswerWait(_, _, _) => AnswerStoredStep(s, t)
    case Settling(e, chunk, saved) =>
      SetPc(s, t, Saving(e, chunk, saved)).(shared := SettlePrompt(s.shared, e))
    case Saving(_, _, _) => SaveStep(s, t)
    case Tail(e, chunk) => SetPc(if e.IsStreamingChunk() then s else EmitChunk(s, chunk), t, Streaming)
    case _ => s
  }

  function TearDownStep(s: Conv, t: TurnId): Conv
    requires t < |s.turns| && s.turns[t].pc.Done?
  {
    var shared := Teardown(s.shared, t, s.turns[t].pc.cancelled);
    var segments :=
      if s.shared.buffer.Some? && shared.buffer.None?
      then s.hist.segments + [Segment(s.shared.buffer.value, t, false)] else s.hist.segments;
    var log :=
      if s.shared.active == Some(t) || s.shared.active.None?
      then s.hist.log + [StateCleared] else s.hist.log;
    SetPc(s, t, TornDown).(shared := shared, hist := s.hist.(segments := segments, log := log))
  }

  function CancelPopStep(s: Conv): Conv {
    if s.shared.active.Some? && s.shared.active.value < |s.turns| then
      var t := s.shared.active.value;
      s.(shared := Unregister(s.shared), turns := s.turns[t := s.turns[t].(popped := true)])
    else s
  }

  function DisconnectStep(s: Conv, sid: string): Conv {
    if s.shared.active.Some? && s.shared.active.value < |s.turns|
       && s.turns[s.shared.active.value].origin == sid && !RunningTurn(s, s.shared.active.value)
    then s.(shared := Unregister(s.shared))
    else s
  }

  function ReadStep(s: Conv, sid: string): Conv
    requires sid in s.room
  {
    var text := s.shared.buffer.GetOr("");
    var snap := Snap(|s.hist.segments|, |text|, text, |s.room[sid].inbox|);
    s.(room := s.room[sid := s.room[sid].(snap := Some(snap))])
  }

  function Step(s: Conv, l: Label): Conv {
    match l
    case Send(sid) => SendStep(s, sid)
    case Receive(t, e) => if t < |s.turns| && s.turns[t].pc.Streaming? then ReceiveStep(s, t, e) else s
    case Advance(t, pick) => if t < |s.turns| then AdvanceStep(s, t, pick) else s
    case DbFail(t) =>
      if t < |s.turns| && s.turns[t].pc.InTry() then SetPc(s, t, Tail(s.turns[t].pc.e, s.turns[t].pc.chunk)) else s
    case Finish(t, cancelled) =>
      if RunningTurn(s, t) && (cancelled ==> s.turns[t].cancelRequested) then SetPc(s, t, Done(cancelled)) else s
    case TearDown(t) => if t < |s.turns| && s.turns[t].pc.Done? then TearDownStep(s, t) else s
    case CancelPop => CancelPopStep(s)
    case CancelFire(t) =>
      if t < |s.turns| && s.turns[t].popped
      then s.(turns := s.turns[t := s.turns[t].(cancelRequested := true)]) else s
    case Disconnect(sid) => DisconnectStep(s, sid)
    case Join(sid) => if sid in s.room then s else s.(room := s.room[sid := Sub(None, [])])
    case ReadSnapshot(sid) => if sid in s.room then ReadStep(s, sid) else s
    case Leave(sid) => s.(room := s.room - {sid})
  }

  /** `s'` differs from `s` only by turn `t` having moved, by its own progress. */
  predicate Progress(s: Conv, t: TurnId, s': Conv)
    requires t < |s.turns|
  {
    && |s'.turns| == |s.turns|
    && s'.turns == s.turns[t := s.turns[t].(pc := s'.turns[t].pc)]
    && s'.shared.active == s.shared.active
    && s'.turns[t].pc.Running()
    && (s'.shared.pending == s.shared.pending || s'.shared.pending.None?
        || s'.shared.pending.value.IsPrompt())
    && (s.turns[t].pc.AnswerWait? || s'.shared.persisted == s.shared.persisted)
  }

  /** What a turn's own progress leaves alone. */
  lemma AdvanceFrame(s: Conv, t: TurnId, pick: string)
    requires t < |s.turns|
    ensures if s.turns[t].pc.Running() && s.turns[t].pc != Streaming
            then Progress(s, t, AdvanceStep(s, t, pick)) else AdvanceStep(s, t, pick) == s
  {
    match s.turns[t].pc
    case Received(_, _) =>
    case Persisting(_, _) => CaptureFrame(s, t);
    case Flushing(_, _, _, _) => FlushFrame(s, t, pick);
    case AnswerWait(_, _, _) =>
    case Settling(_, _, _) =>
    case Saving(_, _, _) =>
    case Tail(_, _) =>
    case _ =>
  }

  lemma CaptureFrame(s: Conv, t: TurnId)
    requires t < |s.turns| && s.turns[t].pc.Persisting?
    ensures Progress(s, t, CaptureStep(s, t))
  {
  }

  lemma FlushFrame(s: Conv, t: TurnId, pick: string)
    requires t < |s.turns| && s.turns[t].pc.Flushing?
    ensures Progress(s, t, FlushStep(s, t, pick))
  {
  }

  /** The state a schedule leads to. */
  function Exec(ls: seq<Label>): Conv {
    if ls == [] then Init() else Step(Exec(ls[..|ls| - 1]), ls[|ls| - 1])
  }

  // ---- The runs of the code ---------------------------------------------------------------------

  /** A turn between two awaits runs on, and a database failure comes out of an insert. */
  ghost predicate MayFollow(s: Conv, l: Label) {
    && (forall t: TurnId :: t < |s.turns| && s.turns[t].pc.MidSection() ==> l.Advance? && l.t == t)
    && (l.DbFail? && l.t < |s.turns| ==> s.turns[l.t].pc.Inserting())
  }

  /** No turn is left between two of its awaits. */
  ghost predicate Real(ls: seq<Label>) {
    ls != [] ==> Real(ls[..|ls| - 1]) && MayFollow(Exec(ls[..|ls| - 1]), ls[|ls| - 1])
  }

  lemma RealAppend(ls: seq<Label>, l: Label)
    requires Real(ls) && MayFollow(Exec(ls), l)
    ensures Real(ls + [l])
  {
    assert (ls + [l])[..|ls + [l]| - 1] == ls;
  }

  lemma TwoAtAwaits(s: Conv, l: Label)
    requires |s.turns| == 2 && !s.turns[0].pc.MidSection() && !s.turns[1].pc.MidSection() && !l.DbFail?
    ensures MayFollow(s, l)
  {
  }

  lemma OneWaits(s: Conv, l: Label)
    requires |s.turns| == 1 && !s.turns[0].pc.MidSection() && !l.DbFail?
    ensures MayFollow(s, l)
  {
  }

  /** A lone turn is cancelled, and another starts beside it. */
  lemma LoneTurnCancelled(s: Conv, s': Conv)
    requires |s.turns| == 1 && s.shared.active == Some(0) && s' == Step(s, CancelPop)
    ensures s' == s.(shared := s.shared.(active := None), turns := [s.turns[0].(popped := true)])
  {
    assert s' == CancelPopStep(s);
  }

  lemma SecondTurn(s: Conv, sid: string, s': Conv)
    requires |s.turns| == 1 && s.shared.active == None && s' == Step(s, Send(sid))
    ensures s' == s.(shared := s.shared.(active := Some(1), pending := None),
                     turns := s.turns + [Turn(sid, false, false, Streaming)])
  {
    assert s' == SendStep(s, sid);
  }

  /** Turn 1 may go on whenever turn 0 waits. */
  lemma OneAtAwait(s: Conv, pick: string)
    requires |s.turns| == 2 && !s.turns[0].pc.MidSection()
    ensures MayFollow(s, Advance(1, pick))
  {
  }

  lemma OtherAtAwait(s: Conv, pick: string)
    requires |s.turns| == 2 && !s.turns[1].pc.MidSection()
    ensures MayFollow(s, Advance(0, pick))
  {
  }

  /** Some run of the code leads here. */
  ghost predicate Reached(s: Conv) { exists ls :: Real(ls) && Exec(ls) == s }

  lemma InitIsReached()
    ensures Reached(Init())
  {
    assert Real([]) && Exec([]) == Init();
  }

  /** One more step of a run of the code. */
  lemma Go(s: Conv, l: Label) returns (s': Conv)
    requires Reached(s) && MayFollow(s, l)
    ensures s' == Step(s, l) && Reached(s')
  {
    s' := Step(s, l);
    var ls :| Real(ls) && Exec(ls) == s;
    RealAppend(ls, l);
    ExecAppend(ls, l);
  }

  ghost predicate AllTornDown(s: Conv) { forall t: TurnId :: t < |s.turns| ==> s.turns[t].pc.TornDown? }

  /** No send starts a turn before every earlier turn's handler has torn down. */
  ghost predicate Calm(ls: seq<Label>) {
    ls != [] ==>
      && Calm(ls[..|ls| - 1])
      && (ls[|ls| - 1].Send? && StartsTurn(Exec(ls[..|ls| - 1])) ==> AllTornDown(Exec(ls[..|ls| - 1])))
  }

  /** A schedule continued. */
  lemma {:induction false} ExecAppend(ls: seq<Label>, l: Label)
    ensures Exec(ls + [l]) == Step(Exec(ls), l)
  {
    assert (ls + [l])[..|ls + [l]| - 1] == ls;
  }
}
