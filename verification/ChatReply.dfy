/** What becomes of the text an agent streams: every run conserves it and offers each reply to
    the message store once. */
module ChatReply {
  import opened Common
  import opened ChatTurn
  import opened ChatProtocol

  // ---- Conservation ---------------------------------------------------------------------

  function Texts(segments: seq<Segment>): string {
    if segments == [] then "" else Texts(segments[..|segments| - 1]) + segments[|segments| - 1].text
  }

  /** The non-blank replies popped by turn-ending events, in order. */
  function Replies(segments: seq<Segment>): seq<Row> {
    if segments == [] then []
    else
      var s := segments[|segments| - 1];
      Replies(segments[..|segments| - 1]) + (if s.atEnd && !PyBlank(s.text) then [Row(s.popper, s.text)] else [])
  }

  /** The answers offered to the store, in order. */
  function Answers(log: seq<LogItem>): seq<Row> {
    if log == [] then []
    else
      var i := log[|log| - 1];
      Answers(log[..|log| - 1]) + (if i.AnswerOffered? then [Row(i.turn, i.text)] else [])
  }

  ghost predicate Conserved(s: Conv) {
    && s.hist.received == Texts(s.hist.segments) + s.shared.buffer.GetOr("")
    && Answers(s.hist.log) == Replies(s.hist.segments)
  }

  lemma AnswersSnoc(log: seq<LogItem>, i: LogItem)
    ensures Answers(log + [i]) == Answers(log) + (if i.AnswerOffered? then [Row(i.turn, i.text)] else [])
  {
    assert (log + [i])[..|log|] == log;
  }

  lemma SegmentsSnoc(segments: seq<Segment>, s: Segment)
    ensures Texts(segments + [s]) == Texts(segments) + s.text
    ensures Replies(segments + [s]) ==
      Replies(segments) + (if s.atEnd && !PyBlank(s.text) then [Row(s.popper, s.text)] else [])
  {
    assert (segments + [s])[..|segments|] == segments;
  }

  lemma PopAnswerConserved(s: Conv, t: TurnId)
    requires Conserved(s) && t < |s.turns| && s.turns[t].pc.Flushing?
    ensures Conserved(PopAnswerStep(s, t))
  {
    if s.shared.buffer.Some? {
      var text := s.shared.buffer.value;
      SegmentsSnoc(s.hist.segments, Segment(text, t, true));
      AnswersSnoc(s.hist.log, AnswerOffered(t, text));
      assert s.hist.received + "" == s.hist.received;
    }
  }

  lemma SameText(s: Conv, s': Conv)
    requires Conserved(s)
    requires s'.hist.received == s.hist.received && s'.hist.segments == s.hist.segments
    requires s'.hist.log == s.hist.log && s'.shared.buffer == s.shared.buffer
    ensures Conserved(s')
  {
  }

  lemma CaptureConserved(s: Conv, t: TurnId)
    requires Conserved(s) && t < |s.turns| && s.turns[t].pc.Persisting?
    ensures Conserved(CaptureStep(s, t))
  {
    var e := s.turns[t].pc.e;
    if e.IsThought() { AnswersSnoc(s.hist.log, ThoughtIn(t, e.artifact.agent, e.artifact.text)); }
  }

  lemma FlushConserved(s: Conv, t: TurnId, pick: string)
    requires Conserved(s) && t < |s.turns| && s.turns[t].pc.Flushing?
    ensures Conserved(FlushStep(s, t, pick))
  {
    if s.turns[t].pc.keys == {} {
      PopAnswerConserved(s, t);
    } else if pick in s.shared.thoughts {
      AnswersSnoc(s.hist.log, ThoughtOut(pick, s.shared.thoughts[pick]));
    }
  }

  lemma SaveConserved(s: Conv, t: TurnId)
    requires Conserved(s) && t < |s.turns| && s.turns[t].pc.Saving?
    ensures Conserved(SaveStep(s, t))
  {
    var e := s.turns[t].pc.e;
    AnswersSnoc(s.hist.log, RowOffered(t, e));
    if RepeatsPersisted(s.shared, e) { AnswersSnoc(s.hist.log, StatusDropped(t, PlainStatusText(e).value)); }
  }

  lemma StoreConserved(s: Conv, t: TurnId)
    requires Conserved(s) && t < |s.turns| && s.turns[t].pc.AnswerWait?
    ensures Conserved(AnswerStoredStep(s, t))
  {
    AnswersSnoc(s.hist.log, AnswerStored(t, s.turns[t].pc.text));
  }

  /** The progress of a turn that neither logs anything nor touches the reply buffer. */
  lemma QuietConserved(s: Conv, t: TurnId, pick: string)
    requires Conserved(s) && t < |s.turns| && Quiet(s.turns[t].pc)
    ensures Conserved(AdvanceStep(s, t, pick))
  {
    SameText(s, AdvanceStep(s, t, pick));
  }

  predicate Quiet(pc: Pc) { !pc.Persisting? && !pc.Flushing? && !pc.AnswerWait? && !pc.Saving? }

  lemma AdvanceConserved(s: Conv, t: TurnId, pick: string, s': Conv)
    requires Conserved(s) && t < |s.turns| && s' == AdvanceStep(s, t, pick)
    ensures Conserved(s')
  {
    var pc := s.turns[t].pc;
    if pc.Persisting? {
      CaptureConserved(s, t);
      assert s' == CaptureStep(s, t);
    } else if pc.Flushing? {
      FlushConserved(s, t, pick);
      assert s' == FlushStep(s, t, pick);
    } else if pc.AnswerWait? {
      StoreConserved(s, t);
      assert s' == AnswerStoredStep(s, t);
    } else if pc.Saving? {
      SaveConserved(s, t);
      assert s' == SaveStep(s, t);
    } else {
      QuietConserved(s, t, pick);
    }
  }

  lemma ReceiveConserved(s: Conv, t: TurnId, e: Event)
    requires Conserved(s) && t < |s.turns|
    ensures Conserved(ReceiveStep(s, t, e))
  {
    if e.IsReplyChunk() {
      var b := s.shared.buffer.GetOr("");
      assert Texts(s.hist.segments) + b + e.artifact.text == Texts(s.hist.segments) + (b + e.artifact.text);
    }
  }

  lemma TearDownConserved(s: Conv, t: TurnId)
    requires Conserved(s) && t < |s.turns| && s.turns[t].pc.Done?
    ensures Conserved(TearDownStep(s, t))
  {
    AnswersSnoc(s.hist.log, StateCleared);
    if s.shared.buffer.Some? {
      SegmentsSnoc(s.hist.segments, Segment(s.shared.buffer.value, t, false));
    }
  }

  lemma StepConserved(s: Conv, l: Label)
    requires Conserved(s)
    ensures Conserved(Step(s, l))
  {
    match l
    case Advance(t, pick) => if t < |s.turns| { AdvanceConserved(s, t, pick, Step(s, l)); }
    case TearDown(t) => if t < |s.turns| && s.turns[t].pc.Done? { TearDownConserved(s, t); }
    case Receive(t, e) => if t < |s.turns| && s.turns[t].pc.Streaming? { ReceiveConserved(s, t, e); }
    case _ =>
  }

  /** In every run, all reply text received is the popped segments in order followed by the
      buffer; and the answers offered to the store are exactly the non-blank segments popped
      at a turn's end, each once and in order. */
  lemma {:induction false} ReplyConserved(ls: seq<Label>)
    ensures Exec(ls).hist.received == Texts(Exec(ls).hist.segments) + Exec(ls).shared.buffer.GetOr("")
    ensures Answers(Exec(ls).hist.log) == Replies(Exec(ls).hist.segments)
  {
    if ls == [] {
      assert Exec(ls) == Init();
    } else {
      ReplyConserved(ls[..|ls| - 1]);
      StepConserved(Exec(ls[..|ls| - 1]), ls[|ls| - 1]);
    }
  }
}
