/** Who owns a conversation's turn state, over every interleaving of sends, cancels,
    disconnects, stream events and teardowns; and what is left when all is over. */
module ChatOwnership {
  import opened Common
  import opened ChatTurn
  import opened ChatProtocol

  // ---- Ownership ------------------------------------------------------------------------

  ghost predicate Owned(s: Conv) {
    && (forall t: TurnId :: RunningTurn(s, t) && !s.turns[t].popped ==> s.shared.active == Some(t))
    && (s.shared.active.Some? ==>
          && s.shared.active.value < |s.turns|
          && !s.turns[s.shared.active.value].popped
          && !s.turns[s.shared.active.value].pc.TornDown?)
  }

  lemma StepOwned(s: Conv, l: Label)
    requires Owned(s)
    ensures Owned(Step(s, l))
  {
    if l.Advance? {
      if l.t < |s.turns| { AdvanceOwned(s, l.t, l.pick, Step(s, l)); }
    } else if l.TearDown? {
      if l.t < |s.turns| && s.turns[l.t].pc.Done? { TearDownOwned(s, l.t, Step(s, l)); }
    }
  }

  lemma AdvanceOwned(s: Conv, t: TurnId, pick: string, s': Conv)
    requires Owned(s) && t < |s.turns| && s' == AdvanceStep(s, t, pick)
    ensures Owned(s')
  {
    AdvanceFrame(s, t, pick);
  }

  lemma TearDownOwned(s: Conv, t: TurnId, s': Conv)
    requires Owned(s) && t < |s.turns| && s.turns[t].pc.Done? && s' == TearDownStep(s, t)
    ensures Owned(s')
  {
  }

  lemma {:induction false} RunOwned(ls: seq<Label>)
    ensures Owned(Exec(ls))
  {
    if ls == [] {
      assert Exec(ls).turns == [];
    } else {
      RunOwned(ls[..|ls| - 1]);
      StepOwned(Exec(ls[..|ls| - 1]), ls[|ls| - 1]);
    }
  }

  /** In every run, a running turn no cancel has popped is the registered one; so there is
      at most one. */
  lemma {:induction false} TurnOwnership(ls: seq<Label>, t: TurnId, u: TurnId)
    requires RunningTurn(Exec(ls), t) && !Exec(ls).turns[t].popped
    ensures Exec(ls).shared.active == Some(t)
    ensures RunningTurn(Exec(ls), u) && !Exec(ls).turns[u].popped ==> u == t
  {
    RunOwned(ls);
  }

  /** The teardown of a turn that is not the registered one changes nothing it does not own:
      not the registration, not a buffer, not the prompt. */
  lemma {:induction false} StaleTeardownIsHarmless(ls: seq<Label>, stale: TurnId)
    requires Exec(ls).shared.active.Some? && Exec(ls).shared.active != Some(stale)
    ensures Exec(ls + [TearDown(stale)]).shared == Exec(ls).shared
  {
    ExecAppend(ls, TearDown(stale));
  }

  /** While a registered turn runs, only a cancel takes it off the register. */
  lemma {:induction false} OnlyCancelUnregisters(ls: seq<Label>, l: Label, t: TurnId)
    requires Exec(ls).shared.active == Some(t) && RunningTurn(Exec(ls), t)
    requires Exec(ls + [l]).shared.active != Some(t)
    ensures l == CancelPop
  {
    ExecAppend(ls, l);
    RunOwned(ls);
  }

  // ---- No residue -------------------------------------------------------------------------

  /** The conversation waits for the user's answer to an input-required prompt that
      carries a message. */
  ghost predicate WaitsForAnswer(s: State) {
    s.pending.Some? && s.pending.value.Says(InputRequired) && s.pending.value.status.message.Some?
  }

  ghost predicate Tidy(s: Conv) {
    && Owned(s)
    && (s.shared.pending.Some? ==> s.shared.pending.value.IsPrompt())
    && (AllTornDown(s) ==>
          && s.shared.active.None? && s.shared.BuffersEmpty()
          && (s.shared.pending.Some? ==> s.shared.PendingInputRequired()))
  }

  /** A step of a turn that is not torn down, and stays so, leaves some handler to tidy up. */
  lemma NotAllTornDown(s: Conv, t: TurnId)
    requires t < |s.turns| && !s.turns[t].pc.TornDown?
    ensures !AllTornDown(s)
  {
  }

  lemma SamePcs(s: Conv, s': Conv)
    requires |s'.turns| == |s.turns|
    requires forall t: TurnId :: t < |s.turns| ==> s'.turns[t].pc == s.turns[t].pc
    ensures AllTornDown(s') <==> AllTornDown(s)
  {
    if AllTornDown(s') {
      forall t: TurnId | t < |s.turns| ensures s.turns[t].pc.TornDown? {
        assert s'.turns[t].pc.TornDown?;
      }
    }
  }

  lemma StepTidy(s: Conv, l: Label)
    requires Tidy(s)
    ensures Tidy(Step(s, l))
  {
    StepOwned(s, l);
    var s' := Step(s, l);
    match l
    case Send(_) =>
      if StartsTurn(s) { NotAllTornDown(s', |s.turns|); }
    case Receive(t, _) =>
      if t < |s.turns| && s.turns[t].pc.Streaming? { NotAllTornDown(s', t); }
    case Advance(t, _) =>
      if t < |s.turns| {
        AdvanceFrame(s, t, l.pick);
        if s.turns[t].pc.Running() { NotAllTornDown(s', t); }
      }
    case DbFail(t) =>
      if t < |s.turns| && s.turns[t].pc.InTry() { NotAllTornDown(s', t); }
    case Finish(t, _) =>
      if RunningTurn(s, t) { NotAllTornDown(s', t); }
    case TearDown(t) =>
      if t < |s.turns| && s.turns[t].pc.Done? { StepTearDownTidy(s, t); }
    case CancelPop => SamePcs(s, s');
    case CancelFire(_) => SamePcs(s, s');
    case Disconnect(_) =>
    case Join(_) =>
    case ReadSnapshot(_) =>
    case Leave(_) =>
  }

  /** The last teardown always finds its own registration or none, and clears. */
  lemma StepTearDownTidy(s: Conv, t: TurnId)
    requires Tidy(s) && t < |s.turns| && s.turns[t].pc.Done?
    ensures Tidy(TearDownStep(s, t))
  {
    StepOwned(s, TearDown(t));
    var s' := TearDownStep(s, t);
    if AllTornDown(s') {
      assert forall u :: 0 <= u < |s.turns| && u != t ==> s'.turns[u] == s.turns[u];
    }
  }

  lemma {:induction false} RunTidy(ls: seq<Label>)
    ensures Tidy(Exec(ls))
  {
    if ls == [] {
      assert Exec(ls).turns == [];
    } else {
      RunTidy(ls[..|ls| - 1]);
      StepTidy(Exec(ls[..|ls| - 1]), ls[|ls| - 1]);
    }
  }

  /** Once every handler has torn down its turn, the conversation is in flight exactly when
      it waits for the answer to a prompt, and nothing else is left. */
  lemma {:induction false} NoResidue(ls: seq<Label>)
    requires AllTornDown(Exec(ls))
    ensures Exec(ls).shared.InFlight() <==> WaitsForAnswer(Exec(ls).shared)
    ensures Exec(ls).shared == Shared(None, None, None, Exec(ls).shared.pending, map[])
  {
    RunTidy(ls);
  }

  /** Hence a turn started after its predecessors were torn down starts on empty state. */
  lemma {:induction false} CleanStart(ls: seq<Label>, sid: string)
    requires AllTornDown(Exec(ls))
    ensures Exec(ls + [Send(sid)]).shared == Shared(Some(|Exec(ls).turns|), None, None, None, map[])
  {
    NoResidue(ls);
    ExecAppend(ls, Send(sid));
  }

  /** One turn, with `half` in its buffer, stands at `pc`. */
  ghost predicate HalfWritten(s: Conv, pc: Pc, half: string) {
    && Reached(s) && |s.turns| == 1 && s.turns[0].pc == pc && s.room == map[]
    && s.shared == Shared(Some(0), Some(half), None, None, map[])
  }

  function HalfChunk(half: string): Event { ArtifactUpdate(Artifact(false, "", half), true, false) }

  lemma TurnOpens() returns (s: Conv)
    ensures Reached(s) && |s.turns| == 1 && s.turns[0].pc == Streaming && s.room == map[]
    ensures s.shared == Shared(Some(0), None, None, None, map[])
  {
    InitIsReached();
    s := Go(Init(), Send("tab"));
  }

  lemma HalfReceived(half: string) returns (s: Conv, chunk: Option<Chunk>)
    ensures HalfWritten(s, Received(HalfChunk(half), chunk), half)
  {
    var s1 := TurnOpens();
    var e := HalfChunk(half);
    assert e.IsReplyChunk() && s1.turns == [s1.turns[0]];
    s := Go(s1, Receive(0, e));
    assert s == ReceiveStep(s1, 0, e) && s.shared == Accumulate(s1.shared, e);
    assert "" + half == half;
    chunk := s.turns[0].pc.chunk;
  }

  lemma HalfGoesOn(s1: Conv, pc: Pc, half: string) returns (s: Conv)
    requires HalfWritten(s1, pc, half) && pc.Running() && pc != Streaming && pc.e == HalfChunk(half)
    requires pc.Received? || pc.Persisting? || (pc.Saving? && !pc.saved) || pc.Tail?
    ensures HalfWritten(s, match pc
      case Received(e, chunk) => Persisting(e, chunk)
      case Persisting(e, chunk) => Saving(e, chunk, false)
      case Saving(e, chunk, _) => Tail(e, chunk)
      case _ => Streaming, half)
  {
    s := Go(s1, Advance(0, ""));
    if pc.Persisting? { assert s == CaptureStep(s1, 0); }
    if pc.Saving? { assert s == SaveStep(s1, 0); }
  }

  lemma HalfWaits(half: string) returns (s: Conv)
    ensures HalfWritten(s, Streaming, half)
  {
    var s1, chunk := HalfReceived(half);
    var e := HalfChunk(half);
    var s2 := HalfGoesOn(s1, Received(e, chunk), half);
    var s3 := HalfGoesOn(s2, Persisting(e, chunk), half);
    var s4 := HalfGoesOn(s3, Saving(e, chunk, false), half);
    s := HalfGoesOn(s4, Tail(e, chunk), half);
  }

  lemma StreamBreaks(half: string) returns (s: Conv)
    ensures HalfWritten(s, Done(false), half)
  {
    var s1 := HalfWaits(half);
    s := Go(s1, Finish(0, false));
  }

  lemma StartInherits(s: Conv, half: string)
    requires HalfWritten(s, Done(false), half)
    ensures !AllTornDown(s) && StartsTurn(s) && MayFollow(s, Send("tab"))
    ensures Step(s, Send("tab")).shared.active == Some(1)
    ensures Step(s, Send("tab")).shared.buffer == Some(half)
  {
    assert !s.turns[0].pc.Running() && !s.turns[0].pc.TornDown?;
    assert Step(s, Send("tab")).shared == Begin(s.shared, 1);
  }

  /** The condition is needed: a turn whose stream broke, not yet torn down, leaves its
      half-written reply to a turn that starts in the meantime. */
  lemma {:induction false} OverlappingStartInherits(half: string) returns (s: Conv)
    ensures Reached(s) && !AllTornDown(s) && StartsTurn(s) && MayFollow(s, Send("tab"))
    ensures Step(s, Send("tab")).shared.active == Some(1)
    ensures Step(s, Send("tab")).shared.buffer == Some(half)
  {
    s := StreamBreaks(half);
    StartInherits(s, half);
  }

  // ---- At most one running turn -------------------------------------------------------------

  ghost predicate CancelFree(ls: seq<Label>) { CancelPop !in ls }

  ghost predicate Solo(s: Conv) {
    forall t: TurnId, u: TurnId :: RunningTurn(s, t) && RunningTurn(s, u) ==> t == u
  }

  /** At no point do two turns run. */
  ghost predicate SoloRun(ls: seq<Label>) { Solo(Exec(ls)) && (ls != [] ==> SoloRun(ls[..|ls| - 1])) }

  ghost predicate OnlyLastAlive(s: Conv) {
    forall t: TurnId :: t < |s.turns| - 1 ==> s.turns[t].pc.TornDown?
  }

  lemma StepOnlyLastAlive(s: Conv, l: Label)
    requires OnlyLastAlive(s) && (l.Send? && StartsTurn(s) ==> AllTornDown(s))
    ensures OnlyLastAlive(Step(s, l))
  {
    if l.Advance? && l.t < |s.turns| { AdvanceFrame(s, l.t, l.pick); }
  }

  /** In a calm run a turn's predecessors are torn down before it starts, cancels or not. */
  lemma {:induction false} CalmMeansOnlyLastAlive(ls: seq<Label>)
    requires Calm(ls)
    ensures OnlyLastAlive(Exec(ls)) && SoloRun(ls)
  {
    if ls == [] {
      assert Exec(ls).turns == [];
    } else {
      CalmMeansOnlyLastAlive(ls[..|ls| - 1]);
      StepOnlyLastAlive(Exec(ls[..|ls| - 1]), ls[|ls| - 1]);
    }
    forall t: TurnId, u: TurnId | RunningTurn(Exec(ls), t) && RunningTurn(Exec(ls), u) ensures t == u {
      assert t == |Exec(ls).turns| - 1 && u == |Exec(ls).turns| - 1;
    }
  }

  /** Without a cancel two turns never run at once, however closely sends follow each other. */
  lemma {:induction false} CancelFreeMeansSolo(ls: seq<Label>)
    requires CancelFree(ls)
    ensures SoloRun(ls)
  {
    RunOwned(ls);
    RunNeverCancelled(ls);
    if ls != [] { CancelFreeMeansSolo(ls[..|ls| - 1]); }
  }

  // ---- A prompt outlives its turn ---------------------------------------------------------

  ghost predicate NeverCancelled(s: Conv) {
    forall t :: 0 <= t < |s.turns| ==>
      !s.turns[t].popped && !s.turns[t].cancelRequested && s.turns[t].pc != Done(true)
  }

  lemma StepNeverCancelled(s: Conv, l: Label)
    requires NeverCancelled(s) && l != CancelPop
    ensures NeverCancelled(Step(s, l))
  {
    if l.Advance? && l.t < |s.turns| { AdvanceFrame(s, l.t, l.pick); }
  }

  lemma {:induction false} RunNeverCancelled(ls: seq<Label>)
    requires CancelFree(ls)
    ensures NeverCancelled(Exec(ls))
  {
    if ls == [] {
      assert Exec(ls).turns == [];
    } else {
      RunNeverCancelled(ls[..|ls| - 1]);
      StepNeverCancelled(Exec(ls[..|ls| - 1]), ls[|ls| - 1]);
    }
  }

  /** No turn runs, and prompt `p` is pending for the next send to answer. */
  ghost predicate Waiting(s: Conv, p: Event) {
    && s.shared.pending == Some(p) && p.Says(InputRequired)
    && forall t :: 0 <= t < |s.turns| ==> !s.turns[t].pc.Running() && s.turns[t].pc != Done(true)
  }

  lemma StepWaiting(s: Conv, l: Label, p: Event, s': Conv)
    requires Waiting(s, p) && !l.Send? && s' == Step(s, l)
    ensures Waiting(s', p)
  {
  }

  lemma {:induction false} WaitingStays(ls: seq<Label>, p: Event, more: seq<Label>)
    requires Waiting(Exec(ls), p) && forall l :: l in more ==> !l.Send?
    ensures Waiting(Exec(ls + more), p)
    decreases |more|
  {
    if more == [] {
      assert ls + more == ls;
    } else {
      var init, l := more[..|more| - 1], more[|more| - 1];
      assert l in more && forall x :: x in init ==> x in more;
      WaitingStays(ls, p, init);
      assert ls + more == (ls + init) + [l];
      ExecAppend(ls + init, l);
      StepWaiting(Exec(ls + init), l, p, Exec(ls + more));
    }
  }

  /** In a run without a cancel, an input-required prompt pending when its turn's task ends
      stays pending, through every teardown and disconnect, until the next send. */
  lemma {:induction false} PromptSurvives(ls: seq<Label>, t: TurnId, more: seq<Label>)
    requires CancelFree(ls) && RunningTurn(Exec(ls), t) && Exec(ls).shared.PendingInputRequired()
    requires forall l :: l in more ==> !l.Send?
    ensures Exec(ls + [Finish(t, false)] + more).shared.pending == Exec(ls).shared.pending
    ensures Waiting(Exec(ls + [Finish(t, false)] + more), Exec(ls).shared.pending.value)
  {
    ExecAppend(ls, Finish(t, false));
    RunOwned(ls);
    RunNeverCancelled(ls);
    WaitingStays(ls + [Finish(t, false)], Exec(ls).shared.pending.value, more);
  }

  /** An event that neither brings a prompt nor ends the turn without asking. */
  predicate KeepsPrompt(e: Event) {
    !e.IsPrompt() && !(e.EndsTurn() && !e.Says(InputRequired) && !e.Extends(FeedbackRequest))
  }

  /** Prompt `e` is pending, and no turn has anything in hand that would drop it. */
  ghost predicate Asking(s: Conv, e: Event) {
    && s.shared.pending == Some(e) && e.Says(InputRequired)
    && forall t: TurnId :: t < |s.turns| ==>
         s.turns[t].pc != Done(true)
         && (s.turns[t].pc.Running() ==>
               s.turns[t].pc.Streaming? || s.turns[t].pc.e == e || KeepsPrompt(s.turns[t].pc.e))
  }

  lemma AdvanceAsking(s: Conv, t: TurnId, pick: string, e: Event, s': Conv)
    requires Asking(s, e) && t < |s.turns| && s' == AdvanceStep(s, t, pick) && s.turns[t].pc.Running()
    ensures Asking(s', e)
  {
    AdvanceFrame(s, t, pick);
    AdvanceKeepsEvent(s, t, pick, e, s');
  }

  lemma AdvanceKeepsEvent(s: Conv, t: TurnId, pick: string, e: Event, s': Conv)
    requires Asking(s, e) && t < |s.turns| && s' == AdvanceStep(s, t, pick) && s.turns[t].pc.Running()
    ensures s'.shared.pending == Some(e)
    ensures s'.turns[t].pc.Streaming? ||
      (s'.turns[t].pc.Running() && s.turns[t].pc != Streaming && s'.turns[t].pc.e == s.turns[t].pc.e)
  {
    if s.turns[t].pc.Persisting? { CaptureKeepsEvent(s, t, e); }
    if s.turns[t].pc.Flushing? { FlushKeepsEvent(s, t, pick, e); }
  }

  lemma CaptureKeepsEvent(s: Conv, t: TurnId, e: Event)
    requires Asking(s, e) && t < |s.turns| && s.turns[t].pc.Persisting?
    ensures var s' := CaptureStep(s, t);
      && s'.shared.pending == Some(e) && s'.turns[t].pc.Running() && s'.turns[t].pc != Streaming
      && s'.turns[t].pc.e == s.turns[t].pc.e
  {
  }

  lemma FlushKeepsEvent(s: Conv, t: TurnId, pick: string, e: Event)
    requires Asking(s, e) && t < |s.turns| && s.turns[t].pc.Flushing?
    ensures var s' := FlushStep(s, t, pick);
      && s'.shared.pending == Some(e) && s'.turns[t].pc.Running() && s'.turns[t].pc != Streaming
      && s'.turns[t].pc.e == s.turns[t].pc.e
  {
  }

  /** What lets a prompt be: anything but a send, and events that keep it. */
  predicate Spares(l: Label) { !l.Send? && (l.Receive? ==> KeepsPrompt(l.e)) }

  lemma StepAsking(s: Conv, l: Label, e: Event, s': Conv)
    requires Asking(s, e) && NeverCancelled(s) && s' == Step(s, l) && Spares(l)
    ensures Asking(s', e)
  {
    if l.Advance? && l.t < |s.turns| && s.turns[l.t].pc.Running() { AdvanceAsking(s, l.t, l.pick, e, s'); }
  }

  /** From the moment an input-required prompt is captured, every snapshot shows it, until a send,
      another prompt, or an event that ends the turn without asking: whatever the rest of its own
      event, other events, the end of the stream, teardowns and disconnects do in between. */
  lemma {:induction false} CapturedPromptIsShown(ls: seq<Label>, t: TurnId, e: Event, more: seq<Label>)
    requires CancelFree(ls + more) && RunningTurn(Exec(ls), t)
    requires Exec(ls).turns[t].pc.Persisting? && Exec(ls).turns[t].pc.e == e
    requires e.IsPrompt() && e.Says(InputRequired)
    requires forall l :: l in more ==> Spares(l)
    ensures Exec(ls + [Advance(t, "")] + more).shared.pending == Some(e)
    ensures Asking(Exec(ls + [Advance(t, "")] + more), e)
    decreases more
  {
    var captured := ls + [Advance(t, "")];
    if more == [] {
      assert ls + more == ls && captured + more == captured;
      ExecAppend(ls, Advance(t, ""));
      RunOwned(ls);
      RunNeverCancelled(ls);
      CaptureAsks(Exec(ls), t, Exec(captured));
    } else {
      var rest, l := more[..|more| - 1], more[|more| - 1];
      assert forall x :: x in ls + rest ==> x in ls + more;
      CapturedPromptIsShown(ls, t, e, rest);
      assert captured + more == (captured + rest) + [l];
      ExecAppend(captured + rest, l);
      assert CancelFree(captured + rest) by {
        assert forall x :: x in captured + rest ==> x in ls + rest || x == Advance(t, "");
      }
      RunNeverCancelled(captured + rest);
      StepAsking(Exec(captured + rest), l, e, Exec(captured + more));
    }
  }

  lemma CaptureAsks(s: Conv, t: TurnId, s': Conv)
    requires Owned(s) && NeverCancelled(s) && t < |s.turns| && s.turns[t].pc.Persisting?
    requires s.turns[t].pc.e.IsPrompt() && s.turns[t].pc.e.Says(InputRequired)
    requires s' == Step(s, Advance(t, ""))
    ensures Asking(s', s.turns[t].pc.e)
  {
    assert s' == CaptureStep(s, t);
    forall u: TurnId | u < |s.turns| && s.turns[u].pc.Running() ensures u == t {
      assert RunningTurn(s, u) && RunningTurn(s, t);
    }
  }

  /** A turn that ended without asking has dropped any prompt before it saves its last row. */
  ghost predicate Settled(s: Conv) {
    forall t: TurnId :: t < |s.turns| && s.turns[t].pc.Saving? ==>
      var e := s.turns[t].pc.e;
      e.EndsTurn() && !e.Says(InputRequired) && !e.Extends(FeedbackRequest) ==> s.shared.pending.None?
  }

  lemma AdvanceSettled(s: Conv, t: TurnId, pick: string, s': Conv)
    requires MayFollow(s, Advance(t, pick)) && t < |s.turns| && s' == AdvanceStep(s, t, pick) && s.turns[t].pc.Running()
    ensures Settled(s')
  {
    AdvanceFrame(s, t, pick);
    AdvanceSettles(s, t, pick, s');
    assert forall u: TurnId :: u < |s.turns| && u != t ==> !s.turns[u].pc.Saving?;
  }

  lemma AdvanceSettles(s: Conv, t: TurnId, pick: string, s': Conv)
    requires t < |s.turns| && s' == AdvanceStep(s, t, pick) && s.turns[t].pc.Running()
    ensures s'.turns[t].pc.Saving? ==>
      var e := s'.turns[t].pc.e;
      e.EndsTurn() && !e.Says(InputRequired) && !e.Extends(FeedbackRequest) ==> s'.shared.pending.None?
  {
    match s.turns[t].pc
    case Persisting(_, _) =>
    case Flushing(_, _, _, _) =>
    case _ =>
  }

  lemma StepSettled(s: Conv, l: Label, s': Conv)
    requires MayFollow(s, l) && Settled(s) && s' == Step(s, l)
    ensures Settled(s')
  {
    if l.Advance? && l.t < |s.turns| && s.turns[l.t].pc.Running() { AdvanceSettled(s, l.t, l.pick, s'); }
  }

  /** In every run of the code, cancels and overlaps or not. */
  lemma {:induction false} EndedTurnKeepsNoPrompt(ls: seq<Label>)
    requires Real(ls)
    ensures Settled(Exec(ls))
  {
    if ls == [] {
      assert Exec(ls).turns == [];
    } else {
      EndedTurnKeepsNoPrompt(ls[..|ls| - 1]);
      StepSettled(Exec(ls[..|ls| - 1]), ls[|ls| - 1], Exec(ls));
    }
  }
}
