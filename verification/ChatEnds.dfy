/** What an event does to the conversation, by its kind and state alone: which text is kept,
    which event ends a turn and what is then handed to the store, what becomes of the prompt.
    Nothing here is said in the words of the server's own tests on events. */
module ChatEnds {
  import opened Common
  import opened ChatTurn
  import opened ChatProtocol

  // ---- Kinds of events ---------------------------------------------------------------------------

  /** The last chunk of an artifact, or one of the four states in which a turn is over. */
  predicate Over(e: Event) {
    match e
    case ArtifactUpdate(_, _, last) => last
    case StatusUpdate(status) => OverState(status.state)
    case TaskEvent(status) => OverState(status.state)
    case MessageEvent(_) => false
  }

  predicate OverState(state: TaskState) {
    match state
    case Completed => true
    case Failed => true
    case Canceled => true
    case InputRequired => true
    case Submitted => false
    case Working => false
    case Rejected => false
    case AuthRequired => false
    case Unspecified => false
  }

  /** The status an event carries, if it carries one. */
  function StatusIn(e: Event): Option<Status> {
    match e
    case StatusUpdate(status) => Some(status)
    case TaskEvent(status) => Some(status)
    case ArtifactUpdate(_, _, _) => None
    case MessageEvent(_) => None
  }

  /** It asks for feedback, by the extension of its message. */
  predicate AsksFeedback(status: Status) { status.message.Some? && FeedbackRequest in status.message.value.extensions }

  /** A prompt the widget can show again: feedback, or input asked for with a message. */
  predicate ShowsPrompt(e: Event) {
    && StatusIn(e).Some?
    && var status := StatusIn(e).value;
    AsksFeedback(status) || (status.state == InputRequired && status.message.Some?)
  }

  /** It asks for something, with or without a message. */
  predicate Asks(e: Event) {
    StatusIn(e).Some? && (AsksFeedback(StatusIn(e).value) || StatusIn(e).value.state == InputRequired)
  }

  // ---- What is kept of an event --------------------------------------------------------------------

  /** The orchestrator's own text, as the schedule's events bring it to turns that listen. */
  function Said(ls: seq<Label>): string {
    if ls == [] then ""
    else
      var init, l := ls[..|ls| - 1], ls[|ls| - 1];
      Said(init) +
        (match l
         case Receive(t, ArtifactUpdate(Artifact(false, _, text), _, _)) =>
           if t < |Exec(init).turns| && Exec(init).turns[t].pc.Streaming? then text else ""
         case _ => "")
  }

  /** In every run the text received is what was said: each text of each artifact that is no
      sub-agent's, appended or not, last or not. */
  lemma {:induction false} AllThatIsSaidIsReceived(ls: seq<Label>)
    ensures Exec(ls).hist.received == Said(ls)
  {
    if ls != [] {
      var init, l := ls[..|ls| - 1], ls[|ls| - 1];
      AllThatIsSaidIsReceived(init);
      StepReceives(Exec(init), l);
    }
  }

  lemma StepReceives(s: Conv, l: Label)
    ensures Step(s, l).hist.received == s.hist.received +
      (match l
       case Receive(t, ArtifactUpdate(Artifact(false, _, text), _, _)) =>
         if t < |s.turns| && s.turns[t].pc.Streaming? then text else ""
       case _ => "")
  {
    var r := s.hist.received;
    assert r + "" == r;
  }

  /** The first thing a turn's block does: a prompt is captured, a sub-agent's thought is
      appended to what that agent thought so far, and nothing else happens to either. */
  lemma WhatIsCaptured(s: Conv, t: TurnId, e: Event, s': Conv)
    requires t < |s.turns| && s.turns[t].pc.Persisting? && s.turns[t].pc.e == e && s' == Step(s, Advance(t, ""))
    ensures s'.shared.pending == if ShowsPrompt(e) then Some(e) else s.shared.pending
    ensures s'.shared.buffer == s.shared.buffer && s'.hist.segments == s.hist.segments
    ensures match e
      case ArtifactUpdate(Artifact(true, agent, text), _, _) =>
        if text == "" then s'.shared.thoughts == s.shared.thoughts && s'.hist.log == s.hist.log
        else
          && s'.hist.log == s.hist.log + [ThoughtIn(t, agent, text)]
          && s'.shared.thoughts.Keys == s.shared.thoughts.Keys + {agent}
          && s'.shared.thoughts[agent] == (if agent in s.shared.thoughts then s.shared.thoughts[agent] else "") + text
          && forall a :: a in s.shared.thoughts && a != agent ==> s'.shared.thoughts[a] == s.shared.thoughts[a]
      case _ => s'.shared.thoughts == s.shared.thoughts && s'.hist.log == s.hist.log
  {
    assert s' == CaptureStep(s, t);
  }

  // ---- How a turn ends ------------------------------------------------------------------------------

  /** One step of turn `t` takes the whole reply: the buffer is empty after it, what was in it is
      one more segment popped at a turn's end by `t`, and it is offered to the store unless blank. */
  ghost predicate TakesReply(s: Conv, s': Conv, t: TurnId) {
    && s'.shared.buffer.None?
    && match s.shared.buffer
       case None => s'.hist.segments == s.hist.segments && s'.hist.log == s.hist.log
       case Some(text) =>
         && s'.hist.segments == s.hist.segments + [Segment(text, t, true)]
         && s'.hist.log == if PyBlank(text) then s.hist.log else s.hist.log + [AnswerOffered(t, text)]
  }

  /** It takes nothing: buffers and prompt are as they were. */
  ghost predicate LeavesAlone(s: Conv, s': Conv) {
    && s'.shared.buffer == s.shared.buffer && s'.shared.thoughts == s.shared.thoughts
    && s'.shared.pending == s.shared.pending && s'.hist.segments == s.hist.segments
  }

  /** A thought of agent `a` was popped after the first `n` entries of the log. */
  ghost predicate PoppedSince(log: seq<LogItem>, n: nat, a: string) {
    exists i :: n <= i < |log| && log[i].ThoughtOut? && log[i].agent == a
  }

  ghost predicate AllPopped(log: seq<LogItem>, n: nat, agents: set<string>) {
    forall a :: a in agents ==> PoppedSince(log, n, a)
  }

  predicate IsStepOf(l: Label, t: TurnId) { l.Advance? && l.t == t }

  /** In the schedule `more`, run after `ls`, some step of turn `t` takes the reply. */
  ghost predicate TookReply(ls: seq<Label>, more: seq<Label>, t: TurnId)
    decreases |more|
  {
    && more != []
    && var before := more[..|more| - 1];
       || TookReply(ls, before, t)
       || (IsStepOf(more[|more| - 1], t) && TakesReply(Exec(ls + before), Exec(ls + more), t))
  }

  /** Some step of it leaves no prompt. */
  ghost predicate DroppedPrompt(ls: seq<Label>, more: seq<Label>, t: TurnId)
    decreases |more|
  {
    && more != []
    && var before := more[..|more| - 1];
       || DroppedPrompt(ls, before, t)
       || (IsStepOf(more[|more| - 1], t) && Exec(ls + more).shared.pending.None?)
  }

  /** No step of it changes the prompt. */
  ghost predicate KeptPrompt(ls: seq<Label>, more: seq<Label>, t: TurnId)
    decreases |more|
  {
    more != [] ==>
      var before := more[..|more| - 1];
      && KeptPrompt(ls, before, t)
      && (IsStepOf(more[|more| - 1], t) ==> Exec(ls + more).shared.pending == Exec(ls + before).shared.pending)
  }

  /** No step of it takes anything. */
  ghost predicate TookNothing(ls: seq<Label>, more: seq<Label>, t: TurnId)
    decreases |more|
  {
    more != [] ==>
      var before := more[..|more| - 1];
      && TookNothing(ls, before, t)
      && (IsStepOf(more[|more| - 1], t) ==> LeavesAlone(Exec(ls + before), Exec(ls + more)))
  }

  /** Turn `t` is left to go through its block: it hears nothing new and the store does not fail. */
  ghost predicate Undisturbed(more: seq<Label>, t: TurnId) {
    forall l :: l in more ==> !(l.Receive? && l.t == t) && !(l.DbFail? && l.t == t)
  }

  /** How far turn `t` has come with its event, and what that means. */
  ghost predicate OnItsWay(ls: seq<Label>, more: seq<Label>, t: TurnId, e: Event, agents: set<string>) {
    var s, n := Exec(ls + more), |Exec(ls).hist.log|;
    && t < |s.turns|
    && n <= |s.hist.log|
    && match s.turns[t].pc
       case Flushing(e', _, keys, _) =>
         e' == e && Over(e) && AllPopped(s.hist.log, n, agents - keys) && KeptPrompt(ls, more, t)
       case AnswerWait(e', _, _) =>
         e' == e && Over(e) && AllPopped(s.hist.log, n, agents) && KeptPrompt(ls, more, t) && TookReply(ls, more, t)
       case Settling(e', _, _) =>
         e' == e && Over(e) && AllPopped(s.hist.log, n, agents) && KeptPrompt(ls, more, t) && TookReply(ls, more, t)
       case Saving(e', _, _) => e' == e && Ended(ls, more, t, e, agents)
       case Received(_, _) => false
       case Persisting(_, _) => false
       case _ => true
  }

  /** What has been done with event `e` when its row comes to be saved. */
  ghost predicate Ended(ls: seq<Label>, more: seq<Label>, t: TurnId, e: Event, agents: set<string>) {
    && (Over(e) ==> TookReply(ls, more, t) && AllPopped(Exec(ls + more).hist.log, |Exec(ls).hist.log|, agents))
    && (Over(e) && !Asks(e) ==> DroppedPrompt(ls, more, t))
    && (Over(e) && Asks(e) ==> KeptPrompt(ls, more, t))
    && (!Over(e) ==> TookNothing(ls, more, t))
  }

  lemma PopsStay(log: seq<LogItem>, log': seq<LogItem>, n: nat, agents: set<string>)
    requires log <= log' && AllPopped(log, n, agents)
    ensures AllPopped(log', n, agents)
  {
    forall a | a in agents ensures PoppedSince(log', n, a) {
      var i :| n <= i < |log| && log[i].ThoughtOut? && log[i].agent == a;
      assert log'[i] == log[i];
    }
  }

  lemma LogGrows(s: Conv, l: Label)
    ensures s.hist.log <= Step(s, l).hist.log
  {
  }

  /** A step that is not turn `t`'s leaves it where it is, or ends it. */
  lemma OthersLeaveIt(s: Conv, l: Label, t: TurnId, s': Conv)
    requires t < |s.turns| && s' == Step(s, l)
    requires !IsStepOf(l, t) && !(l.Receive? && l.t == t) && !(l.DbFail? && l.t == t)
    ensures t < |s'.turns| && (s'.turns[t].pc == s.turns[t].pc || s'.turns[t].pc.Done? || s'.turns[t].pc.TornDown?)
  {
    if l.Advance? && l.t < |s.turns| { AdvanceFrame(s, l.t, l.pick); }
  }

  /** One step of the flush. */
  ghost predicate FlushedOn(s: Conv, s': Conv, t: TurnId, n: nat, agents: set<string>)
    requires t < |s.turns| && t < |s'.turns| && s.turns[t].pc.Flushing?
  {
    var pc, pc' := s.turns[t].pc, s'.turns[t].pc;
    && s'.shared.pending == s.shared.pending
    && (pc'.Flushing? || pc'.AnswerWait? || pc'.Settling? || pc'.Tail?)
    && (pc'.Flushing? ==> pc'.e == pc.e && AllPopped(s'.hist.log, n, agents - pc'.keys))
    && (pc'.AnswerWait? ==> pc'.e == pc.e && AllPopped(s'.hist.log, n, agents) && TakesReply(s, s', t))
    && (pc'.Settling? ==> pc'.e == pc.e && AllPopped(s'.hist.log, n, agents) && TakesReply(s, s', t))
  }

  lemma OwnFlush(s: Conv, t: TurnId, pick: string, n: nat, agents: set<string>, s': Conv)
    requires t < |s.turns| && s.turns[t].pc.Flushing? && s' == Step(s, Advance(t, pick)) && n <= |s.hist.log|
    requires AllPopped(s.hist.log, n, agents - s.turns[t].pc.keys)
    ensures t < |s'.turns| && FlushedOn(s, s', t, n, agents)
  {
    var pc := s.turns[t].pc;
    assert s' == FlushStep(s, t, pick);
    PopsStay(s.hist.log, s'.hist.log, n, agents - pc.keys);
    if pc.keys == {} {
      assert agents - pc.keys == agents;
      assert s' == PopAnswerStep(s, t);
    } else if pick in pc.keys && pick in s.shared.thoughts {
      assert s'.hist.log[|s.hist.log|].ThoughtOut? && s'.hist.log[|s.hist.log|].agent == pick;
      assert PoppedSince(s'.hist.log, n, pick);
    }
  }

  /** The prompt goes unless the event asks for something. */
  ghost predicate SettledOn(s: Conv, s': Conv, t: TurnId)
    requires t < |s.turns| && t < |s'.turns| && s.turns[t].pc.Settling?
  {
    && s'.turns[t].pc.Saving? && s'.turns[t].pc.e == s.turns[t].pc.e && s'.hist.log == s.hist.log
    && s'.shared.pending == if Asks(s.turns[t].pc.e) then s.shared.pending else None
  }

  lemma OwnSettle(s: Conv, t: TurnId, pick: string, s': Conv)
    requires t < |s.turns| && s.turns[t].pc.Settling? && s' == Step(s, Advance(t, pick)) && Over(s.turns[t].pc.e)
    ensures t < |s'.turns| && SettledOn(s, s', t)
  {
  }

  /** The facts about one more step of the turn, and about one that is not its own. */
  lemma OneMore(ls: seq<Label>, more: seq<Label>, l: Label, t: TurnId)
    ensures var s, s', all := Exec(ls + more), Exec(ls + (more + [l])), more + [l];
      && (TookReply(ls, all, t) <==> TookReply(ls, more, t) || (IsStepOf(l, t) && TakesReply(s, s', t)))
      && (DroppedPrompt(ls, all, t) <==> DroppedPrompt(ls, more, t) || (IsStepOf(l, t) && s'.shared.pending.None?))
      && (KeptPrompt(ls, all, t) <==>
            KeptPrompt(ls, more, t) && (IsStepOf(l, t) ==> s'.shared.pending == s.shared.pending))
      && (TookNothing(ls, all, t) <==> TookNothing(ls, more, t) && (IsStepOf(l, t) ==> LeavesAlone(s, s')))
  {
    assert (more + [l])[..|more + [l]| - 1] == more;
  }

  lemma OwnAdvance(ls: seq<Label>, more: seq<Label>, l: Label, t: TurnId, e: Event, agents: set<string>)
    requires OnItsWay(ls, more, t, e, agents) && IsStepOf(l, t)
    requires Exec(ls + (more + [l])) == Step(Exec(ls + more), l)
    ensures OnItsWay(ls, more + [l], t, e, agents)
  {
    var s, s', n := Exec(ls + more), Exec(ls + (more + [l])), |Exec(ls).hist.log|;
    LogGrows(s, l);
    OneMore(ls, more, l, t);
    OwnStep(s, t, l.pick, n, agents, s');
  }

  /** One step of the turn, wherever it stands. */
  lemma OwnStep(s: Conv, t: TurnId, pick: string, n: nat, agents: set<string>, s': Conv)
    requires t < |s.turns| && s' == Step(s, Advance(t, pick)) && n <= |s.hist.log|
    ensures t < |s'.turns|
    ensures var pc, pc', kept := s.turns[t].pc, s'.turns[t].pc, s'.shared.pending == s.shared.pending;
      && (pc.Flushing? && AllPopped(s.hist.log, n, agents - pc.keys) ==> FlushedOn(s, s', t, n, agents))
      && (pc.AnswerWait? ==> pc'.Settling? && pc'.e == pc.e && kept)
      && (pc.AnswerWait? && AllPopped(s.hist.log, n, agents) ==> AllPopped(s'.hist.log, n, agents))
      && (pc.Settling? && Over(pc.e) ==> SettledOn(s, s', t))
      && (pc.Saving? ==> pc'.Tail?)
      && (pc.Tail? ==> pc'.Streaming?)
      && (pc.Streaming? || pc.Done? || pc.TornDown? ==> pc' == pc)
  {
    var pc := s.turns[t].pc;
    if pc.Flushing? {
      if AllPopped(s.hist.log, n, agents - pc.keys) { OwnFlush(s, t, pick, n, agents, s'); }
      assert s' == FlushStep(s, t, pick);
    } else if pc.AnswerWait? {
      assert s' == AnswerStoredStep(s, t);
      if AllPopped(s.hist.log, n, agents) { PopsStay(s.hist.log, s'.hist.log, n, agents); }
    } else if pc.Settling? {
      if Over(pc.e) { OwnSettle(s, t, pick, s'); }
    }
  }

  lemma OtherStep(ls: seq<Label>, more: seq<Label>, l: Label, t: TurnId, e: Event, agents: set<string>)
    requires OnItsWay(ls, more, t, e, agents)
    requires !IsStepOf(l, t) && !(l.Receive? && l.t == t) && !(l.DbFail? && l.t == t)
    requires Exec(ls + (more + [l])) == Step(Exec(ls + more), l)
    ensures OnItsWay(ls, more + [l], t, e, agents)
  {
    var s, s', n := Exec(ls + more), Exec(ls + (more + [l])), |Exec(ls).hist.log|;
    LogGrows(s, l);
    OneMore(ls, more, l, t);
    OthersLeaveIt(s, l, t, s');
    var pc := s.turns[t].pc;
    if pc.Flushing? { PopsStay(s.hist.log, s'.hist.log, n, agents - pc.keys); }
    if AllPopped(s.hist.log, n, agents) { PopsStay(s.hist.log, s'.hist.log, n, agents); }
  }

  lemma {:induction false} StaysOnItsWay(ls: seq<Label>, more: seq<Label>, t: TurnId, e: Event, agents: set<string>)
    requires OnItsWay(ls, [], t, e, agents) && Undisturbed(more, t)
    ensures OnItsWay(ls, more, t, e, agents)
    decreases |more|
  {
    if more != [] {
      var init, l := more[..|more| - 1], more[|more| - 1];
      assert more == init + [l] && l in more && forall x :: x in init ==> x in more;
      StaysOnItsWay(ls, init, t, e, agents);
      assert ls + more == (ls + init) + [l];
      ExecAppend(ls + init, l);
      if IsStepOf(l, t) { OwnAdvance(ls, init, l, t, e, agents); } else { OtherStep(ls, init, l, t, e, agents); }
    }
  }

  /** Where a turn goes once its event is captured: to the flush exactly when the event ends it. */
  lemma SetsOut(ls: seq<Label>, t: TurnId, pick: string, e: Event)
    requires t < |Exec(ls).turns| && Exec(ls).turns[t].pc.Persisting? && Exec(ls).turns[t].pc.e == e
    ensures var begun := ls + [Advance(t, pick)];
      OnItsWay(begun, [], t, e, Exec(begun).shared.thoughts.Keys)
  {
    var begun := ls + [Advance(t, pick)];
    ExecAppend(ls, Advance(t, pick));
    assert begun + [] == begun;
    assert Exec(begun) == CaptureStep(Exec(ls), t);
    var agents := Exec(begun).shared.thoughts.Keys;
    assert agents - agents == {};
  }

  /** The end of a turn, in every run.  Take a turn that has just captured its event and let it go
      through its block, whatever else happens meanwhile, until its row comes to be saved.  If the
      event is a last chunk, or a status that says completed, failed, canceled or input required,
      the turn has taken the reply and offered it, has popped all thoughts there were, and has
      dropped the prompt unless the event asks for something.  Any other event takes nothing. */
  lemma {:induction false} EveryEndTakesAll(ls: seq<Label>, t: TurnId, pick: string, e: Event, more: seq<Label>)
    requires t < |Exec(ls).turns| && Exec(ls).turns[t].pc.Persisting? && Exec(ls).turns[t].pc.e == e
    requires Undisturbed(more, t)
    requires t < |Exec(ls + [Advance(t, pick)] + more).turns|
      && Exec(ls + [Advance(t, pick)] + more).turns[t].pc.Saving?
    ensures var begun := ls + [Advance(t, pick)];
      Ended(begun, more, t, e, Exec(begun).shared.thoughts.Keys)
  {
    var begun := ls + [Advance(t, pick)];
    SetsOut(ls, t, pick, e);
    StaysOnItsWay(begun, more, t, e, Exec(begun).shared.thoughts.Keys);
  }

  /** And it always comes there: left alone, a turn at the end of its event pops its thoughts one
      by one, then the reply, and saves its row. */
  lemma {:induction false} EveryEndComes(s: Conv, t: TurnId) returns (ls: seq<Label>)
    requires t < |s.turns| && s.turns[t].pc.Flushing? && s.turns[t].pc.keys <= s.shared.thoughts.Keys
    ensures Undisturbed(ls, t) && (forall l :: l in ls ==> l.Advance? && l.t == t)
    ensures t < |Steps(s, ls).turns| && Steps(s, ls).turns[t].pc.Saving?
    decreases |s.turns[t].pc.keys|
  {
    var pc := s.turns[t].pc;
    if pc.keys == {} {
      ls := AfterTheThoughts(s, t);
    } else {
      var a :| a in pc.keys;
      var s' := Step(s, Advance(t, a));
      assert s' == FlushStep(s, t, a);
      assert s'.turns[t].pc.keys == pc.keys - {a};
      var rest := EveryEndComes(s', t);
      ls := [Advance(t, a)] + rest;
    }
  }

  function Steps(s: Conv, ls: seq<Label>): Conv
    decreases |ls|
  {
    if ls == [] then s else Steps(Step(s, ls[0]), ls[1..])
  }

  lemma AfterTheThoughts(s: Conv, t: TurnId) returns (ls: seq<Label>)
    requires t < |s.turns| && s.turns[t].pc.Flushing? && s.turns[t].pc.keys == {}
    ensures Undisturbed(ls, t) && (forall l :: l in ls ==> l.Advance? && l.t == t)
    ensures t < |Steps(s, ls).turns| && Steps(s, ls).turns[t].pc.Saving?
  {
    var go := Advance(t, "");
    var s1 := Step(s, go);
    assert s1 == PopAnswerStep(s, t);
    if s1.turns[t].pc.Settling? {
      ls := [go, go];
      TwoSteps(s, go);
    } else {
      ls := [go, go, go];
      assert ls[1..] == [go, go];
      TwoSteps(s1, go);
    }
  }

  lemma TwoSteps(s: Conv, l: Label)
    ensures Steps(s, [l, l]) == Step(Step(s, l), l)
  {
    assert [l, l][1..] == [l] && [l][1..] == [];
    assert Steps(Step(s, l), [l]) == Steps(Step(Step(s, l), l), []);
  }

  /** What the handler leaves behind turn `t`: nothing of it unless another turn is registered, and
      of the prompt only one that asks for input after a turn nobody cancelled. */
  lemma WhatATeardownLeaves(s: Conv, t: TurnId, cancelled: bool)
    requires t < |s.turns| && s.turns[t].pc == Done(cancelled)
    ensures var s' := Step(s, TearDown(t));
      if s.shared.active.Some? && s.shared.active.value != t then s'.shared == s.shared
      else
        && s'.shared.active == None && s'.shared.buffer == None && s'.shared.persisted == None
        && s'.shared.thoughts == map[]
        && s'.shared.pending ==
             match s.shared.pending
             case None => None
             case Some(e) =>
               if !cancelled && StatusIn(e).Some? && StatusIn(e).value.state == InputRequired then Some(e) else None
  {
  }

  /** What a send does to the conversation: nothing while the registered turn's task goes on; else it
      opens a turn, drops the prompt it answers, and leaves every buffer. */
  lemma WhatASendDoes(s: Conv, sid: string)
    ensures var s' := Step(s, Send(sid));
      if s.shared.active.Some? && s.shared.active.value < |s.turns|
         && !s.turns[s.shared.active.value].pc.Done? && !s.turns[s.shared.active.value].pc.TornDown?
      then s' == s
      else
        && s'.turns == s.turns + [Turn(sid, false, false, Streaming)] && s'.hist == s.hist
        && s'.shared == Shared(Some(|s.turns|), s.shared.buffer, s.shared.persisted, None, s.shared.thoughts)
  {
  }

  /** What a disconnect does: it forgets a turn of this socket whose task is over, and no other. */
  lemma WhatADisconnectDoes(s: Conv, sid: string)
    ensures var s' := Step(s, Disconnect(sid));
      if s.shared.active.Some? && s.shared.active.value < |s.turns|
         && s.turns[s.shared.active.value].origin == sid
         && (s.turns[s.shared.active.value].pc.Done? || s.turns[s.shared.active.value].pc.TornDown?)
      then s' == s.(shared := s.shared.(active := None)) else s' == s
  {
  }

  // ---- The row of an event ----------------------------------------------------------------------------

  /** Whether an event that repeats nothing leaves a row of its own.  `replaced` says that the
      reply saved at the turn's end stands for it. */
  predicate LeavesRow(e: Event, replaced: bool) {
    match e
    case ArtifactUpdate(_, _, _) => false
    case MessageEvent(_) => !replaced
    case TaskEvent(status) => !replaced && (status.message.Some? ==> Ordinary(status.message.value))
    case StatusUpdate(status) =>
      && !replaced
      && match status.message
         case Some(message) => Ordinary(message)
         case None =>
           status.state == Submitted || status.state == Working || status.state == Rejected || status.state == Unspecified
  }

  predicate Ordinary(message: StatusMessage) {
    WorkPlan !in message.extensions && FeedbackRequest !in message.extensions
  }

  /** What is logged when the row of an event comes to be saved. */
  lemma RowOfAnEvent(s: Conv, t: TurnId, pick: string, e: Event, replaced: bool)
    requires t < |s.turns| && s.turns[t].pc.Saving? && s.turns[t].pc.e == e && s.turns[t].pc.saved == replaced
    ensures var s' := Step(s, Advance(t, pick));
      && (RepeatsPersisted(s.shared, e) ==> exists text :: s'.hist.log == s.hist.log + [StatusDropped(t, text)])
      && (!RepeatsPersisted(s.shared, e) ==>
            s'.hist.log == s.hist.log + if LeavesRow(e, replaced) then [RowOffered(t, e)] else [])
      && s'.shared == s.shared
  {
    var s' := Step(s, Advance(t, pick));
    assert s' == SaveStep(s, t);
    assert s.hist.log + [] == s.hist.log;
    if RepeatsPersisted(s.shared, e) {
      assert s'.hist.log == s.hist.log + [StatusDropped(t, PlainStatusText(e).value)];
    }
  }

  /** After a reply is stored its event leaves no row of its own, unless a prompt or a last chunk
      brought it; and exactly its stripped text is remembered. */
  lemma AfterAnAnswer(s: Conv, t: TurnId, pick: string, e: Event, text: string)
    requires t < |s.turns| && s.turns[t].pc.AnswerWait? && s.turns[t].pc.e == e && s.turns[t].pc.text == text
    ensures var s' := Step(s, Advance(t, pick));
      && s'.turns[t].pc.Settling?
      && (s'.turns[t].pc.saved <==>
            match e
            case ArtifactUpdate(_, _, last) => !last
            case MessageEvent(_) => true
            case StatusUpdate(status) => status.state != InputRequired
            case TaskEvent(status) => status.state != InputRequired)
      && s'.shared == s.shared.(persisted := Some(PyStrip(text)))
      && s'.hist.log == s.hist.log + [AnswerStored(t, text)]
  {
    assert Step(s, Advance(t, pick)) == AnswerStoredStep(s, t);
  }

  /** What counts as a repeat: a plain text that the remembered answer begins with.  Text that
      goes on, a blank text, and a message with an extension or a part that is no text are new. */
  lemma RepeatsAreBeginnings(s: State, x: string, status: Status, y: string)
    requires s.persisted == Some(x) && x != "" && status.message == Some(StatusMessage({}, [TextPart(y)]))
    requires y != "" && !PySpace(y[0]) && !PySpace(y[|y| - 1])
    ensures RepeatsPersisted(s, StatusUpdate(status)) <==> |y| <= |x| && x[..|y|] == y
    ensures !RepeatsPersisted(s, TaskEvent(status))
  {
    PyStripSolid(y);
    assert PartsText([TextPart(y)]) == y;
  }

  lemma OnlyPlainTextRepeats(s: State, e: Event)
    ensures s.persisted.None? || s.persisted == Some("") ==> !RepeatsPersisted(s, e)
    ensures RepeatsPersisted(s, e) ==>
      match e
      case StatusUpdate(Status(_, Some(StatusMessage(extensions, parts)))) =>
        extensions == {} && parts != [] && forall p :: p in parts ==> p.TextPart?
      case _ => false
  {
  }
}
