/** Sub-agent thoughts on their way to the store: every interleaving pops a thought buffer whole,
    and offers an answer only after the thoughts of its own turn. */
module ChatThoughts {
  import opened Common
  import opened ChatTurn
  import opened ChatProtocol
  import opened ChatOwnership

  // ---- What the log says of thoughts ---------------------------------------------------------

  /** An agent's unflushed text after one more log item. */
  function After(i: LogItem, agent: string, before: string): string {
    match i
    case ThoughtIn(_, a, text) => if a == agent then before + text else before
    case ThoughtOut(a, _) => if a == agent then "" else before
    case StateCleared => ""
    case _ => before
  }

  /** What the log says an agent thought since its buffer was last popped. */
  function Unflushed(log: seq<LogItem>, agent: string): string {
    if log == [] then "" else After(log[|log| - 1], agent, Unflushed(log[..|log| - 1], agent))
  }

  /** Turn `t` heard agent `a` think, and the buffer was neither popped nor cleared since. */
  predicate Unsaved(log: seq<LogItem>, t: TurnId, a: string) {
    log != [] &&
    match log[|log| - 1]
    case ThoughtIn(t', a', _) => (t' == t && a' == a) || Unsaved(log[..|log| - 1], t, a)
    case ThoughtOut(a', _) => a' != a && Unsaved(log[..|log| - 1], t, a)
    case StateCleared => false
    case _ => Unsaved(log[..|log| - 1], t, a)
  }

  /** Items that touch no thought. */
  predicate NoThought(i: LogItem) { !i.ThoughtIn? && !i.ThoughtOut? && !i.StateCleared? }

  lemma UnflushedSnoc(log: seq<LogItem>, i: LogItem, agent: string)
    ensures Unflushed(log + [i], agent) == After(i, agent, Unflushed(log, agent))
  {
    assert (log + [i])[..|log|] == log;
  }

  lemma UnsavedSnoc(log: seq<LogItem>, i: LogItem, t: TurnId, a: string)
    ensures Unsaved(log + [i], t, a) <==>
      || (i.ThoughtIn? && i.turn == t && i.agent == a)
      || (Unsaved(log, t, a) && !i.StateCleared? && (i.ThoughtOut? ==> i.agent != a))
  {
    assert (log + [i])[..|log|] == log;
  }

  function ThoughtOf(thoughts: map<string, string>, agent: string): string {
    if agent in thoughts then thoughts[agent] else ""
  }

  /** The buffers hold what the log says is unflushed, and no buffer is empty. */
  ghost predicate ThoughtsLogged(thoughts: map<string, string>, log: seq<LogItem>) {
    && (forall a :: Unflushed(log, a) == ThoughtOf(thoughts, a))
    && (forall a :: a in thoughts ==> thoughts[a] != "")
  }

  /** Item `i` comes in its place after `before`: a popped thought is all that agent thought, and
      an answer is offered when none of its turn's thoughts is left to save. */
  ghost predicate InPlace(before: seq<LogItem>, i: LogItem) {
    && (i.ThoughtOut? ==> i.text == Unflushed(before, i.agent))
    && (i.AnswerOffered? ==> forall a :: !Unsaved(before, i.turn, a))
  }

  ghost predicate AllInPlace(log: seq<LogItem>) {
    log == [] || (AllInPlace(log[..|log| - 1]) && InPlace(log[..|log| - 1], log[|log| - 1]))
  }

  lemma InPlaceSnoc(log: seq<LogItem>, i: LogItem)
    requires AllInPlace(log) && InPlace(log, i)
    ensures AllInPlace(log + [i])
  {
    assert (log + [i])[..|log|] == log;
  }

  lemma {:induction false} InPlaceAt(log: seq<LogItem>, i: nat)
    requires AllInPlace(log) && i < |log|
    ensures InPlace(log[..i], log[i])
  {
    if i < |log| - 1 {
      InPlaceAt(log[..|log| - 1], i);
      assert log[..|log| - 1][..i] == log[..i];
    }
  }

  /** A turn's unsaved thoughts are in the buffers, and on its list while it flushes. */
  ghost predicate Buffered(s: Conv) {
    && (forall t: TurnId, a: string :: Unsaved(s.hist.log, t, a) ==> a in s.shared.thoughts)
    && (forall t: TurnId, a: string :: t < |s.turns| && s.turns[t].pc.Flushing? && Unsaved(s.hist.log, t, a) ==>
          a in s.turns[t].pc.keys)
  }

  ghost predicate ThoughtsFirst(s: Conv) {
    ThoughtsLogged(s.shared.thoughts, s.hist.log) && AllInPlace(s.hist.log) && Buffered(s)
  }

  /** What a step may do to the turns without disturbing any flush but its own. */
  ghost predicate SameFlushes(s: Conv, t: TurnId, s': Conv) {
    && |s'.turns| >= |s.turns|
    && (forall u: TurnId :: u < |s'.turns| && u != t && s'.turns[u].pc.Flushing? ==>
          u < |s.turns| && s.turns[u].pc == s'.turns[u].pc)
  }

  /** A step that logs nothing about thoughts. */
  lemma QuietThoughts(s: Conv, t: TurnId, i: Option<LogItem>, s': Conv)
    requires ThoughtsFirst(s) && SameFlushes(s, t, s')
    requires s'.shared.thoughts == s.shared.thoughts
    requires s'.hist.log == s.hist.log + (if i.Some? then [i.value] else [])
    requires i.Some? ==> NoThought(i.value) && InPlace(s.hist.log, i.value)
    requires t < |s'.turns| && s'.turns[t].pc.Flushing? ==>
      s'.turns[t].pc.keys == s.shared.thoughts.Keys || (t < |s.turns| && s'.turns[t].pc == s.turns[t].pc)
    ensures ThoughtsFirst(s')
  {
    if i.Some? {
      InPlaceSnoc(s.hist.log, i.value);
      forall a ensures Unflushed(s'.hist.log, a) == Unflushed(s.hist.log, a) { UnflushedSnoc(s.hist.log, i.value, a); }
      forall u: TurnId, a: string ensures Unsaved(s'.hist.log, u, a) <==> Unsaved(s.hist.log, u, a) {
        UnsavedSnoc(s.hist.log, i.value, u, a);
      }
    } else {
      assert s'.hist.log == s.hist.log;
    }
  }

  lemma HearThought(s: Conv, t: TurnId, s': Conv)
    requires ThoughtsFirst(s) && t < |s.turns| && s.turns[t].pc.Persisting? && s' == CaptureStep(s, t)
    requires s.turns[t].pc.e.IsThought() && s.turns[t].pc.e.artifact.text != ""
    ensures ThoughtsFirst(s')
  {
    var e := s.turns[t].pc.e;
    var item := ThoughtIn(t, e.artifact.agent, e.artifact.text);
    assert s'.hist.log == s.hist.log + [item];
    InPlaceSnoc(s.hist.log, item);
    forall a ensures Unflushed(s'.hist.log, a) == ThoughtOf(s'.shared.thoughts, a) {
      UnflushedSnoc(s.hist.log, item, a);
    }
    forall u: TurnId, a: string
      ensures Unsaved(s'.hist.log, u, a) <==> (u == t && a == item.agent) || Unsaved(s.hist.log, u, a)
    {
      UnsavedSnoc(s.hist.log, item, u, a);
    }
  }

  lemma CaptureThoughts(s: Conv, t: TurnId, s': Conv)
    requires ThoughtsFirst(s) && t < |s.turns| && s.turns[t].pc.Persisting? && s' == CaptureStep(s, t)
    ensures ThoughtsFirst(s')
  {
    var e := s.turns[t].pc.e;
    if e.IsThought() && e.artifact.text != "" {
      HearThought(s, t, s');
    } else {
      QuietThoughts(s, t, None, s');
    }
  }

  lemma PopThoughtKeepsOrder(s: Conv, t: TurnId, pick: string, s': Conv)
    requires ThoughtsFirst(s) && t < |s.turns| && s.turns[t].pc.Flushing?
    requires pick in s.turns[t].pc.keys && pick in s.shared.thoughts && s' == FlushStep(s, t, pick)
    ensures ThoughtsFirst(s')
  {
    var item := ThoughtOut(pick, s.shared.thoughts[pick]);
    assert s'.hist.log == s.hist.log + [item];
    InPlaceSnoc(s.hist.log, item);
    forall a ensures Unflushed(s'.hist.log, a) == ThoughtOf(s'.shared.thoughts, a) {
      UnflushedSnoc(s.hist.log, item, a);
    }
    forall u: TurnId, a: string ensures Unsaved(s'.hist.log, u, a) <==> a != pick && Unsaved(s.hist.log, u, a) {
      UnsavedSnoc(s.hist.log, item, u, a);
    }
  }

  lemma FlushThoughts(s: Conv, t: TurnId, pick: string, s': Conv)
    requires ThoughtsFirst(s) && t < |s.turns| && s.turns[t].pc.Flushing? && s' == FlushStep(s, t, pick)
    ensures ThoughtsFirst(s')
  {
    var keys := s.turns[t].pc.keys;
    if keys == {} {
      assert s' == PopAnswerStep(s, t);
      PopAnswerThoughts(s, t, s');
    } else if pick in keys && pick in s.shared.thoughts {
      PopThoughtKeepsOrder(s, t, pick, s');
    } else {
      QuietThoughts(s, t, None, s');
    }
  }

  lemma PopAnswerThoughts(s: Conv, t: TurnId, s': Conv)
    requires ThoughtsFirst(s) && t < |s.turns| && s.turns[t].pc.Flushing?
    requires s.turns[t].pc.keys == {} && s' == PopAnswerStep(s, t)
    ensures ThoughtsFirst(s')
  {
    if s.shared.buffer.Some? && !PyBlank(s.shared.buffer.value) {
      QuietThoughts(s, t, Some(AnswerOffered(t, s.shared.buffer.value)), s');
    } else {
      QuietThoughts(s, t, None, s');
    }
  }

  lemma SaveThoughts(s: Conv, t: TurnId, s': Conv)
    requires ThoughtsFirst(s) && t < |s.turns| && s.turns[t].pc.Saving? && s' == SaveStep(s, t)
    ensures ThoughtsFirst(s')
  {
    var e := s.turns[t].pc.e;
    if RepeatsPersisted(s.shared, e) {
      QuietThoughts(s, t, Some(StatusDropped(t, PlainStatusText(e).value)), s');
    } else if s'.hist.log == s.hist.log {
      QuietThoughts(s, t, None, s');
    } else {
      QuietThoughts(s, t, Some(RowOffered(t, e)), s');
    }
  }

  lemma TearDownThoughts(s: Conv, t: TurnId, s': Conv)
    requires ThoughtsFirst(s) && t < |s.turns| && s.turns[t].pc.Done? && s' == TearDownStep(s, t)
    ensures ThoughtsFirst(s')
  {
    if s'.hist.log == s.hist.log {
      QuietThoughts(s, t, None, s');
    } else {
      ClearThoughts(s, s');
    }
  }

  lemma ClearThoughts(s: Conv, s': Conv)
    requires ThoughtsFirst(s) && s'.shared.thoughts == map[] && s'.hist.log == s.hist.log + [StateCleared]
    ensures ThoughtsFirst(s')
  {
    InPlaceSnoc(s.hist.log, StateCleared);
    forall a ensures Unflushed(s'.hist.log, a) == "" { UnflushedSnoc(s.hist.log, StateCleared, a); }
    forall u: TurnId, a: string ensures !Unsaved(s'.hist.log, u, a) { UnsavedSnoc(s.hist.log, StateCleared, u, a); }
  }

  lemma AdvanceThoughts(s: Conv, t: TurnId, pick: string, s': Conv)
    requires ThoughtsFirst(s) && t < |s.turns| && s' == AdvanceStep(s, t, pick)
    ensures ThoughtsFirst(s')
  {
    var pc := s.turns[t].pc;
    if pc.Persisting? {
      assert s' == CaptureStep(s, t);
      CaptureThoughts(s, t, s');
    } else if pc.Flushing? {
      assert s' == FlushStep(s, t, pick);
      FlushThoughts(s, t, pick, s');
    } else if pc.AnswerWait? {
      assert s' == AnswerStoredStep(s, t);
      QuietThoughts(s, t, Some(AnswerStored(t, pc.text)), s');
    } else if pc.Saving? {
      assert s' == SaveStep(s, t);
      SaveThoughts(s, t, s');
    } else {
      AdvanceFrame(s, t, pick);
      QuietThoughts(s, t, None, s');
    }
  }

  lemma StepThoughts(s: Conv, l: Label, s': Conv)
    requires ThoughtsFirst(s) && s' == Step(s, l)
    ensures ThoughtsFirst(s')
  {
    match l
    case Advance(t, pick) => if t < |s.turns| { AdvanceThoughts(s, t, pick, s'); }
    case TearDown(t) => if t < |s.turns| && s.turns[t].pc.Done? { TearDownThoughts(s, t, s'); }
    case _ => OtherThoughts(s, l, s');
  }

  lemma OtherThoughts(s: Conv, l: Label, s': Conv)
    requires ThoughtsFirst(s) && s' == Step(s, l) && !l.Advance? && !l.TearDown?
    ensures ThoughtsFirst(s')
  {
    QuietThoughts(s, if l.Receive? || l.DbFail? || l.Finish? then l.t else |s'.turns|, None, s');
  }

  lemma {:induction false} RunThoughts(ls: seq<Label>)
    ensures ThoughtsFirst(Exec(ls))
  {
    if ls == [] {
      assert Exec(ls) == Init();
    } else {
      RunThoughts(ls[..|ls| - 1]);
      StepThoughts(Exec(ls[..|ls| - 1]), ls[|ls| - 1], Exec(ls));
    }
  }

  /** In every interleaving a thought buffer is popped with all that agent thought, and an answer
      is offered to the store only when every thought its turn heard was, or was cleared. */
  lemma {:induction false} ThoughtsBeforeAnswers(ls: seq<Label>, i: nat)
    requires i < |Exec(ls).hist.log|
    ensures var before, item := Exec(ls).hist.log[..i], Exec(ls).hist.log[i];
      && (item.ThoughtOut? ==> item.text == Unflushed(before, item.agent))
      && (item.AnswerOffered? ==> forall a :: !Unsaved(before, item.turn, a))
  {
    RunThoughts(ls);
    InPlaceAt(Exec(ls).hist.log, i);
  }

  // ---- Nobody's thoughts are left when turns run alone ----------------------------------------

  ghost predicate AllFlushed(log: seq<LogItem>) { forall a :: Unflushed(log, a) == "" }

  /** Answers are offered when no thought of any turn is left to flush. */
  ghost predicate NothingLeft(log: seq<LogItem>) {
    log == [] ||
    (NothingLeft(log[..|log| - 1]) && (log[|log| - 1].AnswerOffered? ==> AllFlushed(log[..|log| - 1])))
  }

  lemma NothingLeftSnoc(log: seq<LogItem>, i: LogItem)
    requires NothingLeft(log) && (i.AnswerOffered? ==> AllFlushed(log))
    ensures NothingLeft(log + [i])
  {
    assert (log + [i])[..|log|] == log;
  }

  /** A flush in progress still has every unflushed agent on its list. */
  ghost predicate FlushCovers(s: Conv) {
    forall t: TurnId :: t < |s.turns| && s.turns[t].pc.Flushing? ==> s.shared.thoughts.Keys <= s.turns[t].pc.keys
  }

  lemma StepCovers(s: Conv, l: Label, s': Conv)
    requires Solo(s) && FlushCovers(s) && s' == Step(s, l)
    ensures FlushCovers(s')
  {
    if l.Advance? && l.t < |s.turns| { AdvanceCovers(s, l.t, l.pick, s'); }
  }

  lemma AdvanceCovers(s: Conv, t: TurnId, pick: string, s': Conv)
    requires Solo(s) && FlushCovers(s) && t < |s.turns| && s' == AdvanceStep(s, t, pick)
    ensures FlushCovers(s')
  {
    AdvanceFrame(s, t, pick);
    if s.turns[t].pc.Running() {
      forall u: TurnId | u < |s'.turns| && s'.turns[u].pc.Flushing?
        ensures s'.shared.thoughts.Keys <= s'.turns[u].pc.keys
      {
        if u != t {
          assert RunningTurn(s, t) && RunningTurn(s, u);
        } else {
          OwnFlushCovers(s, t, pick, s');
        }
      }
    }
  }

  lemma OwnFlushCovers(s: Conv, t: TurnId, pick: string, s': Conv)
    requires FlushCovers(s) && t < |s.turns| && s' == AdvanceStep(s, t, pick)
    requires t < |s'.turns| && s'.turns[t].pc.Flushing?
    ensures s'.shared.thoughts.Keys <= s'.turns[t].pc.keys
  {
  }

  /** What one step appends to the log. */
  lemma StepLogs(s: Conv, l: Label, s': Conv) returns (i: Option<LogItem>)
    requires s' == Step(s, l)
    ensures s'.hist.log == s.hist.log + (if i.Some? then [i.value] else [])
    ensures i.Some? && i.value.AnswerOffered? ==>
      l.Advance? && l.t < |s.turns| && s.turns[l.t].pc.Flushing? && s.turns[l.t].pc.keys == {}
    ensures i.Some? && i.value.AnswerStored? ==>
      l.Advance? && l.t == i.value.turn < |s.turns| && s.turns[l.t].pc.AnswerWait?
    ensures i.Some? && i.value.StatusDropped? ==>
      l.Advance? && l.t == i.value.turn < |s.turns| && s.turns[l.t].pc.Saving? && s.shared.persisted.Some?
  {
    if |s'.hist.log| == |s.hist.log| {
      i := None;
    } else {
      i := Some(s'.hist.log[|s.hist.log|]);
    }
  }

  /** When at most one turn runs at a time, no thought of any turn is left when an answer is
      offered. */
  lemma {:induction false} AloneNothingIsLeft(ls: seq<Label>)
    requires SoloRun(ls)
    ensures FlushCovers(Exec(ls)) && NothingLeft(Exec(ls).hist.log)
  {
    if ls == [] {
      assert Exec(ls) == Init();
    } else {
      var init, l := ls[..|ls| - 1], ls[|ls| - 1];
      AloneNothingIsLeft(init);
      RunThoughts(init);
      StepCovers(Exec(init), l, Exec(ls));
      var i := StepLogs(Exec(init), l, Exec(ls));
      if i.Some? { NothingLeftSnoc(Exec(init).hist.log, i.value); }
      assert i.None? ==> Exec(ls).hist.log == Exec(init).hist.log;
    }
  }

  // ---- Why turns must run alone for that ---------------------------------------------------------

  function Chunk0(x: string): Event { ArtifactUpdate(Artifact(false, "", x), true, true) }

  function Thought(a: string, text: string): Event { ArtifactUpdate(Artifact(true, a, text), true, false) }

  /** A run of the code with one turn, which stands at `pc`, and nothing popped yet. */
  ghost predicate First(s: Conv, pc: Pc, shared: State, log: seq<LogItem>) {
    && Reached(s) && |s.turns| == 1 && s.turns[0].pc == pc && s.shared == shared
    && s.hist.log == log && s.hist.segments == [] && s.room == map[]
  }

  function Active0(buffer: Option<string>, thoughts: map<string, string>): State {
    Shared(Some(0), buffer, None, None, thoughts)
  }

  lemma FirstStarts() returns (s: Conv)
    ensures First(s, Streaming, Active0(None, map[]), [])
  {
    InitIsReached();
    s := Go(Init(), Send("tab"));
  }

  lemma FirstHearsThought(b: string, u: string) returns (s: Conv)
    ensures First(s, Persisting(Thought(b, u), None), Active0(None, map[]), [])
  {
    var s1 := FirstStarts();
    var s2 := Go(s1, Receive(0, Thought(b, u)));
    assert First(s2, Received(Thought(b, u), None), Active0(None, map[]), []);
    s := Go(s2, Advance(0, ""));
  }

  lemma FirstKeepsThought(b: string, u: string) returns (s: Conv)
    requires u != ""
    ensures First(s, Saving(Thought(b, u), None, false), Active0(None, map[b := u]), [ThoughtIn(0, b, u)])
  {
    var s1 := FirstHearsThought(b, u);
    s := Go(s1, Advance(0, ""));
    assert s == CaptureStep(s1, 0);
    assert [] + [ThoughtIn(0, b, u)] == [ThoughtIn(0, b, u)] && "" + u == u;
  }

  lemma FirstHasThought(b: string, u: string) returns (s: Conv)
    requires u != ""
    ensures First(s, Streaming, Active0(None, map[b := u]), [ThoughtIn(0, b, u)])
  {
    var s1 := FirstKeepsThought(b, u);
    var s2 := Go(s1, Advance(0, ""));
    assert s2 == SaveStep(s1, 0);
    assert First(s2, Tail(Thought(b, u), None), Active0(None, map[b := u]), [ThoughtIn(0, b, u)]);
    s := Go(s2, Advance(0, ""));
  }

  lemma FirstHearsLast(s1: Conv, thoughts: map<string, string>, log: seq<LogItem>, x: string) returns (s: Conv)
    requires First(s1, Streaming, Active0(None, thoughts), log)
    ensures First(s, Received(Chunk0(x), Some(Chunk(0, |x|, x, 0))), Active0(Some(x), thoughts), log)
  {
    s := Go(s1, Receive(0, Chunk0(x)));
    assert "" + x == x;
  }

  lemma FirstEmitsLast(s1: Conv, thoughts: map<string, string>, log: seq<LogItem>, x: string) returns (s: Conv)
    requires First(s1, Received(Chunk0(x), Some(Chunk(0, |x|, x, 0))), Active0(Some(x), thoughts), log)
    ensures First(s, Persisting(Chunk0(x), Some(Chunk(0, |x|, x, 0))), Active0(Some(x), thoughts), log)
  {
    s := Go(s1, Advance(0, ""));
  }

  /** The last chunk `x` of the reply has gone out, and its turn is about to end. */
  lemma FirstEnds(s1: Conv, thoughts: map<string, string>, log: seq<LogItem>, x: string) returns (s: Conv)
    requires First(s1, Streaming, Active0(None, thoughts), log)
    ensures First(s, Flushing(Chunk0(x), Some(Chunk(0, |x|, x, 0)), thoughts.Keys, false), Active0(Some(x), thoughts), log)
  {
    var s2 := FirstHearsLast(s1, thoughts, log, x);
    var s3 := FirstEmitsLast(s2, thoughts, log, x);
    s := Go(s3, Advance(0, ""));
    assert s == CaptureStep(s3, 0);
  }

  /** Turn 0 waits for its thought to be stored. */
  lemma FirstInserts(b: string, u: string, x: string) returns (s: Conv)
    requires !PyBlank(u) && u != ""
    ensures First(s, Flushing(Chunk0(x), Some(Chunk(0, |x|, x, 0)), {}, true), Active0(Some(x), map[]),
                  [ThoughtIn(0, b, u), ThoughtOut(b, u)])
  {
    var s1 := FirstHasThought(b, u);
    var s2 := FirstEnds(s1, map[b := u], [ThoughtIn(0, b, u)], x);
    s := Go(s2, Advance(0, b));
    FlushesThought(s2, s, b, u, x);
  }

  lemma FlushesThought(s: Conv, s': Conv, b: string, u: string, x: string)
    requires |s.turns| == 1 && s.turns[0].pc == Flushing(Chunk0(x), Some(Chunk(0, |x|, x, 0)), {b}, false)
    requires s.shared == Active0(Some(x), map[b := u]) && !PyBlank(u) && s' == FlushStep(s, 0, b)
    ensures s' == s.(turns := s'.turns, shared := Active0(Some(x), map[]), hist := s'.hist)
    ensures |s'.turns| == 1 && s'.turns[0].pc == Flushing(Chunk0(x), Some(Chunk(0, |x|, x, 0)), {}, true)
    ensures s'.hist == s.hist.(log := s.hist.log + [ThoughtOut(b, u)])
  {
    assert {b} - {b} == {} && map[b := u] - {b} == map[];
  }

  /** Turn 0, cancelled, waits to go on and pop its reply `x`; turn 1 stands at `pc`. */
  ghost predicate Overlaps(s: Conv, x: string, pc: Pc, thoughts: map<string, string>, log: seq<LogItem>) {
    && Reached(s) && |s.turns| == 2 && s.turns[1].pc == pc
    && s.turns[0].pc == Flushing(Chunk0(x), Some(Chunk(0, |x|, x, 0)), {}, true)
    && s.shared.buffer == Some(x) && s.shared.thoughts == thoughts && s.shared.persisted == None && s.hist.log == log
  }

  /** Turn 0 no longer registered. */
  ghost predicate Popped(s: Conv, x: string, log: seq<LogItem>) {
    && Reached(s) && |s.turns| == 1 && s.turns[0].pc == Flushing(Chunk0(x), Some(Chunk(0, |x|, x, 0)), {}, true)
    && s.shared == Shared(None, Some(x), None, None, map[]) && s.hist.log == log
  }

  lemma FirstIsPopped(b: string, u: string, x: string) returns (s: Conv)
    requires !PyBlank(u) && u != ""
    ensures Popped(s, x, [ThoughtIn(0, b, u), ThoughtOut(b, u)])
  {
    var s1 := FirstInserts(b, u, x);
    OneWaits(s1, CancelPop);
    s := Go(s1, CancelPop);
    LoneTurnCancelled(s1, s);
  }

  lemma SecondOverlaps(s1: Conv, x: string, log: seq<LogItem>) returns (s: Conv)
    requires Popped(s1, x, log)
    ensures Overlaps(s, x, Streaming, map[], log)
  {
    OneWaits(s1, Send("tab"));
    s := Go(s1, Send("tab"));
    SecondTurn(s1, "tab", s);
  }

  lemma SecondHears(s1: Conv, x: string, a: string, text: string, log: seq<LogItem>) returns (s: Conv)
    requires Overlaps(s1, x, Streaming, map[], log)
    ensures Overlaps(s, x, Persisting(Thought(a, text), None), map[], log)
  {
    TwoAtAwaits(s1, Receive(1, Thought(a, text)));
    var s2 := Go(s1, Receive(1, Thought(a, text)));
    assert s2 == ReceiveStep(s1, 1, Thought(a, text));
    assert Overlaps(s2, x, Received(Thought(a, text), None), map[], log);
    OneAtAwait(s2, "");
    s := Go(s2, Advance(1, ""));
  }

  lemma SecondKeeps(s1: Conv, x: string, a: string, text: string, log: seq<LogItem>) returns (s: Conv)
    requires Overlaps(s1, x, Persisting(Thought(a, text), None), map[], log) && text != ""
    ensures Overlaps(s, x, Saving(Thought(a, text), None, false), map[a := text], log + [ThoughtIn(1, a, text)])
  {
    OneAtAwait(s1, "");
    s := Go(s1, Advance(1, ""));
    assert s == CaptureStep(s1, 1) && "" + text == text;
  }

  lemma SecondGoesOn(s1: Conv, x: string, e: Event, thoughts: map<string, string>, log: seq<LogItem>) returns (s: Conv)
    requires Overlaps(s1, x, Saving(e, None, false), thoughts, log) && e.ArtifactUpdate?
    ensures Overlaps(s, x, Tail(e, None), thoughts, log)
  {
    OneAtAwait(s1, "");
    s := Go(s1, Advance(1, ""));
    assert s == SaveStep(s1, 1);
  }

  lemma PopOffers(s: Conv, x: string, s': Conv)
    requires |s.turns| > 0 && s.turns[0].pc == Flushing(Chunk0(x), Some(Chunk(0, |x|, x, 0)), {}, true)
    requires s.shared.buffer == Some(x) && !PyBlank(x) && s' == PopAnswerStep(s, 0)
    ensures s'.hist.log == s.hist.log + [AnswerOffered(0, x)]
  {
  }

  lemma FirstOffers(s1: Conv, x: string, pc: Pc, thoughts: map<string, string>, log: seq<LogItem>) returns (s: Conv)
    requires Overlaps(s1, x, pc, thoughts, log) && !pc.MidSection() && !PyBlank(x)
    ensures Reached(s) && s.hist.log == log + [AnswerOffered(0, x)]
  {
    TwoAtAwaits(s1, Advance(0, ""));
    s := Go(s1, Advance(0, ""));
    assert s == FlushStep(s1, 0, "");
    PopOffers(s1, x, s);
  }

  lemma ThoughtIsLeft(log: seq<LogItem>, t: TurnId, a: string, text: string, i: LogItem)
    requires text != "" && i.AnswerOffered?
    ensures !NothingLeft(log + [ThoughtIn(t, a, text)] + [i])
  {
    var before := log + [ThoughtIn(t, a, text)];
    assert (before + [i])[..|before|] == before;
    UnflushedSnoc(log, ThoughtIn(t, a, text), a);
  }

  lemma SecondHasThought(s0: Conv, x: string, a: string, text: string, log: seq<LogItem>) returns (s: Conv)
    requires Popped(s0, x, log) && text != ""
    ensures Overlaps(s, x, Tail(Thought(a, text), None), map[a := text], log + [ThoughtIn(1, a, text)])
  {
    var s1 := SecondOverlaps(s0, x, log);
    var s2 := SecondHears(s1, x, a, text, log);
    var s3 := SecondKeeps(s2, x, a, text, log);
    s := SecondGoesOn(s3, x, Thought(a, text), map[a := text], log + [ThoughtIn(1, a, text)]);
  }

  lemma AnswerOvertakes(s0: Conv, x: string, a: string, text: string, log: seq<LogItem>) returns (s: Conv)
    requires Popped(s0, x, log) && !PyBlank(x) && text != ""
    ensures Reached(s) && s.hist.log == log + [ThoughtIn(1, a, text)] + [AnswerOffered(0, x)]
  {
    var s1 := SecondHasThought(s0, x, a, text, log);
    s := FirstOffers(s1, x, Tail(Thought(a, text), None), map[a := text], log + [ThoughtIn(1, a, text)]);
  }

  /** A cancelled turn, its last thought just stored, offers its answer while a thought of the turn
      started in the meantime waits in the buffer. */
  lemma OverlapLeavesThought(b: string, u: string, x: string, a: string, text: string) returns (s: Conv)
    requires !PyBlank(u) && u != "" && !PyBlank(x) && text != ""
    ensures Reached(s) && !NothingLeft(s.hist.log)
    ensures s.hist.log == [ThoughtIn(0, b, u), ThoughtOut(b, u), ThoughtIn(1, a, text), AnswerOffered(0, x)]
  {
    var s0 := FirstIsPopped(b, u, x);
    s := AnswerOvertakes(s0, x, a, text, [ThoughtIn(0, b, u), ThoughtOut(b, u)]);
    ThoughtIsLeft([ThoughtIn(0, b, u), ThoughtOut(b, u)], 1, a, text, AnswerOffered(0, x));
  }
}
