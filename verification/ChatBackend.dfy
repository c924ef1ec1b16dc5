/** The server serving many conversations at once.  Handlers and turn tasks of all of them call
    its await-free sections in any interleaving; seen from one conversation, what happens to
    the dictionaries is exactly a run of the protocol. */
module ChatBackend {
  import opened Common
  import opened ChatTurn
  import opened ChatKeys
  import opened ChatServer
  import opened ChatProtocol

  // ---- Calls -----------------------------------------------------------------------------------

  /** One await-free section, as a handler or a turn task calls it. */
  datatype Call<T> =
    | Nothing
    | Accumulating(e: Event)
    | Capturing(e: Event)
    | PoppingThought(agent: string)
    | PoppingReply
    | Storing(text: string)
    | Settles(e: Event)
    | AskingRepeat(e: Event)
    | TearingDown(turn: T, cancelled: bool)
    | Cancelling
    | Looking

  /** What a section tells its caller. */
  datatype Told =
    | Silence
    | Offset(offset: Option<nat>)
    | Popped(content: Option<string>)
    | Repeats(yes: bool)
    | Shown(inFlight: bool, text: string, pending: Option<Event>)

  function Effect<T(==)>(sh: Shared<T>, call: Call<T>): Shared<T> {
    match call
    case Accumulating(e) => Accumulate(sh, e)
    case Capturing(e) => Capture(sh, e)
    case PoppingThought(agent) => PopThought(sh, agent)
    case PoppingReply => PopBuffer(sh)
    case Storing(text) => RememberAnswer(sh, text)
    case Settles(e) => SettlePrompt(sh, e)
    case TearingDown(turn, cancelled) => Teardown(sh, turn, cancelled)
    case Cancelling => Unregister(sh)
    case _ => sh
  }

  function Tell<T>(sh: Shared<T>, call: Call<T>): Told {
    match call
    case Accumulating(e) => Offset(TurnOffset(sh, e))
    case PoppingThought(agent) => Popped(if agent in sh.thoughts then Some(sh.thoughts[agent]) else None)
    case PoppingReply => Popped(sh.buffer)
    case AskingRepeat(e) => Repeats(RepeatsPersisted(sh, e))
    case Looking => Shown(sh.InFlight(), sh.buffer.GetOr(""), sh.pending)
    case _ => Silence
  }

  /** The section a step of the protocol stands for, other than a start and an end. */
  function CallOf(s: Conv, l: Label): Call<TurnId> {
    match l
    case Receive(t, e) => if t < |s.turns| && s.turns[t].pc.Streaming? then Accumulating(e) else Nothing
    case Advance(t, pick) => if t < |s.turns| then CallAt(s.turns[t].pc, pick) else Nothing
    case TearDown(t) =>
      if t < |s.turns| && s.turns[t].pc.Done? then TearingDown(t, s.turns[t].pc.cancelled) else Nothing
    case CancelPop => Cancelling
    case ReadSnapshot(_) => Looking
    case _ => Nothing
  }

  function CallAt(pc: Pc, pick: string): Call<TurnId> {
    match pc
    case Persisting(e, _) => Capturing(e)
    case Flushing(_, _, keys, _) =>
      if keys == {} then PoppingReply else if pick in keys then PoppingThought(pick) else Nothing
    case AnswerWait(_, _, text) => Storing(text)
    case Settling(e, _, _) => Settles(e)
    case Saving(e, _, _) => AskingRepeat(e)
    case _ => Nothing
  }

  // ---- Turns by number, turns by object ----------------------------------------------------------

  /** The shared state with turn objects for turn numbers. */
  function Named<U>(sh: State, ts: seq<U>): Shared<U> {
    Shared(if sh.active.Some? && sh.active.value < |ts| then Some(ts[sh.active.value]) else None,
           sh.buffer, sh.persisted, sh.pending, sh.thoughts)
  }

  predicate CallFits(call: Call<TurnId>, n: nat) { call.TearingDown? ==> call.turn < n }

  function NamedCall<U>(call: Call<TurnId>, ts: seq<U>): Call<U>
    requires CallFits(call, |ts|)
  {
    match call
    case Nothing => Nothing
    case Accumulating(e) => Accumulating(e)
    case Capturing(e) => Capturing(e)
    case PoppingThought(agent) => PoppingThought(agent)
    case PoppingReply => PoppingReply
    case Storing(text) => Storing(text)
    case Settles(e) => Settles(e)
    case AskingRepeat(e) => AskingRepeat(e)
    case TearingDown(turn, cancelled) => TearingDown(ts[turn], cancelled)
    case Cancelling => Cancelling
    case Looking => Looking
  }

  ghost predicate Pairwise<U>(ts: seq<U>) { forall i, j :: 0 <= i < j < |ts| ==> ts[i] != ts[j] }

  predicate Fits(sh: State, n: nat) { sh.active.Some? ==> sh.active.value < n }

  /** Objects stand for numbers one to one, so a section does the same to both. */
  lemma EffectNamed<U>(sh: State, call: Call<TurnId>, ts: seq<U>)
    requires Fits(sh, |ts|) && CallFits(call, |ts|)
    requires Pairwise(ts)
    ensures Named(Effect(sh, call), ts) == Effect(Named(sh, ts), NamedCall(call, ts))
    ensures Tell(sh, call) == Tell(Named(sh, ts), NamedCall(call, ts))
    ensures Fits(Effect(sh, call), |ts|)
  {
  }

  // ---- A step is its section -----------------------------------------------------------------------

  /** The same turns, as far as the server can tell. */
  ghost predicate SameLives(s: Conv, s': Conv) {
    && |s'.turns| == |s.turns|
    && forall t: TurnId :: t < |s.turns| ==>
         s'.turns[t].origin == s.turns[t].origin && (s'.turns[t].pc.Running() <==> s.turns[t].pc.Running())
  }

  predicate Section(l: Label) { !l.Send? && !l.Finish? && !l.Disconnect? }

  lemma StepIsSection(s: Conv, l: Label, s': Conv)
    requires Section(l) && s' == Step(s, l) && Fits(s.shared, |s.turns|)
    ensures s'.shared == Effect(s.shared, CallOf(s, l)) && SameLives(s, s') && CallFits(CallOf(s, l), |s.turns|)
  {
    if l.Advance? && l.t < |s.turns| { AdvanceIsSection(s, l.t, l.pick, s'); }
  }

  lemma AdvanceIsSection(s: Conv, t: TurnId, pick: string, s': Conv)
    requires t < |s.turns| && s' == AdvanceStep(s, t, pick)
    ensures s'.shared == Effect(s.shared, CallAt(s.turns[t].pc, pick)) && SameLives(s, s')
  {
    AdvanceFrame(s, t, pick);
    var pc := s.turns[t].pc;
    if pc.Flushing? {
      assert s' == FlushStep(s, t, pick);
      FlushIsSection(s, t, pick, s');
    } else if pc.Persisting? {
      assert s' == CaptureStep(s, t);
    } else if pc.AnswerWait? {
      assert s' == AnswerStoredStep(s, t);
    } else if pc.Saving? {
      assert s' == SaveStep(s, t);
    }
  }

  lemma FlushIsSection(s: Conv, t: TurnId, pick: string, s': Conv)
    requires t < |s.turns| && s.turns[t].pc.Flushing? && s' == FlushStep(s, t, pick)
    ensures s'.shared == Effect(s.shared, CallAt(s.turns[t].pc, pick))
  {
    if pick !in s.shared.thoughts { assert s.shared.thoughts - {pick} == s.shared.thoughts; }
  }

  /** The registered turn is over and was started by this socket. */
  predicate GoneHere(s: Conv, sid: string) {
    && s.shared.active.Some? && s.shared.active.value < |s.turns|
    && s.turns[s.shared.active.value].origin == sid && !RunningTurn(s, s.shared.active.value)
  }

  lemma DisconnectNamed<U>(s: Conv, sid: string, ts: seq<U>)
    requires Fits(s.shared, |ts|)
    ensures var s' := Step(s, Disconnect(sid));
      && s'.turns == s.turns && Fits(s'.shared, |ts|)
      && Named(s'.shared, ts) == if GoneHere(s, sid) then Unregister(Named(s.shared, ts)) else Named(s.shared, ts)
  {
  }

  lemma BeginNamed<U>(s: Conv, sid: string, ts: seq<U>, turn: U)
    requires Fits(s.shared, |ts|) && |ts| == |s.turns| && StartsTurn(s)
    ensures var s' := Step(s, Send(sid));
      && s'.turns == s.turns + [Turn(sid, false, false, Streaming)] && Fits(s'.shared, |ts| + 1)
      && Named(s'.shared, ts + [turn]) == Begin(Named(s.shared, ts), turn)
  {
  }

  // ---- Many conversations ----------------------------------------------------------------------------

  /** What happens in one conversation, or a socket that goes away for all of them. */
  datatype Happening = In(c: string, l: Label) | Gone(sid: string)

  /** The run of one conversation. */
  function Project(past: seq<Happening>, c: string): seq<Label> {
    if past == [] then []
    else
      Project(past[..|past| - 1], c) +
      match past[|past| - 1]
      case In(d, l) => if d == c then [l] else []
      case Gone(sid) => [Disconnect(sid)]
  }

  lemma ProjectSnoc(past: seq<Happening>, h: Happening, c: string)
    ensures Project(past + [h], c) == Project(past, c) + if h.Gone? then [Disconnect(h.sid)] else if h.c == c then [h.l] else []
    ensures Exec(Project(past + [h], c)) ==
      if h.Gone? then Step(Exec(Project(past, c)), Disconnect(h.sid))
      else if h.c == c then Step(Exec(Project(past, c)), h.l) else Exec(Project(past, c))
  {
    assert (past + [h])[..|past|] == past;
    if h.Gone? { ExecAppend(Project(past, c), Disconnect(h.sid)); }
    else if h.c == c { ExecAppend(Project(past, c), h.l); }
    else { assert Project(past, c) + [] == Project(past, c); }
  }

  lemma NothingHappened(c: string)
    ensures Exec(Project([], c)) == Init()
  {
  }

  /** One section of one conversation, on the server's dictionaries. */
  method Serve(server: Server, c: string, call: Call<ActiveTaskInfo>) returns (told: Told)
    requires IsId(c)
    modifies server
    ensures server.OnlyTouches(c)
    ensures server.View(c) == Effect(old(server.View(c)), call) && told == Tell(old(server.View(c)), call)
  {
    told := Silence;
    match call {
      case Nothing =>
      case Accumulating(e) =>
        var offset := server.AccumulateReplyBuffer(c, e);
        told := Offset(offset);
      case Capturing(e) => server.CaptureEvent(c, e);
      case PoppingThought(agent) =>
        var content := server.PopIntermediate(c, agent);
        told := Popped(content);
      case PoppingReply =>
        var content := server.PopReply(c);
        told := Popped(content);
      case Storing(text) => server.StoreAnswer(c, text);
      case Settles(e) => server.ClearSettledPrompt(c, e);
      case AskingRepeat(e) =>
        var yes := server.RepeatsPersistedAnswer(c, e);
        told := Repeats(yes);
      case TearingDown(turn, cancelled) => server.TeardownTurn(c, turn, cancelled);
      case Cancelling =>
        var _ := server.PopForCancel(c);
      case Looking =>
        var inFlight, _, text, pending := server.Snapshot(c);
        told := Shown(inFlight, text, pending);
    }
  }

  /** Turn objects `ts` stand for the turns of `s`. */
  ghost predicate Stands(ts: seq<ActiveTaskInfo>, s: Conv)
    reads ts
  {
    && |ts| == |s.turns| && Fits(s.shared, |ts|)
    && forall t: TurnId :: t < |ts| ==>
         ts[t].originSid == s.turns[t].origin && (ts[t].done <==> !s.turns[t].pc.Running())
  }

  lemma StandsOneMore(ts: seq<ActiveTaskInfo>, s: Conv, sid: string, turn: ActiveTaskInfo)
    requires Stands(ts, s) && StartsTurn(s) && turn.originSid == sid && !turn.done
    ensures Stands(ts + [turn], Step(s, Send(sid)))
  {
  }

  /** The dictionaries hold of conversation `c` what `s` says. */
  ghost predicate Holds(server: Server, ts: seq<ActiveTaskInfo>, c: string, s: Conv)
    reads server, ts
  {
    Stands(ts, s) && server.View(c) == Named(s.shared, ts)
  }

  /** A section called where the protocol takes a step leaves what the step leaves. */
  method ServeStep(
      server: Server, c: string, call: Call<ActiveTaskInfo>, ghost l: Label, ghost s: Conv, ghost ts: seq<ActiveTaskInfo>)
      returns (told: Told)
    requires IsId(c) && Section(l) && Holds(server, ts, c, s)
    requires Pairwise(ts)
    requires CallFits(CallOf(s, l), |ts|) && call == NamedCall(CallOf(s, l), ts)
    modifies server
    ensures server.OnlyTouches(c) && Holds(server, ts, c, Step(s, l)) && told == Tell(s.shared, CallOf(s, l))
  {
    ghost var s' := Step(s, l);
    StepIsSection(s, l, s');
    EffectNamed(s.shared, CallOf(s, l), ts);
    told := Serve(server, c, call);
  }

  /** The synchronous part of a send. */
  method Open(server: Server, c: string, sid: string, ghost s: Conv, ghost ts: seq<ActiveTaskInfo>)
      returns (turn: ActiveTaskInfo?)
    requires IsId(c) && Holds(server, ts, c, s)
    modifies server
    ensures server.OnlyTouches(c) && Stands(ts, s) && (turn == null <==> !StartsTurn(s))
    ensures turn == null ==> Holds(server, ts, c, Step(s, Send(sid)))
    ensures turn != null ==> fresh(turn) && turn.originSid == sid && !turn.done
    ensures turn != null ==> server.View(c) == Begin<ActiveTaskInfo>(Named(s.shared, ts), turn)
  {
    turn := server.BeginTurn(c, sid);
  }

  function Filed(tasks: map<string, seq<ActiveTaskInfo>>, c: string): seq<ActiveTaskInfo> {
    if c in tasks then tasks[c] else []
  }

  lemma PairwiseIn(tasks: map<string, seq<ActiveTaskInfo>>, c: string)
    requires AllApart(tasks) && c in tasks
    ensures Pairwise(tasks[c])
  {
  }

  /** No turn object stands for two turns. */
  ghost predicate AllApart(tasks: map<string, seq<ActiveTaskInfo>>) {
    forall c, d, i, j ::
      c in tasks && d in tasks && 0 <= i < |tasks[c]| && 0 <= j < |tasks[d]| && (c != d || i != j) ==>
        tasks[c][i] != tasks[d][j]
  }

  lemma OneMoreApart(tasks: map<string, seq<ActiveTaskInfo>>, c: string, turn: ActiveTaskInfo)
    requires AllApart(tasks) && forall d, i :: d in tasks && 0 <= i < |tasks[d]| ==> tasks[d][i] != turn
    ensures AllApart(tasks[c := Filed(tasks, c) + [turn]])
  {
  }

  /** Every conversation but `c` is where `now` says. */
  ghost predicate OthersHold(
      server: Server, tasks: map<string, seq<ActiveTaskInfo>>, now: string -> Conv, c: string)
    reads *
  {
    forall d :: IsId(d) && d != c ==> Holds(server, Filed(tasks, d), d, now(d))
  }

  /** Serving one conversation leaves the others where they are. */
  method ServeAmong(
      server: Server, c: string, call: Call<ActiveTaskInfo>, ghost l: Label, ghost s: Conv,
      ghost tasks: map<string, seq<ActiveTaskInfo>>, ghost now: string -> Conv)
      returns (told: Told)
    requires IsId(c) && Section(l) && Holds(server, Filed(tasks, c), c, s) && Pairwise(Filed(tasks, c))
    requires CallFits(CallOf(s, l), |Filed(tasks, c)|) && call == NamedCall(CallOf(s, l), Filed(tasks, c))
    requires OthersHold(server, tasks, now, c)
    modifies server
    ensures Holds(server, Filed(tasks, c), c, Step(s, l)) && told == Tell(s.shared, CallOf(s, l))
    ensures OthersHold(server, tasks, now, c)
  {
    told := ServeStep(server, c, call, l, s, Filed(tasks, c));
    assert OthersHold(server, tasks, now, c);
  }

  /** Every conversation is where `now` says. */
  ghost predicate AllHold(server: Server, tasks: map<string, seq<ActiveTaskInfo>>, now: string -> Conv)
    reads *
  {
    forall d :: IsId(d) ==> Holds(server, Filed(tasks, d), d, now(d))
  }

  lemma AllOn(
      server: Server, tasks: map<string, seq<ActiveTaskInfo>>, now: string -> Conv, onward: string -> Conv,
      c: string, l: Label)
    requires OthersHold(server, tasks, now, c) && Holds(server, Filed(tasks, c), c, Step(now(c), l))
    requires onward(c) == Step(now(c), l) && forall d :: d != c ==> onward(d) == now(d)
    ensures AllHold(server, tasks, onward)
  {
  }

  /** Where every run leads when conversation `c` has moved on by `l`. */
  ghost function OneOn(past: seq<Happening>, now: string -> Conv, c: string, l: Label): (onward: string -> Conv)
    requires forall d {:trigger Project(past, d)} :: now(d) == Exec(Project(past, d))
    ensures forall d {:trigger Project(past + [In(c, l)], d)} :: onward(d) == Exec(Project(past + [In(c, l)], d))
    ensures onward(c) == Step(now(c), l) && forall d :: d != c ==> onward(d) == now(d)
  {
    var onward := d => if d == c then Step(now(d), l) else now(d);
    assert forall d {:trigger Project(past + [In(c, l)], d)} :: onward(d) == Exec(Project(past + [In(c, l)], d)) by {
      forall d ensures onward(d) == Exec(Project(past + [In(c, l)], d)) { ProjectSnoc(past, In(c, l), d); }
    }
    onward
  }

  /** The process: its dictionaries, and every turn its handlers started, by conversation. */
  class Backend {
    const server: Server
    var tasks: map<string, seq<ActiveTaskInfo>>
    ghost var past: seq<Happening>
    ghost var now: string -> Conv

    ghost function TasksOf(c: string): seq<ActiveTaskInfo>
      reads this
    {
      Filed(tasks, c)
    }

    /** The dictionaries hold what the protocol says conversation `c` holds. */
    ghost predicate Represents(c: string, s: Conv)
      reads this, server, TasksOf(c)
    {
      Holds(server, TasksOf(c), c, s)
    }

    ghost predicate Apart()
      reads this
    {
      AllApart(tasks)
    }

    /** `now` is where each conversation's run of the protocol leads. */
    ghost predicate Faithful()
      reads this
    {
      forall c {:trigger Project(past, c)} :: now(c) == Exec(Project(past, c))
    }

    /** Every conversation's dictionaries are where its own run of the protocol leads. */
    ghost predicate Valid()
      reads *
    {
      Apart() && Faithful() && AllHold(server, tasks, now)
    }

    constructor ()
      ensures Valid() && past == [] && fresh(server)
    {
      server := new Server();
      tasks, past, now := map[], [], c => Init();
      new;
      forall c ensures Exec(Project(past, c)) == Init() { NothingHappened(c); }
    }

    /** Every other conversation is where its run leads. */
    ghost predicate OthersValid(c: string)
      reads *
    {
      OthersHold(server, tasks, now, c)
    }

    /** What was done for `c` is one more step of its run. */
    ghost method Record(c: string, l: Label, s: Conv)
      requires Apart() && Faithful() && OthersValid(c) && s == now(c) && Represents(c, Step(s, l))
      modifies this`past, this`now
      ensures Valid() && past == old(past) + [In(c, l)] && now(c) == Step(s, l)
    {
      var onward := OneOn(past, now, c, l);
      AllOn(server, tasks, now, onward, c, l);
      past, now := past + [In(c, l)], onward;
      assert AllHold(server, tasks, onward);
    }

    /** A section of conversation `c`, at its turn in the run. */
    method Perform(c: string, call: Call<ActiveTaskInfo>, ghost l: Label) returns (told: Told)
      requires Valid() && IsId(c) && Section(l)
      requires CallFits(CallOf(now(c), l), |TasksOf(c)|) && call == NamedCall(CallOf(now(c), l), TasksOf(c))
      modifies this`past, this`now, server
      ensures Valid() && past == old(past) + [In(c, l)]
      ensures told == Tell(old(now)(c).shared, CallOf(old(now)(c), l))
    {
      ghost var s := now(c);
      assert Represents(c, s);
      if c in tasks { PairwiseIn(tasks, c); }
      told := ServeAmong(server, c, call, l, s, tasks, now);
      Record(c, l, s);
    }

    /** A send: a new turn, unless a running one takes it as steering. */
    method Begin(c: string, sid: string) returns (turn: ActiveTaskInfo?)
      requires Valid() && IsId(c)
      modifies this`past, this`now, this`tasks, server
      ensures Valid() && past == old(past) + [In(c, Send(sid))]
      ensures turn == null <==> !StartsTurn(old(now)(c))
      ensures turn != null ==> TasksOf(c) == old(TasksOf(c)) + [turn]
    {
      ghost var s := now(c);
      assert Represents(c, s);
      turn := Open(server, c, sid, s, TasksOf(c));
      assert OthersValid(c);
      if turn == null {
        Record(c, Send(sid), s);
        return;
      }
      Keep(c, turn, s, sid);
    }

    /** A started turn is filed, and its start recorded. */
    method Keep(c: string, turn: ActiveTaskInfo, ghost s: Conv, ghost sid: string)
      requires Apart() && Faithful() && OthersValid(c) && StartsTurn(s) && Stands(TasksOf(c), s) && s == now(c)
      requires server.View(c) == ChatTurn.Begin(Named(s.shared, TasksOf(c)), turn)
      requires turn.originSid == sid && !turn.done
      requires forall d, i :: d in tasks && 0 <= i < |tasks[d]| ==> tasks[d][i] != turn
      modifies this`past, this`now, this`tasks
      ensures Valid() && past == old(past) + [In(c, Send(sid))] && TasksOf(c) == old(TasksOf(c)) + [turn]
    {
      File(c, turn, s, sid);
      Record(c, Send(sid), s);
    }

    /** A started turn is filed with its conversation. */
    method File(c: string, turn: ActiveTaskInfo, ghost s: Conv, ghost sid: string)
      requires Apart() && OthersValid(c) && StartsTurn(s) && Stands(TasksOf(c), s)
      requires server.View(c) == ChatTurn.Begin(Named(s.shared, TasksOf(c)), turn)
      requires turn.originSid == sid && !turn.done
      requires forall d, i :: d in tasks && 0 <= i < |tasks[d]| ==> tasks[d][i] != turn
      modifies this`tasks
      ensures Apart() && OthersValid(c) && Represents(c, Step(s, Send(sid)))
      ensures TasksOf(c) == old(TasksOf(c)) + [turn]
    {
      ghost var ts, filed := TasksOf(c), tasks[c := Filed(tasks, c) + [turn]];
      BeginNamed(s, sid, ts, turn);
      OneMoreApart(tasks, c, turn);
      StandsOneMore(ts, s, sid, turn);
      assert OthersHold(server, filed, now, c);
      tasks := tasks[c := Filed(tasks, c) + [turn]];
      assert OthersHold(server, filed, now, c);
      assert TasksOf(c) == ts + [turn];
    }

    /** A turn's task ends. */
    method End(c: string, turn: ActiveTaskInfo, ghost t: TurnId, ghost cancelled: bool)
      requires Valid() && IsId(c) && RunningTurn(now(c), t) && (cancelled ==> now(c).turns[t].cancelRequested)
      requires c in tasks && t < |tasks[c]| && turn == tasks[c][t]
      modifies this`past, this`now, turn`done
      ensures Valid() && past == old(past) + [In(c, Finish(t, cancelled))]
    {
      ghost var s := now(c);
      assert Represents(c, s);
      turn.done := true;
      assert OthersValid(c);
      assert Represents(c, Step(s, Finish(t, cancelled)));
      Record(c, Finish(t, cancelled), s);
    }

    lemma FinishedMeans(c: string, s: Conv, sid: string)
      requires Represents(c, s)
      ensures server.Finished(c, sid) <==> GoneHere(s, sid)
    {
    }

    /** A socket disconnects. */
    method Drop(sid: string)
      requires Valid()
      modifies this`past, this`now, server
      ensures Valid() && past == old(past) + [Gone(sid)]
    {
      forall d | IsId(d) ensures server.Finished(d, sid) <==> GoneHere(now(d), sid) {
        assert Represents(d, now(d));
        FinishedMeans(d, now(d), sid);
      }
      var _ := server.Disconnect(sid);
      forall d | IsId(d) ensures Represents(d, Step(now(d), Disconnect(sid))) {
        assert old(Represents(d, now(d)));
        assert old(server.Finished(d, sid)) <==> GoneHere(now(d), sid);
        DisconnectNamed(now(d), sid, TasksOf(d));
      }
      RecordGone(sid);
    }

    ghost method RecordGone(sid: string)
      requires Apart() && Faithful() && forall d :: IsId(d) ==> Represents(d, Step(now(d), Disconnect(sid)))
      modifies this`past, this`now
      ensures Valid() && past == old(past) + [Gone(sid)]
    {
      var before, was := past, now;
      past := past + [Gone(sid)];
      now := d => Step(was(d), Disconnect(sid));
      forall d ensures Exec(Project(past, d)) == now(d) { ProjectSnoc(before, Gone(sid), d); }
      forall d | IsId(d) ensures Represents(d, now(d)) {
        assert old(Represents(d, Step(now(d), Disconnect(sid))));
      }
    }
  }
}
