/** A scheduled run of the agent runner: what its sub-agent's stream amounts to, how the run is
    concluded, and which task an answer to a parked run is addressed to. */
module ScheduledRun {
  import opened Common

  // ---- The sub-agent's stream ------------------------------------------------------------------

  datatype RunState = Completed | InputRequired | Failed | AuthRequired

  type Ask = map<string, string>

  /** A message's content; a block is its text, or nothing when it is no text block. */
  datatype Content = Nothing | Text(text: string) | Blocks(blocks: seq<Option<string>>) | Odd

  /** The last task data; `state` is absent for a state that is not reported, `authInfo` is what
      the ask on the metadata is rebuilt to, if it can be. */
  datatype Data = Data(state: Option<RunState>, messages: seq<Content>, authInfo: Option<Ask>)

  const NO_DATA := Data(None, [], None)

  datatype Event =
    | Artifact(content: string, intermediate: bool)
    | Update(data: Data)
    | Error(error: string)
    | Unrelated

  datatype SubAgentRun = SubAgentRun(message: Option<string>, taskState: Option<RunState>, authPayload: Option<Ask>)

  function Spaced(blocks: seq<Option<string>>): string {
    if blocks == [] then ""
    else (if blocks[0].Some? then [' '] + blocks[0].value else "") + Spaced(blocks[1..])
  }

  /** The text blocks, joined by single spaces. */
  function JoinBlocks(blocks: seq<Option<string>>): string {
    var spaced := Spaced(blocks);
    if spaced == "" then "" else spaced[1..]
  }

  /** The readable text of one message; blank is none. */
  function TextOf(c: Content): string {
    match c
    case Text(text) => PyStrip(text)
    case Blocks(blocks) => PyStrip(PyStrip(JoinBlocks(blocks)))
    case _ => ""
  }

  /** Text blocks are joined by single spaces, whatever stands between them. */
  lemma {:induction false} BlocksJoin(blocks: seq<Option<string>>, text: string)
    ensures JoinBlocks(blocks + [None]) == JoinBlocks(blocks)
    ensures JoinBlocks(blocks + [Some(text)]) ==
      if forall b :: b in blocks ==> b.None? then text else JoinBlocks(blocks) + " " + text
  {
    SpacedJoin(blocks, [None]);
    SpacedJoin(blocks, [Some(text)]);
    OneSpaced(text);
    NothingSpaced(blocks);
    assert Spaced(blocks) + "" == Spaced(blocks);
    if Spaced(blocks) != "" {
      assert (Spaced(blocks) + ([' '] + text))[1..] == Spaced(blocks)[1..] + ([' '] + text);
    } else {
      assert "" + ([' '] + text) == [' '] + text && ([' '] + text)[1..] == text;
    }
  }

  lemma OneSpaced(text: string)
    ensures Spaced([Some(text)]) == [' '] + text && Spaced([None]) == ""
  {
    assert [Some(text)][1..] == [] && Spaced([]) == "";
    var none: seq<Option<string>> := [None];
    assert none[1..] == [];
  }

  lemma {:induction false} SpacedJoin(a: seq<Option<string>>, b: seq<Option<string>>)
    ensures Spaced(a + b) == Spaced(a) + Spaced(b)
  {
    if a == [] {
      assert a + b == b;
    } else {
      assert (a + b)[0] == a[0] && (a + b)[1..] == a[1..] + b;
      SpacedJoin(a[1..], b);
    }
  }

  lemma {:induction false} NothingSpaced(blocks: seq<Option<string>>)
    ensures Spaced(blocks) == "" <==> forall b :: b in blocks ==> b.None?
  {
    if blocks != [] {
      NothingSpaced(blocks[1..]);
      assert blocks[0] in blocks && forall b :: b in blocks[1..] ==> b in blocks;
      if Spaced(blocks) == "" {
        forall b | b in blocks ensures b.None? { assert b == blocks[0] || b in blocks[1..]; }
      }
    }
  }

  /** What can be read of a message: its text or its text blocks, without the blanks around; nothing
      of any other content. */
  lemma WhatIsReadable(left: string, t: string, right: string, blocks: seq<Option<string>>)
    requires All(PySpace, left) && All(PySpace, right)
    requires t != "" ==> !PySpace(t[0]) && !PySpace(t[|t| - 1])
    ensures TextOf(Text(left + t + right)) == t
    ensures JoinBlocks(blocks) == left + t + right ==> TextOf(Blocks(blocks)) == t
    ensures TextOf(Nothing) == "" && TextOf(Odd) == ""
  {
    StripPadded(PySpace, left, t, right);
    StripPadded(PySpace, "", t, "");
    assert "" + t + "" == t;
  }

  ghost predicate LastText(messages: seq<Content>, r: Option<string>) {
    match r
    case None => forall i :: 0 <= i < |messages| ==> TextOf(messages[i]) == ""
    case Some(text) =>
      exists i :: 0 <= i < |messages| && TextOf(messages[i]) == text != ""
        && forall j :: i < j < |messages| ==> TextOf(messages[j]) == ""
  }

  /** `_extract_text_from_messages` */
  method ExtractText(messages: seq<Content>) returns (r: Option<string>)
    ensures LastText(messages, r)
  {
    var i := |messages|;
    while i > 0
      invariant 0 <= i <= |messages|
      invariant forall j :: i <= j < |messages| ==> TextOf(messages[j]) == ""
    {
      i := i - 1;
      var text := TextOf(messages[i]);
      if text != "" { return Some(text); }
    }
    r := None;
  }

  /** What one event adds to the reply text. */
  function Added(e: Event): string { if e.Artifact? && !e.intermediate then e.content else "" }

  /** The reply text: every part of the artifact that is not intermediate. */
  function Streamed(events: seq<Event>): string {
    if events == [] then ""
    else
      var last := events[|events| - 1];
      Streamed(events[..|events| - 1]) + Added(last)
  }

  function LastData(events: seq<Event>): Data {
    if events == [] then NO_DATA
    else
      var last := events[|events| - 1];
      if last.Update? then last.data else LastData(events[..|events| - 1])
  }

  lemma {:induction false} StreamedJoin(a: seq<Event>, b: seq<Event>)
    ensures Streamed(a + b) == Streamed(a) + Streamed(b)
    decreases |b|
  {
    if b == [] {
      assert a + b == a && Streamed(a) + "" == Streamed(a);
    } else {
      var init, last := b[..|b| - 1], b[|b| - 1];
      assert a + b == (a + init) + [last];
      StreamedSnoc(a + init, last);
      StreamedJoin(a, init);
      assert Streamed(b) == Streamed(init) + Added(last);
      assert (Streamed(a) + Streamed(init)) + Added(last) == Streamed(a) + (Streamed(init) + Added(last));
    }
  }

  lemma StreamedSnoc(a: seq<Event>, e: Event)
    ensures Streamed(a + [e]) == Streamed(a) + Added(e)
  {
    assert (a + [e])[..|a|] == a;
  }

  /** What one event adds to the reply, wherever it stands: an artifact its content, unless it is
      marked intermediate; nothing else adds anything. */
  lemma WhatIsStreamed(a: seq<Event>, e: Event, b: seq<Event>)
    ensures Streamed(a + [e] + b) ==
      Streamed(a) + (match e case Artifact(content, false) => content case _ => "") + Streamed(b)
  {
    StreamedJoin(a + [e], b);
    StreamedSnoc(a, e);
  }

  /** The last task data counts, whatever else follows it. */
  lemma {:induction false} LastUpdateCounts(a: seq<Event>, data: Data, b: seq<Event>)
    requires forall e :: e in b ==> !e.Update?
    ensures LastData(a + [Update(data)] + b) == data
    ensures LastData(b) == Data(None, [], None)
    decreases |b|
  {
    if b != [] {
      var init := b[..|b| - 1];
      assert b[|b| - 1] in b && forall e :: e in init ==> e in b;
      LastUpdateCounts(a, data, init);
      assert (a + [Update(data)] + b)[..|a + [Update(data)] + b| - 1] == a + [Update(data)] + init;
    } else {
      assert a + [Update(data)] + b == a + [Update(data)];
    }
  }

  ghost predicate FirstError(events: seq<Event>, error: string) {
    exists i :: 0 <= i < |events| && events[i] == Error(error) && forall j :: 0 <= j < i ==> !events[j].Error?
  }

  ghost predicate NoError(events: seq<Event>) { forall i :: 0 <= i < |events| ==> !events[i].Error? }

  function FailedWith(error: string): SubAgentRun {
    SubAgentRun(if error != "" then Some("Error: " + error) else None, Some(Failed), None)
  }

  /** `_collect_sub_agent_run`: the first error ends the run as failed, whatever came before;
      else the streamed text, or the last message's when nothing was streamed. */
  method CollectSubAgentRun(events: seq<Event>) returns (r: SubAgentRun)
    ensures NoError(events) ||
      exists error ::
        && FirstError(events, error)
        && r == SubAgentRun(if error == "" then None else Some("Error: " + error), Some(Failed), None)
    ensures NoError(events) ==>
      var data := LastData(events);
      && r.taskState == data.state
      && r.authPayload == (if data.state == Some(AuthRequired) then data.authInfo else None)
      && (Streamed(events) == "" ==> LastText(data.messages, r.message))
      && (Streamed(events) != "" ==>
            r.message == if PyBlank(Streamed(events)) then None else Some(PyStrip(Streamed(events))))
  {
    var text, data := "", NO_DATA;
    for n := 0 to |events|
      invariant NoError(events[..n])
      invariant text == Streamed(events[..n]) && data == LastData(events[..n])
    {
      assert events[..n + 1][..n] == events[..n];
      match events[n] {
        case Artifact(content, intermediate) => if !intermediate { text := text + content; }
        case Update(d) => data := d;
        case Error(error) =>
          assert forall j :: 0 <= j < n ==> !events[j].Error? by {
            forall j | 0 <= j < n ensures !events[j].Error? { assert events[..n][j] == events[j]; }
          }
          assert FirstError(events, error);
          return FailedWith(error);
        case Unrelated =>
      }
    }
    assert events[..|events|] == events;
    var message;
    if text == "" {
      message := ExtractText(data.messages);
    } else {
      message := if PyBlank(text) then None else Some(PyStrip(text));
    }
    r := SubAgentRun(message, data.state, if data.state == Some(AuthRequired) then data.authInfo else None);
  }

  // ---- How a run is concluded --------------------------------------------------------------------

  /** The sub-agent's execution, if there is one. */
  datatype Execution = NoAgent(checkAsk: Option<Option<Ask>>) | Ran(run: SubAgentRun) | Raised(infrastructure: bool, error: string)

  datatype Status = Success | FailedRun | Parked | Interrupted

  datatype Published = Published(
    state: RunState, status: Status, agentMessage: Option<string>, taskState: Option<RunState>,
    error: Option<Option<string>>, ask: Option<Ask>)

  /** How the execution ended, and with what ask: a watch's check hands its own over. */
  function EndState(e: Execution): Option<RunState> {
    match e
    case NoAgent(ask) => if ask.Some? then Some(AuthRequired) else None
    case Ran(run) => run.taskState
    case Raised(_, _) => None
  }

  function AskOf(e: Execution): Option<Ask> {
    match e
    case NoAgent(ask) => if ask.Some? then ask.value else None
    case Ran(run) => run.authPayload
    case Raised(_, _) => None
  }

  /** There is a question to put, and somebody to put it to. */
  predicate Answerable(e: Execution, jobId: Option<int>) {
    AskOf(e).Some? && AskOf(e).value != map[] && jobId.Some?
  }

  function WithProvenance(message: Option<string>, provenance: Option<string>): Option<string> {
    if message.None? || message.value == "" || provenance.None? || PyBlank(provenance.value) then message
    else Some(message.value + "\n\n" + PyStrip(provenance.value))
  }

  const NO_ASK := "Stopped for authorization but produced no ask to answer"
  const NO_JOB := "Stopped for authorization, which only a scheduled run can be asked for"

  /** An answer carries what stands behind it after a blank line, if anything does. */
  lemma ProvenanceFollows(message: string, left: string, p: string, right: string)
    requires All(PySpace, left) && All(PySpace, right) && message != ""
    requires p != "" && !PySpace(p[0]) && !PySpace(p[|p| - 1])
    ensures WithProvenance(Some(message), Some(left + p + right)) == Some(message + "\n\n" + p)
    ensures WithProvenance(Some(message), Some(left)) == Some(message) == WithProvenance(Some(message), None)
  {
    StripPadded(PySpace, left, p, right);
    StripLeftBlank(PySpace, left);
  }

  /** The outcome section of `_stream_impl`. */
  method Conclude(e: Execution, jobId: Option<int>, messageText: string, provenance: Option<string>) returns (p: Published)
    // The task's state and the scheduler's status never disagree.
    ensures p.state == AuthRequired <==> p.status == Parked
    ensures p.state == Failed <==> p.status == FailedRun || p.status == Interrupted
    ensures p.state == Completed <==> p.status == Success
    // Which of them it is.
    ensures p.status == Interrupted <==> e.Raised? && e.infrastructure
    ensures p.status == Parked <==> EndState(e) == Some(AuthRequired) && Answerable(e, jobId)
    ensures p.status == Success <==>
      !e.Raised? && EndState(e) != Some(Failed) && EndState(e) != Some(AuthRequired)
    // The same by the kind of execution: a check that asks, a sub-agent that stopped for authorization.
    ensures p.status == Parked <==>
      jobId.Some? &&
      match e
      case NoAgent(Some(Some(ask))) => ask != map[]
      case Ran(SubAgentRun(_, Some(AuthRequired), Some(ask))) => ask != map[]
      case _ => false
    ensures p.status == Success <==>
      match e
      case NoAgent(ask) => ask == None
      case Ran(run) => run.taskState != Some(Failed) && run.taskState != Some(AuthRequired)
      case Raised(_, _) => false
    ensures p.status == Parked ==>
      p.ask == match e case NoAgent(Some(ask)) => ask case Ran(run) => run.authPayload case _ => None
    ensures e.Raised? ==> p.error == Some(Some(e.error))
    // What goes with it.
    ensures p.ask == if p.status == Parked then AskOf(e) else None
    ensures p.error.Some? <==> p.state == Failed
    ensures e.Ran? && e.run.taskState == Some(Failed) ==> p.error == Some(e.run.message)
    ensures p.state == Failed && EndState(e) == Some(AuthRequired) ==>
      p.error == Some(Some(if AskOf(e).None? || AskOf(e).value == map[] then NO_ASK else NO_JOB))
    ensures !e.Raised? ==> p.taskState == EndState(e)
    ensures e.Ran? && e.run.message.GetOr("") != "" ==> p.agentMessage == WithProvenance(e.run.message, provenance)
    ensures e.NoAgent? && messageText != "" ==> p.agentMessage == WithProvenance(Some(messageText), provenance)
  {
    var agentMessage: Option<string>, taskState: Option<RunState>, ask: Option<Ask> := None, None, None;
    match e {
      case Raised(infrastructure, error) =>
        return Published(Failed, if infrastructure then Interrupted else FailedRun, None, None, Some(Some(error)), None);
      case Ran(run) =>
        agentMessage, taskState, ask := run.message, run.taskState, run.authPayload;
      case NoAgent(checkAsk) =>
        if checkAsk.Some? { taskState, ask := Some(AuthRequired), checkAsk.value; }
    }
    var parked := taskState == Some(AuthRequired);
    var withoutAsk := parked && (ask.None? || ask.value == map[]);
    var withoutJob := parked && jobId.None?;
    var failed := taskState == Some(Failed) || withoutAsk || withoutJob;
    var publishesPark := parked && !withoutAsk && !withoutJob;
    var message :=
      WithProvenance(
        if agentMessage.GetOr("") != "" then agentMessage else if messageText != "" then Some(messageText) else None,
        provenance);
    var error :=
      if withoutAsk then Some(NO_ASK) else if withoutJob then Some(NO_JOB) else agentMessage;
    if failed {
      return Published(Failed, FailedRun, message, taskState, Some(error), None);
    }
    if publishesPark {
      return Published(AuthRequired, Parked, message, taskState, None, ask);
    }
    p := Published(Completed, Success, message, taskState, None, None);
  }

  // ---- The chain of a parked run -------------------------------------------------------------------

  /** The derivation of a task id from a context: a version 5 UUID, taken to be injective. */
  type Derive = string -> string

  ghost predicate Injective(derive: Derive) {
    forall a, b :: a != b ==> derive(a) != derive(b)
  }

  /** `sub_agent_task_ids` */
  function SubAgentTaskIds(derive: Derive, context: Option<string>, isResume: bool): (Option<string>, Option<string>) {
    var derived := if context.GetOr("") != "" then Some(derive(context.value)) else None;
    if isResume then (derived, None) else (None, derived)
  }

  /** A dispatch resumes when it carries an answer, and only within a conversation.  An empty
      answer is none. */
  predicate IsResume(answer: Option<map<string, string>>, context: Option<string>) {
    answer.Some? && answer.value != map[] && context.GetOr("") != ""
  }

  /** One run on a context; `parks` says that it was published as parked, `open` that it left
      its sub-agent task open.  `minted` is the id the server would give a new task. */
  datatype Run =
    | Start(context: string, minted: string, open: bool, parks: bool)
    | Answer(context: string, answer: map<string, string>, minted: string, open: bool, parks: bool)

  /** A dispatch as the sub-agent's server saw it: the task it addressed or the id it proposed,
      the `task` that took it, if any, and the one `waiting` for an answer on the context. */
  datatype Dispatch = Dispatch(
    context: string, resumed: bool, addressed: Option<string>, proposed: Option<string>,
    task: Option<string>, waiting: Option<string>)

  /** `tasks` says which stored tasks are open, `parked` which one each parked context waits on. */
  datatype Chain = Chain(tasks: map<string, bool>, parked: map<string, string>, log: seq<Dispatch>)

  /** The task that takes a message: the one addressed, if it is open; else a new one, under the
      proposed id unless that is taken. */
  function Taker(tasks: map<string, bool>, ids: (Option<string>, Option<string>), minted: string): Option<string> {
    match ids.0
    case Some(id) => if id in tasks && tasks[id] then Some(id) else None
    case None =>
      if ids.1.Some? && ids.1.value !in tasks then ids.1 else Some(minted)
  }

  predicate Resumes(r: Run) { r.Answer? && IsResume(Some(r.answer), Some(r.context)) }

  function Sent(derive: Derive, s: Chain, r: Run): Dispatch {
    var ids := SubAgentTaskIds(derive, Some(r.context), Resumes(r));
    Dispatch(r.context, Resumes(r), ids.0, ids.1, Taker(s.tasks, ids, r.minted),
             if r.context in s.parked then Some(s.parked[r.context]) else None)
  }

  function Step(derive: Derive, s: Chain, r: Run): Chain {
    var d := Sent(derive, s, r);
    Chain(
      if d.task.Some? then s.tasks[d.task.value := r.open] else s.tasks,
      if d.task.Some? && r.parks then s.parked[r.context := d.task.value] else s.parked - {r.context},
      s.log + [d])
  }

  function Runs(derive: Derive, rs: seq<Run>): Chain {
    if rs == [] then Chain(map[], map[], []) else Step(derive, Runs(derive, rs[..|rs| - 1]), rs[|rs| - 1])
  }

  /** What is sent for a run: an answer that says something, on a context, addresses the derived task;
      anything else proposes it, and without a context nothing is proposed. */
  lemma WhatIsSent(derive: Derive, s: Chain, r: Run)
    ensures var d := Sent(derive, s, r);
      var answers := match r case Answer(context, answer, _, _, _) => context != "" && answer != map[] case Start(_, _, _, _) => false;
      && d.context == r.context && d.resumed == answers && Resumes(r) == answers
      && d.addressed == (if answers then Some(derive(r.context)) else None)
      && d.proposed == (if !answers && r.context != "" then Some(derive(r.context)) else None)
      && (d.waiting == if r.context in s.parked then Some(s.parked[r.context]) else None)
  {
  }

  /** Who takes it: an answer only the open task it addresses; a fresh run the derived task if there is
      none yet, else a task of its own.  The task it ran in is then as open as the run left it, and is
      waited for exactly if it parked. */
  lemma WhoTakesIt(derive: Derive, s: Chain, r: Run)
    requires r.context != ""
    ensures var d, s', id := Sent(derive, s, r), Step(derive, s, r), derive(r.context);
      && d.task ==
           (if Resumes(r) then (if id in s.tasks && s.tasks[id] then Some(id) else None)
            else if id in s.tasks then Some(r.minted) else Some(id))
      && s'.tasks == (match d.task case Some(task) => s.tasks[task := r.open] case None => s.tasks)
      && (forall c :: c != r.context ==> (c in s'.parked <==> c in s.parked) && (c in s.parked ==> s'.parked[c] == s.parked[c]))
      && (r.context in s'.parked <==> d.task.Some? && r.parks)
      && (d.task.Some? && r.parks ==> s'.parked[r.context] == d.task.value)
      && s'.log == s.log + [d]
  {
  }

  // ---- Who addresses whom ------------------------------------------------------------------------

  /** Each run, with what was sent for it. */
  lemma {:induction false} LogIsSent(derive: Derive, rs: seq<Run>, k: nat)
    requires k < |rs|
    ensures |Runs(derive, rs).log| == |rs|
    ensures Runs(derive, rs).log[k] == Sent(derive, Runs(derive, rs[..k]), rs[k])
  {
    var init := rs[..|rs| - 1];
    if k < |init| {
      LogIsSent(derive, init, k);
      assert init[..k] == rs[..k];
    } else {
      LogLength(derive, init);
      assert rs[..k] == init;
    }
  }

  lemma {:induction false} LogLength(derive: Derive, rs: seq<Run>)
    ensures |Runs(derive, rs).log| == |rs|
  {
    if rs != [] { LogLength(derive, rs[..|rs| - 1]); }
  }

  /** With no assumption on who starts or answers what: every resume addresses the very id that
      every fresh run on its context proposes, and no other context's runs do either. */
  lemma ResumeAddressesProposed(derive: Derive, rs: seq<Run>, j: nat, k: nat)
    requires Injective(derive) && j < |rs| && k < |rs| && Resumes(rs[k]) && !Resumes(rs[j])
    ensures |Runs(derive, rs).log| == |rs|
    ensures var log := Runs(derive, rs).log;
      log[k].addressed.Some? && (log[j].proposed == log[k].addressed <==> rs[j].context == rs[k].context)
  {
    LogIsSent(derive, rs, j);
    LogIsSent(derive, rs, k);
  }

  // ---- Who gets the answer ------------------------------------------------------------------------

  /** An earlier run among the first `k` was a fresh one on this context. */
  ghost predicate FreshBefore(rs: seq<Run>, k: nat, context: string)
    requires k <= |rs|
  {
    exists i :: 0 <= i < k && !Resumes(rs[i]) && rs[i].context == context
  }

  /** A fresh run on a context that had one already. */
  ghost predicate Restart(rs: seq<Run>, k: nat)
    requires k < |rs|
  {
    !Resumes(rs[k]) && FreshBefore(rs, k, rs[k].context)
  }

  /** The latest of the first `k` runs on this context restarted it. */
  ghost predicate LastWasRestart(rs: seq<Run>, k: nat, context: string)
    requires k <= |rs|
  {
    k > 0 && if rs[k - 1].context == context then Restart(rs, k - 1) else LastWasRestart(rs, k - 1, context)
  }

  /** What the server promises: a published park leaves its task open, and the ids it mints are
      not derived ones. */
  ghost predicate Sane(derive: Derive, rs: seq<Run>) {
    forall k :: 0 <= k < |rs| ==>
      (rs[k].parks ==> rs[k].open) && forall c :: rs[k].minted != derive(c)
  }

  /** A derived id names a task exactly when its context had a fresh run; and a parked context
      waits on its own open task, unless it was restarted, and then on another. */
  ghost predicate Tidy(derive: Derive, rs: seq<Run>, k: nat, s: Chain)
    requires k <= |rs|
  {
    forall c: string :: c != "" ==> TidyFor(derive, rs, k, s, c)
  }

  ghost predicate TidyFor(derive: Derive, rs: seq<Run>, k: nat, s: Chain, c: string)
    requires k <= |rs|
  {
    && (derive(c) in s.tasks <==> FreshBefore(rs, k, c))
    && (c in s.parked ==>
          && (s.parked[c] == derive(c) <==> !LastWasRestart(rs, k, c))
          && (!LastWasRestart(rs, k, c) ==> derive(c) in s.tasks && s.tasks[derive(c)]))
  }

  lemma FreshOneMore(rs: seq<Run>, k: nat, c: string)
    requires k < |rs|
    ensures FreshBefore(rs, k + 1, c) <==> FreshBefore(rs, k, c) || (!Resumes(rs[k]) && rs[k].context == c)
  {
  }

  /** The run on the context itself. */
  lemma OwnRun(derive: Derive, rs: seq<Run>, k: nat, s: Chain)
    requires Injective(derive) && Sane(derive, rs) && k < |rs| && rs[k].context != ""
    requires TidyFor(derive, rs, k, s, rs[k].context)
    ensures TidyFor(derive, rs, k + 1, Step(derive, s, rs[k]), rs[k].context)
  {
    FreshOneMore(rs, k, rs[k].context);
  }

  /** Another context's run. */
  lemma OtherRun(derive: Derive, rs: seq<Run>, k: nat, s: Chain, c: string)
    requires Injective(derive) && Sane(derive, rs) && k < |rs| && c != "" && rs[k].context != c
    requires TidyFor(derive, rs, k, s, c)
    ensures TidyFor(derive, rs, k + 1, Step(derive, s, rs[k]), c)
  {
    FreshOneMore(rs, k, c);
    var d := Sent(derive, s, rs[k]);
    assert d.task != Some(derive(c));
  }

  lemma {:induction false} RunsAreTidy(derive: Derive, rs: seq<Run>, k: nat)
    requires Injective(derive) && Sane(derive, rs) && k <= |rs|
    ensures Tidy(derive, rs, k, Runs(derive, rs[..k]))
    decreases k
  {
    if k == 0 {
      assert Runs(derive, rs[..0]) == Chain(map[], map[], []);
    } else {
      RunsAreTidy(derive, rs, k - 1);
      assert rs[..k][..k - 1] == rs[..k - 1];
      var s := Runs(derive, rs[..k - 1]);
      assert Runs(derive, rs[..k]) == Step(derive, s, rs[k - 1]);
      forall c: string | c != "" ensures TidyFor(derive, rs, k, Runs(derive, rs[..k]), c) {
        if c == rs[k - 1].context { OwnRun(derive, rs, k - 1, s); } else { OtherRun(derive, rs, k - 1, s, c); }
      }
    }
  }

  /** In any sequence of fresh, parked and resumed runs, an answer on a parked context reaches the
      open task that asked if and only if the last run on the context did not restart it.  Then the
      task is the one its first fresh run opened. */
  lemma AnswersReachTheirTask(derive: Derive, rs: seq<Run>, k: nat)
    requires Injective(derive) && Sane(derive, rs) && k < |rs| && Resumes(rs[k])
    requires |Runs(derive, rs).log| == |rs| && Runs(derive, rs).log[k].waiting.Some?
    ensures var log := Runs(derive, rs).log;
      && (log[k].task == log[k].waiting <==> !LastWasRestart(rs, k, rs[k].context))
      && (log[k].task == log[k].waiting ==> log[k].task == log[k].addressed && FreshBefore(rs, k, rs[k].context))
  {
    LogIsSent(derive, rs, k);
    RunsAreTidy(derive, rs, k);
    assert TidyFor(derive, rs, k, Runs(derive, rs[..k]), rs[k].context);
  }

  /** Which task takes a run: the derived one, unless the run restarts its context; and the first
      fresh run of a context opens it. */
  lemma TakenBy(derive: Derive, rs: seq<Run>, k: nat)
    requires Injective(derive) && Sane(derive, rs) && k < |rs| && rs[k].context != ""
    ensures |Runs(derive, rs).log| == |rs|
    ensures var d := Runs(derive, rs).log[k];
      && (!Resumes(rs[k]) ==> d.task == Some(if Restart(rs, k) then rs[k].minted else derive(rs[k].context)))
      && (Resumes(rs[k]) ==> d.task.None? || d.task == Some(derive(rs[k].context)))
  {
    LogIsSent(derive, rs, k);
    RunsAreTidy(derive, rs, k);
    assert TidyFor(derive, rs, k, Runs(derive, rs[..k]), rs[k].context);
  }

  /** Two runs are taken by the same task exactly when they are the same, or on the same context
      and neither restarted it.  No two contexts ever share one. */
  lemma ContextsNeverShare(derive: Derive, rs: seq<Run>, j: nat, k: nat)
    requires Injective(derive) && Sane(derive, rs) && j < |rs| && k < |rs|
    requires rs[j].context != "" && rs[k].context != "" && (j != k ==> rs[j].minted != rs[k].minted)
    requires |Runs(derive, rs).log| == |rs|
    requires Runs(derive, rs).log[j].task.Some? && Runs(derive, rs).log[k].task.Some?
    ensures Runs(derive, rs).log[j].task == Runs(derive, rs).log[k].task <==>
      j == k || (rs[j].context == rs[k].context && !Restart(rs, j) && !Restart(rs, k))
  {
    TakenBy(derive, rs, j);
    TakenBy(derive, rs, k);
  }

  /** Contexts started once are never restarted: then every answer arrives. */
  lemma StartedOnceNeverRestarted(rs: seq<Run>, k: nat, context: string)
    requires k <= |rs|
    requires forall i :: 0 <= i < |rs| && rs[i].context == context ==> !Restart(rs, i)
    ensures !LastWasRestart(rs, k, context)
  {
  }

  /** The restart is real: the proposal is taken, the run parks on a minted task, and the answer
      finds nothing to continue. */
  lemma SecondStartIsStranded(derive: Derive, context: string, minted: string, answer: map<string, string>)
      returns (rs: seq<Run>)
    requires context != "" && answer != map[] && minted != derive(context)
    ensures |rs| == 3 && Resumes(rs[2]) && context in Runs(derive, rs[..2]).parked && |Runs(derive, rs).log| == 3
    ensures var d := Runs(derive, rs).log[2];
      d.waiting == Some(minted) && d.task == None
  {
    var one := Start(context, minted, false, false);
    var two := Start(context, minted, true, true);
    var three := Answer(context, answer, minted, false, false);
    rs := [one, two, three];
    assert rs[..2] == [one, two] && [one, two][..1] == [one] && [one][..0] == [];
    assert Runs(derive, []) == Chain(map[], map[], []);
    var s1 := Runs(derive, [one]);
    assert s1 == Step(derive, Chain(map[], map[], []), one);
    assert derive(context) in s1.tasks && !s1.tasks[derive(context)];
    var s2 := Runs(derive, [one, two]);
    assert s2 == Step(derive, s1, two);
  }
}
