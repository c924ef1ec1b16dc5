/** One conversation's in-memory turn state in console-backend, and what each
    await-free section of the chat handlers does to it.  `T` is whatever identifies
    a turn: an `ActiveTaskInfo` object in the server, a number in the protocol. */
module ChatTurn {
  import opened Common

  // ---- What the agent streams back --------------------------------------------

  datatype TaskState =
    | Submitted | Working | Completed | Failed | Canceled
    | InputRequired | Rejected | AuthRequired | Unspecified

  datatype Extension = WorkPlan | FeedbackRequest | OtherExtension

  datatype Part = TextPart(text: string) | DataPart

  datatype StatusMessage = StatusMessage(extensions: set<Extension>, parts: seq<Part>)

  /** `message == None` stands for an absent and for an empty message object. */
  datatype Status = Status(state: TaskState, message: Option<StatusMessage>)

  /** `text` is the concatenation of the artifact's text parts. */
  datatype Artifact = Artifact(intermediate: bool, agent: string, text: string)

  datatype Event =
    | ArtifactUpdate(artifact: Artifact, append: bool, lastChunk: bool)
    | StatusUpdate(status: Status)
    | TaskEvent(status: Status)
    | MessageEvent(parts: seq<Part>)
  {
    predicate HasStatus() { StatusUpdate? || TaskEvent? }

    predicate Says(state: TaskState) { HasStatus() && status.state == state }

    predicate Extends(e: Extension) { HasStatus() && status.message.Some? && e in status.message.value.extensions }

    predicate IsThought() { ArtifactUpdate? && artifact.intermediate }

    /** A chunk of the orchestrator's own reply: resumable, and tagged with an offset. */
    predicate IsReplyChunk() { ArtifactUpdate? && !artifact.intermediate }

    /** Emitted at once, before any database work. */
    predicate IsStreamingChunk() { ArtifactUpdate? && append }

    predicate IsLastChunk() { ArtifactUpdate? && lastChunk }

    predicate EndsTurn() {
      || IsLastChunk()
      || (HasStatus() && status.state in {Completed, Failed, Canceled, InputRequired})
    }

    /** An interactive prompt a reconnecting client must be able to restore.  An
        input-required status without a message is not one. */
    predicate IsPrompt() {
      Extends(FeedbackRequest) || (Says(InputRequired) && status.message.Some?)
    }

    predicate IsBareTerminalSignal() {
      && StatusUpdate?
      && status.state in {Completed, Failed, Canceled, InputRequired, AuthRequired}
      && status.message.None?
    }
  }

  function PartsText(parts: seq<Part>): string
    requires forall p :: p in parts ==> p.TextPart?
  {
    if parts == [] then ""
    else if |parts| == 1 then parts[0].text
    else parts[0].text + "\n" + PartsText(parts[1..])
  }

  /** The text of a plain-text status message, stripped; None for every other event. */
  function PlainStatusText(e: Event): Option<string> {
    if e.StatusUpdate? && e.status.message.Some? then
      var m := e.status.message.value;
      if m.extensions == {} && m.parts != [] && forall p :: p in m.parts ==> p.TextPart?
      then Some(PyStrip(PartsText(m.parts)))
      else None
    else None
  }

  // ---- The state ----------------------------------------------------------------

  /** The entries of `active_tasks`, `_streaming_buffers`, `_persisted_answer`,
      `_pending_interactions` and `_intermediate_buffers` that belong to one conversation. */
  datatype Shared<T> = Shared(
    active: Option<T>,
    buffer: Option<string>,
    persisted: Option<string>,
    pending: Option<Event>,
    thoughts: map<string, string>)
  {
    /** `_has_active_turn` */
    predicate InFlight() { active.Some? || buffer.Some? || pending.Some? }

    /** `_pending_input_required` */
    predicate PendingInputRequired() { pending.Some? && pending.value.Says(InputRequired) }

    /** Nothing but possibly a prompt. */
    predicate BuffersEmpty() { buffer.None? && persisted.None? && thoughts == map[] }
  }

  // ---- The await-free sections ------------------------------------------------------

  /** `_accumulate_reply_buffer` */
  function Accumulate<T>(s: Shared<T>, e: Event): Shared<T> {
    if e.IsReplyChunk() then s.(buffer := Some(s.buffer.GetOr("") + e.artifact.text)) else s
  }

  /** The cumulative offset attached to an emitted reply chunk. */
  function TurnOffset<T>(s: Shared<T>, e: Event): Option<nat> {
    if e.IsReplyChunk() then Some(|s.buffer.GetOr("")| + |e.artifact.text|) else None
  }

  /** Before the turn-end test: capture a prompt, append a sub-agent thought. */
  function Capture<T>(s: Shared<T>, e: Event): Shared<T> {
    var s := if e.IsPrompt() then s.(pending := Some(e)) else s;
    if e.IsThought() && e.artifact.text != "" then
      var a := e.artifact.agent;
      s.(thoughts := s.thoughts[a := (if a in s.thoughts then s.thoughts[a] else "") + e.artifact.text])
    else s
  }

  function PopThought<T>(s: Shared<T>, agent: string): Shared<T> { s.(thoughts := s.thoughts - {agent}) }

  function PopBuffer<T>(s: Shared<T>): Shared<T> { s.(buffer := None) }

  function RememberAnswer<T>(s: Shared<T>, text: string): Shared<T> { s.(persisted := Some(PyStrip(text))) }

  /** After a turn-ending event: the prompt goes unless the turn ended by asking. */
  function SettlePrompt<T>(s: Shared<T>, e: Event): Shared<T> {
    if e.EndsTurn() && !e.Says(InputRequired) && !e.Extends(FeedbackRequest) then s.(pending := None) else s
  }

  /** `_repeats_persisted_answer` */
  predicate RepeatsPersisted<T>(s: Shared<T>, e: Event) {
    && s.persisted.Some? && s.persisted.value != ""
    && var echoed := PlainStatusText(e);
    && echoed.Some? && echoed.value != "" && echoed.value <= s.persisted.value
  }

  /** `_clear_turn_state` */
  function Clear<T>(s: Shared<T>, preservePrompt: bool): Shared<T> {
    s.(buffer := None, persisted := None, thoughts := map[],
       pending := if preservePrompt then s.pending else None)
  }

  /** A send that finds no running turn: drop the prompt it answers, register the turn. */
  function Begin<T>(s: Shared<T>, t: T): Shared<T> { s.(pending := None, active := Some(t)) }

  /** The `finally` of the send handler, for turn `t`.  Only the registered turn, or a
      turn whose entry was removed, owns the state. */
  function Teardown<T(==)>(s: Shared<T>, t: T, cancelled: bool): Shared<T> {
    if s.active == Some(t) || s.active == None then
      Clear(s.(active := None), !cancelled && s.PendingInputRequired())
    else s
  }

  /** `active_tasks.pop`, by a cancel or by a disconnect that finds the turn finished. */
  function Unregister<T>(s: Shared<T>): Shared<T> { s.(active := None) }
}
