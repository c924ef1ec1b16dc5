/** console-backend's module dictionaries as one object, keyed by conversation id, with
    the await-free sections of the handlers as its methods.  Every method is specified
    by what it does to the `View` of one conversation, and leaves every other
    conversation's view alone. */
module ChatServer {
  import opened Common
  import opened ChatTurn
  import opened ChatKeys

  /** Tracks one streaming turn; turns are compared by object identity. */
  class ActiveTaskInfo {
    const originSid: string
    var done: bool

    constructor (originSid: string)
      ensures this.originSid == originSid && !done
    {
      this.originSid := originSid;
      done := false;
    }
  }

  class Server {
    var activeTasks: map<string, ActiveTaskInfo>
    var streamingBuffers: map<string, string>
    var persistedAnswer: map<string, string>
    var pendingInteractions: map<string, Event>
    var intermediateBuffers: map<string, string>

    ghost function View(c: string): Shared<ActiveTaskInfo>
      reads this
    {
      Shared(
        if c in activeTasks then Some(activeTasks[c]) else None,
        if c in streamingBuffers then Some(streamingBuffers[c]) else None,
        if c in persistedAnswer then Some(persistedAnswer[c]) else None,
        if c in pendingInteractions then Some(pendingInteractions[c]) else None,
        ThoughtsOf(intermediateBuffers, c))
    }

    /** The other conversations are as they were. */
    twostate predicate OnlyTouches(c: string)
      reads this
    {
      forall d :: IsId(d) && d != c ==> View(d) == old(View(d))
    }

    ghost predicate Running(c: string)
      reads this, activeTasks.Values
    {
      c in activeTasks && !activeTasks[c].done
    }

    /** The conversation's registered turn is over and was started by this socket. */
    ghost predicate Finished(c: string, sid: string)
      reads this, activeTasks.Values
    {
      c in activeTasks && activeTasks[c].originSid == sid && activeTasks[c].done
    }

    constructor ()
      ensures forall c :: View(c) == Shared(None, None, None, None, map[])
    {
      activeTasks, streamingBuffers, persistedAnswer := map[], map[], map[];
      pendingInteractions, intermediateBuffers := map[], map[];
    }

    method AccumulateReplyBuffer(c: string, e: Event) returns (offset: Option<nat>)
      modifies this`streamingBuffers
      ensures OnlyTouches(c)
      ensures View(c) == Accumulate(old(View(c)), e)
      ensures offset == TurnOffset(old(View(c)), e)
      ensures offset.Some? ==> View(c).buffer.Some? && offset.value == |View(c).buffer.value|
    {
      if !e.IsReplyChunk() {
        return None;
      }
      var before := if c in streamingBuffers then streamingBuffers[c] else "";
      streamingBuffers := streamingBuffers[c := before + e.artifact.text];
      offset := Some(|streamingBuffers[c]|);
    }

    /** The part of `_process_a2a_response` between the early emit and the turn-end test. */
    method CaptureEvent(c: string, e: Event)
      requires IsId(c)
      modifies this`pendingInteractions, this`intermediateBuffers
      ensures OnlyTouches(c)
      ensures View(c) == Capture(old(View(c)), e)
    {
      if e.IsPrompt() {
        pendingInteractions := pendingInteractions[c := e];
      }
      if e.IsThought() && e.artifact.text != "" {
        AppendThought(c, e.artifact.agent, e.artifact.text);
      }
    }

    method AppendThought(c: string, agent: string, text: string)
      requires IsId(c)
      modifies this`intermediateBuffers
      ensures ThoughtsOf(intermediateBuffers, c) ==
        ThoughtsOf(old(intermediateBuffers), c)[agent :=
          (if agent in ThoughtsOf(old(intermediateBuffers), c)
           then ThoughtsOf(old(intermediateBuffers), c)[agent] else "") + text]
      ensures forall d :: IsId(d) && d != c ==>
        ThoughtsOf(intermediateBuffers, d) == ThoughtsOf(old(intermediateBuffers), d)
    {
      var key := Key(c, agent);
      var before := if key in intermediateBuffers then intermediateBuffers[key] else "";
      ThoughtsAt(intermediateBuffers, c, agent);
      WriteKey(intermediateBuffers, c, agent, before + text);
      intermediateBuffers := intermediateBuffers[key := before + text];
    }

    /** One pop of `_flush_intermediate_buffers`; None when the key is gone. */
    method PopIntermediate(c: string, agent: string) returns (content: Option<string>)
      requires IsId(c)
      modifies this`intermediateBuffers
      ensures OnlyTouches(c)
      ensures View(c) == PopThought(old(View(c)), agent)
      ensures content == (if agent in old(View(c)).thoughts then Some(old(View(c)).thoughts[agent]) else None)
    {
      var key := Key(c, agent);
      ThoughtsAt(intermediateBuffers, c, agent);
      RemoveKey(intermediateBuffers, c, agent);
      content := if key in intermediateBuffers then Some(intermediateBuffers[key]) else None;
      intermediateBuffers := intermediateBuffers - {key};
    }

    method PopReply(c: string) returns (accumulated: Option<string>)
      modifies this`streamingBuffers
      ensures OnlyTouches(c)
      ensures View(c) == PopBuffer(old(View(c))) && accumulated == old(View(c)).buffer
    {
      accumulated := if c in streamingBuffers then Some(streamingBuffers[c]) else None;
      streamingBuffers := streamingBuffers - {c};
    }

    method StoreAnswer(c: string, text: string)
      modifies this`persistedAnswer
      ensures OnlyTouches(c)
      ensures View(c) == RememberAnswer(old(View(c)), text)
    {
      var stripped := PyStrip(text);
      persistedAnswer := persistedAnswer[c := stripped];
    }

    method ClearSettledPrompt(c: string, e: Event)
      modifies this`pendingInteractions
      ensures OnlyTouches(c)
      ensures View(c) == SettlePrompt(old(View(c)), e)
    {
      if e.EndsTurn() && !e.Says(InputRequired) && !e.Extends(FeedbackRequest) {
        pendingInteractions := pendingInteractions - {c};
      }
    }

    /** The prefix loop of `_clear_turn_state`. */
    method DropThoughts(c: string)
      requires IsId(c)
      modifies this`intermediateBuffers
      ensures ThoughtsOf(intermediateBuffers, c) == map[]
      ensures forall d :: IsId(d) && d != c ==>
        ThoughtsOf(intermediateBuffers, d) == ThoughtsOf(old(intermediateBuffers), d)
    {
      var keys := set k | k in intermediateBuffers && Key(c, "") <= k;
      ghost var all := keys;
      while keys != {}
        invariant keys <= all
        invariant intermediateBuffers == old(intermediateBuffers) - (all - keys)
        decreases keys
      {
        var key :| key in keys;
        keys := keys - {key};
        intermediateBuffers := intermediateBuffers - {key};
      }
      RemovePrefix(old(intermediateBuffers), intermediateBuffers, c);
    }

    /** `_clear_turn_state` */
    method ClearTurnState(c: string, preservePrompt: bool)
      requires IsId(c)
      modifies this`streamingBuffers, this`persistedAnswer, this`pendingInteractions, this`intermediateBuffers
      ensures OnlyTouches(c)
      ensures View(c) == Clear(old(View(c)), preservePrompt)
    {
      streamingBuffers := streamingBuffers - {c};
      persistedAnswer := persistedAnswer - {c};
      if !preservePrompt {
        pendingInteractions := pendingInteractions - {c};
      }
      DropThoughts(c);
    }

    /** Drop the prompt this send answers and register its turn. */
    method Register(c: string, turn: ActiveTaskInfo)
      modifies this`pendingInteractions, this`activeTasks
      ensures OnlyTouches(c)
      ensures View(c) == Begin(old(View(c)), turn)
    {
      pendingInteractions := pendingInteractions - {c};
      activeTasks := activeTasks[c := turn];
      forall d | IsId(d) && d != c ensures View(d) == old(View(d)) {
        assert activeTasks == old(activeTasks)[c := turn];
      }
      assert View(c).active == Some(turn);
      assert View(c).pending == None;
      assert View(c).buffer == old(View(c)).buffer;
    }

    /** The synchronous tail of `handle_send_message` before the turn is awaited: None when
        a running turn makes this send a steering message. */
    method BeginTurn(c: string, sid: string) returns (turn: ActiveTaskInfo?)
      modifies this`pendingInteractions, this`activeTasks
      ensures OnlyTouches(c)
      ensures turn == null <==> old(Running(c))
      ensures turn == null ==> View(c) == old(View(c))
      ensures turn != null ==> fresh(turn) && turn.originSid == sid && !turn.done
      ensures turn != null ==> View(c) == Begin(old(View(c)), turn)
    {
      if c in activeTasks && !activeTasks[c].done {
        return null;
      }
      turn := new ActiveTaskInfo(sid);
      Register(c, turn);
    }

    /** The `finally` of `handle_send_message`. */
    method TeardownTurn(c: string, turn: ActiveTaskInfo, cancelled: bool)
      requires IsId(c)
      modifies this
      ensures OnlyTouches(c)
      ensures View(c) == Teardown(old(View(c)), turn, cancelled)
    {
      if c !in activeTasks || activeTasks[c] == turn {
        activeTasks := activeTasks - {c};
        var pending := c in pendingInteractions && pendingInteractions[c].Says(InputRequired);
        ClearTurnState(c, !cancelled && pending);
      }
    }

    /** `handle_cancel_task` up to its await: the turn to cancel, unregistered. */
    method PopForCancel(c: string) returns (turn: ActiveTaskInfo?)
      modifies this`activeTasks
      ensures OnlyTouches(c)
      ensures View(c) == Unregister(old(View(c)))
      ensures turn == (match old(View(c)).active case Some(t) => t case None => null)
    {
      turn := if c in activeTasks then activeTasks[c] else null;
      activeTasks := activeTasks - {c};
    }

    /** `handle_disconnect` up to its first await: forget the finished turns this socket
        started, keep the running ones. */
    method Disconnect(sid: string) returns (hasRunning: bool)
      modifies this`activeTasks
      ensures forall c :: old(Finished(c, sid)) ==> View(c) == Unregister(old(View(c)))
      ensures forall c :: !old(Finished(c, sid)) ==> View(c) == old(View(c))
      ensures hasRunning <==> exists c ::
        c in old(activeTasks) && old(activeTasks)[c].originSid == sid && !old(activeTasks)[c].done
    {
      hasRunning := false;
      var keys := activeTasks.Keys;
      while keys != {}
        invariant keys <= activeTasks.Keys <= old(activeTasks).Keys
        invariant forall c :: c in activeTasks ==> activeTasks[c] == old(activeTasks)[c]
        invariant forall c :: c in old(activeTasks) && c !in keys ==>
          (c !in activeTasks <==> old(activeTasks)[c].originSid == sid && old(activeTasks)[c].done)
        invariant hasRunning <==> exists c ::
          c in old(activeTasks) && c !in keys && old(activeTasks)[c].originSid == sid && !old(activeTasks)[c].done
        decreases keys
      {
        var key :| key in keys;
        keys := keys - {key};
        if activeTasks[key].originSid == sid {
          if !activeTasks[key].done {
            hasRunning := true;
          } else {
            activeTasks := activeTasks - {key};
          }
        }
      }
    }

    /** `_repeats_persisted_answer` and `_has_active_turn` read the same slots. */
    method RepeatsPersistedAnswer(c: string, e: Event) returns (repeats: bool)
      ensures repeats <==> RepeatsPersisted(View(c), e)
    {
      var stored := if c in persistedAnswer then persistedAnswer[c] else "";
      if stored == "" || PlainStatusText(e).None? {
        return false;
      }
      var echoed := PlainStatusText(e).value;
      repeats := echoed != "" && echoed <= stored;
    }

    /** The snapshot a (re)subscribing client gets. */
    method Snapshot(c: string) returns (inFlight: bool, offset: nat, replyText: string, pendingHitl: Option<Event>)
      ensures inFlight <==> View(c).active.Some? || View(c).buffer.Some? || View(c).pending.Some?
      ensures replyText == View(c).buffer.GetOr("") && offset == |replyText|
      ensures pendingHitl == View(c).pending
    {
      inFlight := c in activeTasks || c in streamingBuffers || c in pendingInteractions;
      replyText := if c in streamingBuffers then streamingBuffers[c] else "";
      offset := |replyText|;
      pendingHitl := if c in pendingInteractions then Some(pendingInteractions[c]) else None;
    }
  }
}
