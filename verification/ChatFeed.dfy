/** The reply feed: which chunks were heard, emitted and delivered, and what every run keeps of
    them. */
module ChatFeed {
  import opened Common
  import opened ChatTurn
  import opened ChatProtocol

  // ---- Segments and emissions ----------------------------------------------------------------

  /** The reply text of one buffer segment. */
  function SegmentText(s: Conv, seg: nat): string {
    if seg < |s.hist.segments| then s.hist.segments[seg].text
    else if seg == |s.hist.segments| then s.shared.buffer.GetOr("")
    else ""
  }

  /** The offset of the last chunk of a segment that went out. */
  function LastEmitted(emitted: seq<Chunk>, seg: nat): nat {
    if emitted == [] then 0
    else if emitted[|emitted| - 1].seg == seg then emitted[|emitted| - 1].off
    else LastEmitted(emitted[..|emitted| - 1], seg)
  }

  predicate Start(k: Chunk, at: nat) { at + |k.text| == k.off }

  /** Each emitted chunk of the segment starts where the one before it ended. */
  ghost predicate Contiguous(emitted: seq<Chunk>, seg: nat) {
    emitted == [] ||
    var init, k := emitted[..|emitted| - 1], emitted[|emitted| - 1];
    Contiguous(init, seg) && (k.seg == seg ==> Start(k, LastEmitted(init, seg)))
  }

  lemma EmittedSnoc(emitted: seq<Chunk>, k: Chunk, seg: nat)
    ensures LastEmitted(emitted + [k], seg) == if k.seg == seg then k.off else LastEmitted(emitted, seg)
    ensures Contiguous(emitted + [k], seg) <==>
      Contiguous(emitted, seg) && (k.seg == seg ==> Start(k, LastEmitted(emitted, seg)))
  {
    assert (emitted + [k])[..|emitted|] == emitted;
  }

  lemma {:induction false} ContiguousPrefix(emitted: seq<Chunk>, n: nat, seg: nat)
    requires n <= |emitted| && Contiguous(emitted, seg)
    ensures Contiguous(emitted[..n], seg)
    decreases |emitted|
  {
    if n < |emitted| {
      ContiguousPrefix(emitted[..|emitted| - 1], n, seg);
      assert emitted[..|emitted| - 1][..n] == emitted[..n];
    } else {
      assert emitted[..n] == emitted;
    }
  }

  // ---- What every run keeps ------------------------------------------------------------------

  /** The chunk is the piece of its segment that ends at its offset. */
  ghost predicate Slice(s: Conv, k: Chunk) {
    && k.seg <= |s.hist.segments| && |k.text| <= k.off <= |SegmentText(s, k.seg)|
    && SegmentText(s, k.seg)[k.off - |k.text|..k.off] == k.text
  }

  /** A snapshot at `off` never cuts a chunk in two. */
  predicate Apart(k: Chunk, off: nat) { k.off <= off || off + |k.text| <= k.off }

  ghost predicate HeardWell(s: Conv) { forall k :: k in s.hist.heard ==> Slice(s, k) }

  /** Only what was heard is emitted or waits to be, by the turn that heard it. */
  ghost predicate FromHeard(s: Conv) {
    && (forall k :: k in s.hist.emitted ==> k in s.hist.heard)
    && (forall t: TurnId :: t < |s.turns| && s.turns[t].pc.Unemitted().Some? ==>
          s.turns[t].pc.Unemitted().value in s.hist.heard && s.turns[t].pc.Unemitted().value.writer == t)
  }

  /** The chunks emitted before the first `n` deliveries to a subscriber, and those. */
  function SentBefore(s: Conv, sub: Sub, n: nat): seq<Chunk>
    requires n <= |sub.inbox| <= |s.hist.emitted|
  {
    s.hist.emitted[..|s.hist.emitted| - |sub.inbox| + n]
  }

  /** A subscriber got everything emitted since it joined, and its snapshot is a prefix that
      covers all emitted before. */
  ghost predicate SubOk(s: Conv, sub: Sub) {
    && |sub.inbox| <= |s.hist.emitted| && sub.inbox == s.hist.emitted[|s.hist.emitted| - |sub.inbox|..]
    && (sub.snap.Some? ==> SnapOk(s, sub, sub.snap.value))
  }

  ghost predicate SnapOk(s: Conv, sub: Sub, sn: Snap)
    requires |sub.inbox| <= |s.hist.emitted|
  {
    && sn.seg <= |s.hist.segments| && sn.at <= |sub.inbox|
    && sn.off == |sn.text| && sn.text <= SegmentText(s, sn.seg)
    && (forall k :: k in s.hist.heard && k.seg == sn.seg ==> Apart(k, sn.off))
    && (forall k :: k in SentBefore(s, sub, sn.at) && k.seg == sn.seg ==> k.off <= sn.off)
  }

  ghost predicate SubsOk(s: Conv) { forall sid :: sid in s.room ==> SubOk(s, s.room[sid]) }

  ghost predicate Good(s: Conv) { HeardWell(s) && FromHeard(s) && SubsOk(s) }

  // ---- Steps that only move on ----------------------------------------------------------------

  ghost predicate SameTexts(s: Conv, s': Conv) {
    |s.hist.segments| <= |s'.hist.segments| && forall seg: nat :: SegmentText(s', seg) == SegmentText(s, seg)
  }

  /** No turn comes to hold a chunk it did not hold before. */
  ghost predicate NoNewChunk(s: Conv, s': Conv) {
    forall t: TurnId :: t < |s'.turns| && s'.turns[t].pc.Unemitted().Some? ==>
      t < |s.turns| && s.turns[t].pc.Unemitted() == s'.turns[t].pc.Unemitted()
  }

  lemma QuietGood(s: Conv, s': Conv)
    requires Good(s) && SameTexts(s, s') && NoNewChunk(s, s')
    requires s'.hist.heard == s.hist.heard && s'.hist.emitted == s.hist.emitted && s'.room == s.room
    ensures Good(s')
  {
    forall k | k in s'.hist.heard ensures Slice(s', k) { assert Slice(s, k); }
    forall sid | sid in s'.room ensures SubOk(s', s'.room[sid]) { assert SubOk(s, s.room[sid]); }
  }

  // ---- The four steps that matter -----------------------------------------------------------------

  ghost predicate Grows(s: Conv, s': Conv) {
    && |s'.hist.segments| == |s.hist.segments|
    && forall seg: nat :: SegmentText(s, seg) <= SegmentText(s', seg)
  }

  lemma HearGrows(s: Conv, t: TurnId, e: Event, s': Conv)
    requires t < |s.turns| && s' == ReceiveStep(s, t, e)
    ensures Grows(s, s')
  {
  }

  lemma SliceGrows(s: Conv, s': Conv, k: Chunk)
    requires Slice(s, k) && Grows(s, s')
    ensures Slice(s', k)
  {
    var old_text, text := SegmentText(s, k.seg), SegmentText(s', k.seg);
    assert text[..|old_text|] == old_text;
    assert text[k.off - |k.text|..k.off] == old_text[k.off - |k.text|..k.off];
  }

  lemma SubGrows(s: Conv, s': Conv, sub: Sub, k: Chunk)
    requires SubOk(s, sub) && Grows(s, s')
    requires s'.hist.emitted == s.hist.emitted && s'.hist.heard == s.hist.heard + [k]
    requires |SegmentText(s, k.seg)| + |k.text| == k.off
    ensures SubOk(s', sub)
  {
    if sub.snap.Some? {
      var sn := sub.snap.value;
      assert sn.text <= SegmentText(s, sn.seg) <= SegmentText(s', sn.seg);
    }
  }

  /** A reply chunk heard is the next piece of the open segment. */
  lemma HearsNext(s: Conv, t: TurnId, e: Event, s': Conv, k: Chunk)
    requires t < |s.turns| && e.IsReplyChunk() && s' == ReceiveStep(s, t, e)
    requires k == Chunk(|s.hist.segments|, |s.shared.buffer.GetOr("")| + |e.artifact.text|, e.artifact.text, t)
    ensures Grows(s, s') && s'.room == s.room && s'.hist.emitted == s.hist.emitted
    ensures s'.hist.heard == s.hist.heard + [k] && |SegmentText(s, k.seg)| + |k.text| == k.off
    ensures s'.turns == s.turns[t := s'.turns[t]] && s'.turns[t].pc.Unemitted() == Some(k) && Slice(s', k)
  {
    HearGrows(s, t, e, s');
    assert SegmentText(s', k.seg) == SegmentText(s, k.seg) + k.text;
  }

  lemma HearGood(s: Conv, t: TurnId, e: Event, s': Conv)
    requires Good(s) && t < |s.turns| && s.turns[t].pc.Streaming? && s' == ReceiveStep(s, t, e)
    ensures Good(s')
  {
    if e.IsReplyChunk() {
      var k := Chunk(|s.hist.segments|, |s.shared.buffer.GetOr("")| + |e.artifact.text|, e.artifact.text, t);
      HearsNext(s, t, e, s', k);
      OneMoreHeard(s, s', t, k);
    } else {
      QuietGood(s, s');
    }
  }

  lemma OneMoreHeard(s: Conv, s': Conv, t: TurnId, k: Chunk)
    requires Good(s) && Grows(s, s') && s'.room == s.room && s'.hist.emitted == s.hist.emitted
    requires s'.hist.heard == s.hist.heard + [k] && |SegmentText(s, k.seg)| + |k.text| == k.off && k.writer == t
    requires t < |s.turns| == |s'.turns| && s'.turns == s.turns[t := s'.turns[t]]
    requires s'.turns[t].pc.Unemitted() == Some(k) && Slice(s', k)
    ensures Good(s')
  {
    forall j | j in s'.hist.heard ensures Slice(s', j) {
      if j in s.hist.heard { SliceGrows(s, s', j); } else { assert j == k; }
    }
    forall sid | sid in s'.room ensures SubOk(s', s'.room[sid]) { SubGrows(s, s', s.room[sid], k); }
  }

  ghost predicate Emits(s: Conv, t: TurnId, k: Chunk) {
    && t < |s.turns| && s.turns[t].pc.Unemitted() == Some(k)
    && ((s.turns[t].pc.Received? && s.turns[t].pc.e.IsStreamingChunk()) ||
        (s.turns[t].pc.Tail? && !s.turns[t].pc.e.IsStreamingChunk()))
  }

  lemma EmitSub(s: Conv, s': Conv, sub: Sub, k: Chunk)
    requires SubOk(s, sub) && SameTexts(s, s') && s'.hist.heard == s.hist.heard
    requires s'.hist.emitted == s.hist.emitted + [k]
    ensures SubOk(s', sub.(inbox := sub.inbox + [k]))
  {
    var sub' := sub.(inbox := sub.inbox + [k]);
    var p := |s.hist.emitted| - |sub.inbox|;
    assert s'.hist.emitted[p..] == s.hist.emitted[p..] + [k];
    if sub.snap.Some? {
      var sn := sub.snap.value;
      assert SentBefore(s', sub', sn.at) == SentBefore(s, sub, sn.at);
    }
  }

  lemma EmitGood(s: Conv, t: TurnId, pick: string, k: Chunk, s': Conv)
    requires Good(s) && Emits(s, t, k) && s' == AdvanceStep(s, t, pick)
    ensures Good(s') && SameTexts(s, s') && s'.hist.heard == s.hist.heard && s'.hist.emitted == s.hist.emitted + [k]
    ensures s'.turns == s.turns[t := s'.turns[t]] && s'.turns[t].pc.Running() && s'.turns[t].pc.Unemitted().None?
  {
    EmitShape(s, t, pick, k, s');
    forall j | j in s'.hist.heard ensures Slice(s', j) { assert Slice(s, j); }
    forall sid | sid in s'.room ensures SubOk(s', s'.room[sid]) { EmitSub(s, s', s.room[sid], k); }
  }

  lemma EmitShape(s: Conv, t: TurnId, pick: string, k: Chunk, s': Conv)
    requires Emits(s, t, k) && s' == AdvanceStep(s, t, pick)
    ensures SameTexts(s, s') && s'.hist.heard == s.hist.heard && s'.hist.emitted == s.hist.emitted + [k]
    ensures s'.turns == s.turns[t := s'.turns[t]] && s'.turns[t].pc.Running() && s'.turns[t].pc.Unemitted().None?
    ensures s'.room == map sid | sid in s.room :: s.room[sid].(inbox := s.room[sid].inbox + [k])
  {
  }

  /** The buffer, if there is one, is closed. */
  ghost predicate Pops(s: Conv, s': Conv) {
    && s'.shared.buffer.None?
    && if s.shared.buffer.None? then s'.hist.segments == s.hist.segments
       else exists segment: Segment ::
         segment.text == s.shared.buffer.value && s'.hist.segments == s.hist.segments + [segment]
  }

  /** A buffer popped closes its segment and opens an empty one. */
  lemma CloseTexts(s: Conv, s': Conv)
    requires Pops(s, s') || (s'.hist.segments == s.hist.segments && s'.shared.buffer == s.shared.buffer)
    ensures SameTexts(s, s')
  {
  }

  /** The turn's own progress, when it emits nothing: the chunk in hand stays in hand. */
  ghost predicate Held(s: Conv, t: TurnId, s': Conv)
    requires t < |s.turns|
  {
    && SameTexts(s, s') && s'.hist.heard == s.hist.heard && s'.hist.emitted == s.hist.emitted && s'.room == s.room
    && |s'.turns| == |s.turns| && s'.turns == s.turns[t := s'.turns[t]]
    && s'.turns[t].pc.Unemitted() == s.turns[t].pc.Unemitted() && (s'.turns[t].pc.Running() <==> s.turns[t].pc.Running())
  }

  lemma CaptureHeld(s: Conv, t: TurnId, s': Conv)
    requires t < |s.turns| && s.turns[t].pc.Persisting? && s' == CaptureStep(s, t)
    ensures Held(s, t, s')
  {
    CloseTexts(s, s');
  }

  lemma PopAnswerHeld(s: Conv, t: TurnId, s': Conv)
    requires t < |s.turns| && s.turns[t].pc.Flushing? && s' == PopAnswerStep(s, t)
    ensures Held(s, t, s')
  {
    CloseTexts(s, s');
  }

  lemma FlushHeld(s: Conv, t: TurnId, pick: string, s': Conv)
    requires t < |s.turns| && s.turns[t].pc.Flushing? && s' == FlushStep(s, t, pick)
    ensures Held(s, t, s')
  {
    if s.turns[t].pc.keys == {} { PopAnswerHeld(s, t, s'); } else { CloseTexts(s, s'); }
  }

  lemma StoreHeld(s: Conv, t: TurnId, s': Conv)
    requires t < |s.turns| && s.turns[t].pc.AnswerWait? && s' == AnswerStoredStep(s, t)
    ensures Held(s, t, s')
  {
    CloseTexts(s, s');
  }

  lemma SaveHeld(s: Conv, t: TurnId, s': Conv)
    requires t < |s.turns| && s.turns[t].pc.Saving? && s' == SaveStep(s, t)
    ensures Held(s, t, s')
  {
    CloseTexts(s, s');
  }

  lemma OtherHeld(s: Conv, t: TurnId, pick: string, s': Conv)
    requires t < |s.turns| && s' == AdvanceStep(s, t, pick)
    requires var pc := s.turns[t].pc; !pc.Persisting? && !pc.Flushing? && !pc.AnswerWait? && !pc.Saving?
    requires forall k :: !Emits(s, t, k)
    ensures Held(s, t, s')
  {
    var pc := s.turns[t].pc;
    if pc.Unemitted().Some? { assert !Emits(s, t, pc.Unemitted().value); }
    CloseTexts(s, s');
  }

  lemma AdvanceHeld(s: Conv, t: TurnId, pick: string, s': Conv)
    requires t < |s.turns| && s' == AdvanceStep(s, t, pick) && forall k :: !Emits(s, t, k)
    ensures Held(s, t, s')
  {
    var pc := s.turns[t].pc;
    if pc.Persisting? { assert s' == CaptureStep(s, t); CaptureHeld(s, t, s'); }
    else if pc.Flushing? { assert s' == FlushStep(s, t, pick); FlushHeld(s, t, pick, s'); }
    else if pc.AnswerWait? { assert s' == AnswerStoredStep(s, t); StoreHeld(s, t, s'); }
    else if pc.Saving? { assert s' == SaveStep(s, t); SaveHeld(s, t, s'); }
    else { OtherHeld(s, t, pick, s'); }
  }

  lemma AdvanceGood(s: Conv, t: TurnId, pick: string, s': Conv)
    requires Good(s) && t < |s.turns| && s' == AdvanceStep(s, t, pick)
    ensures Good(s')
  {
    if k :| Emits(s, t, k) {
      EmitGood(s, t, pick, k, s');
    } else {
      AdvanceHeld(s, t, pick, s');
      QuietGood(s, s');
    }
  }

  lemma ReadGood(s: Conv, sid: string, s': Conv)
    requires Good(s) && sid in s.room && s' == ReadStep(s, sid)
    ensures Good(s')
  {
    CloseTexts(s, s');
    forall k | k in s'.hist.heard ensures Slice(s', k) { assert Slice(s, k); }
    forall other | other in s'.room ensures SubOk(s', s'.room[other]) {
      assert SubOk(s, s.room[other]);
      if other == sid {
        var sub := s'.room[sid];
        forall k | k in SentBefore(s', sub, sub.snap.value.at) ensures k in s.hist.heard { }
      }
    }
  }

  lemma RoomGood(s: Conv, s': Conv)
    requires Good(s) && s' == s.(room := s'.room)
    requires forall sid :: sid in s'.room ==> s'.room[sid] == Sub(None, []) || (sid in s.room && s'.room[sid] == s.room[sid])
    ensures Good(s')
  {
    CloseTexts(s, s');
    forall k | k in s'.hist.heard ensures Slice(s', k) { assert Slice(s, k); }
    forall sid | sid in s'.room ensures SubOk(s', s'.room[sid]) {
      if sid in s.room { assert SubOk(s, s.room[sid]); }
    }
  }

  lemma TearDownTexts(s: Conv, t: TurnId, s': Conv)
    requires t < |s.turns| && s.turns[t].pc.Done? && s' == TearDownStep(s, t)
    ensures SameTexts(s, s')
  {
    CloseTexts(s, s');
  }

  lemma StepGood(s: Conv, l: Label, s': Conv)
    requires Good(s) && s' == Step(s, l)
    ensures Good(s')
  {
    match l
    case Receive(t, e) => if t < |s.turns| && s.turns[t].pc.Streaming? { HearGood(s, t, e, s'); }
    case Advance(t, pick) => if t < |s.turns| { AdvanceGood(s, t, pick, s'); }
    case ReadSnapshot(sid) => if sid in s.room { ReadGood(s, sid, s'); }
    case Join(_) => RoomGood(s, s');
    case Leave(_) => RoomGood(s, s');
    case _ => OtherQuiet(s, l, s'); QuietGood(s, s');
  }

  /** The steps of a turn's life that are not its own progress. */
  predicate LifeLabel(l: Label) {
    l.Send? || l.DbFail? || l.Finish? || l.TearDown? || l.CancelPop? || l.CancelFire? || l.Disconnect?
  }

  lemma OtherQuiet(s: Conv, l: Label, s': Conv)
    requires s' == Step(s, l) && LifeLabel(l)
    ensures SameTexts(s, s') && NoNewChunk(s, s')
    ensures s'.hist.heard == s.hist.heard && s'.hist.emitted == s.hist.emitted && s'.room == s.room
  {
    if l.TearDown? && l.t < |s.turns| && s.turns[l.t].pc.Done? {
      TearDownTexts(s, l.t, s');
    } else {
      CloseTexts(s, s');
    }
  }

  lemma {:induction false} RunGood(ls: seq<Label>)
    ensures Good(Exec(ls))
  {
    if ls == [] {
      assert Exec(ls) == Init();
    } else {
      RunGood(ls[..|ls| - 1]);
      StepGood(Exec(ls[..|ls| - 1]), ls[|ls| - 1], Exec(ls));
    }
  }
}
