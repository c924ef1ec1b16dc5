/** Resuming a reply mid-stream: a client takes a snapshot and appends the live chunks whose
    `turnOffset` the snapshot does not cover.  In every run it then holds an exact prefix of
    the reply whenever the chunks of that reply were emitted one after the other; a client
    present from the start holds it only then; and a reply written by one turn always is. */
module ChatResume {
  import opened Common
  import opened ChatTurn
  import opened ChatProtocol
  import opened ChatOwnership
  import opened ChatFeed

  // ---- The client's rule ------------------------------------------------------------------

  /** The texts of the delivered chunks with an offset above `off`, in order. */
  function Uncovered(inbox: seq<Chunk>, off: nat): string {
    if inbox == [] then ""
    else
      var k := inbox[|inbox| - 1];
      Uncovered(inbox[..|inbox| - 1], off) + (if k.off > off then k.text else "")
  }

  /** What the client shows. */
  function ClientText(snap: Snap, inbox: seq<Chunk>): string { snap.text + Uncovered(inbox, snap.off) }

  /** The chunks of one segment. */
  function Of(inbox: seq<Chunk>, seg: nat): seq<Chunk> {
    if inbox == [] then []
    else
      var k := inbox[|inbox| - 1];
      Of(inbox[..|inbox| - 1], seg) + (if k.seg == seg then [k] else [])
  }

  /** What the widget shows: it also moves its offset on with every chunk it takes. */
  function WidgetText(snap: Snap, inbox: seq<Chunk>): (string, nat) { WidgetFrom(snap.text, snap.off, inbox) }

  function WidgetFrom(text: string, applied: nat, inbox: seq<Chunk>): (string, nat) {
    if inbox == [] then (text, applied)
    else
      var (shown, off) := WidgetFrom(text, applied, inbox[..|inbox| - 1]);
      var k := inbox[|inbox| - 1];
      if k.off <= off then (shown, off) else (shown + k.text, k.off)
  }

  function Max(a: nat, b: nat): nat { if a < b then b else a }

  lemma UncoveredSnoc(inbox: seq<Chunk>, k: Chunk, off: nat)
    ensures Uncovered(inbox + [k], off) == Uncovered(inbox, off) + (if k.off > off then k.text else "")
  {
    assert (inbox + [k])[..|inbox|] == inbox;
  }

  lemma OfSnoc(inbox: seq<Chunk>, k: Chunk, seg: nat)
    ensures Of(inbox + [k], seg) == Of(inbox, seg) + (if k.seg == seg then [k] else [])
  {
    assert (inbox + [k])[..|inbox|] == inbox;
  }

  // ---- Exact while emissions are contiguous -------------------------------------------------------

  /** The first `n` chunks delivered to a subscriber that belong to its snapshot's segment. */
  function Delivered(sub: Sub, n: nat): seq<Chunk>
    requires sub.snap.Some? && n <= |sub.inbox|
  {
    Of(sub.inbox[..n], sub.snap.value.seg)
  }

  /** After `n` deliveries the client shows the reply up to the later of its snapshot and the last
      chunk emitted. */
  ghost predicate ExactAfter(s: Conv, sub: Sub, n: nat)
    requires sub.snap.Some? && n <= |sub.inbox| <= |s.hist.emitted|
  {
    var sn := sub.snap.value;
    var text, m := SegmentText(s, sn.seg), Max(sn.off, LastEmitted(SentBefore(s, sub, n), sn.seg));
    m <= |text| && ClientText(sn, Delivered(sub, n)) == text[..m]
  }

  /** Chunks the snapshot covers add nothing. */
  lemma {:induction false} CoveredAddNothing(inbox: seq<Chunk>, seg: nat, off: nat)
    requires forall k :: k in inbox && k.seg == seg ==> k.off <= off
    ensures Uncovered(Of(inbox, seg), off) == ""
  {
    if inbox != [] {
      var init, k := inbox[..|inbox| - 1], inbox[|inbox| - 1];
      assert k in inbox && forall j :: j in init ==> j in inbox;
      CoveredAddNothing(init, seg, off);
      if k.seg == seg { UncoveredSnoc(Of(init, seg), k, off); } else { assert Of(inbox, seg) == Of(init, seg); }
    }
  }

  lemma {:induction false} LastIsCovered(emitted: seq<Chunk>, seg: nat, off: nat)
    requires forall k :: k in emitted && k.seg == seg ==> k.off <= off
    ensures LastEmitted(emitted, seg) <= off
  {
    if emitted != [] {
      assert emitted[|emitted| - 1] in emitted;
      LastIsCovered(emitted[..|emitted| - 1], seg, off);
    }
  }

  /** The chunk at hand is either covered or the next piece after what the client shows. */
  lemma NextPiece(sn: Snap, mine: seq<Chunk>, k: Chunk, t: string, le: nat)
    requires |k.text| <= k.off <= |t| && t[k.off - |k.text|..k.off] == k.text
    requires sn.off <= |t| && Apart(k, sn.off) && Start(k, le)
    requires ClientText(sn, mine) == t[..Max(sn.off, le)]
    ensures ClientText(sn, mine + [k]) == t[..Max(sn.off, k.off)]
  {
    UncoveredSnoc(mine, k, sn.off);
    if k.off > sn.off {
      assert ClientText(sn, mine + [k]) == ClientText(sn, mine) + k.text;
      assert t[..le] + t[le..k.off] == t[..k.off];
    }
  }

  /** The `n`-th delivery, seen from both ends. */
  lemma OneMoreDelivery(s: Conv, sub: Sub, n: nat)
    requires SubOk(s, sub) && sub.snap.Some? && n < |sub.inbox|
    ensures SentBefore(s, sub, n + 1) == SentBefore(s, sub, n) + [sub.inbox[n]]
    ensures Delivered(sub, n + 1) == Delivered(sub, n) + (if sub.inbox[n].seg == sub.snap.value.seg then [sub.inbox[n]] else [])
    ensures sub.inbox[n] in s.hist.emitted
  {
    var p := |s.hist.emitted| - |sub.inbox|;
    assert s.hist.emitted[p + n] == sub.inbox[n];
    assert sub.inbox[..n + 1] == sub.inbox[..n] + [sub.inbox[n]];
    OfSnoc(sub.inbox[..n], sub.inbox[n], sub.snap.value.seg);
  }

  lemma ExactAtSnapshot(s: Conv, sub: Sub)
    requires Good(s) && SubOk(s, sub) && sub.snap.Some?
    ensures ExactAfter(s, sub, sub.snap.value.at)
  {
    var sn := sub.snap.value;
    var sent := SentBefore(s, sub, sn.at);
    LastIsCovered(sent, sn.seg, sn.off);
    var p := |s.hist.emitted| - |sub.inbox|;
    forall k | k in sub.inbox[..sn.at] ensures k in sent {
      var i :| 0 <= i < sn.at && sub.inbox[i] == k;
      assert sent[p + i] == k;
    }
    CoveredAddNothing(sub.inbox[..sn.at], sn.seg, sn.off);
    assert sn.text + "" == sn.text;
  }

  lemma ExactOneMore(s: Conv, sub: Sub, n: nat)
    requires Good(s) && SubOk(s, sub) && sub.snap.Some? && n < |sub.inbox| && ExactAfter(s, sub, n)
    requires var k := sub.inbox[n];
      k.seg == sub.snap.value.seg ==> Start(k, LastEmitted(SentBefore(s, sub, n), k.seg))
    ensures ExactAfter(s, sub, n + 1)
  {
    var sn, k := sub.snap.value, sub.inbox[n];
    OneMoreDelivery(s, sub, n);
    EmittedSnoc(SentBefore(s, sub, n), k, sn.seg);
    if k.seg == sn.seg {
      assert Slice(s, k);
      NextPiece(sn, Delivered(sub, n), k, SegmentText(s, sn.seg), LastEmitted(SentBefore(s, sub, n), sn.seg));
    } else {
      assert Delivered(sub, n + 1) == Delivered(sub, n);
    }
  }

  lemma {:induction false} ExactWhileContiguous(s: Conv, sub: Sub, n: nat)
    requires Good(s) && SubOk(s, sub) && sub.snap.Some? && sub.snap.value.at <= n <= |sub.inbox|
    requires Contiguous(SentBefore(s, sub, n), sub.snap.value.seg)
    ensures ExactAfter(s, sub, n)
    decreases n
  {
    if n == sub.snap.value.at {
      ExactAtSnapshot(s, sub);
    } else {
      OneMoreDelivery(s, sub, n - 1);
      EmittedSnoc(SentBefore(s, sub, n - 1), sub.inbox[n - 1], sub.snap.value.seg);
      ExactWhileContiguous(s, sub, n - 1);
      ExactOneMore(s, sub, n - 1);
    }
  }

  /** Resume is exact.  In every run, for every client and whatever segments it has seen: if the
      chunks of the snapshot's segment were emitted one after the other, the client shows
      exactly the prefix of that segment's reply up to the later of the snapshot's offset and the
      last chunk emitted: no gap, no repeat.  Chunks delivered before the snapshot was read are
      covered by it in any case. */
  lemma {:induction false} ResumeIsExact(ls: seq<Label>, sid: string)
    requires sid in Exec(ls).room && Exec(ls).room[sid].snap.Some?
    ensures var s, sub := Exec(ls), Exec(ls).room[sid];
      var sn := sub.snap.value;
      var text, m := SegmentText(s, sn.seg), Max(sn.off, LastEmitted(s.hist.emitted, sn.seg));
      && (Contiguous(s.hist.emitted, sn.seg) ==> m <= |text| && ClientText(sn, Of(sub.inbox, sn.seg)) == text[..m])
      && forall i :: 0 <= i < sn.at && i < |sub.inbox| && sub.inbox[i].seg == sn.seg ==> sub.inbox[i].off <= sn.off
  {
    RunGood(ls);
    var s, sub := Exec(ls), Exec(ls).room[sid];
    var sn := sub.snap.value;
    assert SubOk(s, sub);
    assert SentBefore(s, sub, |sub.inbox|) == s.hist.emitted && sub.inbox[..|sub.inbox|] == sub.inbox;
    if Contiguous(s.hist.emitted, sn.seg) { ExactWhileContiguous(s, sub, |sub.inbox|); }
    forall i | 0 <= i < sn.at && sub.inbox[i].seg == sn.seg ensures sub.inbox[i].off <= sn.off {
      var p := |s.hist.emitted| - |sub.inbox|;
      assert SentBefore(s, sub, sn.at)[p + i] == sub.inbox[i];
    }
  }

  // ---- And only then -----------------------------------------------------------------------------

  /** Nothing with text went out before an empty snapshot. */
  lemma {:induction false} EmptyIsContiguous(emitted: seq<Chunk>, seg: nat)
    requires forall k :: k in emitted && k.seg == seg ==> |k.text| <= k.off == 0
    ensures Contiguous(emitted, seg) && LastEmitted(emitted, seg) == 0
  {
    if emitted != [] {
      assert emitted[|emitted| - 1] in emitted;
      EmptyIsContiguous(emitted[..|emitted| - 1], seg);
    }
  }

  lemma LengthsTell(sn: Snap, mine: seq<Chunk>, k: Chunk, t: string, le: nat)
    requires sn.off == 0 && le <= |t| && |k.text| <= k.off <= |t|
    requires ClientText(sn, mine) == t[..le] && ClientText(sn, mine + [k]) == t[..k.off]
    ensures Start(k, le)
  {
    UncoveredSnoc(mine, k, 0);
    assert |ClientText(sn, mine + [k])| == |ClientText(sn, mine)| + (if k.off > 0 then |k.text| else 0);
  }

  lemma EmptyAtSnapshot(s: Conv, sub: Sub)
    requires Good(s) && SubOk(s, sub) && sub.snap.Some? && sub.snap.value.off == 0
    ensures Contiguous(SentBefore(s, sub, sub.snap.value.at), sub.snap.value.seg)
  {
    var sn := sub.snap.value;
    forall k | k in SentBefore(s, sub, sn.at) && k.seg == sn.seg ensures |k.text| <= k.off == 0 {
      assert Slice(s, k);
    }
    EmptyIsContiguous(SentBefore(s, sub, sn.at), sn.seg);
  }

  lemma ContiguousOneMore(s: Conv, sub: Sub, n: nat)
    requires Good(s) && SubOk(s, sub) && sub.snap.Some? && sub.snap.value.off == 0 && n < |sub.inbox|
    requires Contiguous(SentBefore(s, sub, n), sub.snap.value.seg)
    requires ExactAfter(s, sub, n) && ExactAfter(s, sub, n + 1)
    ensures Contiguous(SentBefore(s, sub, n + 1), sub.snap.value.seg)
  {
    var sn, k, before := sub.snap.value, sub.inbox[n], SentBefore(s, sub, n);
    OneMoreDelivery(s, sub, n);
    EmittedSnoc(before, k, sn.seg);
    if k.seg == sn.seg {
      assert Slice(s, k);
      LengthsTell(sn, Delivered(sub, n), k, SegmentText(s, sn.seg), LastEmitted(before, sn.seg));
    }
  }

  lemma {:induction false} ContiguousWhileExact(s: Conv, sub: Sub, n: nat)
    requires Good(s) && SubOk(s, sub) && sub.snap.Some? && sub.snap.value.off == 0
    requires sub.snap.value.at <= n <= |sub.inbox| && AlwaysExact(s, sub)
    ensures Contiguous(SentBefore(s, sub, n), sub.snap.value.seg)
    decreases n
  {
    if n == sub.snap.value.at {
      EmptyAtSnapshot(s, sub);
    } else {
      ContiguousWhileExact(s, sub, n - 1);
      assert ExactAfter(s, sub, n - 1) && ExactAfter(s, sub, n);
      ContiguousOneMore(s, sub, n - 1);
    }
  }

  /** The client shows the right prefix after every delivery since its snapshot. */
  ghost predicate AlwaysExact(s: Conv, sub: Sub)
    requires sub.snap.Some? && |sub.inbox| <= |s.hist.emitted|
  {
    forall n: nat :: sub.snap.value.at <= n <= |sub.inbox| ==> ExactAfter(s, sub, n)
  }

  lemma AlwaysWhileContiguous(s: Conv, sub: Sub)
    requires Good(s) && SubOk(s, sub) && sub.snap.Some? && Contiguous(s.hist.emitted, sub.snap.value.seg)
    ensures AlwaysExact(s, sub)
  {
    forall n: nat | sub.snap.value.at <= n <= |sub.inbox| ensures ExactAfter(s, sub, n) {
      ContiguousPrefix(s.hist.emitted, |s.hist.emitted| - |sub.inbox| + n, sub.snap.value.seg);
      ExactWhileContiguous(s, sub, n);
    }
  }

  lemma ContiguousIfAlways(s: Conv, sub: Sub)
    requires Good(s) && SubOk(s, sub) && sub.snap.Some? && sub.snap.value.off == 0 && AlwaysExact(s, sub)
    ensures Contiguous(s.hist.emitted, sub.snap.value.seg)
  {
    ContiguousWhileExact(s, sub, |sub.inbox|);
    assert SentBefore(s, sub, |sub.inbox|) == s.hist.emitted;
  }

  /** For a client present since offset 0 the condition is exact: it shows the right prefix after
      every delivery if and only if the chunks were emitted one after the other. */
  lemma {:induction false} ExactMeansContiguous(ls: seq<Label>, sid: string)
    requires sid in Exec(ls).room && Exec(ls).room[sid].snap.Some? && Exec(ls).room[sid].snap.value.off == 0
    ensures var s, sub := Exec(ls), Exec(ls).room[sid];
      |sub.inbox| <= |s.hist.emitted| && (AlwaysExact(s, sub) <==> Contiguous(s.hist.emitted, sub.snap.value.seg))
  {
    RunGood(ls);
    var s, sub := Exec(ls), Exec(ls).room[sid];
    assert SubOk(s, sub);
    if Contiguous(s.hist.emitted, sub.snap.value.seg) { AlwaysWhileContiguous(s, sub); }
    if AlwaysExact(s, sub) { ContiguousIfAlways(s, sub); }
  }

  // ---- A reply written by one turn -----------------------------------------------------------------

  /** Nobody but turn `t` wrote to the segment. */
  ghost predicate OnlyWriter(s: Conv, seg: nat, t: TurnId) {
    forall k :: k in s.hist.heard && k.seg == seg ==> k.writer == t
  }

  /** The writer's emissions are contiguous; while it runs it has emitted everything, but for the
      chunk in hand, which is the next piece. */
  ghost predicate InStep(s: Conv, seg: nat, t: TurnId) {
    && Contiguous(s.hist.emitted, seg)
    && (t >= |s.turns| || s.turns[t].pc.Running() ==> UpToDate(s, seg, t))
  }

  ghost predicate UpToDate(s: Conv, seg: nat, t: TurnId) {
    var pending := if t < |s.turns| then s.turns[t].pc.Unemitted() else None;
    if pending.Some? && pending.value.seg == seg
    then Start(pending.value, LastEmitted(s.hist.emitted, seg)) && pending.value.off == |SegmentText(s, seg)|
    else LastEmitted(s.hist.emitted, seg) == |SegmentText(s, seg)|
  }

  lemma HearInStep(s: Conv, u: TurnId, e: Event, s': Conv, seg: nat, t: TurnId)
    requires Good(s) && u < |s.turns| && s.turns[u].pc.Streaming? && s' == ReceiveStep(s, u, e)
    requires OnlyWriter(s, seg, t) && OnlyWriter(s', seg, t) && InStep(s, seg, t)
    ensures InStep(s', seg, t)
  {
    if e.IsReplyChunk() {
      var k := s'.turns[u].pc.chunk.value;
      assert k in s'.hist.heard;
    }
  }

  lemma EmitInStep(s: Conv, u: TurnId, pick: string, k: Chunk, s': Conv, seg: nat, t: TurnId)
    requires Good(s) && Emits(s, u, k) && s' == AdvanceStep(s, u, pick)
    requires OnlyWriter(s, seg, t) && InStep(s, seg, t)
    ensures InStep(s', seg, t)
  {
    EmitShape(s, u, pick, k, s');
    EmittedSnoc(s.hist.emitted, k, seg);
    assert k in s.hist.heard && k.writer == u;
  }

  lemma HeldInStep(s: Conv, u: TurnId, s': Conv, seg: nat, t: TurnId)
    requires u < |s.turns| && Held(s, u, s') && InStep(s, seg, t)
    ensures InStep(s', seg, t)
  {
  }

  lemma LifeInStep(s: Conv, l: Label, s': Conv, seg: nat, t: TurnId)
    requires s' == Step(s, l) && LifeLabel(l) && InStep(s, seg, t)
    ensures InStep(s', seg, t)
  {
    OtherQuiet(s, l, s');
    LifeKeepsChunks(s, l, s', t);
  }

  /** A turn that goes on running keeps the chunk in hand. */
  lemma LifeKeepsChunks(s: Conv, l: Label, s': Conv, t: TurnId)
    requires s' == Step(s, l) && LifeLabel(l)
    ensures t < |s.turns| ==> t < |s'.turns|
    ensures t < |s.turns| && s'.turns[t].pc.Running() ==>
      s.turns[t].pc.Running() && s'.turns[t].pc.Unemitted() == s.turns[t].pc.Unemitted()
    ensures |s.turns| <= t < |s'.turns| ==> s'.turns[t].pc == Streaming
  {
  }

  lemma StepInStep(s: Conv, l: Label, s': Conv, seg: nat, t: TurnId)
    requires Good(s) && s' == Step(s, l) && OnlyWriter(s, seg, t) && OnlyWriter(s', seg, t) && InStep(s, seg, t)
    ensures InStep(s', seg, t)
  {
    if l.Receive? {
      if l.t < |s.turns| && s.turns[l.t].pc.Streaming? { HearInStep(s, l.t, l.e, s', seg, t); }
    } else if l.Advance? {
      if l.t < |s.turns| {
        if k :| Emits(s, l.t, k) {
          EmitInStep(s, l.t, l.pick, k, s', seg, t);
        } else {
          AdvanceHeld(s, l.t, l.pick, s');
          HeldInStep(s, l.t, s', seg, t);
        }
      }
    } else if LifeLabel(l) {
      LifeInStep(s, l, s', seg, t);
    } else {
      RoomKeeps(s, l, s', seg);
    }
  }

  lemma RoomKeeps(s: Conv, l: Label, s': Conv, seg: nat)
    requires s' == Step(s, l) && (l.Join? || l.ReadSnapshot? || l.Leave?)
    ensures s' == s.(room := s'.room) && SegmentText(s', seg) == SegmentText(s, seg)
  {
  }

  lemma HeardGrows(s: Conv, l: Label, s': Conv)
    requires s' == Step(s, l)
    ensures s.hist.heard <= s'.hist.heard
  {
    if l.Advance? && l.t < |s.turns| {
      if k :| Emits(s, l.t, k) { EmitShape(s, l.t, l.pick, k, s'); } else { AdvanceHeld(s, l.t, l.pick, s'); }
    }
  }

  lemma {:induction false} RunInStep(ls: seq<Label>, seg: nat, t: TurnId)
    requires OnlyWriter(Exec(ls), seg, t)
    ensures InStep(Exec(ls), seg, t)
  {
    if ls == [] {
      assert Exec(ls) == Init();
    } else {
      var init := ls[..|ls| - 1];
      HeardGrows(Exec(init), ls[|ls| - 1], Exec(ls));
      assert OnlyWriter(Exec(init), seg, t);
      RunInStep(init, seg, t);
      RunGood(init);
      StepInStep(Exec(init), ls[|ls| - 1], Exec(ls), seg, t);
    }
  }

  /** In every run, overlaps elsewhere or not, a segment written by one turn is contiguous. */
  lemma {:induction false} OneWriterIsContiguous(ls: seq<Label>, seg: nat, t: TurnId)
    requires OnlyWriter(Exec(ls), seg, t)
    ensures Contiguous(Exec(ls).hist.emitted, seg)
  {
    RunInStep(ls, seg, t);
  }

  /** Once the only writer of the open segment has emitted all it heard, a client that read its
      snapshot there shows the whole open reply. */
  lemma {:induction false} CaughtUpClientShowsAll(ls: seq<Label>, sid: string, t: TurnId)
    requires sid in Exec(ls).room && Exec(ls).room[sid].snap.Some?
    requires Exec(ls).room[sid].snap.value.seg == |Exec(ls).hist.segments|
    requires OnlyWriter(Exec(ls), |Exec(ls).hist.segments|, t)
    requires t < |Exec(ls).turns| && Exec(ls).turns[t].pc.Streaming?
    ensures var sub := Exec(ls).room[sid];
      ClientText(sub.snap.value, Of(sub.inbox, sub.snap.value.seg)) == Exec(ls).shared.buffer.GetOr("")
  {
    RunInStep(ls, |Exec(ls).hist.segments|, t);
    ResumeIsExact(ls, sid);
    var text := Exec(ls).shared.buffer.GetOr("");
    assert text[..|text|] == text;
    RunGood(ls);
    assert SubOk(Exec(ls), Exec(ls).room[sid]);
  }

  // ---- Calm runs ------------------------------------------------------------------------------------

  /** Each segment has one writer, and the open one's is the last turn. */
  ghost predicate WrittenAlone(s: Conv) {
    && (forall k, j :: k in s.hist.heard && j in s.hist.heard && k.seg == j.seg ==> k.writer == j.writer)
    && (forall k :: k in s.hist.heard ==> k.seg <= |s.hist.segments|)
    && (forall k :: k in s.hist.heard && k.seg == |s.hist.segments| ==>
          s.shared.buffer.Some? && |s.turns| > 0 && k.writer == |s.turns| - 1)
  }

  lemma CalmStepAlone(s: Conv, l: Label, s': Conv)
    requires Good(s) && OnlyLastAlive(s) && Tidy(s) && WrittenAlone(s) && s' == Step(s, l)
    requires l.Send? && StartsTurn(s) ==> AllTornDown(s)
    ensures WrittenAlone(s')
  {
    if l.Receive? && l.t < |s.turns| && s.turns[l.t].pc.Streaming? {
      HearAlone(s, l.t, l.e, s');
    } else {
      HeardOrPopped(s, l, s');
    }
  }

  lemma HearAlone(s: Conv, t: TurnId, e: Event, s': Conv)
    requires OnlyLastAlive(s) && WrittenAlone(s) && t < |s.turns| && s.turns[t].pc.Streaming?
    requires s' == ReceiveStep(s, t, e)
    ensures WrittenAlone(s')
  {
    assert t == |s.turns| - 1;
    if e.IsReplyChunk() {
      var k := s'.turns[t].pc.chunk.value;
      assert s'.hist.heard == s.hist.heard + [k];
    }
  }

  /** A step hears nothing new, and keeps the open buffer or pops it. */
  lemma HeardOrPopped(s: Conv, l: Label, s': Conv)
    requires s' == Step(s, l) && !(l.Receive? && l.t < |s.turns| && s.turns[l.t].pc.Streaming?)
    ensures s'.hist.heard == s.hist.heard
    ensures Pops(s, s') || (s'.hist.segments == s.hist.segments && s'.shared.buffer == s.shared.buffer)
    ensures |s'.turns| == |s.turns| || (l.Send? && StartsTurn(s))
  {
    if l.Advance? && l.t < |s.turns| { AdvancePops(s, l.t, l.pick, s'); }
  }

  lemma AdvancePops(s: Conv, t: TurnId, pick: string, s': Conv)
    requires t < |s.turns| && s' == AdvanceStep(s, t, pick)
    ensures s'.hist.heard == s.hist.heard && |s'.turns| == |s.turns|
    ensures Pops(s, s') || (s'.hist.segments == s.hist.segments && s'.shared.buffer == s.shared.buffer)
  {
    if s.turns[t].pc.Flushing? {
      assert s' == FlushStep(s, t, pick);
    } else if s.turns[t].pc.Persisting? {
      assert s' == CaptureStep(s, t);
    } else if s.turns[t].pc.AnswerWait? {
      assert s' == AnswerStoredStep(s, t);
    } else if s.turns[t].pc.Saving? {
      assert s' == SaveStep(s, t);
    }
  }

  lemma {:induction false} CalmWritesAlone(ls: seq<Label>)
    requires Calm(ls)
    ensures WrittenAlone(Exec(ls))
  {
    if ls == [] {
      assert Exec(ls) == Init();
    } else {
      var init := ls[..|ls| - 1];
      CalmWritesAlone(init);
      CalmMeansOnlyLastAlive(init);
      RunTidy(init);
      RunGood(init);
      CalmStepAlone(Exec(init), ls[|ls| - 1], Exec(ls));
    }
  }

  /** When no turn starts before its predecessors are torn down, every segment is contiguous, and
      so every resume is exact. */
  lemma {:induction false} CalmIsContiguous(ls: seq<Label>, seg: nat)
    requires Calm(ls)
    ensures Contiguous(Exec(ls).hist.emitted, seg)
  {
    CalmWritesAlone(ls);
    var heard := Exec(ls).hist.heard;
    if k :| k in heard && k.seg == seg {
      OneWriterIsContiguous(ls, seg, k.writer);
    } else {
      OneWriterIsContiguous(ls, seg, 0);
    }
  }

  // ---- The widget's rule ----------------------------------------------------------------------------

  lemma WidgetSnoc(snap: Snap, inbox: seq<Chunk>, k: Chunk)
    ensures var (text, applied) := WidgetText(snap, inbox);
      WidgetText(snap, inbox + [k]) == if k.off <= applied then (text, applied) else (text + k.text, k.off)
  {
    assert (inbox + [k])[..|inbox|] == inbox;
  }

  /** While chunks are emitted one after the other, moving the offset on makes no difference. */
  lemma {:induction false} WidgetAgrees(s: Conv, sub: Sub, n: nat)
    requires Good(s) && SubOk(s, sub) && sub.snap.Some? && sub.snap.value.at <= n <= |sub.inbox|
    requires Contiguous(SentBefore(s, sub, n), sub.snap.value.seg)
    ensures var sn := sub.snap.value;
      WidgetText(sn, Delivered(sub, n)) ==
        (ClientText(sn, Delivered(sub, n)), Max(sn.off, LastEmitted(SentBefore(s, sub, n), sn.seg)))
    decreases n
  {
    var sn := sub.snap.value;
    if n == sn.at {
      LastIsCovered(SentBefore(s, sub, n), sn.seg, sn.off);
      var p := |s.hist.emitted| - |sub.inbox|;
      forall k | k in sub.inbox[..n] ensures k in SentBefore(s, sub, n) {
        var i :| 0 <= i < n && sub.inbox[i] == k;
        assert SentBefore(s, sub, n)[p + i] == k;
      }
      CoveredAddNothing(sub.inbox[..n], sn.seg, sn.off);
      WidgetTakesNothing(sn, sub.inbox[..n]);
      assert sn.text + "" == sn.text;
    } else {
      var k := sub.inbox[n - 1];
      OneMoreDelivery(s, sub, n - 1);
      EmittedSnoc(SentBefore(s, sub, n - 1), k, sn.seg);
      WidgetAgrees(s, sub, n - 1);
      if k.seg == sn.seg {
        WidgetTakesNext(sn, Delivered(sub, n - 1), k, LastEmitted(SentBefore(s, sub, n - 1), sn.seg));
      } else {
        assert Delivered(sub, n) == Delivered(sub, n - 1);
      }
    }
  }

  lemma WidgetTakesNext(sn: Snap, mine: seq<Chunk>, k: Chunk, le: nat)
    requires WidgetText(sn, mine) == (ClientText(sn, mine), Max(sn.off, le)) && Start(k, le)
    ensures WidgetText(sn, mine + [k]) == (ClientText(sn, mine + [k]), Max(sn.off, k.off))
  {
    WidgetSnoc(sn, mine, k);
    UncoveredSnoc(mine, k, sn.off);
    var shown, more := ClientText(sn, mine), Uncovered(mine, sn.off);
    assert shown + k.text == sn.text + (more + k.text);
    if sn.off < k.off <= le {
      assert k.text == "" && more + k.text == more;
    } else if k.off <= sn.off {
      assert more + "" == more;
    }
  }

  lemma {:induction false} WidgetTakesNothing(snap: Snap, inbox: seq<Chunk>)
    requires forall k :: k in inbox && k.seg == snap.seg ==> k.off <= snap.off
    ensures WidgetText(snap, Of(inbox, snap.seg)) == (snap.text, snap.off)
  {
    if inbox != [] {
      var init, k := inbox[..|inbox| - 1], inbox[|inbox| - 1];
      assert k in inbox && forall j :: j in init ==> j in inbox;
      WidgetTakesNothing(snap, init);
      if k.seg == snap.seg { WidgetSnoc(snap, Of(init, snap.seg), k); }
      else { assert Of(inbox, snap.seg) == Of(init, snap.seg); }
    }
  }

  // ---- Why emissions must be contiguous ---------------------------------------------------

  /** A chunk of the reply; the first of a stream appends to nothing. */
  function ReplyChunk(text: string, append: bool): Event { ArtifactUpdate(Artifact(false, "", text), append, false) }

  /** Client `c` is resumed at offset 0, and two turns run, the first of them cancelled. */
  ghost predicate TwoTurns(s: Conv, pc0: Pc, pc1: Pc, buffer: Option<string>, inbox: seq<Chunk>) {
    && Reached(s) && |s.turns| == 2 && s.turns[0].pc == pc0 && s.turns[1].pc == pc1
    && s.shared == Shared(Some(1), buffer, None, None, map[]) && s.hist.segments == []
    && s.room == map["c" := Sub(Some(Snap(0, 0, "", 0)), inbox)]
  }

  ghost predicate OneTurn(s: Conv, active: Option<TurnId>, room: map<string, Sub>) {
    && Reached(s) && |s.turns| == 1 && s.turns[0].pc == Streaming && s.hist.segments == []
    && s.shared == Shared(active, None, None, None, map[]) && s.room == room
  }

  lemma FirstTurnStarts() returns (s: Conv)
    ensures OneTurn(s, Some(0), map[])
  {
    InitIsReached();
    s := Go(Init(), Send("c"));
    assert s == SendStep(Init(), "c");
  }

  lemma ClientEnters() returns (s: Conv)
    ensures OneTurn(s, Some(0), map["c" := Sub(None, [])])
  {
    var s1 := FirstTurnStarts();
    s := Go(s1, Join("c"));
  }

  lemma ClientJoins() returns (s: Conv)
    ensures OneTurn(s, Some(0), map["c" := Sub(Some(Snap(0, 0, "", 0)), [])])
  {
    var s1 := ClientEnters();
    s := Go(s1, ReadSnapshot("c"));
    assert s == ReadStep(s1, "c");
  }

  lemma TurnIsCancelled() returns (s: Conv)
    ensures OneTurn(s, None, map["c" := Sub(Some(Snap(0, 0, "", 0)), [])])
  {
    var s1 := ClientJoins();
    OneWaits(s1, CancelPop);
    s := Go(s1, CancelPop);
    LoneTurnCancelled(s1, s);
  }

  lemma CancelledTurnOverlaps() returns (s: Conv)
    ensures TwoTurns(s, Streaming, Streaming, None, [])
  {
    var s1 := TurnIsCancelled();
    OneWaits(s1, Send("c"));
    s := Go(s1, Send("c"));
    SecondTurn(s1, "c", s);
  }

  lemma OldTurnReceives(s1: Conv, a: string) returns (s: Conv)
    requires TwoTurns(s1, Streaming, Streaming, None, [])
    ensures TwoTurns(s, Received(ReplyChunk(a, false), Some(Chunk(0, |a|, a, 0))), Streaming, Some(a), [])
  {
    TwoAtAwaits(s1, Receive(0, ReplyChunk(a, false)));
    s := Go(s1, Receive(0, ReplyChunk(a, false)));
    assert s == ReceiveStep(s1, 0, ReplyChunk(a, false)) && "" + a == a;
  }

  /** The old turn's first chunk is not sent at once: it waits for a debug event to go out. */
  lemma OldTurnGoesOn(s1: Conv, pc: Pc, a: string) returns (s: Conv)
    requires TwoTurns(s1, pc, Streaming, Some(a), []) && (pc.Received? || pc.Persisting? || (pc.Saving? && !pc.saved))
    requires pc.e == ReplyChunk(a, false)
    ensures TwoTurns(s, match pc
      case Received(e, chunk) => Persisting(e, chunk)
      case Persisting(e, chunk) => Saving(e, chunk, false)
      case _ => Tail(pc.e, pc.chunk), Streaming, Some(a), [])
  {
    OtherAtAwait(s1, "");
    s := Go(s1, Advance(0, ""));
    if pc.Persisting? { assert s == CaptureStep(s1, 0); }
    if pc.Saving? { assert s == SaveStep(s1, 0); }
  }

  lemma OldTurnWaits(a: string) returns (s: Conv)
    ensures TwoTurns(s, Tail(ReplyChunk(a, false), Some(Chunk(0, |a|, a, 0))), Streaming, Some(a), [])
  {
    var e, chunk := ReplyChunk(a, false), Some(Chunk(0, |a|, a, 0));
    var s1 := CancelledTurnOverlaps();
    var s2 := OldTurnReceives(s1, a);
    var s3 := OldTurnGoesOn(s2, Received(e, chunk), a);
    var s4 := OldTurnGoesOn(s3, Persisting(e, chunk), a);
    s := OldTurnGoesOn(s4, Saving(e, chunk, false), a);
  }

  lemma NewTurnReceives(s1: Conv, old_pc: Pc, a: string, b: string) returns (s: Conv)
    requires TwoTurns(s1, old_pc, Streaming, Some(a), []) && !old_pc.MidSection()
    ensures TwoTurns(s, old_pc, Received(ReplyChunk(b, true), Some(Chunk(0, |a| + |b|, b, 1))), Some(a + b), [])
  {
    TwoAtAwaits(s1, Receive(1, ReplyChunk(b, true)));
    s := Go(s1, Receive(1, ReplyChunk(b, true)));
    NewTurnHears(s1, a, b, s);
  }

  lemma NewTurnHears(s: Conv, a: string, b: string, s': Conv)
    requires |s.turns| == 2 && s.turns[1].pc == Streaming && s.hist.segments == []
    requires s.shared == Shared(Some(1), Some(a), None, None, map[]) && s' == Step(s, Receive(1, ReplyChunk(b, true)))
    ensures |s'.turns| == 2 && s'.turns[0] == s.turns[0] && s'.hist.segments == [] && s'.room == s.room
    ensures s'.turns[1].pc == Received(ReplyChunk(b, true), Some(Chunk(0, |a| + |b|, b, 1)))
    ensures s'.shared == Shared(Some(1), Some(a + b), None, None, map[])
  {
    assert s' == ReceiveStep(s, 1, ReplyChunk(b, true));
  }

  lemma NewTurnEmits(s1: Conv, old_pc: Pc, text: string, k: Chunk, e: Event) returns (s: Conv)
    requires TwoTurns(s1, old_pc, Received(e, Some(k)), Some(text), []) && !old_pc.MidSection() && e.IsStreamingChunk()
    ensures TwoTurns(s, old_pc, Persisting(e, Some(k)), Some(text), [k])
  {
    OneAtAwait(s1, "");
    s := Go(s1, Advance(1, ""));
    assert [] + [k] == [k];
  }

  lemma OldTurnEmits(s1: Conv, new_pc: Pc, text: string, j: Chunk, k: Chunk, e: Event) returns (s: Conv)
    requires TwoTurns(s1, Tail(e, Some(k)), new_pc, Some(text), [j]) && !new_pc.MidSection() && !e.IsStreamingChunk()
    ensures TwoTurns(s, Streaming, new_pc, Some(text), [j, k])
  {
    TwoAtAwaits(s1, Advance(0, ""));
    s := Go(s1, Advance(0, ""));
    assert [j] + [k] == [j, k];
  }

  /** A cancelled turn keeps streaming until its cancellation takes effect.  A turn started in
      that window shares its buffer; its chunk may go out first, and a client that follows the
      server's rule shows the two in the wrong order, while the widget loses one. */
  lemma OverlapReorders(a: string, b: string) returns (s: Conv)
    requires a != "" && b != ""
    ensures Reached(s) && "c" in s.room && s.room["c"].snap == Some(Snap(0, 0, "", 0)) && SegmentText(s, 0) == a + b
    ensures ClientText(Snap(0, 0, "", 0), Of(s.room["c"].inbox, 0)) == b + a
    ensures WidgetText(Snap(0, 0, "", 0), Of(s.room["c"].inbox, 0)).0 == b
  {
    var ka, kb := Chunk(0, |a|, a, 0), Chunk(0, |a| + |b|, b, 1);
    var s1 := OldTurnWaits(a);
    var s2 := NewTurnReceives(s1, Tail(ReplyChunk(a, false), Some(ka)), a, b);
    var s3 := NewTurnEmits(s2, Tail(ReplyChunk(a, false), Some(ka)), a + b, kb, ReplyChunk(b, true));
    s := OldTurnEmits(s3, Persisting(ReplyChunk(b, true), Some(kb)), a + b, kb, ka, ReplyChunk(a, false));
    ShownReordered(a, b);
  }

  lemma ShownReordered(a: string, b: string)
    requires a != "" && b != ""
    ensures var mine := Of([Chunk(0, |a| + |b|, b, 1), Chunk(0, |a|, a, 0)], 0);
      ClientText(Snap(0, 0, "", 0), mine) == b + a && WidgetText(Snap(0, 0, "", 0), mine).0 == b
  {
    var ka, kb := Chunk(0, |a|, a, 0), Chunk(0, |a| + |b|, b, 1);
    var sn := Snap(0, 0, "", 0);
    assert [] + [kb] == [kb] && [kb] + [ka] == [kb, ka] && "" + b == b && "" + (b + a) == b + a;
    OfSnoc([], kb, 0);
    OfSnoc([kb], ka, 0);
    UncoveredSnoc([kb], ka, 0);
    UncoveredSnoc([], kb, 0);
    WidgetSnoc(sn, [], kb);
    WidgetSnoc(sn, [kb], ka);
  }
}
