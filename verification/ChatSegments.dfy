/** A turn may fill the reply buffer more than once: what a widget that saw an earlier segment
    shows of the next. */
module ChatSegments {
  import opened Common
  import opened ChatTurn
  import opened ChatProtocol
  import opened ChatFeed
  import ChatRepeats
  import opened ChatResume

  // ---- What is shown of the next segment ------------------------------------------------------------

  function Whole(ks: seq<Chunk>): string {
    if ks == [] then "" else Whole(ks[..|ks| - 1]) + ks[|ks| - 1].text
  }

  function LastOff(ks: seq<Chunk>): nat { if ks == [] then 0 else ks[|ks| - 1].off }

  /** Chunk after chunk, from offset 0 on. */
  ghost predicate Chained(ks: seq<Chunk>) {
    ks == [] || (Chained(ks[..|ks| - 1]) && Start(ks[|ks| - 1], LastOff(ks[..|ks| - 1])))
  }

  /** Every chunk that says something ends beyond `applied`. */
  ghost predicate AllBeyond(ks: seq<Chunk>, applied: nat) {
    ks == [] ||
    (AllBeyond(ks[..|ks| - 1], applied) && (ks[|ks| - 1].text != "" ==> ks[|ks| - 1].off > applied))
  }

  /** The widget takes a whole chain of chunks exactly when each ends beyond the offset it brings
      along; what it does not take is lost. */
  lemma {:induction false} WidgetTakesChain(text: string, applied: nat, ks: seq<Chunk>)
    requires Chained(ks)
    ensures var (shown, off) := WidgetFrom(text, applied, ks);
      && off == Max(applied, LastOff(ks))
      && (shown == text + Whole(ks) <==> AllBeyond(ks, applied))
      && (if AllBeyond(ks, applied) then |shown| == |text| + |Whole(ks)| else |shown| < |text| + |Whole(ks)|)
  {
    if ks == [] {
      assert text + "" == text;
    } else {
      var init, k := ks[..|ks| - 1], ks[|ks| - 1];
      WidgetTakesChain(text, applied, init);
      var (shown, off) := WidgetFrom(text, applied, init);
      assert text + (Whole(init) + k.text) == (text + Whole(init)) + k.text;
      if k.text == "" { assert Whole(ks) == Whole(init); }
      if k.text != "" && k.off > off { TakenWhole(shown, text + Whole(init), k.text); }
    }
  }

  lemma TakenWhole(a: string, b: string, c: string)
    ensures a + c == b + c <==> a == b
  {
    if a + c == b + c {
      assert |a + c| == |b + c|;
      assert a == (a + c)[..|a|] && b == (b + c)[..|a|];
    }
  }

  predicate PieceOf(k: Chunk, text: string) {
    |k.text| <= k.off <= |text| && text[k.off - |k.text|..k.off] == k.text
  }

  /** The chunks of a contiguous segment are a chain that spells its text. */
  lemma {:induction false} SegmentIsChain(emitted: seq<Chunk>, seg: nat, text: string)
    requires Contiguous(emitted, seg) && forall k :: k in emitted && k.seg == seg ==> PieceOf(k, text)
    ensures Chained(Of(emitted, seg)) && LastOff(Of(emitted, seg)) == LastEmitted(emitted, seg) <= |text|
    ensures Whole(Of(emitted, seg)) == text[..LastEmitted(emitted, seg)]
  {
    if emitted != [] {
      var init, k := emitted[..|emitted| - 1], emitted[|emitted| - 1];
      assert emitted == init + [k] && k in emitted && forall j :: j in init ==> j in emitted;
      EmittedSnoc(init, k, seg);
      OfSnoc(init, k, seg);
      SegmentIsChain(init, seg, text);
      if k.seg == seg {
        ChainGrows(Of(init, seg), k, text);
        assert Of(emitted, seg) == Of(init, seg) + [k];
      } else {
        assert Of(emitted, seg) == Of(init, seg);
      }
    }
  }

  lemma ChainGrows(ks: seq<Chunk>, k: Chunk, text: string)
    requires Chained(ks) && Start(k, LastOff(ks)) && LastOff(ks) <= |text| && Whole(ks) == text[..LastOff(ks)]
    requires PieceOf(k, text)
    ensures Chained(ks + [k]) && LastOff(ks + [k]) == k.off && Whole(ks + [k]) == text[..k.off]
  {
    assert (ks + [k])[..|ks|] == ks;
    assert text[..LastOff(ks)] + text[LastOff(ks)..k.off] == text[..k.off];
  }

  lemma {:induction false} OfJoin(a: seq<Chunk>, b: seq<Chunk>, seg: nat)
    ensures Of(a + b, seg) == Of(a, seg) + Of(b, seg)
  {
    if b == [] {
      assert a + b == a;
    } else {
      var init, k := b[..|b| - 1], b[|b| - 1];
      assert a + b == (a + init) + [k] && b == init + [k];
      OfSnoc(a + init, k, seg);
      OfSnoc(init, k, seg);
      OfJoin(a, init, seg);
    }
  }

  lemma {:induction false} NoneOf(a: seq<Chunk>, seg: nat)
    requires forall k :: k in a ==> k.seg != seg
    ensures Of(a, seg) == []
  {
    if a != [] {
      assert a[|a| - 1] in a;
      NoneOf(a[..|a| - 1], seg);
    }
  }

  /** A widget that saw an earlier segment brings its offset along, while the server starts again at
      0.  In every run, for a widget that was there when a contiguous segment began: it shows what
      was emitted of it whole if and only if every chunk that says something ends beyond that
      offset.  A chunk that does not is lost. */
  lemma {:induction false} NextSegmentIsShown(ls: seq<Label>, sid: string, seg: nat, text: string, applied: nat)
    requires sid in Exec(ls).room && Contiguous(Exec(ls).hist.emitted, seg)
    requires |Exec(ls).room[sid].inbox| <= |Exec(ls).hist.emitted|
    requires forall k :: k in SentBefore(Exec(ls), Exec(ls).room[sid], 0) ==> k.seg != seg
    ensures var s, mine := Exec(ls), Of(Exec(ls).room[sid].inbox, seg);
      var le := LastEmitted(s.hist.emitted, seg);
      && le <= |SegmentText(s, seg)| && Whole(mine) == SegmentText(s, seg)[..le]
      && (WidgetFrom(text, applied, mine).0 == text + SegmentText(s, seg)[..le] <==> AllBeyond(mine, applied))
  {
    RunGood(ls);
    var s, sub := Exec(ls), Exec(ls).room[sid];
    assert SubOk(s, sub);
    var before := SentBefore(s, sub, 0);
    assert s.hist.emitted == before + sub.inbox;
    OfJoin(before, sub.inbox, seg);
    NoneOf(before, seg);
    assert Of(s.hist.emitted, seg) == Of(sub.inbox, seg);
    forall k | k in s.hist.emitted && k.seg == seg ensures PieceOf(k, SegmentText(s, seg)) {
      assert k in s.hist.heard && Slice(s, k);
    }
    SegmentIsChain(s.hist.emitted, seg, SegmentText(s, seg));
    WidgetTakesChain(text, applied, Of(sub.inbox, seg));
  }

  // ---- One turn, two segments -----------------------------------------------------------------------

  function Piece(text: string, last: bool): Event { ArtifactUpdate(Artifact(false, "", text), true, last) }

  /** The turn stands at `pc`, and client "c" was there from the start. */
  ghost predicate WithClient(
      s: Conv, pc: Pc, segments: seq<Segment>, buffer: Option<string>, persisted: Option<string>, inbox: seq<Chunk>)
  {
    && Reached(s) && |s.turns| == 1 && s.turns[0].pc == pc && s.hist.segments == segments
    && s.shared == Shared(Some(0), buffer, persisted, None, map[])
    && s.room == map["c" := Sub(Some(Snap(0, 0, "", 0)), inbox)]
  }

  lemma Opens() returns (s: Conv)
    ensures WithClient(s, Streaming, [], None, None, [])
  {
    s := ClientJoins();
  }

  /** A piece of the reply arrives, and goes out at once. */
  lemma Hears(s1: Conv, segments: seq<Segment>, persisted: Option<string>, inbox: seq<Chunk>, text: string, last: bool)
      returns (s: Conv)
    requires WithClient(s1, Streaming, segments, None, persisted, inbox)
    ensures WithClient(s, Received(Piece(text, last), Some(Chunk(|segments|, |text|, text, 0))), segments, Some(text),
                   persisted, inbox)
  {
    var e := Piece(text, last);
    assert e.IsReplyChunk() && "" + text == text;
    s := Go(s1, Receive(0, e));
    assert s == ReceiveStep(s1, 0, e);
  }

  lemma Emits(s1: Conv, e: Event, k: Chunk, segments: seq<Segment>, buffer: Option<string>, persisted: Option<string>,
      inbox: seq<Chunk>) returns (s: Conv)
    requires WithClient(s1, Received(e, Some(k)), segments, buffer, persisted, inbox) && e.IsStreamingChunk()
    ensures WithClient(s, Persisting(e, Some(k)), segments, buffer, persisted, inbox + [k])
  {
    s := Go(s1, Advance(0, ""));
    assert s.room == EmitChunk(s1, Some(k)).room;
  }

  /** The last piece: the buffer is popped and stored. */
  lemma Pops(s1: Conv, k: Chunk, a: string) returns (s: Conv)
    requires WithClient(s1, Persisting(Piece(a, true), Some(k)), [], Some(a), None, [k]) && ChatRepeats.Solid(a)
    ensures WithClient(s, AnswerWait(Piece(a, true), Some(k), a), [Segment(a, 0, true)], None, None, [k])
  {
    var s2 := Go(s1, Advance(0, ""));
    assert s2 == CaptureStep(s1, 0);
    assert WithClient(s2, Flushing(Piece(a, true), Some(k), {}, false), [], Some(a), None, [k]);
    s := Go(s2, Advance(0, ""));
    PyStripSolid(a);
    assert s == PopAnswerStep(s2, 0);
  }

  lemma Stores(s1: Conv, k: Chunk, a: string) returns (s: Conv)
    requires WithClient(s1, AnswerWait(Piece(a, true), Some(k), a), [Segment(a, 0, true)], None, None, [k])
    requires ChatRepeats.Solid(a)
    ensures WithClient(s, Settling(Piece(a, true), Some(k), false), [Segment(a, 0, true)], None, Some(a), [k])
  {
    s := Go(s1, Advance(0, ""));
    PyStripSolid(a);
    assert s == AnswerStoredStep(s1, 0);
  }

  /** To the end of the event. */
  lemma GoesOn(s1: Conv, pc: Pc, segments: seq<Segment>, persisted: Option<string>, k: Chunk) returns (s: Conv)
    requires WithClient(s1, pc, segments, None, persisted, [k]) && (pc.Settling? || pc.Saving? || pc.Tail?)
    requires pc.e == Piece(k.text, true)
    ensures WithClient(s, match pc
      case Settling(e, chunk, saved) => Saving(e, chunk, saved)
      case Saving(e, chunk, _) => Tail(e, chunk)
      case _ => Streaming, segments, None, persisted, [k])
  {
    s := Go(s1, Advance(0, ""));
    if pc.Saving? { assert s == SaveStep(s1, 0); }
  }

  lemma FirstIsShown(a: string) returns (s: Conv)
    requires ChatRepeats.Solid(a)
    ensures WithClient(s, Streaming, [Segment(a, 0, true)], None, Some(a), [Chunk(0, |a|, a, 0)])
  {
    var e, k, done := Piece(a, true), Chunk(0, |a|, a, 0), [Segment(a, 0, true)];
    var s0 := Opens();
    var s1 := Hears(s0, [], None, [], a, true);
    var s2 := Emits(s1, e, k, [], Some(a), None, []);
    assert [] + [k] == [k];
    var s3 := Pops(s2, k, a);
    var s4 := Stores(s3, k, a);
    var s5 := GoesOn(s4, Settling(e, Some(k), false), done, Some(a), k);
    var s6 := GoesOn(s5, Saving(e, Some(k), false), done, Some(a), k);
    s := GoesOn(s6, Tail(e, Some(k)), done, Some(a), k);
  }

  /** A turn says `a` with a last chunk and goes on with `b`, no longer than `a`: the client that
      was there all along has both chunks, and the widget, `a` shown, takes nothing of `b`. */
  lemma NextSegmentIsLost(a: string, b: string) returns (s: Conv)
    requires ChatRepeats.Solid(a) && b != "" && |b| <= |a|
    ensures Reached(s) && "c" in s.room && s.room["c"].inbox == [Chunk(0, |a|, a, 0), Chunk(1, |b|, b, 0)]
    ensures SegmentText(s, 0) == a && SegmentText(s, 1) == b
    ensures WidgetFrom("", 0, Of(s.room["c"].inbox, 0)) == (a, |a|)
    ensures WidgetFrom(a, |a|, Of(s.room["c"].inbox, 1)) == (a, |a|)
  {
    var j, k, done := Chunk(0, |a|, a, 0), Chunk(1, |b|, b, 0), [Segment(a, 0, true)];
    var s1 := FirstIsShown(a);
    var s2 := Hears(s1, done, Some(a), [j], b, false);
    s := Emits(s2, Piece(b, false), k, done, Some(b), Some(a), [j]);
    BothShown(j, k);
  }

  lemma BothShown(j: Chunk, k: Chunk)
    requires j.seg == 0 && k.seg == 1 && j.off == |j.text| > 0 && 0 < k.off <= j.off
    ensures WidgetFrom("", 0, Of([j] + [k], 0)) == (j.text, j.off)
    ensures WidgetFrom(j.text, j.off, Of([j] + [k], 1)) == (j.text, j.off)
  {
    assert [] + [j] == [j] && [] + [k] == [k] && "" + j.text == j.text;
    OfSnoc([], j, 0);
    OfSnoc([], j, 1);
    OfSnoc([j], k, 0);
    OfSnoc([j], k, 1);
  }
}
