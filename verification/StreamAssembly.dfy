/** Folding a streamed chat completion back into one message, and the proof that it undoes
    streaming however the message was cut up. */
module StreamAssembly {
  import opened Common

  /** One entry of `delta.tool_calls`; empty strings stand for absent fields. */
  datatype Fragment = Fragment(index: int, id: string, name: string, arguments: string)

  /** One choice of a chunk. */
  datatype Choice = Choice(content: string, toolCalls: seq<Fragment>, finish: string)

  /** What a line of the stream says.  `Skipped` is a line that carries nothing: no `data:`
      prefix, no payload, the done mark, or a payload that is no JSON. */
  datatype Line<U> = Skipped | ErrorLine(message: string) | Data(usage: Option<U>, choices: seq<Choice>)

  datatype Call = Call(id: string, name: string, arguments: string)

  /** The assembled response; `calls` is listed in index order. */
  datatype Assembled<U> = Assembled(content: string, calls: seq<Call>, finish: string, usage: Option<U>)

  datatype Result<U> = Ok(value: Assembled<U>) | Failed(message: string)

  // ---- Lines ------------------------------------------------------------------------------------

  /** One line of the stream; `decode` stands for the JSON reader, which answers `Skipped` on a
      payload it cannot read. */
  function ReadLine<U>(decode: string -> Line<U>, raw: string): Line<U> {
    var line := PyStrip(raw);
    if !("data:" <= line) then Skipped
    else
      var data := PyStrip(line[5..]);
      if data == "" || data == "[DONE]" then Skipped else decode(data)
  }

  function ReadLines<U>(decode: string -> Line<U>, raws: seq<string>): (r: seq<Line<U>>) {
    seq(|raws|, i requires 0 <= i < |raws| => ReadLine(decode, raws[i]))
  }

  predicate NoError<U>(ls: seq<Line<U>>) { forall i :: 0 <= i < |ls| ==> !ls[i].ErrorLine? }

  /** A payload with solid ends is read back however blanks surround it and its mark. */
  lemma PayloadIsRead<U>(decode: string -> Line<U>, before: string, gap: string, payload: string, after: string)
    requires All(PySpace, before) && All(PySpace, gap) && All(PySpace, after)
    requires payload != "" && payload != "[DONE]" && !PySpace(payload[0]) && !PySpace(payload[|payload| - 1])
    ensures ReadLine(decode, before + ("data:" + gap + payload) + after) == decode(payload)
  {
    var line := "data:" + gap + payload;
    StripPadded(PySpace, before, line, after);
    assert line[5..] == gap + payload + "";
    StripPadded(PySpace, gap, payload, "");
  }

  /** The lines that say nothing: no mark, no payload, or the done mark, in any blanks. */
  lemma UnmarkedSaysNothing<U>(decode: string -> Line<U>, raw: string)
    requires !("data:" <= PyStrip(raw))
    ensures ReadLine(decode, raw) == Skipped
  {
  }

  lemma EmptySaysNothing<U>(decode: string -> Line<U>, before: string, gap: string)
    requires All(PySpace, before) && All(PySpace, gap)
    ensures ReadLine(decode, before + ("data:" + gap)) == Skipped
  {
    var mark := "data:";
    StripRightKeeps(mark, gap);
    StripLeftPadded(PySpace, before, mark + gap);
    assert PyStrip(before + (mark + gap)) == mark;
    assert mark[5..] == "";
  }

  /** Blanks behind a solid end come off. */
  lemma StripRightKeeps(s: string, gap: string)
    requires s != "" && !PySpace(s[|s| - 1]) && All(PySpace, gap)
    ensures StripRight(PySpace, s + gap) == s
  {
    StripRightPadded(PySpace, s, gap);
  }

  lemma DoneSaysNothing<U>(decode: string -> Line<U>, before: string, gap: string, after: string)
    requires All(PySpace, before) && All(PySpace, gap) && All(PySpace, after)
    ensures ReadLine(decode, before + ("data:" + gap + "[DONE]") + after) == Skipped
  {
    var line := "data:" + gap + "[DONE]";
    StripPadded(PySpace, before, line, after);
    assert line[5..] == gap + "[DONE]" + "";
    StripPadded(PySpace, gap, "[DONE]", "");
  }

  // ---- The text of a stream ----------------------------------------------------------------------

  /** Where `str.splitlines` cuts. */
  predicate LineBreak(c: char) {
    '\n' <= c <= '\r' || '\U{1c}' <= c <= '\U{1e}' || c == '\U{85}' || c == '\U{2028}' || c == '\U{2029}'
  }

  /** The text before the first break, and after it; a carriage return takes its line feed along. */
  function CutLine(s: string): (string, Option<string>) {
    if s == "" then ("", None)
    else if s[0] == '\r' && |s| > 1 && s[1] == '\n' then ("", Some(s[2..]))
    else if LineBreak(s[0]) then ("", Some(s[1..]))
    else
      var (line, rest) := CutLine(s[1..]);
      ([s[0]] + line, rest)
  }

  lemma {:induction false} CutLineShorter(s: string)
    ensures CutLine(s).1.Some? ==> |CutLine(s).1.value| < |s|
  {
    if s != "" && !LineBreak(s[0]) { CutLineShorter(s[1..]); }
  }

  /** `splitlines()` */
  function PySplitLines(s: string): seq<string>
    decreases |s|
  {
    if s == "" then []
    else
      CutLineShorter(s);
      var (line, rest) := CutLine(s);
      if rest.None? then [line] else [line] + PySplitLines(rest.value)
  }

  lemma BreaksAre(c: char)
    ensures LineBreak(c) <==>
      c in ['\n', '\U{b}', '\U{c}', '\r', '\U{1c}', '\U{1d}', '\U{1e}', '\U{85}', '\U{2028}', '\U{2029}']
  {
  }

  predicate Unbroken(s: string) { forall i :: 0 <= i < |s| ==> !LineBreak(s[i]) }

  lemma {:induction false} CutLineOf(line: string, rest: string)
    requires Unbroken(line)
    ensures CutLine(line + (['\n'] + rest)) == (line, Some(rest))
  {
    var s := line + (['\n'] + rest);
    if line == "" {
      assert s[0] == '\n' && s[1..] == rest;
    } else {
      assert s[0] == line[0] && s[1..] == line[1..] + (['\n'] + rest);
      CutLineOf(line[1..], rest);
      assert [line[0]] + line[1..] == line;
    }
  }

  /** Lines, each with its line feed. */
  function Terminated(raws: seq<string>): string {
    if raws == [] then "" else raws[0] + (['\n'] + Terminated(raws[1..]))
  }

  lemma {:induction false} JoinedIsSplit(raws: seq<string>)
    requires forall i :: 0 <= i < |raws| ==> Unbroken(raws[i])
    ensures PySplitLines(Terminated(raws)) == raws
  {
    if raws != [] {
      CutLineOf(raws[0], Terminated(raws[1..]));
      JoinedIsSplit(raws[1..]);
    }
  }

  lemma {:induction false} CutLineUnbroken(s: string)
    ensures Unbroken(CutLine(s).0)
  {
    if s != "" && !LineBreak(s[0]) { CutLineUnbroken(s[1..]); }
  }

  /** A line comes out whole exactly when it holds none of those characters: a payload with one of
      them raw is cut, and its halves are no JSON. */
  lemma {:induction false} LineSurvives(line: string)
    ensures PySplitLines(line + ['\n']) == [line] <==> Unbroken(line)
  {
    var s := line + ['\n'];
    CutLineUnbroken(s);
    if Unbroken(line) {
      CutLineOf(line, "");
      assert line + (['\n'] + "") == s;
    }
    if PySplitLines(s) == [line] {
      assert PySplitLines(s)[0] == CutLine(s).0;
    }
  }

  // ---- The fold --------------------------------------------------------------------------------

  datatype State<U> = State(content: string, slots: map<int, Call>, finish: string, usage: Option<U>)

  function SlotOf(slots: map<int, Call>, index: int): Call {
    if index in slots then slots[index] else Call("", "", "")
  }

  function AddFragment(slots: map<int, Call>, f: Fragment): map<int, Call> {
    var slot := SlotOf(slots, f.index);
    slots[f.index := Call(if f.id != "" then f.id else slot.id,
                          if f.name != "" then f.name else slot.name,
                          slot.arguments + f.arguments)]
  }

  function AddFragments(slots: map<int, Call>, fs: seq<Fragment>): map<int, Call>
    decreases |fs|
  {
    if fs == [] then slots else AddFragments(AddFragment(slots, fs[0]), fs[1..])
  }

  function AddChoice<U>(s: State<U>, c: Choice): State<U> {
    s.(content := s.content + c.content, slots := AddFragments(s.slots, c.toolCalls),
       finish := if c.finish != "" then c.finish else s.finish)
  }

  function AddChoices<U>(s: State<U>, cs: seq<Choice>): State<U>
    decreases |cs|
  {
    if cs == [] then s else AddChoices(AddChoice(s, cs[0]), cs[1..])
  }

  function AddLine<U>(s: State<U>, l: Line<U>): State<U>
    requires !l.ErrorLine?
  {
    if l.Skipped? then s
    else AddChoices(if l.usage.Some? then s.(usage := l.usage) else s, l.choices)
  }

  function AddLines<U>(s: State<U>, ls: seq<Line<U>>): State<U>
    requires NoError(ls)
    decreases |ls|
  {
    if ls == [] then s else AddLines(AddLine(s, ls[0]), ls[1..])
  }

  function Start<U>(): State<U> { State("", map[], "", None) }

  // ---- In index order ------------------------------------------------------------------------------

  predicate Increasing(order: seq<int>) { forall i, j :: 0 <= i < j < |order| ==> order[i] < order[j] }

  ghost predicate Lists(slots: map<int, Call>, order: seq<int>, calls: seq<Call>) {
    && Increasing(order) && |order| == |calls| && (forall k :: k in order <==> k in slots)
    && forall i :: 0 <= i < |order| ==> calls[i] == slots[order[i]]
  }

  /** `calls` lists the slots by increasing index. */
  ghost predicate InOrder(slots: map<int, Call>, calls: seq<Call>) { exists order: seq<int> :: Lists(slots, order, calls) }

  /** `sorted(tool_calls)`: the indices one by one, smallest first. */
  method SortKeys(slots: map<int, Call>) returns (order: seq<int>)
    ensures Increasing(order) && forall k :: k in order <==> k in slots
  {
    order := [];
    var left := slots.Keys;
    while left != {}
      invariant left <= slots.Keys && Increasing(order)
      invariant forall k :: k in order <==> k in slots && k !in left
      invariant forall k, m :: k in order && m in left ==> k < m
      decreases left
    {
      var least := Least(left);
      assert forall i :: 0 <= i < |order| ==> order[i] in order;
      order := order + [least];
      left := left - {least};
    }
  }

  method Pick<T>(s: set<T>) returns (x: T)
    requires s != {}
    ensures x in s
  {
    x :| x in s;
  }

  method Least(s: set<int>) returns (m: int)
    requires s != {}
    ensures m in s && forall k :: k in s ==> m <= k
  {
    m := Pick(s);
    var rest := s - {m};
    while rest != {}
      invariant m in s && rest <= s
      invariant forall k :: k in s && k !in rest ==> m <= k
      decreases rest
    {
      var k := Pick(rest);
      if k < m { m := k; }
      rest := rest - {k};
    }
  }

  ghost predicate FirstError<U>(lines: seq<Line<U>>, i: int, message: string) {
    0 <= i < |lines| && lines[i] == ErrorLine(message) && forall j :: 0 <= j < i ==> !lines[j].ErrorLine?
  }

  /** What assembling these lines gives. */
  ghost predicate Assembles<U>(lines: seq<Line<U>>, r: Result<U>) {
    && (r.Ok? <==> NoError(lines))
    && (r.Failed? ==> exists i :: FirstError(lines, i, r.message))
    && (r.Ok? ==>
          var s := AddLines(Start(), lines);
          && r.value.content == s.content && r.value.finish == s.finish && r.value.usage == s.usage
          && InOrder(s.slots, r.value.calls))
  }

  /** `assemble_stream`: stops at the first error line. */
  method AssembleStream<U>(decode: string -> Line<U>, text: string) returns (r: Result<U>)
    ensures Assembles(ReadLines(decode, PySplitLines(text)), r)
  {
    var raws := PySplitLines(text);
    ghost var lines := ReadLines(decode, raws);
    var content, finish, usage := "", "", None;
    var slots: map<int, Call> := map[];
    for n := 0 to |raws|
      invariant forall i :: 0 <= i < n ==> !lines[i].ErrorLine?
      invariant NoError(lines) ==>
        AddLines(Start(), lines) == AddLines(State(content, slots, finish, usage), lines[n..])
    {
      var line := ReadLine(decode, raws[n]);
      assert lines[n..][0] == line && lines[n..][1..] == lines[n + 1..];
      match line
      case Skipped =>
      case ErrorLine(message) =>
        assert FirstError(lines, n, message);
        return Failed(message);
      case Data(u, choices) =>
        if u.Some? { usage := u; }
        ghost var before := State(content, slots, finish, usage);
        for c := 0 to |choices|
          invariant AddChoices(before, choices) == AddChoices(State(content, slots, finish, usage), choices[c..])
        {
          var choice := choices[c];
          assert choices[c..][1..] == choices[c + 1..];
          ghost var old_slots := slots;
          content := content + choice.content;
          for f := 0 to |choice.toolCalls|
            invariant AddFragments(old_slots, choice.toolCalls) == AddFragments(slots, choice.toolCalls[f..])
          {
            var tc := choice.toolCalls[f];
            assert choice.toolCalls[f..][1..] == choice.toolCalls[f + 1..];
            var slot := SlotOf(slots, tc.index);
            if tc.id != "" { slot := slot.(id := tc.id); }
            if tc.name != "" { slot := slot.(name := tc.name); }
            slot := slot.(arguments := slot.arguments + tc.arguments);
            slots := slots[tc.index := slot];
          }
          if choice.finish != "" { finish := choice.finish; }
        }
    }
    var order := SortKeys(slots);
    var calls := seq(|order|, i requires 0 <= i < |order| && (forall k :: k in order ==> k in slots) => slots[order[i]]);
    assert Lists(slots, order, calls);
    r := Ok(Assembled(content, calls, finish, usage));
  }

  // ---- What the fold gives, for any stream -----------------------------------------------------------

  /** The choices of all lines, and what they hold, in order. */
  function ChoicesOf<U>(ls: seq<Line<U>>): seq<Choice> {
    if ls == [] then [] else (if ls[0].Data? then ls[0].choices else []) + ChoicesOf(ls[1..])
  }

  function Contents(cs: seq<Choice>): string { if cs == [] then "" else cs[0].content + Contents(cs[1..]) }

  function Finishes(cs: seq<Choice>): seq<string> { if cs == [] then [] else [cs[0].finish] + Finishes(cs[1..]) }

  function FragmentsOf(cs: seq<Choice>): seq<Fragment> { if cs == [] then [] else cs[0].toolCalls + FragmentsOf(cs[1..]) }

  /** The fragments of one call. */
  function At(fs: seq<Fragment>, index: int): seq<Fragment> {
    if fs == [] then [] else (if fs[0].index == index then [fs[0]] else []) + At(fs[1..], index)
  }

  function Ids(fs: seq<Fragment>): seq<string> { if fs == [] then [] else [fs[0].id] + Ids(fs[1..]) }
  function Names(fs: seq<Fragment>): seq<string> { if fs == [] then [] else [fs[0].name] + Names(fs[1..]) }
  function Arguments(fs: seq<Fragment>): string { if fs == [] then "" else fs[0].arguments + Arguments(fs[1..]) }

  /** The last word that says something, or `word`. */
  function LastOr(words: seq<string>, word: string): string {
    if words == [] then word
    else if words[|words| - 1] != "" then words[|words| - 1] else LastOr(words[..|words| - 1], word)
  }

  function LastUsage<U>(ls: seq<Line<U>>, usage: Option<U>): Option<U> {
    if ls == [] then usage
    else
      var last := ls[|ls| - 1];
      if last.Data? && last.usage.Some? then last.usage else LastUsage(ls[..|ls| - 1], usage)
  }

  lemma {:induction false} LastOrCons(first: string, rest: seq<string>, word: string)
    ensures LastOr([first] + rest, word) == LastOr(rest, if first != "" then first else word)
    decreases |rest|
  {
    if rest == [] {
      assert [first] + rest == [first] && [first][..0] == [];
    } else {
      var init := rest[..|rest| - 1];
      assert ([first] + rest)[..|rest|] == [first] + init && ([first] + rest)[|rest|] == rest[|rest| - 1];
      LastOrCons(first, init, word);
    }
  }

  lemma {:induction false} LastUsageCons<U>(first: Line<U>, rest: seq<Line<U>>, usage: Option<U>)
    ensures LastUsage([first] + rest, usage) ==
      LastUsage(rest, if first.Data? && first.usage.Some? then first.usage else usage)
    decreases |rest|
  {
    if rest == [] {
      assert [first] + rest == [first] && [first][..0] == [];
    } else {
      var init := rest[..|rest| - 1];
      assert ([first] + rest)[..|rest|] == [first] + init && ([first] + rest)[|rest|] == rest[|rest| - 1];
      LastUsageCons(first, init, usage);
    }
  }

  /** The call its fragments make of what was there: all arguments in order, the last id and name. */
  function Grown(was: Call, own: seq<Fragment>): Call {
    Call(LastOr(Ids(own), was.id), LastOr(Names(own), was.name), was.arguments + Arguments(own))
  }

  lemma GrownCons(was: Call, f: Fragment, own: seq<Fragment>)
    ensures Grown(was, [f] + own) ==
      Grown(Call(if f.id != "" then f.id else was.id, if f.name != "" then f.name else was.name,
                 was.arguments + f.arguments), own)
  {
    assert ([f] + own)[1..] == own;
    LastOrCons(f.id, Ids(own), was.id);
    LastOrCons(f.name, Names(own), was.name);
    assert (was.arguments + f.arguments) + Arguments(own) == was.arguments + (f.arguments + Arguments(own));
  }

  lemma GrownByNone(was: Call)
    ensures Grown(was, []) == was
  {
    assert was.arguments + "" == was.arguments;
  }

  lemma {:induction false} SlotMeans(slots: map<int, Call>, fs: seq<Fragment>, index: int)
    ensures index in AddFragments(slots, fs) <==> index in slots || At(fs, index) != []
    ensures SlotOf(AddFragments(slots, fs), index) == Grown(SlotOf(slots, index), At(fs, index))
    decreases |fs|
  {
    var was := SlotOf(slots, index);
    if fs == [] {
      GrownByNone(was);
    } else {
      var f, next, rest := fs[0], AddFragment(slots, fs[0]), At(fs[1..], index);
      SlotMeans(next, fs[1..], index);
      if f.index == index {
        GrownCons(was, f, rest);
        assert At(fs, index) == [f] + rest;
      } else {
        assert At(fs, index) == rest && SlotOf(next, index) == was;
      }
    }
  }

  lemma {:induction false} ChoicesMean<U>(s: State<U>, cs: seq<Choice>)
    ensures var r := AddChoices(s, cs);
      && r.content == s.content + Contents(cs) && r.slots == AddFragments(s.slots, FragmentsOf(cs))
      && r.finish == LastOr(Finishes(cs), s.finish) && r.usage == s.usage
    decreases |cs|
  {
    if cs == [] {
      assert s.content + "" == s.content;
    } else {
      var c := cs[0];
      ChoicesMean(AddChoice(s, c), cs[1..]);
      FragmentsJoin(s.slots, c.toolCalls, FragmentsOf(cs[1..]));
      LastOrCons(c.finish, Finishes(cs[1..]), s.finish);
      assert (s.content + c.content) + Contents(cs[1..]) == s.content + (c.content + Contents(cs[1..]));
    }
  }

  lemma {:induction false} LinesMean<U>(s: State<U>, ls: seq<Line<U>>)
    requires NoError(ls)
    ensures AddLines(s, ls) == AddChoices(s, ChoicesOf(ls)).(usage := LastUsage(ls, s.usage))
    decreases |ls|
  {
    if ls != [] {
      var l, rest := ls[0], ls[1..];
      assert ls == [l] + rest && NoError(rest);
      LastUsageCons(l, rest, s.usage);
      LinesMean(AddLine(s, l), rest);
      OneLineMeans(s, l, ChoicesOf(rest));
    }
  }

  /** One line, and whatever choices follow it. */
  lemma OneLineMeans<U>(s: State<U>, l: Line<U>, more: seq<Choice>)
    requires !l.ErrorLine?
    ensures var t, usage := AddLine(s, l), if l.Data? && l.usage.Some? then l.usage else s.usage;
      && t.usage == usage
      && AddChoices(t, more) == AddChoices(s, (if l.Data? then l.choices else []) + more).(usage := usage)
  {
    if l.Data? {
      var t := if l.usage.Some? then s.(usage := l.usage) else s;
      AddChoicesJoin(t, l.choices, more);
      UsageApart(s, t.usage, l.choices + more);
      ChoicesMean(t, l.choices);
    } else {
      assert [] + more == more;
      ChoicesMean(s, more);
    }
  }

  lemma {:induction false} AddChoicesJoin<U>(s: State<U>, a: seq<Choice>, b: seq<Choice>)
    ensures AddChoices(s, a + b) == AddChoices(AddChoices(s, a), b)
    decreases |a|
  {
    if a == [] {
      assert a + b == b;
    } else {
      assert (a + b)[0] == a[0] && (a + b)[1..] == a[1..] + b;
      AddChoicesJoin(AddChoice(s, a[0]), a[1..], b);
    }
  }

  /** Choices do not look at the usage. */
  lemma {:induction false} UsageApart<U>(s: State<U>, usage: Option<U>, cs: seq<Choice>)
    ensures AddChoices(s.(usage := usage), cs) == AddChoices(s, cs).(usage := usage)
    decreases |cs|
  {
    if cs != [] {
      assert AddChoice(s.(usage := usage), cs[0]) == AddChoice(s, cs[0]).(usage := usage);
      UsageApart(AddChoice(s, cs[0]), usage, cs[1..]);
    }
  }

  /** The calls of all fragments, listed by index. */
  ghost predicate CallsOf(fs: seq<Fragment>, order: seq<int>, calls: seq<Call>) {
    && Increasing(order) && |order| == |calls| && (forall i :: i in order <==> At(fs, i) != [])
    && forall k :: 0 <= k < |order| ==> calls[k] == Grown(Call("", "", ""), At(fs, order[k]))
  }

  lemma SlotsAreCalls(fs: seq<Fragment>, order: seq<int>, calls: seq<Call>)
    requires Lists(AddFragments(map[], fs), order, calls)
    ensures CallsOf(fs, order, calls)
  {
    forall i ensures i in order <==> At(fs, i) != [] { SlotMeans(map[], fs, i); }
    forall k | 0 <= k < |order| ensures calls[k] == Grown(Call("", "", ""), At(fs, order[k])) {
      SlotMeans(map[], fs, order[k]);
      assert order[k] in order;
    }
  }

  /** What assembling gives, for any lines without an error: all content in order; the last finish
      reason and the last usage; and a call for each index that occurs, with the last id and name
      given for it and all its arguments, listed by index. */
  lemma AssembledMeans<U>(lines: seq<Line<U>>, r: Result<U>)
    requires Assembles(lines, r) && NoError(lines)
    ensures r.Ok?
    ensures var cs := ChoicesOf(lines);
      && r.value.content == Contents(cs)
      && r.value.finish == LastOr(Finishes(cs), "")
      && r.value.usage == LastUsage(lines, None)
      && exists order: seq<int> :: CallsOf(FragmentsOf(cs), order, r.value.calls)
  {
    var cs := ChoicesOf(lines);
    LinesMean(Start(), lines);
    ChoicesMean(Start<U>(), cs);
    assert "" + Contents(cs) == Contents(cs);
    var order: seq<int> :| Lists(AddLines(Start(), lines).slots, order, r.value.calls);
    SlotsAreCalls(FragmentsOf(cs), order, r.value.calls);
  }

  // ---- Streaming a message --------------------------------------------------------------------------

  datatype Message<U> = Message(content: string, calls: map<int, Call>, finish: string, usage: Option<U>)

  /** How a message is cut up.  Every number says how many characters at most to send next. */
  datatype Piece = Piece(index: int, opens: bool, take: nat)
  datatype Cut = Cut(take: nat, pieces: seq<Piece>, finishes: bool)
  datatype Plan = Noise | Chunk(cuts: seq<Cut>, reports: bool)

  /** What is still to be sent.  A call is opened by a fragment with its id and name, and
      touched by any fragment. */
  datatype Left = Left(
    content: string, arguments: map<int, string>, unopened: set<int>, untouched: set<int>,
    finish: bool, usage: bool)

  function Whole<U>(m: Message<U>): Left {
    Left(m.content, map i | i in m.calls :: m.calls[i].arguments, m.calls.Keys, m.calls.Keys, true, true)
  }

  function Head(s: string, take: nat): string { if take <= |s| then s[..take] else s }

  function Rest(s: string, take: nat): string { if take <= |s| then s[take..] else "" }

  ghost predicate IsTail(rest: string, s: string) { |rest| <= |s| && s[|s| - |rest|..] == rest }

  function Sent(s: string, rest: string): string { if |rest| <= |s| then s[..|s| - |rest|] else "" }

  ghost predicate Fits<U>(m: Message<U>, left: Left) {
    && IsTail(left.content, m.content)
    && left.arguments.Keys == m.calls.Keys
    && (forall i :: i in m.calls ==> IsTail(left.arguments[i], m.calls[i].arguments))
    && left.untouched <= left.unopened <= m.calls.Keys
    && (forall i :: i in left.untouched ==> left.arguments[i] == m.calls[i].arguments)
  }

  /** One fragment of a call, if the message has it. */
  function PrintPiece<U>(m: Message<U>, left: Left, p: Piece): (seq<Fragment>, Left) {
    if p.index !in m.calls || p.index !in left.arguments then ([], left)
    else
      var c := m.calls[p.index];
      var text := left.arguments[p.index];
      ([Fragment(p.index, if p.opens then c.id else "", if p.opens then c.name else "", Head(text, p.take))],
       left.(arguments := left.arguments[p.index := Rest(text, p.take)],
             unopened := if p.opens then left.unopened - {p.index} else left.unopened,
             untouched := left.untouched - {p.index}))
  }

  function PrintPieces<U>(m: Message<U>, left: Left, ps: seq<Piece>): (seq<Fragment>, Left)
    decreases |ps|
  {
    if ps == [] then ([], left)
    else
      var (first, left1) := PrintPiece(m, left, ps[0]);
      var (rest, left2) := PrintPieces(m, left1, ps[1..]);
      (first + rest, left2)
  }

  function PrintCut<U>(m: Message<U>, left: Left, cut: Cut): (Choice, Left) {
    var (fragments, left1) := PrintPieces(m, left, cut.pieces);
    (Choice(Head(left.content, cut.take), fragments, if cut.finishes then m.finish else ""),
     left1.(content := Rest(left.content, cut.take), finish := left.finish && !cut.finishes))
  }

  function PrintCuts<U>(m: Message<U>, left: Left, cuts: seq<Cut>): (seq<Choice>, Left)
    decreases |cuts|
  {
    if cuts == [] then ([], left)
    else
      var (first, left1) := PrintCut(m, left, cuts[0]);
      var (rest, left2) := PrintCuts(m, left1, cuts[1..]);
      ([first] + rest, left2)
  }

  function PrintLine<U>(m: Message<U>, left: Left, plan: Plan): (Line<U>, Left) {
    if plan.Noise? then (Skipped, left)
    else
      var (choices, left1) := PrintCuts(m, left, plan.cuts);
      (Data(if plan.reports then m.usage else None, choices), left1.(usage := left1.usage && !plan.reports))
  }

  function PrintAll<U>(m: Message<U>, left: Left, plans: seq<Plan>): (seq<Line<U>>, Left)
    decreases |plans|
  {
    if plans == [] then ([], left)
    else
      var (first, left1) := PrintLine(m, left, plans[0]);
      var (rest, left2) := PrintAll(m, left1, plans[1..]);
      ([first] + rest, left2)
  }

  /** Everything went out. */
  ghost predicate Complete<U>(m: Message<U>, left: Left) {
    && left.content == "" && (forall i :: i in left.arguments ==> left.arguments[i] == "")
    && left.unopened == {} && (left.finish ==> m.finish == "") && (left.usage ==> m.usage.None?)
  }

  // ---- Assembly undoes streaming --------------------------------------------------------------------

  /** The slots an assembler has built when `left` is still to come. */
  function SeenSlots<U>(m: Message<U>, left: Left): map<int, Call> {
    map i | i in m.calls && i !in left.untouched ::
      Call(if i in left.unopened then "" else m.calls[i].id,
           if i in left.unopened then "" else m.calls[i].name,
           Sent(m.calls[i].arguments, if i in left.arguments then left.arguments[i] else ""))
  }

  function Seen<U>(m: Message<U>, left: Left): State<U> {
    State(Sent(m.content, left.content), SeenSlots(m, left),
          if left.finish then "" else m.finish, if left.usage then None else m.usage)
  }

  ghost predicate Named<U>(m: Message<U>) {
    forall i :: i in m.calls ==> m.calls[i].id != "" && m.calls[i].name != ""
  }

  lemma SentGrows(s: string, rest: string, take: nat)
    requires IsTail(rest, s)
    ensures IsTail(Rest(rest, take), s)
    ensures Sent(s, Rest(rest, take)) == Sent(s, rest) + Head(rest, take)
  {
  }

  /** The slot the piece belongs to. */
  lemma PieceSlot<U>(m: Message<U>, left: Left, p: Piece, f: Fragment, left': Left)
    requires Named(m) && Fits(m, left) && p.index in m.calls && PrintPiece(m, left, p) == ([f], left')
    ensures IsTail(left'.arguments[p.index], m.calls[p.index].arguments)
    ensures AddFragment(SeenSlots(m, left), f)[p.index] == SeenSlots(m, left')[p.index]
  {
    SentGrows(m.calls[p.index].arguments, left.arguments[p.index], p.take);
    assert Sent(m.calls[p.index].arguments, m.calls[p.index].arguments) == "";
  }

  lemma PieceFits<U>(m: Message<U>, left: Left, p: Piece, f: Fragment, left': Left)
    requires Named(m) && Fits(m, left) && p.index in m.calls && PrintPiece(m, left, p) == ([f], left')
    ensures Fits(m, left') && f.index == p.index
  {
    PieceSlot(m, left, p, f, left');
  }

  /** Every other slot stays as it was. */
  lemma OtherSlots<U>(m: Message<U>, left: Left, p: Piece, f: Fragment, left': Left, i: int)
    requires p.index in m.calls && PrintPiece(m, left, p) == ([f], left') && i != p.index
    ensures i in SeenSlots(m, left') <==> i in SeenSlots(m, left)
    ensures i in SeenSlots(m, left) ==> SeenSlots(m, left')[i] == SeenSlots(m, left)[i]
  {
    assert i in left'.untouched <==> i in left.untouched;
    assert i in left'.unopened <==> i in left.unopened;
    assert i in left'.arguments <==> i in left.arguments;
  }

  lemma PieceSlots<U>(m: Message<U>, left: Left, p: Piece, f: Fragment, left': Left)
    requires Named(m) && Fits(m, left) && p.index in m.calls && PrintPiece(m, left, p) == ([f], left')
    ensures AddFragment(SeenSlots(m, left), f) == SeenSlots(m, left')
  {
    PieceSlot(m, left, p, f, left');
    var was, got, want := SeenSlots(m, left), AddFragment(SeenSlots(m, left), f), SeenSlots(m, left');
    assert got == was[p.index := got[p.index]];
    assert p.index in want && got[p.index] == want[p.index];
    forall i | i != p.index
      ensures i in want <==> i in was
      ensures i in was ==> want[i] == was[i]
    {
      OtherSlots(m, left, p, f, left', i);
    }
  }

  lemma OneFragment(slots: map<int, Call>, f: Fragment)
    ensures AddFragments(slots, [f]) == AddFragment(slots, f)
  {
    assert [f][1..] == [];
  }

  lemma PieceUndone<U>(m: Message<U>, left: Left, p: Piece)
    requires Named(m) && Fits(m, left)
    ensures var (fs, left') := PrintPiece(m, left, p);
      Fits(m, left') && AddFragments(SeenSlots(m, left), fs) == SeenSlots(m, left')
      && left' == left.(arguments := left'.arguments, unopened := left'.unopened, untouched := left'.untouched)
  {
    if p.index in m.calls {
      var (fs, left') := PrintPiece(m, left, p);
      assert fs == [fs[0]];
      PieceFits(m, left, p, fs[0], left');
      PieceSlots(m, left, p, fs[0], left');
      OneFragment(SeenSlots(m, left), fs[0]);
    }
  }

  lemma {:induction false} FragmentsJoin(slots: map<int, Call>, a: seq<Fragment>, b: seq<Fragment>)
    ensures AddFragments(slots, a + b) == AddFragments(AddFragments(slots, a), b)
    decreases |a|
  {
    if a == [] {
      assert a + b == b;
    } else {
      assert (a + b)[1..] == a[1..] + b;
      FragmentsJoin(AddFragment(slots, a[0]), a[1..], b);
    }
  }

  lemma {:induction false} PiecesUndone<U>(m: Message<U>, left: Left, ps: seq<Piece>)
    requires Named(m) && Fits(m, left)
    ensures var (fs, left') := PrintPieces(m, left, ps);
      Fits(m, left') && AddFragments(SeenSlots(m, left), fs) == SeenSlots(m, left')
      && left' == left.(arguments := left'.arguments, unopened := left'.unopened, untouched := left'.untouched)
    decreases |ps|
  {
    if ps != [] {
      PieceUndone(m, left, ps[0]);
      var (first, left1) := PrintPiece(m, left, ps[0]);
      PiecesUndone(m, left1, ps[1..]);
      var (rest, left2) := PrintPieces(m, left1, ps[1..]);
      FragmentsJoin(SeenSlots(m, left), first, rest);
    }
  }

  lemma CutUndone<U>(m: Message<U>, left: Left, cut: Cut)
    requires Named(m) && Fits(m, left)
    ensures var (c, left') := PrintCut(m, left, cut);
      Fits(m, left') && AddChoice(Seen(m, left), c) == Seen(m, left')
      && left'.usage == left.usage
  {
    PiecesUndone(m, left, cut.pieces);
    SentGrows(m.content, left.content, cut.take);
    var (c, left') := PrintCut(m, left, cut);
    assert SeenSlots(m, left') == SeenSlots(m, PrintPieces(m, left, cut.pieces).1);
  }

  lemma {:induction false} CutsUndone<U>(m: Message<U>, left: Left, cuts: seq<Cut>)
    requires Named(m) && Fits(m, left)
    ensures var (cs, left') := PrintCuts(m, left, cuts);
      Fits(m, left') && AddChoices(Seen(m, left), cs) == Seen(m, left')
      && left'.usage == left.usage
    decreases |cuts|
  {
    if cuts != [] {
      CutUndone(m, left, cuts[0]);
      var (first, left1) := PrintCut(m, left, cuts[0]);
      CutsUndone(m, left1, cuts[1..]);
      var (rest, left2) := PrintCuts(m, left1, cuts[1..]);
      assert ([first] + rest)[1..] == rest;
    }
  }

  lemma LineUndone<U>(m: Message<U>, left: Left, plan: Plan)
    requires Named(m) && Fits(m, left)
    ensures var (l, left') := PrintLine(m, left, plan);
      Fits(m, left') && !l.ErrorLine? && AddLine(Seen(m, left), l) == Seen(m, left')
  {
    if plan.Chunk? {
      var reported := left.(usage := left.usage && !plan.reports);
      assert SeenSlots(m, reported) == SeenSlots(m, left);
      CutsUndone(m, reported, plan.cuts);
      OnlyUsage(m, left, plan.cuts, reported.usage);
    }
  }

  /** Whether the usage was reported has no part in cutting up the choices. */
  lemma {:induction false} OnlyUsage<U>(m: Message<U>, left: Left, cuts: seq<Cut>, usage: bool)
    ensures var (cs, left1) := PrintCuts(m, left, cuts);
      PrintCuts(m, left.(usage := usage), cuts) == (cs, left1.(usage := usage))
    decreases |cuts|
  {
    if cuts != [] {
      PiecesOnlyUsage(m, left, cuts[0].pieces, usage);
      OnlyUsage(m, PrintCut(m, left, cuts[0]).1, cuts[1..], usage);
    }
  }

  lemma {:induction false} PiecesOnlyUsage<U>(m: Message<U>, left: Left, ps: seq<Piece>, usage: bool)
    ensures var (fs, left1) := PrintPieces(m, left, ps);
      PrintPieces(m, left.(usage := usage), ps) == (fs, left1.(usage := usage)) && left1.content == left.content
      && left1.finish == left.finish
    decreases |ps|
  {
    if ps != [] {
      PiecesOnlyUsage(m, PrintPiece(m, left, ps[0]).1, ps[1..], usage);
    }
  }

  lemma {:induction false} PlansUndone<U>(m: Message<U>, left: Left, plans: seq<Plan>)
    requires Named(m) && Fits(m, left)
    ensures var (ls, left') := PrintAll(m, left, plans);
      Fits(m, left') && NoError(ls) && AddLines(Seen(m, left), ls) == Seen(m, left')
    decreases |plans|
  {
    if plans != [] {
      LineUndone(m, left, plans[0]);
      var (first, left1) := PrintLine(m, left, plans[0]);
      PlansUndone(m, left1, plans[1..]);
      var (rest, left2) := PrintAll(m, left1, plans[1..]);
      assert ([first] + rest)[1..] == rest;
    }
  }

  lemma NothingSeenAtFirst<U>(m: Message<U>)
    ensures Fits(m, Whole(m)) && Seen(m, Whole(m)) == Start()
  {
    assert SeenSlots(m, Whole(m)) == map[];
  }

  lemma AllSeenAtLast<U>(m: Message<U>, left: Left)
    requires Fits(m, left) && Complete(m, left)
    ensures Seen(m, left) == State(m.content, m.calls, m.finish, m.usage)
  {
    var seen := SeenSlots(m, left);
    assert seen.Keys == m.calls.Keys;
    forall i | i in m.calls ensures seen[i] == m.calls[i] {
      assert left.arguments[i] == "";
    }
    assert seen == m.calls;
  }

  lemma LinesUndone<U>(m: Message<U>, plans: seq<Plan>)
    requires Named(m) && Complete(m, PrintAll(m, Whole(m), plans).1)
    ensures var lines := PrintAll(m, Whole(m), plans).0;
      NoError(lines) && AddLines(Start(), lines) == State(m.content, m.calls, m.finish, m.usage)
  {
    NothingSeenAtFirst(m);
    PlansUndone(m, Whole(m), plans);
    AllSeenAtLast(m, PrintAll(m, Whole(m), plans).1);
  }

  /** Assembly undoes streaming.  For every message with named calls and every way to cut it up
      that sends all of it: a stream whose lines are unbroken and read as the pieces, with lines
      that say nothing anywhere between, is assembled to the message, its calls in index order. */
  lemma StreamingUndone<U>(
      m: Message<U>, plans: seq<Plan>, decode: string -> Line<U>, raws: seq<string>, r: Result<U>)
    requires Named(m) && Complete(m, PrintAll(m, Whole(m), plans).1)
    requires forall i :: 0 <= i < |raws| ==> Unbroken(raws[i])
    requires ReadLines(decode, raws) == PrintAll(m, Whole(m), plans).0
    requires Assembles(ReadLines(decode, PySplitLines(Terminated(raws))), r)
    ensures r.Ok? && r.value.content == m.content && r.value.finish == m.finish && r.value.usage == m.usage
    ensures InOrder(m.calls, r.value.calls)
    ensures forall calls :: InOrder(m.calls, calls) ==> r.value.calls == calls
  {
    JoinedIsSplit(raws);
    LinesUndone(m, plans);
    forall calls | InOrder(m.calls, calls) ensures r.value.calls == calls {
      OrderIsUnique(m.calls, r.value.calls, calls);
    }
  }

  lemma {:induction false} IncreasingUnique(a: seq<int>, b: seq<int>)
    requires Increasing(a) && Increasing(b)
    requires (forall i :: 0 <= i < |a| ==> a[i] in b) && (forall i :: 0 <= i < |b| ==> b[i] in a)
    ensures a == b
    decreases |a|
  {
    assert b == [] || b[0] in a;
    if a != [] {
      assert a[0] in b;
      forall i | 0 <= i < |a[1..]| ensures a[1..][i] in b[1..] {
        assert a[i + 1] in b && a[i + 1] > a[0];
      }
      forall i | 0 <= i < |b[1..]| ensures b[1..][i] in a[1..] {
        assert b[i + 1] in a && b[i + 1] > b[0];
      }
      IncreasingUnique(a[1..], b[1..]);
    }
  }

  /** The calls in index order are determined by the slots. */
  lemma OrderIsUnique(slots: map<int, Call>, calls: seq<Call>, calls': seq<Call>)
    requires InOrder(slots, calls) && InOrder(slots, calls')
    ensures calls == calls'
  {
    var a: seq<int> :| Lists(slots, a, calls);
    var b: seq<int> :| Lists(slots, b, calls');
    forall i | 0 <= i < |a| ensures a[i] in b { assert a[i] in a; }
    forall i | 0 <= i < |b| ensures b[i] in a { assert b[i] in b; }
    IncreasingUnique(a, b);
  }
}
