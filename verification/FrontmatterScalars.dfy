/** What the frontmatter parser refuses, and what it makes of the characters it knows, said of
    the text itself. */
module FrontmatterScalars {
  import opened Common
  import opened Frontmatter
  import opened FrontmatterPrint
  import opened FrontmatterDocument

  // ---- Scalars --------------------------------------------------------------------------------

  /** A YAML reader would take the text for something else: a colon ends it or stands before a
      blank, or a hash stands behind one. */
  ghost predicate Misread(t: string) {
    (exists a, c :: HoldsColon(t, a, c)) || (exists a, w, c :: HoldsHash(t, a, w, c))
  }

  predicate HoldsColon(t: string, a: string, c: string) { t == a + ":" + c && (c == "" || JsSpace(c[0])) }

  predicate HoldsHash(t: string, a: string, w: char, c: string) { t == a + [w] + "#" + c && JsSpace(w) }

  lemma ColonSplits(a: string, c: string)
    requires c == "" || JsSpace(c[0])
    ensures ColonAt(a + ":" + c, |a|)
  {
    assert a + ":" + c == a + (":" + c);
  }

  lemma HashSplits(a: string, w: char, c: string)
    requires JsSpace(w)
    ensures HashAt(a + [w] + "#" + c, |a|)
  {
    assert a + [w] + "#" + c == a + ([w] + "#" + c);
  }

  lemma AmbiguousMeans(t: string)
    ensures Ambiguous(t) <==> Misread(t)
  {
    if Ambiguous(t) { AmbiguousAt(t); }
    if Misread(t) { MisreadAt(t); }
  }

  lemma AmbiguousAt(t: string)
    requires Ambiguous(t)
    ensures Misread(t)
  {
    var i :| 0 <= i < |t| && (ColonAt(t, i) || HashAt(t, i));
    if ColonAt(t, i) {
      assert HoldsColon(t, t[..i], t[i + 1..]);
    } else {
      assert HoldsHash(t, t[..i], t[i], t[i + 2..]);
    }
  }

  lemma MisreadAt(t: string)
    requires Misread(t)
    ensures Ambiguous(t)
  {
    if a, c :| HoldsColon(t, a, c) {
      ColonSplits(a, c);
    } else {
      var a, w, c :| HoldsHash(t, a, w, c);
      HashSplits(a, w, c);
    }
  }

  /** The same quotation mark at both ends, and they are two. */
  predicate InQuotes(t: string) {
    |t| > 1 && (('"' == t[0] && '"' == t[|t| - 1]) || ('\'' == t[0] && '\'' == t[|t| - 1]))
  }

  /** A scalar in any blanks: what stands in quotes is taken as it is, a text YAML would misread is
      refused, any other is itself. */
  lemma ScalarMeans(left: string, t: string, right: string)
    requires AllSpace(left) && AllSpace(right) && (t != "" ==> !JsSpace(t[0]) && !JsSpace(t[|t| - 1]))
    ensures InQuotes(t) ==> Scalar(left + t + right) == Ok(t[1..|t| - 1])
    ensures !InQuotes(t) && Misread(t) ==> Scalar(left + t + right) == Error(AmbiguousScalar)
    ensures !InQuotes(t) && !Misread(t) ==> Scalar(left + t + right) == Ok(t)
  {
    StripPadded(JsSpace, left, t, right);
    AmbiguousMeans(t);
  }

  /** A text that may stand where a scalar stands. */
  ghost predicate Readable(value: string) {
    exists left, t, right :: Padded(value, left, t, right) && (InQuotes(t) || !Misread(t))
  }

  ghost predicate Padded(value: string, left: string, t: string, right: string) {
    && value == left + t + right && AllSpace(left) && AllSpace(right)
    && (t != "" ==> !JsSpace(t[0]) && !JsSpace(t[|t| - 1]))
  }

  lemma Trimmed(value: string) returns (left: string, t: string, right: string)
    ensures Padded(value, left, t, right) && t == Trim(value)
  {
    var tail := StripLeft(JsSpace, value);
    StripLeftSplits(JsSpace, value);
    t := Trim(value);
    left := value[..|value| - |tail|];
    assert value == left + tail;
    right := RightCut(tail, t);
    assert left + t + right == left + (t + right);
  }

  lemma RightCut(tail: string, t: string) returns (right: string)
    requires t == StripRight(JsSpace, tail) && (tail != "" ==> !JsSpace(tail[0]))
    ensures tail == t + right && AllSpace(right) && (t != "" ==> !JsSpace(t[0]) && !JsSpace(t[|t| - 1]))
  {
    StripRightSplits(JsSpace, tail);
    right := tail[|t|..];
    assert t != "" ==> t[0] == tail[0];
  }

  lemma AcceptedIsReadable(value: string)
    requires Scalar(value).Ok?
    ensures Readable(value)
  {
    var left, t, right := Trimmed(value);
    ScalarMeans(left, t, right);
  }

  // ---- No accepted text is misread ----------------------------------------------------------------

  /** The values of a block's lines can be read, as items or as pairs. */
  lemma {:induction false} AcceptedItems(block: seq<string>, items: seq<string>)
    requires ItemsOf(block, items).Ok?
    ensures forall i :: 0 <= i < |block| ==> ItemOf(block[i]).Some? && Readable(ItemOf(block[i]).value)
    decreases |block|
  {
    if block != [] {
      AcceptedIsReadable(ItemOf(block[0]).value);
      AcceptedItems(block[1..], items + [Scalar(ItemOf(block[0]).value).value]);
      assert forall i :: 0 < i < |block| ==> block[i] == block[1..][i - 1];
    }
  }

  lemma {:induction false} AcceptedPairs(block: seq<string>, table: map<string, string>)
    requires PairsOf(block, table).Ok?
    ensures forall i :: 0 <= i < |block| ==> PairOf(block[i]).Some? && Readable(PairOf(block[i]).value.1)
    decreases |block|
  {
    if block != [] {
      var (key, raw) := PairOf(block[0]).value;
      AcceptedIsReadable(raw);
      AcceptedPairs(block[1..], table[key := Scalar(raw).value]);
      assert forall i :: 0 < i < |block| ==> block[i] == block[1..][i - 1];
    }
  }

  /** What an accepted entry line opens: a folded scalar, a block whose lines can all be read, or a
      value on its own line that can. */
  ghost predicate OpensReadable(value: string, below: seq<string>) {
    if Trim(value) == ">" || Trim(value) == ">-" then true
    else if Trim(value) == "" then
      var block := Content(below[..SpanLines(InBlock, below)]);
      && block != []
      && ((forall i :: 0 <= i < |block| ==> ItemOf(block[i]).Some? && Readable(ItemOf(block[i]).value))
          || (forall i :: 0 <= i < |block| ==> PairOf(block[i]).Some? && Readable(PairOf(block[i]).value.1)))
    else Readable(value)
  }

  lemma AcceptedBlock(block: seq<string>)
    requires BlockValue(block).Ok?
    ensures block != []
    ensures (forall i :: 0 <= i < |block| ==> ItemOf(block[i]).Some? && Readable(ItemOf(block[i]).value))
      || (forall i :: 0 <= i < |block| ==> PairOf(block[i]).Some? && Readable(PairOf(block[i]).value.1))
  {
    if StartsItem(block[0]) { AcceptedItems(block, []); } else { AcceptedPairs(block, map[]); }
  }

  lemma AcceptedInline(raw: string)
    requires Scalar(Trim(raw)).Ok?
    ensures Readable(raw)
  {
    var left, rest, right := Trimmed(raw);
    assert "" + rest + "" == rest;
    ScalarMeans("", rest, "");
    assert Padded(raw, left, rest, right);
  }

  lemma AcceptedValue(raw: string, below: seq<string>)
    requires EntryValue(Trim(raw), below).Ok?
    ensures OpensReadable(raw, below)
  {
    var rest := Trim(raw);
    if rest == "" {
      AcceptedBlock(Content(below[..SpanLines(InBlock, below)]));
    } else if rest != ">" && rest != ">-" {
      AcceptedInline(raw);
    }
  }

  /** Every line at the left margin of an accepted text that is neither blank nor a comment is an
      entry, and what it opens can be read.  No accepted text holds, in an entry, an item or a pair, an
      unquoted value that YAML would misread. */
  lemma {:induction false} AcceptedIsReadThrough(lines: seq<string>, data: Data, k: nat)
    requires ParseRest(lines, data).Ok? && k < |lines| && !InBlock(lines[k])
    ensures EntryOf(lines[k]).Some? && OpensReadable(EntryOf(lines[k]).value.1, lines[k + 1..])
    decreases |lines|
  {
    if IsBlank(lines[0]) {
      AcceptedIsReadThrough(lines[1..], data, k - 1);
      assert lines[1..][k - 1] == lines[k] && lines[1..][k - 1 + 1..] == lines[k + 1..];
    } else {
      var key, rest, value, n := AcceptedStep(lines, data);
      if k == 0 {
        AcceptedValue(EntryOf(lines[0]).value.1, lines[1..]);
      } else {
        assert lines[1..][k - 1] == lines[k];
        TakenIsInBlock(rest, lines[1..], k - 1);
        var later, j := lines[1 + n..], k - 1 - n;
        assert later[j] == lines[k] && later[j + 1..] == lines[k + 1..];
        AcceptedIsReadThrough(later, data[key := value], j);
      }
    }
  }

  /** A line at the margin is not taken by the entry above it. */
  lemma TakenIsInBlock(rest: string, below: seq<string>, i: nat)
    requires EntryValue(rest, below).Ok? && i < |below| && !InBlock(below[i])
    ensures EntryValue(rest, below).value.1 <= i
  {
    SpanSatisfies(InFold, below);
    SpanSatisfies(InBlock, below);
  }

  // ---- Lines are what they say -----------------------------------------------------------------------

  lemma {:induction false} SpanTaken(p: char -> bool, s: string)
    ensures All(p, s[..Span(p, s)]) && (Span(p, s) < |s| ==> !p(s[Span(p, s)]))
  {
    if s != "" && p(s[0]) {
      SpanTaken(p, s[1..]);
      assert s[..Span(p, s)] == [s[0]] + s[1..][..Span(p, s[1..])];
    }
  }

  /** A line read as an entry is a key, a colon and a rest on one line. */
  lemma EntryIs(line: string)
    requires EntryOf(line).Some?
    ensures var (key, rest) := EntryOf(line).value; line == key + ":" + rest && KeyShape(key) && OneLine(rest)
  {
    SpanTaken(KeyChar, line);
    var n := Span(KeyChar, line);
    assert line[..n][0] == line[0];
  }

  predicate Blanks(s: string) { s != "" && AllSpace(s) }

  /** Blanks and a text on one line. */
  predicate IsGapAndText(rest: string, gap: string, text: string) {
    Blanks(gap) && rest == gap + text && text != "" && OneLine(text)
  }

  predicate IsItemLine(line: string, indent: string, gap: string, text: string) {
    Blanks(indent) && IsGapAndText(gap + text, gap, text) && line == indent + ("-" + (gap + text))
  }

  predicate IsPairLine(line: string, indent: string, key: string, gap: string, text: string) {
    && Blanks(indent) && KeyShape(key) && IsGapAndText(gap + text, gap, text)
    && line == indent + (key + (":" + (gap + text)))
  }

  lemma BlanksThenText(rest: string) returns (gap: string)
    requires AfterBlanks(rest).Some?
    ensures IsGapAndText(rest, gap, AfterBlanks(rest).value)
  {
    SpanTaken(JsSpace, rest);
    var text := AfterBlanks(rest).value;
    gap := rest[..|rest| - |text|];
    assert rest == gap + text;
    assert gap == rest[..Span(JsSpace, rest)][..|gap|];
  }

  /** A line read as an item is blanks, a dash, blanks and a text. */
  lemma ItemIs(line: string)
    requires ItemOf(line).Some?
    ensures exists indent, gap :: IsItemLine(line, indent, gap, ItemOf(line).value)
  {
    SpanTaken(JsSpace, line);
    var w := Span(JsSpace, line);
    var gap := BlanksThenText(line[w + 1..]);
    assert line == line[..w] + ("-" + line[w + 1..]);
    assert IsItemLine(line, line[..w], gap, ItemOf(line).value);
  }

  /** A line read as a pair is blanks, a key, a colon, blanks and a text. */
  lemma PairIs(line: string)
    requires PairOf(line).Some?
    ensures exists indent, gap :: IsPairLine(line, indent, PairOf(line).value.0, gap, PairOf(line).value.1)
  {
    SpanTaken(JsSpace, line);
    var w := Span(JsSpace, line);
    var rest := KeyOpens(line[w..]);
    var gap := BlanksThenText(rest);
    assert line == line[..w] + line[w..];
    assert IsPairLine(line, line[..w], PairOf(line).value.0, gap, PairOf(line).value.1);
  }

  lemma KeyOpens(body: string) returns (rest: string)
    requires body != "" && Letter(body[0]) && Span(KeyChar, body) < |body| && body[Span(KeyChar, body)] == ':'
    ensures rest == body[Span(KeyChar, body) + 1..] && KeyShape(body[..Span(KeyChar, body)])
    ensures body == body[..Span(KeyChar, body)] + (":" + rest)
  {
    SpanTaken(KeyChar, body);
    var n := Span(KeyChar, body);
    rest := body[n + 1..];
    assert body[..n][0] == body[0];
    assert body == body[..n] + [body[n]] + rest;
  }

  // ---- Names and markers ----------------------------------------------------------------------------

  predicate InAlphabet(c: char) {
    c in "ABCDEFGHIJKLMNOPQRSTUVWXYZ" || c in "abcdefghijklmnopqrstuvwxyz"
  }

  predicate InKey(c: char) { InAlphabet(c) || c in "0123456789" || c == '_' || c == '-' }

  /** Which keys are keys. */
  lemma KeysAre(key: string)
    ensures KeyShape(key) <==> key != "" && InAlphabet(key[0]) && forall i :: 0 <= i < |key| ==> InKey(key[i])
  {
    forall c: char ensures (Letter(c) <==> InAlphabet(c)) && (KeyChar(c) <==> InKey(c)) { LettersAre(c); }
  }

  lemma LettersAre(c: char)
    ensures 'A' <= c <= 'Z' <==> c in "ABCDEFGHIJKLMNOPQRSTUVWXYZ"
    ensures 'a' <= c <= 'z' <==> c in "abcdefghijklmnopqrstuvwxyz"
    ensures '0' <= c <= '9' <==> c in "0123456789"
  {
    CapitalsAre(c);
    SmallAre(c);
  }

  lemma CapitalsAre(c: char)
    ensures 'A' <= c <= 'Z' <==> c in "ABCDEFGHIJKLMNOPQRSTUVWXYZ"
  {
  }

  lemma SmallAre(c: char)
    ensures 'a' <= c <= 'z' <==> c in "abcdefghijklmnopqrstuvwxyz"
  {
  }

  /** Which of them the parser takes for repeated in an empty document. */
  lemma OneEntry(key: string)
    requires KeyShape(key)
    ensures ParseLines([key + ": x"]) == if Everywhere(key) then Error(RepeatedKey) else Ok(map[key := Str("x")])
  {
    var line := key + (":" + " x");
    assert key + ": x" == line;
    KeyLine(key, " x");
    LetterRead();
    OneLineDocument(line, key);
    InheritedAre(key);
  }

  /** A key that every object has. */
  predicate Everywhere(key: string) {
    || key == "constructor" || key == "hasOwnProperty" || key == "isPrototypeOf" || key == "propertyIsEnumerable"
    || key == "toLocaleString" || key == "toString" || key == "valueOf"
  }

  lemma InheritedAre(key: string)
    ensures key in INHERITED <==> Everywhere(key)
  {
  }

  lemma OneLineDocument(line: string, key: string)
    requires EntryOf(line) == Some((key, " x")) && !IsBlank(line)
    requires Trim(" x") == "x" && EntryValue("x", []) == Ok((Str("x"), 0))
    ensures ParseLines([line]) == if key in INHERITED then Error(RepeatedKey) else Ok(map[key := Str("x")])
  {
    assert [line][0] == line && [line][1..] == [];
    if key !in INHERITED {
      ParseEntryLine([line], map[], key, " x", Str("x"), 0);
      assert [line][1..][0..] == [];
    }
  }

  lemma LetterRead()
    ensures Trim(" x") == "x" && EntryValue("x", []) == Ok((Str("x"), 0))
  {
    StripPadded(JsSpace, " ", "x", "");
    assert " " + "x" + "" == " x" && "" + "x" + "" == "x";
    OneLetter();
    ScalarMeans("", "x", "");
  }

  lemma OneLetter()
    ensures !Misread("x") && !InQuotes("x") && !IsFold("x")
  {
    AmbiguousMeans("x");
  }

  /** The words of a folded scalar are joined by single spaces, under either marker. */
  lemma WordsAreSpaced(words: seq<string>, word: string)
    ensures JoinWords([word]) == word
    ensures words != [] ==> JoinWords(words + [word]) == JoinWords(words) + " " + word
  {
    if |words| > 1 {
      assert (words + [word])[1..] == words[1..] + [word];
      WordsAreSpaced(words[1..], word);
      assert words[0] + " " + (JoinWords(words[1..]) + " " + word) == JoinWords(words) + " " + word;
    } else if |words| == 1 {
      assert words + [word] == [words[0], word] && [words[0], word][1..] == [word];
    }
  }

  lemma FoldsAre(rest: string, below: seq<string>)
    requires rest == ">" || rest == ">-"
    ensures EntryValue(rest, below) ==
      Ok((Str(JoinWords(Words(below[..SpanLines(InFold, below)]))), SpanLines(InFold, below)))
  {
  }

  // ---- Documents and tools ----------------------------------------------------------------------------

  /** What is no document: one whose body is blank, or holds two braces in a row. */
  lemma RefusedBodies(source: string, inside: string, yaml: string, body: string)
    requires AfterRule(source) == Some(inside) && FirstFence(inside) == Some((yaml, body))
    ensures AllSpace(body) ==> SplitDocument(source) == Refused(NoBody)
    ensures !AllSpace(body) && (exists a, b :: Trim(body) == a + "{{" + b) ==> SplitDocument(source) == Refused(HoldsToken)
  {
    if AllSpace(body) { StripLeftBlank(JsSpace, body); }
    else { SolidIsKept(body); }
    if a, b :| Trim(body) == a + "{{" + b {
      assert Trim(body)[|a|] == '{' && Trim(body)[|a| + 1] == '{';
    }
  }

  /** What is a document: frontmatter that parses between two rules, and a body without blanks around
      it, not empty and without two braces in a row. */
  lemma AcceptedIsFenced(source: string)
    requires SplitDocument(source).Document?
    ensures var d := SplitDocument(source);
      exists yaml, ends: (bool, bool, bool), tail ::
        && source == Fenced(yaml, ends, tail) && ParseLines(SplitLines(yaml)) == Ok(d.data)
        && d.body == Trim(tail) != "" && !HasToken(d.body)
  {
    var inside := AfterRule(source).value;
    var first := RuleIs(source);
    var (yaml, tail) := FirstFence(inside).value;
    var second, third := FenceIs(inside);
    assert source == Fenced(yaml, (first, second, third), tail);
  }

  function Fenced(yaml: string, ends: (bool, bool, bool), tail: string): string {
    "---" + (Ending(ends.0) + (yaml + Closing(ends.1, ends.2, tail)))
  }

  function Ending(crlf: bool): string { if crlf then "\r\n" else "\n" }

  lemma NewlineIs(s: string) returns (crlf: bool)
    requires AfterNewline(s).Some?
    ensures s == Ending(crlf) + AfterNewline(s).value
  {
    crlf := |s| >= 2 && s[0] == '\r' && s[1] == '\n';
  }

  lemma RuleIs(s: string) returns (crlf: bool)
    requires AfterRule(s).Some?
    ensures s == "---" + (Ending(crlf) + AfterRule(s).value)
  {
    crlf := NewlineIs(s[3..]);
    assert s == "---" + s[3..];
  }

  function Closing(before: bool, after: bool, tail: string): string {
    Ending(before) + ("---" + (Ending(after) + tail))
  }

  lemma FenceHere(s: string) returns (before: bool, after: bool)
    requires AfterFence(s).Some?
    ensures s == Closing(before, after, AfterFence(s).value)
  {
    before := NewlineIs(s);
    after := RuleIs(AfterNewline(s).value);
  }

  lemma OneCharacterMore(c: char, yaml: string, closing: string)
    ensures [c] + (yaml + closing) == ([c] + yaml) + closing
  {
  }

  lemma {:induction false} FenceIs(s: string) returns (before: bool, after: bool)
    requires FirstFence(s).Some?
    ensures s == FirstFence(s).value.0 + Closing(before, after, FirstFence(s).value.1)
  {
    if AfterFence(s).Some? {
      before, after := FenceHere(s);
      assert "" + s == s;
    } else {
      before, after := FenceIs(s[1..]);
      var (yaml, tail) := FirstFence(s[1..]).value;
      OneCharacterMore(s[0], yaml, Closing(before, after, tail));
      assert s == [s[0]] + s[1..];
    }
  }

  lemma SolidIsKept(s: string)
    requires !AllSpace(s)
    ensures Trim(s) != ""
  {
    var left, t, right := Trimmed(s);
    assert s == left + t + right;
  }

  lemma ToolNamesAre(s: string)
    ensures ToolName(s) <==>
      && s != "" && s[0] in "abcdefghijklmnopqrstuvwxyz"
      && forall i :: 0 <= i < |s| ==> s[i] in "abcdefghijklmnopqrstuvwxyz" || s[i] in "0123456789" || s[i] == '_'
  {
    forall c: char
      ensures ToolChar(c) <==> c in "abcdefghijklmnopqrstuvwxyz" || c in "0123456789" || c == '_'
    {
      ToolCharsAre(c);
    }
  }

  lemma ToolCharsAre(c: char)
    ensures ToolChar(c) <==> c in "abcdefghijklmnopqrstuvwxyz" || c in "0123456789" || c == '_'
    ensures 'a' <= c <= 'z' <==> c in "abcdefghijklmnopqrstuvwxyz"
  {
  }
}
