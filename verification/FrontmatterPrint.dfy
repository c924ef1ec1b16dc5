/** A printer for the frontmatter subset, with all its freedom of layout, and the proof
    that parsing what was printed gives back what was meant. */
module FrontmatterPrint {
  import opened Common
  import opened Frontmatter

  // ---- Layouts ------------------------------------------------------------------------------

  /** A string written on one line, quoted or as it is. */
  datatype Inline = Quoted(quote: char, text: string) | Plain(text: string)
  {
    function Print(): string { if Quoted? then [quote] + text + [quote] else text }

    /** A plain string must read the same to the parser as to a YAML reader. */
    predicate Valid() {
      && OneLine(text)
      && if Quoted? then Quote(quote)
         else text != "" && !JsSpace(text[0]) && !JsSpace(text[|text| - 1]) && !IsQuoted(text) && !Ambiguous(text)
    }
  }

  /** One line inside a folded scalar: a word, or a line of blanks. */
  datatype FoldLine = Word(indent: string, word: string, trail: string) | Gap(blanks: string)
  {
    function Print(): string { if Word? then indent + word + trail else blanks }

    predicate Valid() {
      if Word? then
        && indent != "" && AllSpace(indent) && AllSpace(trail)
        && word != "" && !JsSpace(word[0]) && !JsSpace(word[|word| - 1])
      else AllSpace(blanks)
    }
  }

  /** One line inside a block; `Comment` is any line the parser skips. */
  datatype BlockLine<T> = Line(indent: string, tag: T, gap: string, text: Inline, trail: string) | Comment(line: string)

  predicate LineValid<T>(l: BlockLine<T>) {
    if l.Line? then
      && l.indent != "" && AllSpace(l.indent) && l.gap != "" && AllSpace(l.gap)
      && AllSpace(l.trail) && OneLine(l.trail) && l.text.Valid()
    else InBlock(l.line) && IsBlank(l.line)
  }

  /** The bullet of a list item. */
  datatype Dash = Dash

  predicate KeyShape(key: string) { key != "" && Letter(key[0]) && All(KeyChar, key) }

  /** A key no JavaScript object has to begin with. */
  predicate KeyOk(key: string) { KeyShape(key) && key !in INHERITED }

  /** An entry's value with its layout. */
  datatype Styled =
    | OnKeyLine(gap: string, text: Inline, trail: string)
    | Folded(marker: string, trail: string, lines: seq<FoldLine>)
    | ItemList(trail: string, items: seq<BlockLine<Dash>>)
    | KeyMap(trail: string, pairs: seq<BlockLine<string>>)

  /** A printed document: entries, with lines between them that say nothing. */
  datatype Piece = Noise(line: string) | Entry(key: string, value: Styled)

  // ---- What is meant -----------------------------------------------------------------------

  function WordsOf(lines: seq<FoldLine>): seq<string> {
    if lines == [] then []
    else (if lines[0].Word? then [lines[0].word] else []) + WordsOf(lines[1..])
  }

  function TextsOf(items: seq<BlockLine<Dash>>): seq<string> {
    if items == [] then []
    else (if items[0].Line? then [items[0].text.text] else []) + TextsOf(items[1..])
  }

  function TagsOf(pairs: seq<BlockLine<string>>): seq<string> {
    if pairs == [] then []
    else (if pairs[0].Line? then [pairs[0].tag] else []) + TagsOf(pairs[1..])
  }

  function TableOf(pairs: seq<BlockLine<string>>, table: map<string, string>): map<string, string> {
    if pairs == [] then table
    else if pairs[0].Line? then TableOf(pairs[1..], table[pairs[0].tag := pairs[0].text.text])
    else TableOf(pairs[1..], table)
  }

  function Meaning(v: Styled): Value {
    match v
    case OnKeyLine(_, text, _) => Str(text.text)
    case Folded(_, _, lines) => Str(JoinWords(WordsOf(lines)))
    case ItemList(_, items) => Items(TextsOf(items))
    case KeyMap(_, pairs) => Table(TableOf(pairs, map[]))
  }

  function DocData(doc: seq<Piece>, data: Data): Data {
    if doc == [] then data
    else if doc[0].Entry? then DocData(doc[1..], data[doc[0].key := Meaning(doc[0].value)])
    else DocData(doc[1..], data)
  }

  function Keys(doc: seq<Piece>): seq<string> {
    if doc == [] then [] else (if doc[0].Entry? then [doc[0].key] else []) + Keys(doc[1..])
  }

  // ---- What is printed ------------------------------------------------------------------------

  function PrintItem(l: BlockLine<Dash>): string {
    if l.Line? then l.indent + ("-" + (l.gap + (l.text.Print() + l.trail))) else l.line
  }

  function PrintPair(l: BlockLine<string>): string {
    if l.Line? then l.indent + (l.tag + (":" + (l.gap + (l.text.Print() + l.trail)))) else l.line
  }

  function FoldText(lines: seq<FoldLine>): seq<string> {
    if lines == [] then [] else [lines[0].Print()] + FoldText(lines[1..])
  }

  function ItemText(items: seq<BlockLine<Dash>>): seq<string> {
    if items == [] then [] else [PrintItem(items[0])] + ItemText(items[1..])
  }

  function PairText(pairs: seq<BlockLine<string>>): seq<string> {
    if pairs == [] then [] else [PrintPair(pairs[0])] + PairText(pairs[1..])
  }

  /** What follows the colon on the key's line. */
  function PrintRest(v: Styled): string {
    match v
    case OnKeyLine(gap, text, trail) => gap + (text.Print() + trail)
    case Folded(marker, trail, _) => " " + (marker + trail)
    case ItemList(trail, _) => trail
    case KeyMap(trail, _) => trail
  }

  function PrintBelow(v: Styled): seq<string> {
    match v
    case OnKeyLine(_, _, _) => []
    case Folded(_, _, lines) => FoldText(lines)
    case ItemList(_, items) => ItemText(items)
    case KeyMap(_, pairs) => PairText(pairs)
  }

  function KeyLineOf(p: Piece): string
    requires p.Entry?
  {
    p.key + (":" + PrintRest(p.value))
  }

  function PrintDoc(doc: seq<Piece>): seq<string> {
    if doc == [] then []
    else if doc[0].Noise? then [doc[0].line] + PrintDoc(doc[1..])
    else [KeyLineOf(doc[0])] + PrintBelow(doc[0].value) + PrintDoc(doc[1..])
  }

  // ---- Which layouts are allowed ---------------------------------------------------------------

  predicate FoldValid(lines: seq<FoldLine>) { lines != [] ==> lines[0].Valid() && FoldValid(lines[1..]) }

  predicate ItemsValid(items: seq<BlockLine<Dash>>) { items != [] ==> LineValid(items[0]) && ItemsValid(items[1..]) }

  predicate PairsValid(pairs: seq<BlockLine<string>>) {
    pairs != [] ==> LineValid(pairs[0]) && (pairs[0].Line? ==> KeyShape(pairs[0].tag)) && PairsValid(pairs[1..])
  }

  predicate ValidStyle(v: Styled) {
    match v
    case OnKeyLine(gap, text, trail) =>
      && AllSpace(gap) && OneLine(gap) && AllSpace(trail) && OneLine(trail)
      && text.Valid() && !IsFold(text.Print())
    case Folded(marker, trail, lines) =>
      && IsFold(marker) && AllSpace(trail) && OneLine(trail)
      && FoldValid(lines)
    case ItemList(trail, items) =>
      && AllSpace(trail) && OneLine(trail) && TextsOf(items) != []
      && ItemsValid(items)
    case KeyMap(trail, pairs) =>
      && AllSpace(trail) && OneLine(trail) && TagsOf(pairs) != [] && Distinct(TagsOf(pairs))
      && PairsValid(pairs)
  }

  /** Between entries: a line of blanks, or a comment from the first column on. */
  predicate ValidPiece(p: Piece) {
    if p.Noise? then AllSpace(p.line) || p.line[0] == '#' else KeyShape(p.key) && ValidStyle(p.value)
  }

  /** The keys of a one-level map are no names every object inherits. */
  predicate OwnTags(v: Styled) { v.KeyMap? ==> forall k :: k in TagsOf(v.pairs) ==> k !in INHERITED }

  /** Nor are the document's keys or any of their sub-keys. */
  predicate OwnNames(doc: seq<Piece>) {
    doc != [] ==> (doc[0].Entry? ==> doc[0].key !in INHERITED && OwnTags(doc[0].value)) && OwnNames(doc[1..])
  }

  predicate AllValid(doc: seq<Piece>) { doc != [] ==> ValidPiece(doc[0]) && AllValid(doc[1..]) }

  predicate ValidDoc(doc: seq<Piece>) { Distinct(Keys(doc)) && AllValid(doc) }

  // ---- Characters ---------------------------------------------------------------------------

  lemma {:induction false} SpanStops(p: char -> bool, a: string, b: string)
    requires All(p, a) && (b != "" ==> !p(b[0]))
    ensures Span(p, a + b) == |a|
  {
    if a == "" {
      assert a + b == b;
    } else {
      assert (a + b)[1..] == a[1..] + b;
      SpanStops(p, a[1..], b);
    }
  }

  lemma TrimHead(ws: string, x: string)
    requires AllSpace(ws) && x != "" && !JsSpace(x[0])
    ensures Trim(ws + x) != "" && Trim(ws + x)[0] == x[0]
    ensures ws != "" ==> IsIndented(ws + x)
  {
    StripLeftPadded(JsSpace, ws, x);
    StripRightSplits(JsSpace, x);
    assert x[0..] == x;
    SpanStops(JsSpace, ws, x);
  }

  lemma InlineEnds(t: Inline)
    requires t.Valid()
    ensures var p := t.Print(); p != "" && !JsSpace(p[0]) && !JsSpace(p[|p| - 1]) && OneLine(p)
  {
  }

  /** However padded, a printed scalar is read as its text. */
  lemma {:induction false} ScalarOfPrinted(left: string, t: Inline, right: string)
    requires t.Valid() && AllSpace(left) && AllSpace(right)
    ensures Trim(left + t.Print() + right) == t.Print()
    ensures Scalar(left + t.Print() + right) == Ok(t.text)
  {
    InlineEnds(t);
    StripPadded(JsSpace, left, t.Print(), right);
    if t.Quoted? {
      var p := t.Print();
      assert p[0] == t.quote && p[|p| - 1] == t.quote && p[1..|p| - 1] == t.text;
    }
  }

  lemma AfterGap(gap: string, t: Inline, trail: string)
    requires gap != "" && AllSpace(gap) && AllSpace(trail) && OneLine(trail) && t.Valid()
    ensures AfterBlanks(gap + (t.Print() + trail)) == Some(t.Print() + trail)
  {
    InlineEnds(t);
    SpanStops(JsSpace, gap, t.Print() + trail);
    var rest := gap + (t.Print() + trail);
    assert rest[|gap|..] == t.Print() + trail;
  }

  lemma KeyThenColon(key: string, rest: string)
    requires KeyShape(key)
    ensures Span(KeyChar, key + (":" + rest)) == |key|
    ensures (key + (":" + rest))[..|key|] == key && (key + (":" + rest))[|key| + 1..] == rest
    ensures !JsSpace(key[0]) && key[0] != '#' && key[0] != '-'
  {
    SpanStops(KeyChar, key, ":" + rest);
  }

  // ---- Lines -------------------------------------------------------------------------------

  /** An indented line splits where its indentation ends. */
  lemma Unindent(indent: string, body: string)
    requires indent != "" && AllSpace(indent) && body != "" && !JsSpace(body[0])
    ensures var line := indent + body;
      && IsIndented(line) && Span(JsSpace, line) == |indent| && line[|indent|..] == body
      && Trim(line) != "" && Trim(line)[0] == body[0]
  {
    TrimHead(indent, body);
    SpanStops(JsSpace, indent, body);
  }

  lemma ScalarAfterGap(gap: string, t: Inline, trail: string)
    requires gap != "" && AllSpace(gap) && AllSpace(trail) && OneLine(trail) && t.Valid()
    ensures var r := AfterBlanks(gap + (t.Print() + trail)); r.Some? && Scalar(r.value) == Ok(t.text)
  {
    AfterGap(gap, t, trail);
    ScalarTrailed(t, trail);
  }

  lemma ScalarTrailed(t: Inline, trail: string)
    requires t.Valid() && AllSpace(trail)
    ensures Scalar(t.Print() + trail) == Ok(t.text)
  {
    ScalarOfPrinted("", t, trail);
    assert "" + t.Print() + trail == t.Print() + trail;
  }

  lemma DashLine(indent: string, body: string)
    requires indent != "" && AllSpace(indent) && body != "" && JsSpace(body[0])
    ensures var line := indent + ("-" + body);
      IsIndented(line) && !IsBlank(line) && StartsItem(line) && ItemOf(line) == AfterBlanks(body)
  {
    Unindent(indent, "-" + body);
    var line := indent + ("-" + body);
    assert line[|indent|..] == "-" + body;
    assert line[|indent|] == '-' && line[|indent| + 1] == body[0];
    assert line[|indent| + 1..] == body;
  }

  lemma {:induction false} ItemLine(l: BlockLine<Dash>)
    requires l.Line? && LineValid(l)
    ensures var line := PrintItem(l);
      && IsIndented(line) && !IsBlank(line) && StartsItem(line)
      && ItemOf(line).Some? && Scalar(ItemOf(line).value) == Ok(l.text.text)
  {
    DashLine(l.indent, l.gap + (l.text.Print() + l.trail));
    ScalarAfterGap(l.gap, l.text, l.trail);
  }

  lemma TagLine(indent: string, tag: string, rest: string)
    requires indent != "" && AllSpace(indent) && KeyShape(tag) && AfterBlanks(rest).Some?
    ensures var line := indent + (tag + (":" + rest));
      IsIndented(line) && !IsBlank(line) && !StartsItem(line) && PairOf(line) == Some((tag, AfterBlanks(rest).value))
  {
    KeyThenColon(tag, rest);
    var body := tag + (":" + rest);
    assert body[0] == tag[0];
    Unindent(indent, body);
    assert (indent + body)[|indent|] == body[0];
  }

  lemma {:induction false} PairLine(l: BlockLine<string>)
    requires l.Line? && LineValid(l) && KeyShape(l.tag)
    ensures var line := PrintPair(l);
      && IsIndented(line) && !IsBlank(line) && !StartsItem(line)
      && PairOf(line).Some? && PairOf(line).value.0 == l.tag && Scalar(PairOf(line).value.1) == Ok(l.text.text)
  {
    ScalarAfterGap(l.gap, l.text, l.trail);
    TagLine(l.indent, l.tag, l.gap + (l.text.Print() + l.trail));
  }

  /** The line an entry starts on. */
  lemma {:induction false} KeyLine(key: string, rest: string)
    requires KeyShape(key) && OneLine(rest)
    ensures var line := key + (":" + rest);
      && EntryOf(line) == Some((key, rest)) && !IsBlank(line) && !InFold(line) && !InBlock(line)
  {
    var line := key + (":" + rest);
    KeyThenColon(key, rest);
    TrimHead("", line);
    assert "" + line == line;
  }

  /** A line that says nothing is skipped, and only blanks extend a fold. */
  lemma NoiseLine(line: string)
    requires AllSpace(line) || line[0] == '#'
    ensures IsBlank(line) && InBlock(line) && !IsIndented(line)
    ensures InFold(line) <==> Trim(line) == ""
  {
    if AllSpace(line) {
      StripLeftBlank(JsSpace, line);
      SpanStops(JsSpace, line, "");
      assert line + "" == line;
    } else {
      TrimHead("", line);
      assert "" + line == line;
    }
  }

  lemma FoldLineIn(l: FoldLine)
    requires l.Valid()
    ensures InFold(l.Print()) && Trim(l.Print()) == if l.Word? then l.word else ""
  {
    if l.Word? {
      StripPadded(JsSpace, l.indent, l.word, l.trail);
      assert l.indent + l.word + l.trail == l.indent + (l.word + l.trail);
      TrimHead(l.indent, l.word + l.trail);
    } else {
      StripLeftBlank(JsSpace, l.blanks);
    }
  }

  // ---- Blocks --------------------------------------------------------------------------------

  lemma {:induction false} FoldRead(lines: seq<FoldLine>)
    requires FoldValid(lines)
    ensures Words(FoldText(lines)) == WordsOf(lines)
    ensures forall i :: 0 <= i < |FoldText(lines)| ==> InFold(FoldText(lines)[i])
  {
    if lines != [] {
      FoldLineIn(lines[0]);
      FoldRead(lines[1..]);
    }
  }

  lemma ContentCons(line: string, rest: seq<string>)
    ensures Content([line] + rest) == (if IsBlank(line) then [] else [line]) + Content(rest)
  {
    assert ([line] + rest)[1..] == rest;
  }

  lemma {:induction false} ItemsInBlock(items: seq<BlockLine<Dash>>)
    requires ItemsValid(items)
    ensures forall i :: 0 <= i < |ItemText(items)| ==> InBlock(ItemText(items)[i])
    ensures TextsOf(items) != [] ==> Content(ItemText(items)) != [] && StartsItem(Content(ItemText(items))[0])
  {
    if items != [] {
      ItemsInBlock(items[1..]);
      ContentCons(PrintItem(items[0]), ItemText(items[1..]));
      if items[0].Line? {
        ItemLine(items[0]);
      } else {
        assert TextsOf(items) == TextsOf(items[1..]) && Content(ItemText(items)) == Content(ItemText(items[1..]));
      }
    }
  }

  lemma {:induction false} ItemsRead(items: seq<BlockLine<Dash>>, done: seq<string>)
    requires ItemsValid(items)
    ensures ItemsOf(Content(ItemText(items)), done) == Ok(done + TextsOf(items))
  {
    if items == [] {
      assert done + [] == done;
    } else {
      var line, rest := PrintItem(items[0]), ItemText(items[1..]);
      ContentCons(line, rest);
      if items[0].Line? {
        var text := items[0].text.text;
        ItemLine(items[0]);
        ItemsRead(items[1..], done + [text]);
        ItemsCons(line, Content(rest), text, done);
        assert done + [text] + TextsOf(items[1..]) == done + ([text] + TextsOf(items[1..]));
      } else {
        ItemsRead(items[1..], done);
        assert [] + Content(rest) == Content(rest) && [] + TextsOf(items[1..]) == TextsOf(items[1..]);
      }
    }
  }

  lemma ItemsCons(line: string, block: seq<string>, text: string, done: seq<string>)
    requires ItemOf(line).Some? && Scalar(ItemOf(line).value) == Ok(text)
    ensures ItemsOf([line] + block, done) == ItemsOf(block, done + [text])
  {
    assert ([line] + block)[1..] == block;
  }

  lemma {:induction false} PairsInBlock(pairs: seq<BlockLine<string>>)
    requires PairsValid(pairs)
    ensures forall i :: 0 <= i < |PairText(pairs)| ==> InBlock(PairText(pairs)[i])
    ensures TagsOf(pairs) != [] ==> Content(PairText(pairs)) != [] && !StartsItem(Content(PairText(pairs))[0])
  {
    if pairs != [] {
      PairsInBlock(pairs[1..]);
      ContentCons(PrintPair(pairs[0]), PairText(pairs[1..]));
      if pairs[0].Line? {
        PairLine(pairs[0]);
      } else {
        assert TagsOf(pairs) == TagsOf(pairs[1..]) && Content(PairText(pairs)) == Content(PairText(pairs[1..]));
      }
    }
  }

  lemma PairsCons(line: string, block: seq<string>, table: map<string, string>, tag: string, text: string)
    requires PairOf(line).Some? && PairOf(line).value.0 == tag && Scalar(PairOf(line).value.1) == Ok(text)
    requires tag !in table && tag !in INHERITED
    ensures PairsOf([line] + block, table) == PairsOf(block, table[tag := text])
  {
    assert ([line] + block)[1..] == block;
  }

  lemma {:induction false} PairsRead(pairs: seq<BlockLine<string>>, table: map<string, string>)
    requires PairsValid(pairs)
    requires Distinct(TagsOf(pairs)) && forall k :: k in TagsOf(pairs) ==> k !in table && k !in INHERITED
    ensures PairsOf(Content(PairText(pairs)), table) == Ok(TableOf(pairs, table))
  {
    if pairs != [] {
      var line, rest, tags := PrintPair(pairs[0]), PairText(pairs[1..]), TagsOf(pairs);
      ContentCons(line, rest);
      if pairs[0].Line? {
        var tag, text := pairs[0].tag, pairs[0].text.text;
        assert tags[0] == tag && tags[1..] == TagsOf(pairs[1..]) && tag in tags;
        assert forall k :: k in tags[1..] ==> k in tags && k != tag;
        PairsRead(pairs[1..], table[tag := text]);
        PairLine(pairs[0]);
        PairsCons(line, Content(rest), table, tag, text);
      } else {
        assert tags == TagsOf(pairs[1..]) && [] + Content(rest) == Content(rest);
        PairsRead(pairs[1..], table);
      }
    }
  }

  // ---- Where a block ends ----------------------------------------------------------------------

  lemma {:induction false} SpanThrough(p: string -> bool, a: seq<string>, b: seq<string>)
    requires forall i :: 0 <= i < |a| ==> p(a[i])
    ensures SpanLines(p, a + b) == |a| + SpanLines(p, b)
  {
    if a == [] {
      assert a + b == b;
    } else {
      assert (a + b)[1..] == a[1..] + b;
      SpanThrough(p, a[1..], b);
    }
  }

  lemma {:induction false} WordsConcat(a: seq<string>, b: seq<string>)
    ensures Words(a + b) == Words(a) + Words(b)
  {
    if a == [] {
      assert a + b == b;
    } else {
      assert (a + b)[1..] == a[1..] + b;
      WordsConcat(a[1..], b);
    }
  }

  lemma {:induction false} ContentConcat(a: seq<string>, b: seq<string>)
    ensures Content(a + b) == Content(a) + Content(b)
  {
    if a == [] {
      assert a + b == b;
    } else {
      assert (a + b)[1..] == a[1..] + b;
      ContentConcat(a[1..], b);
    }
  }

  lemma RestOneLine(v: Styled)
    requires ValidStyle(v)
    ensures OneLine(PrintRest(v))
  {
    if v.OnKeyLine? { InlineEnds(v.text); }
  }

  lemma FirstLine(doc: seq<Piece>)
    requires doc != [] && doc[0].Entry? && AllValid(doc)
    ensures PrintDoc(doc) != [] && !IsBlank(PrintDoc(doc)[0])
    ensures EntryOf(PrintDoc(doc)[0]) == Some((doc[0].key, PrintRest(doc[0].value)))
    ensures !InBlock(PrintDoc(doc)[0]) && !InFold(PrintDoc(doc)[0])
  {
    RestOneLine(doc[0].value);
    KeyLine(doc[0].key, PrintRest(doc[0].value));
  }

  /** What a run of `p`-lines takes of the entries after it says nothing. */
  ghost predicate Swallows(lines: seq<string>, n: nat, data: Data) {
    n <= |lines| && Content(lines[..n]) == [] && ParseRest(lines[n..], data) == ParseRest(lines, data)
  }

  ghost predicate SaysNothing(p: string -> bool, lines: seq<string>, n: nat) {
    n <= |lines| && forall i :: 0 <= i < n ==> p(lines[i])
  }

  lemma {:induction false} BlankLinesSwallowed(lines: seq<string>, n: nat, data: Data)
    requires SaysNothing(IsBlank, lines, n)
    ensures Swallows(lines, n, data)
  {
    if n == 0 {
      assert lines[0..] == lines;
    } else {
      BlankLinesSwallowed(lines[1..], n - 1, data);
      assert lines[1..][n - 1..] == lines[n..];
      assert lines[..n] == [lines[0]] + lines[1..][..n - 1];
      ContentCons(lines[0], lines[1..][..n - 1]);
    }
  }

  lemma {:induction false} EmptyLinesHaveNoWords(lines: seq<string>)
    requires forall i :: 0 <= i < |lines| ==> Trim(lines[i]) == ""
    ensures Words(lines) == []
  {
    if lines != [] { EmptyLinesHaveNoWords(lines[1..]); }
  }

  /** The lines after a value that a block or a fold still takes. */
  lemma {:induction false} BlockRunIsBlank(doc: seq<Piece>, lines: seq<string>)
    requires AllValid(doc) && lines == PrintDoc(doc)
    ensures SaysNothing(IsBlank, lines, SpanLines(InBlock, lines))
  {
    if doc != [] {
      if doc[0].Noise? {
        NoiseLine(doc[0].line);
        assert lines[1..] == PrintDoc(doc[1..]);
        BlockRunIsBlank(doc[1..], lines[1..]);
      } else {
        FirstLine(doc);
      }
    }
  }

  predicate IsEmpty(line: string) { Trim(line) == "" }

  lemma {:induction false} FoldRunIsEmpty(doc: seq<Piece>, lines: seq<string>)
    requires AllValid(doc) && lines == PrintDoc(doc)
    ensures SaysNothing(IsEmpty, lines, SpanLines(InFold, lines))
  {
    if doc != [] {
      if doc[0].Noise? {
        NoiseLine(doc[0].line);
        assert lines[1..] == PrintDoc(doc[1..]);
        FoldRunIsEmpty(doc[1..], lines[1..]);
      } else {
        FirstLine(doc);
      }
    }
  }

  lemma RunsSwallowNoise(doc: seq<Piece>, data: Data)
    requires AllValid(doc)
    ensures var lines := PrintDoc(doc);
      && Swallows(lines, SpanLines(InBlock, lines), data)
      && Swallows(lines, SpanLines(InFold, lines), data) && Words(lines[..SpanLines(InFold, lines)]) == []
  {
    var lines := PrintDoc(doc);
    BlockRunIsBlank(doc, lines);
    BlankLinesSwallowed(lines, SpanLines(InBlock, lines), data);
    FoldRunIsEmpty(doc, lines);
    BlankLinesSwallowed(lines, SpanLines(InFold, lines), data);
    EmptyLinesHaveNoWords(lines[..SpanLines(InFold, lines)]);
  }

  // ---- The round trip ---------------------------------------------------------------------------

  /** A run of lines that satisfy `p` extends into what follows. */
  lemma SpanSplits(p: string -> bool, a: seq<string>, b: seq<string>, n: nat, m: nat)
    requires forall i :: 0 <= i < |a| ==> p(a[i])
    requires n == SpanLines(p, a + b) && m == SpanLines(p, b)
    ensures n == |a| + m && (a + b)[..n] == a + b[..m] && (a + b)[n..] == b[m..]
  {
    SpanThrough(p, a, b);
  }

  lemma BlockRead(text: seq<string>, rest: seq<string>, n: nat, m: nat)
    requires forall i :: 0 <= i < |text| ==> InBlock(text[i])
    requires n == SpanLines(InBlock, text + rest) && m == SpanLines(InBlock, rest) && Content(rest[..m]) == []
    ensures Content((text + rest)[..n]) == Content(text) && (text + rest)[n..] == rest[m..]
  {
    SpanSplits(InBlock, text, rest, n, m);
    ContentConcat(text, rest[..m]);
  }

  lemma FoldBlockRead(text: seq<string>, rest: seq<string>, n: nat, m: nat)
    requires forall i :: 0 <= i < |text| ==> InFold(text[i])
    requires n == SpanLines(InFold, text + rest) && m == SpanLines(InFold, rest) && Words(rest[..m]) == []
    ensures Words((text + rest)[..n]) == Words(text) && (text + rest)[n..] == rest[m..]
  {
    SpanSplits(InFold, text, rest, n, m);
    WordsConcat(text, rest[..m]);
  }

  /** What `ValueRead` promises of one value and the lines printed below its key. */
  ghost predicate ReadAs(v: Styled, below: seq<string>, n: nat) {
    EntryValue(Trim(PrintRest(v)), below) == Ok((Meaning(v), n))
  }

  lemma InlineRead(v: Styled, rest: seq<string>)
    requires v.OnKeyLine? && ValidStyle(v)
    ensures ReadAs(v, rest, 0)
  {
    var t := v.text;
    InlineEnds(t);
    ScalarOfPrinted(v.gap, t, v.trail);
    assert v.gap + t.Print() + v.trail == PrintRest(v);
    ScalarOfPrinted("", t, "");
    assert "" + t.Print() + "" == t.Print();
  }

  lemma FoldedRead(v: Styled, rest: seq<string>)
    requires v.Folded? && ValidStyle(v) && Words(rest[..SpanLines(InFold, rest)]) == []
    ensures var below := PrintBelow(v) + rest; ReadAs(v, below, SpanLines(InFold, below))
  {
    StripPadded(JsSpace, " ", v.marker, v.trail);
    assert " " + v.marker + v.trail == PrintRest(v);
    FoldRead(v.lines);
    FoldBlockRead(FoldText(v.lines), rest, SpanLines(InFold, PrintBelow(v) + rest), SpanLines(InFold, rest));
  }

  lemma ListRead(v: Styled, rest: seq<string>)
    requires v.ItemList? && ValidStyle(v) && Content(rest[..SpanLines(InBlock, rest)]) == []
    ensures var below := PrintBelow(v) + rest; ReadAs(v, below, SpanLines(InBlock, below))
  {
    StripLeftBlank(JsSpace, v.trail);
    ItemsRead(v.items, []);
    assert [] + TextsOf(v.items) == TextsOf(v.items);
    ItemsInBlock(v.items);
    BlockRead(ItemText(v.items), rest, SpanLines(InBlock, PrintBelow(v) + rest), SpanLines(InBlock, rest));
  }

  lemma MapRead(v: Styled, rest: seq<string>)
    requires v.KeyMap? && ValidStyle(v) && OwnTags(v) && Content(rest[..SpanLines(InBlock, rest)]) == []
    ensures var below := PrintBelow(v) + rest; ReadAs(v, below, SpanLines(InBlock, below))
  {
    StripLeftBlank(JsSpace, v.trail);
    PairsRead(v.pairs, map[]);
    PairsInBlock(v.pairs);
    BlockRead(PairText(v.pairs), rest, SpanLines(InBlock, PrintBelow(v) + rest), SpanLines(InBlock, rest));
  }

  /** An entry's value is read back, whatever valid entries follow. */
  lemma {:induction false} ValueRead(doc: seq<Piece>, below: seq<string>, data: Data) returns (n: nat)
    requires doc != [] && doc[0].Entry? && AllValid(doc) && OwnTags(doc[0].value)
    requires below == PrintBelow(doc[0].value) + PrintDoc(doc[1..])
    ensures ReadAs(doc[0].value, below, n) && n <= |below|
    ensures ParseRest(below[n..], data) == ParseRest(PrintDoc(doc[1..]), data)
  {
    var v, after := doc[0].value, doc[1..];
    var text, rest := PrintBelow(v), PrintDoc(after);
    RunsSwallowNoise(after, data);
    match v
    case OnKeyLine(_, _, _) =>
      n := 0;
      InlineRead(v, text + rest);
      assert text + rest == rest && rest[0..] == rest;
    case Folded(_, _, lines) =>
      n := SpanLines(InFold, text + rest);
      FoldedRead(v, rest);
      FoldRead(lines);
      FoldBlockRead(text, rest, n, SpanLines(InFold, rest));
    case ItemList(_, items) =>
      n := SpanLines(InBlock, text + rest);
      ListRead(v, rest);
      ItemsInBlock(items);
      BlockRead(text, rest, n, SpanLines(InBlock, rest));
    case KeyMap(_, pairs) =>
      n := SpanLines(InBlock, text + rest);
      MapRead(v, rest);
      PairsInBlock(pairs);
      BlockRead(text, rest, n, SpanLines(InBlock, rest));
  }

  /** One entry line and what belongs to it. */
  lemma ParseEntryLine(lines: seq<string>, data: Data, key: string, rest: string, value: Value, n: nat)
    requires lines != [] && EntryOf(lines[0]) == Some((key, rest)) && !IsBlank(lines[0])
    requires key !in data && key !in INHERITED
    requires EntryValue(Trim(rest), lines[1..]) == Ok((value, n)) && n <= |lines[1..]|
    ensures ParseRest(lines, data) == ParseRest(lines[1..][n..], data[key := value])
  {
    assert lines[1 + n..] == lines[1..][n..];
  }

  /** Parsing a printed document continues any data it does not clash with. */
  lemma {:induction false} ParsePrinted(doc: seq<Piece>, data: Data)
    requires ValidDoc(doc) && OwnNames(doc) && forall k :: k in Keys(doc) ==> k !in data
    ensures ParseRest(PrintDoc(doc), data) == Ok(DocData(doc, data))
  {
    if doc != [] {
      var rest, lines := doc[1..], PrintDoc(doc);
      if doc[0].Noise? {
        assert Keys(doc) == Keys(rest);
        ParsePrinted(rest, data);
        ParseNoiseLine(doc[0].line, PrintDoc(rest), data);
      } else {
        var key, v := doc[0].key, doc[0].value;
        OwnKeys(doc);
        KeysDiffer(doc, data, key);
        ParsePrinted(rest, data[key := Meaning(v)]);
        ParseOneEntry(doc, data, lines);
      }
    }
  }

  lemma ParseNoiseLine(line: string, rest: seq<string>, data: Data)
    requires AllSpace(line) || line[0] == '#'
    ensures ParseRest([line] + rest, data) == ParseRest(rest, data)
  {
    NoiseLine(line);
    assert ([line] + rest)[1..] == rest;
  }

  lemma FirstEntry(doc: seq<Piece>, lines: seq<string>)
    requires doc != [] && doc[0].Entry? && AllValid(doc) && lines == PrintDoc(doc)
    ensures lines != [] && EntryOf(lines[0]) == Some((doc[0].key, PrintRest(doc[0].value))) && !IsBlank(lines[0])
  {
    FirstLine(doc);
  }

  lemma ParseOneEntry(doc: seq<Piece>, data: Data, lines: seq<string>)
    requires doc != [] && doc[0].Entry? && AllValid(doc) && doc[0].key !in data && doc[0].key !in INHERITED
    requires OwnTags(doc[0].value)
    requires lines == PrintDoc(doc)
    ensures ParseRest(lines, data) == ParseRest(PrintDoc(doc[1..]), data[doc[0].key := Meaning(doc[0].value)])
  {
    var key, v, rest := doc[0].key, doc[0].value, PrintDoc(doc[1..]);
    FirstEntry(doc, lines);
    EntrySplits(doc, lines, PrintBelow(v), rest);
    var n := ValueRead(doc, lines[1..], data[key := Meaning(v)]);
    ParseEntryLine(lines, data, key, PrintRest(v), Meaning(v), n);
  }

  lemma EntrySplits(doc: seq<Piece>, lines: seq<string>, below: seq<string>, rest: seq<string>)
    requires doc != [] && doc[0].Entry? && lines == PrintDoc(doc)
    requires below == PrintBelow(doc[0].value) && rest == PrintDoc(doc[1..])
    ensures lines != [] && lines[1..] == below + rest
  {
    PrintSplits(doc, KeyLineOf(doc[0]), below, rest);
  }

  lemma KeysDiffer(doc: seq<Piece>, data: Data, key: string)
    requires doc != [] && doc[0].Entry? && doc[0].key == key && Distinct(Keys(doc))
    requires forall k :: k in Keys(doc) ==> k !in data && k !in INHERITED
    ensures key !in data && key !in INHERITED && Distinct(Keys(doc[1..]))
    ensures forall k :: k in Keys(doc[1..]) ==> k !in data && k !in INHERITED && k != key
  {
    var keys := Keys(doc);
    assert keys[0] == key && keys[1..] == Keys(doc[1..]) && key in keys;
    assert forall k :: k in keys[1..] ==> k in keys && k != key;
  }

  lemma {:induction false} OwnKeys(doc: seq<Piece>)
    requires OwnNames(doc)
    ensures forall k :: k in Keys(doc) ==> k !in INHERITED
  {
    if doc != [] { OwnKeys(doc[1..]); }
  }

  // ---- What an accepted document says of its names -------------------------------------------------

  lemma {:induction false} PairsAccepted(pairs: seq<BlockLine<string>>, table: map<string, string>)
    requires PairsValid(pairs) && PairsOf(Content(PairText(pairs)), table).Ok?
    ensures forall k :: k in TagsOf(pairs) ==> k !in INHERITED
  {
    if pairs != [] {
      var line, rest := PrintPair(pairs[0]), PairText(pairs[1..]);
      ContentCons(line, rest);
      if pairs[0].Line? {
        PairLine(pairs[0]);
        assert ([line] + Content(rest))[1..] == Content(rest);
        PairsAccepted(pairs[1..], table[pairs[0].tag := pairs[0].text.text]);
      } else {
        assert [] + Content(rest) == Content(rest);
        PairsAccepted(pairs[1..], table);
      }
    }
  }

  lemma MapAccepted(v: Styled, rest: seq<string>)
    requires v.KeyMap? && ValidStyle(v) && Content(rest[..SpanLines(InBlock, rest)]) == []
    requires EntryValue(Trim(PrintRest(v)), PrintBelow(v) + rest).Ok?
    ensures OwnTags(v)
  {
    StripLeftBlank(JsSpace, v.trail);
    PairsInBlock(v.pairs);
    BlockRead(PairText(v.pairs), rest, SpanLines(InBlock, PrintBelow(v) + rest), SpanLines(InBlock, rest));
    PairsAccepted(v.pairs, map[]);
  }

  /** An accepted document has only names of its own. */
  lemma {:induction false} AcceptedOwnsNames(doc: seq<Piece>, data: Data)
    requires AllValid(doc) && ParseRest(PrintDoc(doc), data).Ok?
    ensures OwnNames(doc)
  {
    if doc != [] {
      if doc[0].Noise? {
        ParseNoiseLine(doc[0].line, PrintDoc(doc[1..]), data);
        AcceptedOwnsNames(doc[1..], data);
      } else {
        FirstNameOwned(doc, data);
        ParseOneEntry(doc, data, PrintDoc(doc));
        AcceptedOwnsNames(doc[1..], data[doc[0].key := Meaning(doc[0].value)]);
      }
    }
  }

  lemma FirstNameOwned(doc: seq<Piece>, data: Data)
    requires doc != [] && doc[0].Entry? && AllValid(doc) && ParseRest(PrintDoc(doc), data).Ok?
    ensures doc[0].key !in data && doc[0].key !in INHERITED && OwnTags(doc[0].value)
  {
    var lines, v := PrintDoc(doc), doc[0].value;
    FirstEntry(doc, lines);
    EntryAccepted(lines, data, doc[0].key, PrintRest(v));
    PrintSplits(doc, lines[0], PrintBelow(v), PrintDoc(doc[1..]));
    if v.KeyMap? {
      RunsSwallowNoise(doc[1..], data);
      MapAccepted(v, PrintDoc(doc[1..]));
    }
  }

  lemma EntryAccepted(lines: seq<string>, data: Data, key: string, rest: string)
    requires lines != [] && !IsBlank(lines[0]) && EntryOf(lines[0]) == Some((key, rest)) && ParseRest(lines, data).Ok?
    ensures key !in data && key !in INHERITED && EntryValue(Trim(rest), lines[1..]).Ok?
  {
  }

  /** Frontmatter round trip: printing distinct keys with their values in any allowed layout,
      with blank and comment lines anywhere between, then parsing, gives back what was meant;
      unless a key or sub-key is a name every object inherits, which the parser takes for a
      repeat. */
  lemma {:induction false} RoundTrip(doc: seq<Piece>)
    requires ValidDoc(doc)
    ensures ParseLines(PrintDoc(doc)) == Ok(DocData(doc, map[])) <==> OwnNames(doc)
  {
    if OwnNames(doc) { ParsePrinted(doc, map[]); }
    if ParseLines(PrintDoc(doc)).Ok? { AcceptedOwnsNames(doc, map[]); }
  }

  // ---- No key twice ---------------------------------------------------------------------------

  function HeaderOf(line: string): seq<string> {
    if InBlock(line) || EntryOf(line).None? then [] else [EntryOf(line).value.0]
  }

  /** The keys of the lines at the left margin that are neither blank nor comments. */
  function Headers(lines: seq<string>): seq<string> {
    if lines == [] then [] else HeaderOf(lines[0]) + Headers(lines[1..])
  }

  lemma HeadersCons(line: string, rest: seq<string>)
    ensures Headers([line] + rest) == HeaderOf(line) + Headers(rest)
  {
    assert ([line] + rest)[1..] == rest;
  }

  lemma {:induction false} HeadersConcat(a: seq<string>, b: seq<string>)
    ensures Headers(a + b) == Headers(a) + Headers(b)
  {
    if a == [] {
      assert a + b == b;
    } else {
      assert a + b == [a[0]] + (a[1..] + b);
      HeadersConcat(a[1..], b);
      HeadersCons(a[0], a[1..] + b);
    }
  }

  lemma {:induction false} NoHeadersInside(lines: seq<string>)
    requires forall i :: 0 <= i < |lines| ==> InBlock(lines[i])
    ensures Headers(lines) == []
  {
    if lines != [] { NoHeadersInside(lines[1..]); }
  }

  lemma {:induction false} SpanSatisfies(p: string -> bool, lines: seq<string>)
    ensures forall i :: 0 <= i < SpanLines(p, lines) ==> p(lines[i])
  {
    if lines != [] && p(lines[0]) {
      SpanSatisfies(p, lines[1..]);
      assert forall i :: 0 < i < SpanLines(p, lines) ==> lines[i] == lines[1..][i - 1];
    }
  }

  /** The lines an entry takes below its own hold no header. */
  lemma TakenHoldNoHeader(rest: string, below: seq<string>)
    requires EntryValue(rest, below).Ok?
    ensures Headers(below[..EntryValue(rest, below).value.1]) == []
  {
    var n := EntryValue(rest, below).value.1;
    SpanSatisfies(InFold, below);
    SpanSatisfies(InBlock, below);
    NoHeadersInside(below[..n]);
  }

  lemma AcceptedStep(lines: seq<string>, data: Data) returns (key: string, rest: string, value: Value, n: nat)
    requires lines != [] && !IsBlank(lines[0]) && ParseRest(lines, data).Ok?
    ensures key !in data && key !in INHERITED && 1 + n <= |lines| && EntryOf(lines[0]).Some?
    ensures EntryOf(lines[0]).value.0 == key && EntryValue(rest, lines[1..]) == Ok((value, n))
    ensures ParseRest(lines, data) == ParseRest(lines[1 + n..], data[key := value])
  {
    key, rest := EntryOf(lines[0]).value.0, Trim(EntryOf(lines[0]).value.1);
    var read := EntryValue(rest, lines[1..]).value;
    value, n := read.0, read.1;
  }

  /** One accepted entry: its key, and the headers of the rest. */
  lemma AcceptedEntry(lines: seq<string>, data: Data) returns (key: string, value: Value, n: nat)
    requires lines != [] && !IsBlank(lines[0]) && ParseRest(lines, data).Ok?
    ensures key !in data && key !in INHERITED && 1 + n <= |lines|
    ensures ParseRest(lines, data) == ParseRest(lines[1 + n..], data[key := value])
    ensures Headers(lines) == [key] + Headers(lines[1 + n..])
  {
    var rest;
    key, rest, value, n := AcceptedStep(lines, data);
    HeadersAfterEntry(lines, key, rest, n);
  }

  lemma HeadersAfterEntry(lines: seq<string>, key: string, rest: string, n: nat)
    requires lines != [] && !IsBlank(lines[0]) && EntryOf(lines[0]).Some? && EntryOf(lines[0]).value.0 == key
    requires EntryValue(rest, lines[1..]).Ok? && EntryValue(rest, lines[1..]).value.1 == n && 1 + n <= |lines|
    ensures Headers(lines) == [key] + Headers(lines[1 + n..])
  {
    TakenHoldNoHeader(rest, lines[1..]);
    HeaderOfEntry(lines[0]);
    HeadersSkip(lines[0], lines[1..][..n], lines[1 + n..]);
    ThreeParts(lines, n);
  }

  lemma HeaderOfEntry(line: string)
    requires !IsBlank(line) && EntryOf(line).Some?
    ensures HeaderOf(line) == [EntryOf(line).value.0]
  {
  }

  lemma ThreeParts(lines: seq<string>, n: nat)
    requires 1 + n <= |lines|
    ensures lines == [lines[0]] + (lines[1..][..n] + lines[1 + n..])
  {
  }

  lemma HeadersSkip(line: string, taken: seq<string>, rest: seq<string>)
    requires Headers(taken) == []
    ensures Headers([line] + (taken + rest)) == HeaderOf(line) + Headers(rest)
  {
    HeadersCons(line, taken + rest);
    HeadersConcat(taken, rest);
  }

  /** The parser never accepts a repeated key: the entry lines of accepted text have pairwise
      different keys, new to the data, and exactly these keys are added. */
  lemma {:induction false} AcceptedHeaders(lines: seq<string>, data: Data)
    requires ParseRest(lines, data).Ok?
    ensures Distinct(Headers(lines))
    ensures forall k :: k in Headers(lines) ==> k !in data && k !in INHERITED
    ensures forall k :: k in ParseRest(lines, data).value <==> k in data || k in Headers(lines)
    ensures forall k :: k in data ==> ParseRest(lines, data).value[k] == data[k]
    decreases |lines|
  {
    if lines != [] {
      if IsBlank(lines[0]) {
        AcceptedHeaders(lines[1..], data);
      } else {
        var key, value, n := AcceptedEntry(lines, data);
        AcceptedHeaders(lines[1 + n..], data[key := value]);
      }
    }
  }

  lemma {:induction false} HeadersOfPrinted(doc: seq<Piece>)
    requires AllValid(doc)
    ensures Headers(PrintDoc(doc)) == Keys(doc)
  {
    if doc != [] {
      HeadersOfPrinted(doc[1..]);
      if doc[0].Noise? {
        NoiseLine(doc[0].line);
        HeadersCons(doc[0].line, PrintDoc(doc[1..]));
      } else {
        EntryHeader(doc);
      }
    }
  }

  lemma FirstHeader(doc: seq<Piece>)
    requires doc != [] && doc[0].Entry? && AllValid(doc)
    ensures HeaderOf(KeyLineOf(doc[0])) == [doc[0].key]
  {
    FirstLine(doc);
  }

  lemma PrintSplits(doc: seq<Piece>, line: string, below: seq<string>, rest: seq<string>)
    requires doc != [] && doc[0].Entry? && line == KeyLineOf(doc[0])
    requires below == PrintBelow(doc[0].value) && rest == PrintDoc(doc[1..])
    ensures PrintDoc(doc) == [line] + (below + rest)
  {
  }

  lemma EntryHeader(doc: seq<Piece>)
    requires doc != [] && doc[0].Entry? && AllValid(doc)
    ensures Headers(PrintDoc(doc)) == [doc[0].key] + Headers(PrintDoc(doc[1..]))
  {
    var line, below, rest := KeyLineOf(doc[0]), PrintBelow(doc[0].value), PrintDoc(doc[1..]);
    FirstHeader(doc);
    NoHeadersBelow(doc[0].value);
    PrintSplits(doc, line, below, rest);
    HeadersSkip(line, below, rest);
  }

  lemma NoHeadersBelow(v: Styled)
    requires ValidStyle(v)
    ensures Headers(PrintBelow(v)) == []
  {
    match v
    case OnKeyLine(_, _, _) =>
    case Folded(_, _, lines) => FoldRead(lines); NoHeadersInside(FoldText(lines));
    case ItemList(_, items) => ItemsInBlock(items); NoHeadersInside(ItemText(items));
    case KeyMap(_, pairs) => PairsInBlock(pairs); NoHeadersInside(PairText(pairs));
  }

  // ---- Every value can be printed ---------------------------------------------------------------

  /** Strings on one line or folded from solid words, non-empty lists and non-empty maps of
      one-line strings. */
  ghost predicate Printable(v: Value) {
    match v
    case Str(s) => OneLine(s) || exists words :: AllSolid(words) && s == JoinWords(words)
    case Items(items) => items != [] && forall i :: 0 <= i < |items| ==> OneLine(items[i])
    case Table(table) => table != map[] && forall k :: k in table ==> KeyOk(k) && OneLine(table[k])
  }

  predicate Solid(w: string) { w != "" && !JsSpace(w[0]) && !JsSpace(w[|w| - 1]) }

  predicate AllSolid(words: seq<string>) { words != [] ==> Solid(words[0]) && AllSolid(words[1..]) }

  lemma {:induction false} FoldWords(words: seq<string>) returns (lines: seq<FoldLine>)
    requires AllSolid(words)
    ensures FoldValid(lines) && WordsOf(lines) == words
  {
    lines := [];
    if words != [] {
      var rest := FoldWords(words[1..]);
      lines := [Word("  ", words[0], "")] + rest;
      assert lines[1..] == rest;
    }
  }

  lemma {:induction false} QuoteItems(items: seq<string>) returns (lines: seq<BlockLine<Dash>>)
    requires forall i :: 0 <= i < |items| ==> OneLine(items[i])
    ensures ItemsValid(lines) && TextsOf(lines) == items
  {
    lines := [];
    if items != [] {
      var rest := QuoteItems(items[1..]);
      lines := [BlockLine.Line("  ", Dash, " ", Quoted('"', items[0]), "")] + rest;
      assert lines[1..] == rest;
    }
  }

  lemma {:induction false} TableOfMerges(pairs: seq<BlockLine<string>>, table: map<string, string>)
    ensures TableOf(pairs, table) == table + TableOf(pairs, map[])
  {
    if pairs != [] {
      TableOfMerges(pairs[1..], table);
      if pairs[0].Line? {
        var one := map[pairs[0].tag := pairs[0].text.text];
        TableOfMerges(pairs[1..], table[pairs[0].tag := pairs[0].text.text]);
        TableOfMerges(pairs[1..], map[][pairs[0].tag := pairs[0].text.text]);
        assert table[pairs[0].tag := pairs[0].text.text] == table + one;
        assert map[][pairs[0].tag := pairs[0].text.text] == one;
      }
    }
  }

  lemma AddPair(k: string, text: string, rest: seq<BlockLine<string>>, table: map<string, string>)
      returns (pairs: seq<BlockLine<string>>)
    requires KeyOk(k) && OneLine(text) && k !in table && PairsValid(rest) && TableOf(rest, map[]) == table
    ensures PairsValid(pairs) && TableOf(pairs, map[]) == table[k := text] && TagsOf(pairs) == [k] + TagsOf(rest)
  {
    pairs := [BlockLine.Line("  ", k, " ", Quoted('"', text), "")] + rest;
    assert pairs[1..] == rest;
    TableOfMerges(rest, map[][k := text]);
    assert table[k := text] == map[][k := text] + table;
  }

  lemma {:induction false} QuotePairs(table: map<string, string>) returns (pairs: seq<BlockLine<string>>)
    requires forall k :: k in table ==> KeyOk(k) && OneLine(table[k])
    ensures PairsValid(pairs) && TableOf(pairs, map[]) == table
    ensures (forall k :: k in TagsOf(pairs) ==> k !in INHERITED)
    ensures Distinct(TagsOf(pairs)) && forall k :: k in TagsOf(pairs) <==> k in table
    decreases |table|
  {
    pairs := [];
    if table != map[] {
      var k :| k in table;
      var less := table - {k};
      var rest := QuotePairs(less);
      pairs := AddPair(k, table[k], rest, less);
      assert table == less[k := table[k]];
    }
  }

  lemma {:induction false} StyleFor(v: Value) returns (style: Styled)
    requires Printable(v)
    ensures ValidStyle(style) && Meaning(style) == v && OwnTags(style)
  {
    match v
    case Str(s) =>
      if OneLine(s) {
        style := OnKeyLine(" ", Quoted('"', s), "");
        assert Quoted('"', s).Print()[0] == '"';
      } else {
        var words :| AllSolid(words) && s == JoinWords(words);
        var lines := FoldWords(words);
        style := Folded(">-", "", lines);
      }
    case Items(items) =>
      var lines := QuoteItems(items);
      style := ItemList("", lines);
    case Table(table) =>
      var pairs := QuotePairs(table);
      var k :| k in table;
      assert k in TagsOf(pairs);
      style := KeyMap("", pairs);
  }

  lemma {:induction false} DocDataMerges(doc: seq<Piece>, data: Data)
    ensures DocData(doc, data) == data + DocData(doc, map[])
  {
    if doc != [] {
      DocDataMerges(doc[1..], data);
      if doc[0].Entry? {
        var k, v := doc[0].key, Meaning(doc[0].value);
        DocDataMerges(doc[1..], data[k := v]);
        DocDataMerges(doc[1..], map[][k := v]);
        assert data[k := v] == data + map[k := v] && map[][k := v] == map[k := v];
      }
    }
  }

  lemma AddEntry(k: string, v: Value, rest: seq<Piece>, data: Data) returns (doc: seq<Piece>)
    requires KeyOk(k) && Printable(v) && k !in data && ValidDoc(rest) && OwnNames(rest) && DocData(rest, map[]) == data
    requires forall key :: key in Keys(rest) <==> key in data
    ensures ValidDoc(doc) && OwnNames(doc) && DocData(doc, map[]) == data[k := v] && Keys(doc) == [k] + Keys(rest)
  {
    var style := StyleFor(v);
    doc := [Entry(k, style)] + rest;
    assert doc[1..] == rest;
    DocDataMerges(rest, map[][k := v]);
    assert data[k := v] == map[][k := v] + data;
  }

  lemma {:induction false} EveryMapHasADocument(data: Data) returns (doc: seq<Piece>)
    requires forall k :: k in data ==> KeyOk(k) && Printable(data[k])
    ensures ValidDoc(doc) && OwnNames(doc) && DocData(doc, map[]) == data && (forall k :: k in Keys(doc) <==> k in data)
    decreases |data|
  {
    doc := [];
    if data != map[] {
      var k :| k in data;
      var less := data - {k};
      var rest := EveryMapHasADocument(less);
      doc := AddEntry(k, data[k], rest, less);
      assert data == less[k := data[k]];
    }
  }

  /** Any map of allowed keys to printable values is the meaning of some document, and so
      survives printing and parsing. */
  lemma {:induction false} EveryMapRoundTrips(data: Data) returns (doc: seq<Piece>)
    requires forall k :: k in data ==> KeyOk(k) && Printable(data[k])
    ensures ValidDoc(doc) && ParseLines(PrintDoc(doc)) == Ok(data)
  {
    doc := EveryMapHasADocument(data);
    RoundTrip(doc);
  }
}
