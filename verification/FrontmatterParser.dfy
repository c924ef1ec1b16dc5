/** The parser as it runs: an index moves over the lines, three inner loops read the block
    forms, and the first fault ends it.  Proved equal to the specification function, for
    which the round trip holds. */
module FrontmatterParser {
  import opened Common
  import opened Frontmatter
  import opened FrontmatterPrint

  /** Folded block scalar: trimmed lines joined by single spaces. */
  method ReadFold(lines: seq<string>, start: nat) returns (text: string, end: nat)
    requires start <= |lines|
    ensures end == start + SpanLines(InFold, lines[start..]) <= |lines|
    ensures text == JoinWords(Words(lines[start..end]))
  {
    var parts: seq<string> := [];
    end := start;
    while end < |lines| && InFold(lines[end])
      invariant start <= end <= |lines|
      invariant parts == Words(lines[start..end])
      invariant SpanLines(InFold, lines[start..]) == end - start + SpanLines(InFold, lines[end..])
    {
      var part := Trim(lines[end]);
      WordsConcat(lines[start..end], [lines[end]]);
      assert lines[start..end] + [lines[end]] == lines[start..end + 1];
      assert lines[end..][1..] == lines[end + 1..];
      if part != "" {
        parts := parts + [part];
      }
      end := end + 1;
    }
    text := JoinWords(parts);
  }

  /** The lines of a block, comments and blanks dropped. */
  method ReadBlock(lines: seq<string>, start: nat) returns (block: seq<string>, end: nat)
    requires start <= |lines|
    ensures end == start + SpanLines(InBlock, lines[start..]) <= |lines|
    ensures block == Content(lines[start..end])
  {
    block, end := [], start;
    while end < |lines| && InBlock(lines[end])
      invariant start <= end <= |lines|
      invariant block == Content(lines[start..end])
      invariant SpanLines(InBlock, lines[start..]) == end - start + SpanLines(InBlock, lines[end..])
    {
      var raw := lines[end];
      ContentConcat(lines[start..end], [raw]);
      assert lines[start..end] + [raw] == lines[start..end + 1];
      assert lines[end..][1..] == lines[end + 1..];
      end := end + 1;
      if !IsBlank(raw) {
        block := block + [raw];
      }
    }
  }

  method ReadItems(block: seq<string>) returns (r: Result<seq<string>>)
    ensures r == ItemsOf(block, [])
  {
    var items: seq<string> := [];
    for n := 0 to |block|
      invariant ItemsOf(block, []) == ItemsOf(block[n..], items)
    {
      assert block[n..][1..] == block[n + 1..];
      var item := ItemOf(block[n]);
      if item.None? {
        return Error(NotAnItem);
      }
      var text := Scalar(item.value);
      if text.Error? {
        return Error(text.fault);
      }
      items := items + [text.value];
    }
    r := Ok(items);
  }

  method ReadPairs(block: seq<string>) returns (r: Result<map<string, string>>)
    ensures r == PairsOf(block, map[])
  {
    var table: map<string, string> := map[];
    for n := 0 to |block|
      invariant PairsOf(block, map[]) == PairsOf(block[n..], table)
    {
      assert block[n..][1..] == block[n + 1..];
      var pair := PairOf(block[n]);
      if pair.None? {
        return Error(NotAPair);
      }
      var (key, raw) := pair.value;
      if key in table || key in INHERITED {
        return Error(RepeatedKey);
      }
      var text := Scalar(raw);
      if text.Error? {
        return Error(text.fault);
      }
      table := table[key := text.value];
    }
    r := Ok(table);
  }

  /** A list or a one-level map; the first line decides which. */
  method ReadBlockValue(block: seq<string>) returns (r: Result<Value>)
    ensures r == BlockValue(block)
  {
    if block == [] {
      return Error(NoValue);
    }
    if StartsItem(block[0]) {
      var items := ReadItems(block);
      r := match items case Ok(texts) => Ok(Items(texts)) case Error(fault) => Error(fault);
    } else {
      var pairs := ReadPairs(block);
      r := match pairs case Ok(table) => Ok(Table(table)) case Error(fault) => Error(fault);
    }
  }

  /** The value of an entry: rest of its line, or the block below. */
  method ReadValue(rest: string, lines: seq<string>, start: nat) returns (r: Result<Value>, end: nat)
    requires start <= |lines|
    ensures start <= end <= |lines|
    ensures r.Ok? ==> EntryValue(rest, lines[start..]) == Ok((r.value, end - start))
    ensures r.Error? ==> EntryValue(rest, lines[start..]) == Error(r.fault)
  {
    end := start;
    if IsFold(rest) {
      var text;
      text, end := ReadFold(lines, start);
      assert lines[start..][..end - start] == lines[start..end];
      r := Ok(Str(text));
    } else if rest == "" {
      var block;
      block, end := ReadBlock(lines, start);
      assert lines[start..][..end - start] == lines[start..end];
      r := ReadBlockValue(block);
    } else {
      var text := Scalar(rest);
      r := match text case Ok(s) => Ok(Str(s)) case Error(fault) => Error(fault);
    }
  }

  /** Where parsing stops at the first line. */
  lemma StopsHere(lines: seq<string>, data: Data)
    requires lines != [] && !IsBlank(lines[0])
    ensures EntryOf(lines[0]).None? ==> ParseRest(lines, data) == Error(NotAnEntry)
    ensures EntryOf(lines[0]).Some? ==>
      var (key, raw) := EntryOf(lines[0]).value;
      && (key in data || key in INHERITED ==> ParseRest(lines, data) == Error(RepeatedKey))
      && (key !in data && key !in INHERITED && EntryValue(Trim(raw), lines[1..]).Error? ==>
            ParseRest(lines, data) == Error(EntryValue(Trim(raw), lines[1..]).fault))
  {
  }

  method ParseFrontmatter(yaml: string) returns (r: Result<Data>)
    ensures r == ParseLines(SplitLines(yaml))
  {
    var lines := SplitLines(yaml);
    var data: Data := map[];
    var i := 0;
    assert lines[0..] == lines;
    while i < |lines|
      invariant i <= |lines|
      invariant ParseRest(lines[i..], data) == ParseLines(lines)
      decreases |lines| - i
    {
      var line := lines[i];
      assert lines[i..][0] == line && lines[i..][1..] == lines[i + 1..];
      if IsBlank(line) {
        i := i + 1;
        continue;
      }
      ghost var rest := lines[i..];
      StopsHere(rest, data);
      var entry := EntryOf(line);
      if entry.None? {
        return Error(NotAnEntry);
      }
      var (key, raw) := entry.value;
      if key in data || key in INHERITED {
        return Error(RepeatedKey);
      }
      var value, end := ReadValue(Trim(raw), lines, i + 1);
      if value.Error? {
        return Error(value.fault);
      }
      ParseEntryLine(rest, data, key, raw, value.value, end - (i + 1));
      assert rest[1..][end - (i + 1)..] == lines[end..];
      i := end;
      data := data[key := value.value];
    }
    r := Ok(data);
  }

  // ---- Text and lines -----------------------------------------------------------------------

  predicate PlainLine(line: string) { '\n' !in line && '\r' !in line }

  predicate PlainLines(lines: seq<string>) { lines != [] ==> PlainLine(lines[0]) && PlainLines(lines[1..]) }

  /** Lines joined by `\n` or `\r\n`, each as `crlf` says. */
  function JoinLines(lines: seq<string>, crlf: seq<bool>): string
    requires lines != [] && |crlf| == |lines|
  {
    if |lines| == 1 then lines[0]
    else lines[0] + ((if crlf[0] then "\r\n" else "\n") + JoinLines(lines[1..], crlf[1..]))
  }

  lemma SplitAt(head: string, rest: string)
    requires '\n' !in head
    ensures SplitLines(head + ("\n" + rest)) ==
      [if head != "" && head[|head| - 1] == '\r' then head[..|head| - 1] else head] + SplitLines(rest)
  {
    SplitAtTail(head, "\n" + rest);
    assert ("\n" + rest)[1..] == rest;
  }

  lemma SplitAtTail(head: string, tail: string)
    requires '\n' !in head && tail != "" && tail[0] == '\n'
    ensures SplitLines(head + tail) ==
      [if head != "" && head[|head| - 1] == '\r' then head[..|head| - 1] else head] + SplitLines(tail[1..])
  {
    var yaml := head + tail;
    SpanStops(NotNewline, head, tail);
    assert yaml[..|head|] == head && yaml[|head| + 1..] == tail[1..];
    if head != "" { assert yaml[..|head| - 1] == head[..|head| - 1]; }
  }

  lemma SplitFirst(line: string, crlf: bool, rest: string)
    requires PlainLine(line)
    ensures SplitLines(line + ((if crlf then "\r\n" else "\n") + rest)) == [line] + SplitLines(rest)
  {
    var head := if crlf then line + "\r" else line;
    assert line + ((if crlf then "\r\n" else "\n") + rest) == head + ("\n" + rest);
    SplitAt(head, rest);
    assert crlf ==> head[..|head| - 1] == line;
  }

  /** Joining lines with either line ending and splitting again gives the lines back. */
  lemma {:induction false} SplitJoined(lines: seq<string>, crlf: seq<bool>)
    requires lines != [] && |crlf| == |lines| && PlainLines(lines)
    ensures SplitLines(JoinLines(lines, crlf)) == lines
  {
    if |lines| == 1 {
      SplitOne(lines[0]);
    } else {
      SplitJoined(lines[1..], crlf[1..]);
      var rest := JoinLines(lines[1..], crlf[1..]);
      SplitFirst(lines[0], crlf[0], rest);
      assert SplitLines(JoinLines(lines, crlf)) == [lines[0]] + SplitLines(rest);
    }
  }

  lemma SplitOne(line: string)
    requires PlainLine(line)
    ensures SplitLines(line) == [line]
  {
    SpanStops(NotNewline, line, "");
    assert line + "" == line;
  }

  /** The whole way: from a document's meaning to text and back. */
  lemma {:induction false} TextRoundTrip(doc: seq<Piece>, crlf: seq<bool>)
    requires ValidDoc(doc) && PrintDoc(doc) != [] && PlainLines(PrintDoc(doc)) && |crlf| == |PrintDoc(doc)|
    ensures ParseLines(SplitLines(JoinLines(PrintDoc(doc), crlf))) == Ok(DocData(doc, map[])) <==>
      OwnNames(doc)
  {
    SplitJoined(PrintDoc(doc), crlf);
    RoundTrip(doc);
  }
}
