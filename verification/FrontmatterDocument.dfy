/** The document around the frontmatter: finding the closing rule, the body, and the list of
    tools the frontmatter may name. */
module FrontmatterDocument {
  import opened Common
  import opened Frontmatter
  import opened FrontmatterPrint
  import opened FrontmatterParser

  datatype DocumentFault = NoFrontmatter | NoBody | HoldsToken | BadFrontmatter(fault: Fault)

  datatype Document = Document(data: Data, body: string) | Refused(why: DocumentFault)

  // ---- The pattern -----------------------------------------------------------------------------

  /** `\r?\n` */
  function AfterNewline(s: string): Option<string> {
    if |s| >= 2 && s[0] == '\r' && s[1] == '\n' then Some(s[2..])
    else if s != "" && s[0] == '\n' then Some(s[1..])
    else None
  }

  predicate StartsRule(s: string) { |s| >= 3 && s[0] == '-' && s[1] == '-' && s[2] == '-' }

  /** `---\r?\n` */
  function AfterRule(s: string): Option<string> { if StartsRule(s) then AfterNewline(s[3..]) else None }

  /** `\r?\n---\r?\n` */
  function AfterFence(s: string): Option<string> {
    match AfterNewline(s)
    case None => None
    case Some(t) => AfterRule(t)
  }

  /** `([\s\S]*?)\r?\n---\r?\n([\s\S]*)`: the shortest text before a fence, and what follows. */
  function FirstFence(s: string): Option<(string, string)> {
    match AfterFence(s)
    case Some(rest) => Some(("", rest))
    case None =>
      if s == "" then None
      else
        match FirstFence(s[1..])
        case None => None
        case Some(cut) => Some(([s[0]] + cut.0, cut.1))
  }

  predicate HasToken(s: string) { exists i :: 0 <= i < |s| - 1 && s[i] == '{' && s[i + 1] == '{' }

  /** `splitDocument` */
  function SplitDocument(source: string): Document {
    match AfterRule(source)
    case None => Refused(NoFrontmatter)
    case Some(inside) =>
      match FirstFence(inside)
      case None => Refused(NoFrontmatter)
      case Some(cut) =>
        var body := Trim(cut.1);
        if body == "" then Refused(NoBody)
        else if HasToken(body) then Refused(HoldsToken)
        else
          match ParseLines(SplitLines(cut.0))
          case Error(fault) => Refused(BadFrontmatter(fault))
          case Ok(data) => Document(data, body)
  }

  // ---- No accepted line is a rule ----------------------------------------------------------------

  lemma RuleIsNoContent(line: string)
    requires StartsRule(line)
    ensures !IsBlank(line) && !IsIndented(line) && EntryOf(line).None?
  {
    StripLeftSplits(JsSpace, line);
    assert StripLeft(JsSpace, line) == line;
    StripRightSplits(JsSpace, line);
    assert line[0] == '-' && !JsSpace(line[0]);
  }

  ghost predicate NoRule(lines: seq<string>) { forall i :: 0 <= i < |lines| ==> !StartsRule(lines[i]) }

  /** Accepted frontmatter holds no line that could close it early. */
  lemma {:induction false} AcceptedHasNoRule(lines: seq<string>, data: Data)
    requires ParseRest(lines, data).Ok?
    ensures NoRule(lines)
    decreases |lines|
  {
    if lines != [] {
      if StartsRule(lines[0]) { RuleIsNoContent(lines[0]); }
      if IsBlank(lines[0]) {
        AcceptedHasNoRule(lines[1..], data);
        assert forall i :: 0 < i < |lines| ==> lines[i] == lines[1..][i - 1];
      } else {
        var key, rest, value, n := AcceptedStep(lines, data);
        AcceptedHasNoRule(lines[1 + n..], data[key := value]);
        TakenAreNoRules(rest, lines[1..]);
        forall i | 0 <= i < |lines| ensures !StartsRule(lines[i]) {
          if 0 < i <= n { assert lines[i] == lines[1..][i - 1]; }
          if n < i { assert lines[i] == lines[1 + n..][i - 1 - n]; }
        }
      }
    }
  }

  lemma TakenAreNoRules(rest: string, below: seq<string>)
    requires EntryValue(rest, below).Ok?
    ensures forall i :: 0 <= i < EntryValue(rest, below).value.1 ==> !StartsRule(below[i])
  {
    SpanSatisfies(InFold, below);
    SpanSatisfies(InBlock, below);
    forall i | 0 <= i < EntryValue(rest, below).value.1 ensures !StartsRule(below[i]) {
      assert InFold(below[i]) || InBlock(below[i]);
      if StartsRule(below[i]) { RuleIsNoContent(below[i]); }
    }
  }

  // ---- Documents are read back --------------------------------------------------------------------

  function Newline(crlf: bool): string { if crlf then ['\r', '\n'] else ['\n'] }

  const RULE := ['-', '-', '-']

  /** A line of plain characters hides no fence; the search goes on behind it. */
  lemma {:induction false} LineHidesNoFence(line: string, tail: string)
    requires PlainLine(line) && FirstFence(tail).Some?
    ensures FirstFence(line + tail) == Some((line + FirstFence(tail).value.0, FirstFence(tail).value.1))
  {
    if line == "" {
      assert line + tail == tail && line + FirstFence(tail).value.0 == FirstFence(tail).value.0;
    } else {
      assert (line + tail)[0] == line[0] && line[0] in line && (line + tail)[1..] == line[1..] + tail;
      assert PlainLine(line[1..]);
      LineHidesNoFence(line[1..], tail);
      assert [line[0]] + (line[1..] + FirstFence(tail).value.0) == line + FirstFence(tail).value.0;
    }
  }

  /** A newline not followed by a rule is no fence either. */
  lemma NewlineHidesNoFence(crlf: bool, tail: string)
    requires FirstFence(tail).Some? && !StartsRule(tail)
    ensures FirstFence(Newline(crlf) + tail) == Some((Newline(crlf) + FirstFence(tail).value.0, FirstFence(tail).value.1))
  {
    var nl := ['\n'] + tail;
    assert nl[1..] == tail && AfterFence(nl).None?;
    assert FirstFence(nl) == Some((['\n'] + FirstFence(tail).value.0, FirstFence(tail).value.1));
    if crlf {
      var s := Newline(crlf) + tail;
      assert s[2..] == tail && s[1..] == nl && AfterFence(s).None?;
      assert ['\r'] + (['\n'] + FirstFence(tail).value.0) == Newline(crlf) + FirstFence(tail).value.0;
    }
  }

  lemma PrefixIsNoRule(line: string, tail: string)
    requires !StartsRule(line) && PlainLine(line) && AfterNewline(tail).Some?
    ensures !StartsRule(line + tail)
  {
    if |line| < 3 { assert (line + tail)[|line|] == tail[0] && tail[0] != '-'; }
  }

  /** The text of plain lines without a rule ends at the fence behind it. */
  lemma {:induction false} FenceIsFound(lines: seq<string>, crlf: seq<bool>, close: string)
    requires lines != [] && |crlf| == |lines| && PlainLines(lines) && NoRule(lines[1..])
    requires AfterFence(close).Some?
    ensures FirstFence(JoinLines(lines, crlf) + close) == Some((JoinLines(lines, crlf), AfterFence(close).value))
  {
    assert FirstFence(close) == Some(("", AfterFence(close).value));
    if |lines| == 1 {
      LineHidesNoFence(lines[0], close);
      assert lines[0] + "" == lines[0];
    } else {
      var rest := JoinLines(lines[1..], crlf[1..]);
      assert lines[1..][0] == lines[1] && NoRule(lines[1..][1..]);
      FenceIsFound(lines[1..], crlf[1..], close);
      var tail := JoinStarts(lines[1..], crlf[1..], close);
      PrefixIsNoRule(lines[1], tail);
      NewlineHidesNoFence(crlf[0], rest + close);
      LineHidesNoFence(lines[0], Newline(crlf[0]) + (rest + close));
      JoinOne(lines, crlf);
      Regroup(lines[0], Newline(crlf[0]), rest, close);
    }
  }

  lemma JoinOne(lines: seq<string>, crlf: seq<bool>)
    requires |lines| > 1 && |crlf| == |lines|
    ensures JoinLines(lines, crlf) == lines[0] + (Newline(crlf[0]) + JoinLines(lines[1..], crlf[1..]))
  {
  }

  lemma Regroup(a: string, b: string, c: string, d: string)
    ensures a + (b + c) + d == a + (b + (c + d))
  {
  }

  /** Joined lines start with the first, and a newline follows it. */
  lemma JoinStarts(lines: seq<string>, crlf: seq<bool>, close: string) returns (tail: string)
    requires lines != [] && |crlf| == |lines| && AfterNewline(close).Some?
    ensures JoinLines(lines, crlf) + close == lines[0] + tail && AfterNewline(tail).Some?
  {
    tail := close;
    if |lines| > 1 {
      JoinOne(lines, crlf);
      var rest := JoinLines(lines[1..], crlf[1..]);
      NewlineFirst(crlf[0], rest + close);
      Regroup(lines[0], Newline(crlf[0]), rest, close);
      tail := Newline(crlf[0]) + (rest + close);
    }
  }

  lemma NewlineFirst(crlf: bool, tail: string)
    ensures AfterNewline(Newline(crlf) + tail) == Some(tail)
  {
  }

  lemma CloseIsFence(crlf1: bool, crlf2: bool, body: string)
    ensures AfterFence(Newline(crlf1) + (RULE + (Newline(crlf2) + body))) == Some(body)
    ensures AfterRule(RULE + (Newline(crlf2) + body)) == Some(body)
  {
    var tail := Newline(crlf2) + body;
    assert AfterNewline(tail) == Some(body);
    assert (RULE + tail)[3..] == tail;
    var s := Newline(crlf1) + (RULE + tail);
    assert s[|Newline(crlf1)|..] == RULE + tail;
  }

  /** A document put together from accepted frontmatter and a body is taken apart again, with any
      mix of line endings; nothing inside the frontmatter is mistaken for its end. */
  lemma DocumentIsReadBack(lines: seq<string>, crlf: seq<bool>, ends: (bool, bool, bool), body: string)
    requires lines != [] && |crlf| == |lines| && PlainLines(lines) && ParseLines(lines).Ok?
    requires Trim(body) != "" && !HasToken(Trim(body))
    ensures
      var close := Newline(ends.1) + (RULE + (Newline(ends.2) + body));
      SplitDocument(RULE + (Newline(ends.0) + (JoinLines(lines, crlf) + close)))
        == Document(ParseLines(lines).value, Trim(body))
  {
    var close := Newline(ends.1) + (RULE + (Newline(ends.2) + body));
    var yaml := JoinLines(lines, crlf);
    AcceptedHasNoRule(lines, map[]);
    CloseIsFence(ends.1, ends.2, body);
    RuleOpens(ends.0, yaml + close);
    FenceIsFound(lines, crlf, close);
    SplitJoined(lines, crlf);
    CutApart(RULE + (Newline(ends.0) + (yaml + close)), yaml + close, yaml, body);
  }

  lemma RuleOpens(crlf: bool, inside: string)
    ensures AfterRule(RULE + (Newline(crlf) + inside)) == Some(inside)
  {
    CloseIsFence(false, crlf, inside);
  }

  lemma CutApart(source: string, inside: string, yaml: string, body: string)
    requires AfterRule(source) == Some(inside) && FirstFence(inside) == Some((yaml, body))
    requires Trim(body) != "" && !HasToken(Trim(body)) && ParseLines(SplitLines(yaml)).Ok?
    ensures SplitDocument(source) == Document(ParseLines(SplitLines(yaml)).value, Trim(body))
  {
  }

  // ---- The tool list ----------------------------------------------------------------------------------

  predicate ToolChar(c: char) { 'a' <= c <= 'z' || '0' <= c <= '9' || c == '_' }

  /** `/^[a-z][a-z0-9_]*$/` */
  predicate ToolName(s: string) { s != "" && 'a' <= s[0] <= 'z' && All(ToolChar, s) }

  datatype Tools = NoTools | Tools(names: seq<string>) | BadList | BadName(name: string) | Twice(name: string)

  lemma DistinctSnoc(s: seq<string>, x: string)
    requires Distinct(s) && x !in s
    ensures Distinct(s + [x])
  {
  }

  /** `optionalToolList`: accepted exactly when the list is a non-empty one of distinct names;
      else the first offending name is reported. */
  method OptionalToolList(data: Data) returns (r: Tools)
    ensures r.NoTools? <==> "tools" !in data
    ensures r.BadList? <==> "tools" in data && (!data["tools"].Items? || data["tools"].items == [])
    ensures r.Tools? ==> data["tools"] == Items(r.names) && r.names != [] && Distinct(r.names)
    ensures r.Tools? ==> forall i :: 0 <= i < |r.names| ==> ToolName(r.names[i])
    ensures r.BadName? || r.Twice? ==> exists n ::
      && 0 <= n < |data["tools"].items| && data["tools"].items[n] == r.name
      && Distinct(data["tools"].items[..n]) && (forall i :: 0 <= i < n ==> ToolName(data["tools"].items[i]))
      && if r.BadName? then !ToolName(r.name) else ToolName(r.name) && r.name in data["tools"].items[..n]
  {
    if "tools" !in data { return NoTools; }
    var value := data["tools"];
    if !value.Items? || value.items == [] { return BadList; }
    var seen: set<string> := {};
    for n := 0 to |value.items|
      invariant forall s :: s in seen <==> s in value.items[..n]
      invariant Distinct(value.items[..n]) && forall i :: 0 <= i < n ==> ToolName(value.items[i])
    {
      var tool := value.items[n];
      if !ToolName(tool) { return BadName(tool); }
      if tool in seen { return Twice(tool); }
      seen := seen + {tool};
      DistinctSnoc(value.items[..n], tool);
      assert value.items[..n + 1] == value.items[..n] + [tool];
    }
    assert value.items[..|value.items|] == value.items;
    r := Tools(value.items);
  }
}
