/** The hand-written parser of the console's agent-skills plugin for a subset of YAML:
    scalars, folded scalars, `- item` lists and one-level maps.  Each regular expression
    of the source is written out as a function on characters. */
module Frontmatter {
  import opened Common

  datatype Value = Str(text: string) | Items(items: seq<string>) | Table(table: map<string, string>)

  datatype Fault = NotAnEntry | RepeatedKey | NoValue | NotAnItem | NotAPair | AmbiguousScalar

  datatype Result<+T> = Ok(value: T) | Error(fault: Fault)
  {
    predicate IsFailure() { Error? }
    function PropagateFailure<U>(): Result<U> requires Error? { Error(fault) }
    function Extract(): T requires Ok? { value }
  }

  type Data = map<string, Value>

  // ---- Characters and lines -----------------------------------------------------------------

  function Trim(s: string): string { Strip(JsSpace, s) }

  predicate AllSpace(s: string) { All(JsSpace, s) }

  /** What `.` matches in a regular expression without the `s` flag. */
  predicate NotLineEnd(c: char) { c != '\n' && c != '\r' && c != '\U{2028}' && c != '\U{2029}' }

  /** `(.*)` up to the end. */
  predicate OneLine(s: string) { All(NotLineEnd, s) }

  predicate Letter(c: char) { 'A' <= c <= 'Z' || 'a' <= c <= 'z' }

  predicate KeyChar(c: char) { Letter(c) || '0' <= c <= '9' || c == '_' || c == '-' }

  /** How many leading characters satisfy `p`. */
  function Span(p: char -> bool, s: string): (n: nat)
    ensures n <= |s|
  {
    if s != "" && p(s[0]) then 1 + Span(p, s[1..]) else 0
  }

  /** `/^\s+\S/` */
  predicate IsIndented(line: string) { line != "" && JsSpace(line[0]) && Span(JsSpace, line) < |line| }

  predicate IsBlank(line: string) { Trim(line) == "" || Trim(line)[0] == '#' }

  predicate InFold(line: string) { IsIndented(line) || Trim(line) == "" }

  predicate InBlock(line: string) { IsIndented(line) || IsBlank(line) }

  /** `/^([A-Za-z][A-Za-z0-9_-]*):(.*)$/` */
  function EntryOf(line: string): Option<(string, string)> {
    var n := Span(KeyChar, line);
    if line != "" && Letter(line[0]) && n < |line| && line[n] == ':' && OneLine(line[n + 1..])
    then Some((line[..n], line[n + 1..])) else None
  }

  /** `\s+(.+)$` on the rest of a line: the blanks are taken greedily but leave one character. */
  function AfterBlanks(rest: string): Option<string> {
    var lead := Span(JsSpace, rest);
    var k := if lead < |rest| then lead else lead - 1;
    if 1 <= k && OneLine(rest[k..]) then Some(rest[k..]) else None
  }

  /** `/^\s+-\s/` */
  predicate StartsItem(line: string) {
    var w := Span(JsSpace, line);
    1 <= w && w + 1 < |line| && line[w] == '-' && JsSpace(line[w + 1])
  }

  /** `/^\s+-\s+(.+)$/` */
  function ItemOf(line: string): Option<string> {
    var w := Span(JsSpace, line);
    if 1 <= w < |line| && line[w] == '-' then AfterBlanks(line[w + 1..]) else None
  }

  /** `/^\s+([A-Za-z][A-Za-z0-9_-]*):\s+(.+)$/` */
  function PairOf(line: string): Option<(string, string)> {
    var w := Span(JsSpace, line);
    var body := line[w..];
    var n := Span(KeyChar, body);
    if 1 <= w && body != "" && Letter(body[0]) && n < |body| && body[n] == ':' && AfterBlanks(body[n + 1..]).Some?
    then Some((body[..n], AfterBlanks(body[n + 1..]).value)) else None
  }

  // ---- Scalars --------------------------------------------------------------------------------

  predicate Quote(c: char) { c == '"' || c == '\'' }

  predicate IsQuoted(t: string) { |t| >= 2 && Quote(t[0]) && t[|t| - 1] == t[0] }

  /** `/:\s|:$/` at `i` */
  predicate ColonAt(t: string, i: nat) { i < |t| && t[i] == ':' && (i + 1 == |t| || JsSpace(t[i + 1])) }

  /** `/\s#/` at `i` */
  predicate HashAt(t: string, i: nat) { i + 1 < |t| && JsSpace(t[i]) && t[i + 1] == '#' }

  /** `/:\s|:$|\s#/`: YAML would read an unquoted value otherwise. */
  predicate Ambiguous(t: string) { exists i :: 0 <= i < |t| && (ColonAt(t, i) || HashAt(t, i)) }

  function Scalar(value: string): Result<string> {
    var t := Trim(value);
    if IsQuoted(t) then Ok(t[1..|t| - 1])
    else if Ambiguous(t) then Error(AmbiguousScalar)
    else Ok(t)
  }

  // ---- Blocks -----------------------------------------------------------------------------------

  function Words(lines: seq<string>): seq<string> {
    if lines == [] then []
    else (if Trim(lines[0]) == "" then [] else [Trim(lines[0])]) + Words(lines[1..])
  }

  function JoinWords(words: seq<string>): string {
    if words == [] then ""
    else if |words| == 1 then words[0]
    else words[0] + " " + JoinWords(words[1..])
  }

  function Content(lines: seq<string>): seq<string> {
    if lines == [] then [] else (if IsBlank(lines[0]) then [] else [lines[0]]) + Content(lines[1..])
  }

  /** The items of a block, after those already read. */
  function ItemsOf(block: seq<string>, items: seq<string>): Result<seq<string>> {
    if block == [] then Ok(items)
    else if ItemOf(block[0]).None? then Error(NotAnItem)
    else
      var text :- Scalar(ItemOf(block[0]).value);
      ItemsOf(block[1..], items + [text])
  }

  /** Names every JavaScript object inherits: `in` finds them in an empty one. */
  const INHERITED := {"constructor", "hasOwnProperty", "isPrototypeOf", "propertyIsEnumerable",
                      "toLocaleString", "toString", "valueOf"}

  function PairsOf(block: seq<string>, table: map<string, string>): Result<map<string, string>> {
    if block == [] then Ok(table)
    else if PairOf(block[0]).None? then Error(NotAPair)
    else
      var (key, raw) := PairOf(block[0]).value;
      if key in table || key in INHERITED then Error(RepeatedKey)
      else
        var text :- Scalar(raw);
        PairsOf(block[1..], table[key := text])
  }

  function BlockValue(block: seq<string>): Result<Value> {
    if block == [] then Error(NoValue)
    else if StartsItem(block[0]) then
      var items :- ItemsOf(block, []);
      Ok(Items(items))
    else
      var table :- PairsOf(block, map[]);
      Ok(Table(table))
  }

  /** How many leading lines satisfy `p`. */
  function SpanLines(p: string -> bool, lines: seq<string>): (n: nat)
    ensures n <= |lines|
  {
    if lines != [] && p(lines[0]) then 1 + SpanLines(p, lines[1..]) else 0
  }

  // ---- The parser ---------------------------------------------------------------------------------

  predicate IsFold(rest: string) { rest == ">" || rest == ">-" }

  /** The value an entry line opens, and how many of the lines below belong to it. */
  function EntryValue(rest: string, below: seq<string>): (r: Result<(Value, nat)>)
    ensures r.Ok? ==> r.value.1 <= |below|
  {
    if IsFold(rest) then
      var n := SpanLines(InFold, below);
      Ok((Str(JoinWords(Words(below[..n]))), n))
    else if rest == "" then
      var n := SpanLines(InBlock, below);
      var v :- BlockValue(Content(below[..n]));
      Ok((v, n))
    else
      var text :- Scalar(rest);
      Ok((Str(text), 0))
  }

  /** `parseFrontmatter` on the lines not yet read, with the entries read so far. */
  function ParseRest(lines: seq<string>, data: Data): Result<Data>
    decreases |lines|
  {
    if lines == [] then Ok(data)
    else if IsBlank(lines[0]) then ParseRest(lines[1..], data)
    else if EntryOf(lines[0]).None? then Error(NotAnEntry)
    else
      var (key, raw) := EntryOf(lines[0]).value;
      if key in data || key in INHERITED then Error(RepeatedKey)
      else
        match EntryValue(Trim(raw), lines[1..])
        case Error(fault) => Error(fault)
        case Ok((value, n)) => ParseRest(lines[1 + n..], data[key := value])
  }

  function ParseLines(lines: seq<string>): Result<Data> { ParseRest(lines, map[]) }

  predicate NotNewline(c: char) { c != '\n' }

  /** `yaml.split(/\r?\n/)` */
  function SplitLines(yaml: string): seq<string> {
    var n := Span(NotNewline, yaml);
    if n == |yaml| then [yaml]
    else
      var line := if n > 0 && yaml[n - 1] == '\r' then yaml[..n - 1] else yaml[..n];
      [line] + SplitLines(yaml[n + 1..])
  }
}
