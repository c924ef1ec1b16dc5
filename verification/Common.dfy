/** Small shared vocabulary: optional values, and stripping a run of blank
    characters off both ends of a string. */
module Common {

  datatype Option<+T> = None | Some(value: T)
  {
    function GetOr(default: T): T {
      if Some? then value else default
    }
  }

  /** No string occurs twice. */
  predicate Distinct(s: seq<string>) { forall i, j :: 0 <= i < j < |s| ==> s[i] != s[j] }

  /** Every character of `s` satisfies `blank`. */
  predicate All(blank: char -> bool, s: string) {
    forall i :: 0 <= i < |s| ==> blank(s[i])
  }

  function StripLeft(blank: char -> bool, s: string): string {
    if s != "" && blank(s[0]) then StripLeft(blank, s[1..]) else s
  }

  function StripRight(blank: char -> bool, s: string): string {
    if s != "" && blank(s[|s| - 1]) then StripRight(blank, s[..|s| - 1]) else s
  }

  /** `str.strip()` of Python and `String.prototype.trim()` of JavaScript, each
      with its own notion of a blank character. */
  function Strip(blank: char -> bool, s: string): string { StripRight(blank, StripLeft(blank, s)) }

  lemma {:induction false} StripLeftSplits(blank: char -> bool, s: string)
    ensures var r := StripLeft(blank, s);
      && |r| <= |s| && r == s[|s| - |r|..] && All(blank, s[..|s| - |r|])
      && (r != "" ==> !blank(r[0]))
  {
    if s != "" && blank(s[0]) {
      StripLeftSplits(blank, s[1..]);
      var r := StripLeft(blank, s[1..]);
      assert s[..|s| - |r|] == [s[0]] + s[1..][..|s[1..]| - |r|];
    }
  }

  lemma {:induction false} StripRightSplits(blank: char -> bool, s: string)
    ensures var r := StripRight(blank, s);
      && r <= s && All(blank, s[|r|..]) && (r != "" ==> !blank(r[|r| - 1]))
  {
    if s != "" && blank(s[|s| - 1]) {
      StripRightSplits(blank, s[..|s| - 1]);
      var r := StripRight(blank, s[..|s| - 1]);
      assert s[|r|..] == s[..|s| - 1][|r|..] + [s[|s| - 1]];
    }
  }

  /** A string with solid ends keeps exactly itself when blanks surround it. */
  lemma StripPadded(blank: char -> bool, left: string, s: string, right: string)
    requires All(blank, left) && All(blank, right)
    requires s != "" ==> !blank(s[0]) && !blank(s[|s| - 1])
    ensures Strip(blank, left + s + right) == s
  {
    if s == "" {
      StripLeftBlank(blank, left + s + right);
    } else {
      StripLeftPadded(blank, left, s + right);
      assert left + s + right == left + (s + right);
      StripRightPadded(blank, s, right);
    }
  }

  lemma StripLeftBlank(blank: char -> bool, s: string)
    requires All(blank, s)
    ensures StripLeft(blank, s) == ""
  {
    if s != "" { StripLeftBlank(blank, s[1..]); }
  }

  lemma StripLeftPadded(blank: char -> bool, left: string, s: string)
    requires All(blank, left) && s != "" && !blank(s[0])
    ensures StripLeft(blank, left + s) == s
  {
    if left == "" {
      assert left + s == s;
    } else {
      assert (left + s)[1..] == left[1..] + s;
      StripLeftPadded(blank, left[1..], s);
    }
  }

  lemma StripRightPadded(blank: char -> bool, s: string, right: string)
    requires All(blank, right) && s != "" && !blank(s[|s| - 1])
    ensures StripRight(blank, s + right) == s
  {
    if right == "" {
      assert s + right == s;
    } else {
      assert (s + right)[..|s + right| - 1] == s + right[..|right| - 1];
      StripRightPadded(blank, s, right[..|right| - 1]);
    }
  }

  /** What Python's `str.isspace` accepts. */
  predicate PySpace(c: char) {
    || '\t' <= c <= '\r' || '\U{1c}' <= c <= ' ' || c == '\U{85}' || c == '\U{a0}' || c == '\U{1680}'
    || '\U{2000}' <= c <= '\U{200a}' || c == '\U{2028}' || c == '\U{2029}' || c == '\U{202f}'
    || c == '\U{205f}' || c == '\U{3000}'
  }

  /** What JavaScript's `\s` and `trim` accept. */
  predicate JsSpace(c: char) {
    || '\t' <= c <= '\r' || c == ' ' || c == '\U{a0}' || c == '\U{1680}'
    || '\U{2000}' <= c <= '\U{200a}' || c == '\U{2028}' || c == '\U{2029}' || c == '\U{202f}'
    || c == '\U{205f}' || c == '\U{3000}' || c == '\U{feff}'
  }

  /** The blanks, one by one.  The two languages differ in five control characters, in the next-line
      character and in the byte order mark. */
  lemma BlanksAre(c: char)
    ensures JsSpace(c) <==>
      c in ['\t', '\n', '\U{b}', '\U{c}', '\r', ' ', '\U{a0}', '\U{1680}',
            '\U{2000}', '\U{2001}', '\U{2002}', '\U{2003}', '\U{2004}', '\U{2005}', '\U{2006}', '\U{2007}',
            '\U{2008}', '\U{2009}', '\U{200a}', '\U{2028}', '\U{2029}', '\U{202f}', '\U{205f}', '\U{3000}', '\U{feff}']
    ensures PySpace(c) <==>
      (JsSpace(c) && c != '\U{feff}') || c in ['\U{1c}', '\U{1d}', '\U{1e}', '\U{1f}', '\U{85}']
  {
  }

  /** Python's `strip` and blankness. */
  function PyStrip(s: string): string { Strip(PySpace, s) }

  predicate PyBlank(s: string) { PyStrip(s) == "" }

  lemma PyStripSolid(s: string)
    requires s != "" && !PySpace(s[0]) && !PySpace(s[|s| - 1])
    ensures PyStrip(s) == s && !PyBlank(s)
  {
    StripPadded(PySpace, "", s, "");
    assert "" + s + "" == s;
  }
}
