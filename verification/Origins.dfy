/** The origin allowlist shared by REST CORS and the Socket.IO handshake: entries with `*`
    are compiled to a pattern, and a backtracking matcher for that pattern is proved to
    accept exactly the origins one gets by filling in each `*`. */
module Origins {
  import opened Common

  // ---- What an entry means ---------------------------------------------------------------

  /** `*` stands for one non-empty piece of a hostname label. */
  predicate IsFragment(s: string) { s != "" && '.' !in s && '/' !in s }

  function Stars(entry: string): nat {
    if entry == "" then 0 else (if entry[0] == '*' then 1 else 0) + Stars(entry[1..])
  }

  /** The entry with its stars replaced, in order. */
  function Fill(entry: string, fills: seq<string>): string
    requires |fills| == Stars(entry)
  {
    if entry == "" then ""
    else if entry[0] == '*' then fills[0] + Fill(entry[1..], fills[1..])
    else [entry[0]] + Fill(entry[1..], fills)
  }

  ghost predicate Filling(entry: string, fills: seq<string>, origin: string) {
    && |fills| == Stars(entry)
    && (forall i :: 0 <= i < |fills| ==> IsFragment(fills[i]))
    && Fill(entry, fills) == origin
  }

  ghost predicate Admits(entry: string, origin: string) {
    exists fills :: Filling(entry, fills, origin)
  }

  // ---- The compiled pattern ----------------------------------------------------------------

  /** `[^./]+`, or one escaped character. */
  datatype Token = Fragment | Literal(c: char)

  /** `re.split(r"(\*)", entry)`: the pieces between stars, and the stars. */
  function SplitAtStars(entry: string): (parts: seq<string>)
    ensures parts != [] && '*' !in parts[0]
  {
    if entry == "" then [""]
    else
      var rest := SplitAtStars(entry[1..]);
      if entry[0] == '*' then ["", "*"] + rest
      else [[entry[0]] + rest[0]] + rest[1..]
  }

  function EscapePart(part: string): seq<Token> {
    if part == "*" then [Fragment] else seq(|part|, i requires 0 <= i < |part| => Literal(part[i]))
  }

  function JoinParts(parts: seq<string>): seq<Token> {
    if parts == [] then [] else EscapePart(parts[0]) + JoinParts(parts[1..])
  }

  /** `_entry_to_regex` */
  function EntryToRegex(entry: string): seq<Token> { JoinParts(SplitAtStars(entry)) }

  function TokenOf(c: char): Token { if c == '*' then Fragment else Literal(c) }

  lemma StarCompiles(entry: string)
    requires entry != "" && entry[0] == '*'
    ensures EntryToRegex(entry) == [Fragment] + EntryToRegex(entry[1..])
  {
    var rest := SplitAtStars(entry[1..]);
    var parts := ["", "*"] + rest;
    assert parts[1..] == ["*"] + rest && parts[1..][1..] == rest;
    assert EscapePart("") == [];
    assert JoinParts(parts[1..]) == [Fragment] + JoinParts(rest);
  }

  lemma EscapeGrows(c: char, part: string)
    requires c != '*' && '*' !in part
    ensures EscapePart([c] + part) == [Literal(c)] + EscapePart(part)
  {
    var grown := [c] + part;
    assert grown[0] == c && "*"[0] == '*';
    assert '*' in "*";
    assert forall i :: 0 < i < |grown| ==> grown[i] == part[i - 1];
  }

  lemma JoinCons(part: string, parts: seq<string>)
    ensures JoinParts([part] + parts) == EscapePart(part) + JoinParts(parts)
  {
    assert ([part] + parts)[1..] == parts;
  }

  lemma LiteralCompiles(entry: string)
    requires entry != "" && entry[0] != '*'
    ensures EntryToRegex(entry) == [Literal(entry[0])] + EntryToRegex(entry[1..])
  {
    var rest := SplitAtStars(entry[1..]);
    EscapeGrows(entry[0], rest[0]);
    JoinCons([entry[0]] + rest[0], rest[1..]);
    JoinCons(rest[0], rest[1..]);
    assert rest == [rest[0]] + rest[1..];
    Regroup(Literal(entry[0]), EscapePart(rest[0]), JoinParts(rest[1..]));
  }

  lemma Regroup(t: Token, a: seq<Token>, b: seq<Token>)
    ensures ([t] + a) + b == [t] + (a + b)
  {
  }

  lemma FirstCompiles(entry: string)
    requires entry != ""
    ensures EntryToRegex(entry) == [TokenOf(entry[0])] + EntryToRegex(entry[1..])
  {
    if entry[0] == '*' { StarCompiles(entry); } else { LiteralCompiles(entry); }
  }

  /** Escaping the pieces and joining them again compiles character by character. */
  lemma {:induction false} CompilesByCharacter(entry: string)
    ensures EntryToRegex(entry) == seq(|entry|, i requires 0 <= i < |entry| => TokenOf(entry[i]))
  {
    if entry == "" {
      assert EscapePart("") == [];
    } else {
      FirstCompiles(entry);
      CompilesByCharacter(entry[1..]);
      var rx, rest := EntryToRegex(entry), EntryToRegex(entry[1..]);
      assert |rest| == |entry| - 1 && rx == [TokenOf(entry[0])] + rest;
      assert forall i :: 0 < i < |entry| ==> rx[i] == rest[i - 1] && entry[1..][i - 1] == entry[i];
    }
  }

  /** `fullmatch` by backtracking: a fragment takes one character and either goes on or stops. */
  predicate FullMatch(rx: seq<Token>, s: string)
    decreases |rx| + |s|
  {
    if rx == [] then s == ""
    else
      && s != ""
      && match rx[0] {
           case Literal(c) => s[0] == c && FullMatch(rx[1..], s[1..])
           case Fragment => s[0] != '.' && s[0] != '/' && (FullMatch(rx, s[1..]) || FullMatch(rx[1..], s[1..]))
         }
  }

  lemma TailRegex(entry: string)
    requires entry != ""
    ensures |EntryToRegex(entry)| == |entry|
    ensures EntryToRegex(entry)[0] == TokenOf(entry[0]) && EntryToRegex(entry)[1..] == EntryToRegex(entry[1..])
  {
    FirstCompiles(entry);
    CompilesByCharacter(entry);
  }

  /** A fragment grown by a character at the front. */
  lemma GrowFragment(entry: string, fills: seq<string>, c: char, s: string)
    requires entry != "" && entry[0] == '*' && Filling(entry, fills, s) && c != '.' && c != '/'
    ensures Filling(entry, [[c] + fills[0]] + fills[1..], [c] + s)
  {
    var more := [[c] + fills[0]] + fills[1..];
    assert more[1..] == fills[1..];
    assert Fill(entry, more) == ([c] + fills[0]) + Fill(entry[1..], fills[1..]);
  }

  /** A fragment of one character before what the rest of the entry stands for. */
  lemma StartFragment(entry: string, fills: seq<string>, c: char, s: string)
    requires entry != "" && entry[0] == '*' && Filling(entry[1..], fills, s) && c != '.' && c != '/'
    ensures Filling(entry, [[c]] + fills, [c] + s)
  {
    assert ([[c]] + fills)[1..] == fills;
  }

  /** A literal before what the rest of the entry stands for. */
  lemma KeepLiteral(entry: string, fills: seq<string>, s: string)
    requires entry != "" && entry[0] != '*' && Filling(entry[1..], fills, s)
    ensures Filling(entry, fills, [entry[0]] + s)
  {
  }

  /** One step of the matcher, said of the entry. */
  lemma MatchStep(entry: string, s: string)
    requires entry != "" && FullMatch(EntryToRegex(entry), s)
    ensures s != "" && s == [s[0]] + s[1..]
    ensures entry[0] == '*' ==> s[0] != '.' && s[0] != '/'
    ensures entry[0] == '*' ==> FullMatch(EntryToRegex(entry), s[1..]) || FullMatch(EntryToRegex(entry[1..]), s[1..])
    ensures entry[0] != '*' ==> s[0] == entry[0] && FullMatch(EntryToRegex(entry[1..]), s[1..])
  {
    TailRegex(entry);
  }

  lemma {:induction false} MatchGivesFilling(entry: string, s: string)
    requires FullMatch(EntryToRegex(entry), s)
    ensures Admits(entry, s)
    decreases |entry| + |s|
  {
    if entry == "" {
      CompilesByCharacter(entry);
      assert Filling(entry, [], s);
    } else {
      MatchStep(entry, s);
      if entry[0] != '*' {
        MatchGivesFilling(entry[1..], s[1..]);
        var fills :| Filling(entry[1..], fills, s[1..]);
        KeepLiteral(entry, fills, s[1..]);
      } else if FullMatch(EntryToRegex(entry), s[1..]) {
        MatchGivesFilling(entry, s[1..]);
        var fills :| Filling(entry, fills, s[1..]);
        GrowFragment(entry, fills, s[0], s[1..]);
      } else {
        MatchGivesFilling(entry[1..], s[1..]);
        var fills :| Filling(entry[1..], fills, s[1..]);
        StartFragment(entry, fills, s[0], s[1..]);
      }
    }
  }

  lemma {:induction false} FillingGivesMatch(entry: string, fills: seq<string>, s: string)
    requires Filling(entry, fills, s)
    ensures FullMatch(EntryToRegex(entry), s)
    decreases |entry| + |s|
  {
    CompilesByCharacter(entry);
    if entry != "" {
      TailRegex(entry);
      if entry[0] == '*' {
        var f := fills[0];
        assert s[0] == f[0] && f[0] in f;
        assert s[1..] == f[1..] + Fill(entry[1..], fills[1..]);
        if |f| == 1 {
          assert s[1..] == Fill(entry[1..], fills[1..]);
          FillingGivesMatch(entry[1..], fills[1..], s[1..]);
        } else {
          var fewer := [f[1..]] + fills[1..];
          assert fewer[1..] == fills[1..];
          assert forall c :: c in f[1..] ==> c in f;
          FillingGivesMatch(entry, fewer, s[1..]);
        }
      } else {
        assert s[1..] == Fill(entry[1..], fills);
        FillingGivesMatch(entry[1..], fills, s[1..]);
      }
    }
  }

  /** The compiled pattern accepts exactly what the entry stands for. */
  lemma {:induction false} MatcherMeansFilling(entry: string, s: string)
    ensures FullMatch(EntryToRegex(entry), s) <==> Admits(entry, s)
  {
    if FullMatch(EntryToRegex(entry), s) { MatchGivesFilling(entry, s); }
    if Admits(entry, s) {
      var fills :| Filling(entry, fills, s);
      FillingGivesMatch(entry, fills, s);
    }
  }

  // ---- What one wildcard admits -----------------------------------------------------------------

  /** With one star: exactly what stands in its place as at least one character, none of them a dot or
      a slash. */
  lemma {:induction false} OneStarAdmits(head: string, tail: string, s: string)
    requires '*' !in head && '*' !in tail
    ensures Admits(head + "*" + tail, s) <==>
      exists x :: x != "" && '.' !in x && '/' !in x && s == head + x + tail
  {
    var entry := head + "*" + tail;
    OneStar(head, tail);
    if Admits(entry, s) {
      var fills :| Filling(entry, fills, s);
      assert fills == [fills[0]];
      FillOne(head, tail, fills[0]);
    }
    if x :| x != "" && '.' !in x && '/' !in x && s == head + x + tail {
      FillOne(head, tail, x);
      assert Filling(entry, [x], s);
    }
  }

  lemma {:induction false} NoStar(s: string)
    requires '*' !in s
    ensures Stars(s) == 0 && Fill(s, []) == s
  {
    if s != "" {
      assert s[0] in s && forall c :: c in s[1..] ==> c in s;
      NoStar(s[1..]);
    }
  }

  lemma {:induction false} OneStar(head: string, tail: string)
    requires '*' !in head && '*' !in tail
    ensures Stars(head + "*" + tail) == 1
  {
    var entry := head + "*" + tail;
    if head == "" {
      assert entry[1..] == tail;
      NoStar(tail);
    } else {
      assert head[0] in head && forall c :: c in head[1..] ==> c in head;
      assert entry[0] == head[0] && entry[1..] == head[1..] + "*" + tail;
      OneStar(head[1..], tail);
    }
  }

  lemma {:induction false} FillOne(head: string, tail: string, x: string)
    requires '*' !in head && '*' !in tail
    ensures Stars(head + "*" + tail) == 1 && Fill(head + "*" + tail, [x]) == head + x + tail
  {
    OneStar(head, tail);
    if head == "" {
      StarFilled(tail, x);
      assert "" + "*" + tail == "*" + tail && "" + x + tail == x + tail;
    } else {
      assert head[0] in head && forall c :: c in head[1..] ==> c in head;
      OneStar(head[1..], tail);
      FillOne(head[1..], tail, x);
      LiteralFilled(head[0], head[1..] + "*" + tail, x);
      assert [head[0]] + (head[1..] + "*" + tail) == head + "*" + tail;
      assert [head[0]] + (head[1..] + x + tail) == head + x + tail;
    }
  }

  lemma StarFilled(tail: string, x: string)
    requires '*' !in tail
    ensures Stars("*" + tail) == 1 && Fill("*" + tail, [x]) == x + tail
  {
    assert ("*" + tail)[1..] == tail && [x][1..] == [];
    NoStar(tail);
  }

  lemma LiteralFilled(c: char, rest: string, x: string)
    requires c != '*' && Stars(rest) == 1
    ensures Stars([c] + rest) == 1 && Fill([c] + rest, [x]) == [c] + Fill(rest, [x])
  {
    assert ([c] + rest)[1..] == rest;
  }

  // ---- What a wildcard can never do ----------------------------------------------------------

  /** The separators of an origin, in order. */
  function Separators(s: string): string {
    if s == "" then "" else (if s[0] == '.' || s[0] == '/' then [s[0]] else "") + Separators(s[1..])
  }

  lemma {:induction false} SeparatorsConcat(a: string, b: string)
    ensures Separators(a + b) == Separators(a) + Separators(b)
  {
    if a == "" {
      assert a + b == b;
    } else {
      assert (a + b)[1..] == a[1..] + b && (a + b)[0] == a[0];
      SeparatorsConcat(a[1..], b);
      var first := if a[0] == '.' || a[0] == '/' then [a[0]] else "";
      assert first + (Separators(a[1..]) + Separators(b)) == (first + Separators(a[1..])) + Separators(b);
    }
  }

  lemma {:induction false} FragmentHasNoSeparators(f: string)
    requires '.' !in f && '/' !in f
    ensures Separators(f) == ""
  {
    if f != "" {
      assert f[0] in f && forall c :: c in f[1..] ==> c in f;
      FragmentHasNoSeparators(f[1..]);
    }
  }

  lemma {:induction false} FillKeepsSeparators(entry: string, fills: seq<string>, s: string)
    requires Filling(entry, fills, s)
    ensures Separators(s) == Separators(entry)
  {
    if entry != "" {
      if entry[0] == '*' {
        var rest := Fill(entry[1..], fills[1..]);
        FillKeepsSeparators(entry[1..], fills[1..], rest);
        SeparatorsConcat(fills[0], rest);
        FragmentHasNoSeparators(fills[0]);
      } else {
        FillKeepsSeparators(entry[1..], fills, Fill(entry[1..], fills));
        assert s[1..] == Fill(entry[1..], fills);
      }
    }
  }

  /** The literal text before the first star, and after the last. */
  function Head(entry: string): string {
    if entry == "" || entry[0] == '*' then "" else [entry[0]] + Head(entry[1..])
  }

  function Tail(entry: string): string {
    if entry == "" || entry[|entry| - 1] == '*' then "" else Tail(entry[..|entry| - 1]) + [entry[|entry| - 1]]
  }

  lemma {:induction false} FillKeepsHead(entry: string, fills: seq<string>)
    requires |fills| == Stars(entry)
    ensures Head(entry) <= Fill(entry, fills)
  {
    if entry != "" && entry[0] != '*' { FillKeepsHead(entry[1..], fills); }
  }

  lemma {:induction false} FillSnoc(entry: string, c: char, fills: seq<string>)
    requires c != '*' && |fills| == Stars(entry + [c])
    ensures Stars(entry + [c]) == Stars(entry) && Fill(entry + [c], fills) == Fill(entry, fills) + [c]
  {
    if entry == "" {
      assert entry + [c] == [c] && [c][1..] == "";
      assert Stars([c]) == Stars([c][1..]);
    } else {
      assert (entry + [c])[1..] == entry[1..] + [c];
      if entry[0] == '*' {
        FillSnoc(entry[1..], c, fills[1..]);
      } else {
        FillSnoc(entry[1..], c, fills);
      }
    }
  }

  lemma {:induction false} FillKeepsTail(entry: string, fills: seq<string>)
    requires |fills| == Stars(entry)
    ensures var s := Fill(entry, fills); |Tail(entry)| <= |s| && s[|s| - |Tail(entry)|..] == Tail(entry)
  {
    if entry != "" && entry[|entry| - 1] != '*' {
      var rest, c := entry[..|entry| - 1], entry[|entry| - 1];
      assert entry == rest + [c];
      FillSnoc(rest, c, fills);
      FillKeepsTail(rest, fills);
    }
  }

  /** An accepted origin has its entry's dots and slashes in order, and its literal ends. */
  lemma {:induction false} WildcardStaysInItsLabel(entry: string, s: string)
    requires FullMatch(EntryToRegex(entry), s)
    ensures Separators(s) == Separators(entry)
    ensures Head(entry) <= s
    ensures |Tail(entry)| <= |s| && s[|s| - |Tail(entry)|..] == Tail(entry)
  {
    MatchGivesFilling(entry, s);
    var fills :| Filling(entry, fills, s);
    FillKeepsSeparators(entry, fills, s);
    FillKeepsHead(entry, fills);
    FillKeepsTail(entry, fills);
  }

  // ---- The allowlist -------------------------------------------------------------------------

  datatype Allowlist = Allowlist(exact: seq<string>, patterns: seq<string>)
  {
    /** `is_allowed`: exact membership, or the alternation of all patterns. */
    predicate IsAllowed(origin: Option<string>) {
      && origin.Some? && origin.value != ""
      && (origin.value in exact
          || exists i :: 0 <= i < |patterns| && FullMatch(EntryToRegex(patterns[i]), origin.value))
    }
  }

  predicate Slash(c: char) { c == '/' }

  /** `raw.strip().rstrip("/")` */
  function Normal(raw: string): string { StripRight(Slash, PyStrip(raw)) }

  /** An entry as it is meant: without the blanks around it, and without the slashes at its end. */
  lemma NormalMeans(left: string, entry: string, slashes: string, right: string)
    requires All(PySpace, left) && All(PySpace, right) && (forall c :: c in slashes ==> c == '/')
    requires entry + slashes != "" ==> !PySpace((entry + slashes)[0]) && !PySpace((entry + slashes)[|entry + slashes| - 1])
    requires entry != "" ==> entry[|entry| - 1] != '/'
    ensures Normal(left + (entry + slashes) + right) == entry
  {
    var core := entry + slashes;
    StripPadded(PySpace, left, core, right);
    forall i | 0 <= i < |slashes| ensures Slash(slashes[i]) { assert slashes[i] in slashes; }
    if entry != "" { StripRightPadded(Slash, entry, slashes); } else { OnlySlashes(slashes); }
  }

  lemma {:induction false} OnlySlashes(slashes: string)
    requires All(Slash, slashes)
    ensures StripRight(Slash, "" + slashes) == ""
  {
    assert "" + slashes == slashes;
    if slashes != "" {
      OnlySlashes(slashes[..|slashes| - 1]);
      assert "" + slashes[..|slashes| - 1] == slashes[..|slashes| - 1];
    }
  }

  /** Nobody is let in without an origin. */
  lemma NoOriginNoEntry(list: Allowlist)
    ensures !list.IsAllowed(None) && !list.IsAllowed(Some(""))
  {
  }

  /** What some entry, blanks dropped, asks for. */
  ghost predicate Listed(entries: seq<string>, entry: string) {
    entry != "" && exists i :: 0 <= i < |entries| && Normal(entries[i]) == entry
  }

  method ParseOriginAllowlist(entries: seq<string>) returns (list: Allowlist)
    ensures forall e :: e in list.exact <==> Listed(entries, e) && '*' !in e
    ensures forall e :: e in list.patterns <==> Listed(entries, e) && '*' in e
    ensures Distinct(list.exact) && Distinct(list.patterns)
  {
    var exact: seq<string>, patterns: seq<string> := [], [];
    for n := 0 to |entries|
      invariant forall e :: e in exact <==> Listed(entries[..n], e) && '*' !in e
      invariant forall e :: e in patterns <==> Listed(entries[..n], e) && '*' in e
      invariant Distinct(exact) && Distinct(patterns)
    {
      var entry := Normal(entries[n]);
      ListedSnoc(entries, n);
      if entry != "" {
        if '*' in entry {
          if entry !in patterns { patterns := patterns + [entry]; }
        } else {
          if entry !in exact { exact := exact + [entry]; }
        }
      }
    }
    assert entries[..|entries|] == entries;
    list := Allowlist(exact, patterns);
  }

  lemma ListedSnoc(entries: seq<string>, n: nat)
    requires n < |entries|
    ensures forall e :: Listed(entries[..n + 1], e) <==> Listed(entries[..n], e) || (e != "" && e == Normal(entries[n]))
  {
    forall e ensures Listed(entries[..n + 1], e) <==> Listed(entries[..n], e) || (e != "" && e == Normal(entries[n])) {
      assert entries[..n + 1][n] == entries[n];
      if Listed(entries[..n], e) {
        var i :| 0 <= i < n && Normal(entries[..n][i]) == e;
        assert entries[..n + 1][i] == entries[i];
      }
      if Listed(entries[..n + 1], e) {
        var i :| 0 <= i < n + 1 && Normal(entries[..n + 1][i]) == e;
        if i < n { assert entries[..n][i] == entries[i]; }
      }
    }
  }

  /** The list parsed from `entries`, as `ParseOriginAllowlist` promises it. */
  ghost predicate ParsedFrom(list: Allowlist, entries: seq<string>) {
    && (forall e :: e in list.exact <==> Listed(entries, e) && '*' !in e)
    && (forall e :: e in list.patterns <==> Listed(entries, e) && '*' in e)
  }

  lemma {:induction false} StarFreeMeansItself(entry: string, s: string)
    requires '*' !in entry
    ensures Stars(entry) == 0 && Fill(entry, []) == entry
    ensures Admits(entry, s) <==> s == entry
  {
    if entry != "" {
      assert entry[0] in entry && forall c :: c in entry[1..] ==> c in entry;
      StarFreeMeansItself(entry[1..], s);
    }
    assert Filling(entry, [], entry);
  }

  /** An origin is accepted exactly when some listed entry admits it. */
  lemma {:induction false} AllowedIffListed(entries: seq<string>, list: Allowlist, origin: string)
    requires ParsedFrom(list, entries)
    ensures list.IsAllowed(Some(origin)) <==> origin != "" && exists e :: Listed(entries, e) && Admits(e, origin)
  {
    if list.IsAllowed(Some(origin)) {
      if origin in list.exact {
        StarFreeMeansItself(origin, origin);
        assert Listed(entries, origin) && Admits(origin, origin);
      } else {
        var i :| 0 <= i < |list.patterns| && FullMatch(EntryToRegex(list.patterns[i]), origin);
        MatcherMeansFilling(list.patterns[i], origin);
        assert list.patterns[i] in list.patterns;
        assert Listed(entries, list.patterns[i]) && Admits(list.patterns[i], origin);
      }
    }
    if origin != "" && exists e :: Listed(entries, e) && Admits(e, origin) {
      var e :| Listed(entries, e) && Admits(e, origin);
      if '*' in e {
        MatcherMeansFilling(e, origin);
        var i :| 0 <= i < |list.patterns| && list.patterns[i] == e;
        assert FullMatch(EntryToRegex(list.patterns[i]), origin);
      } else {
        StarFreeMeansItself(e, origin);
      }
    }
  }

  /** Acceptance does not depend on the order of the entries nor on duplicates. */
  lemma {:induction false} OrderDoesNotMatter(a: seq<string>, la: Allowlist, b: seq<string>, lb: Allowlist, origin: string)
    requires ParsedFrom(la, a) && ParsedFrom(lb, b)
    requires forall e :: e in a <==> e in b
    ensures la.IsAllowed(Some(origin)) <==> lb.IsAllowed(Some(origin))
  {
    AllowedIffListed(a, la, origin);
    AllowedIffListed(b, lb, origin);
    forall e ensures Listed(a, e) <==> Listed(b, e) {
      if Listed(a, e) {
        var i :| 0 <= i < |a| && Normal(a[i]) == e;
        assert a[i] in b;
      }
      if Listed(b, e) {
        var i :| 0 <= i < |b| && Normal(b[i]) == e;
        assert b[i] in a;
      }
    }
  }
}
