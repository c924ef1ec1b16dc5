/** The gateway's deployment hook over shared dictionaries: a request is a mutable object, and
    the messages, tools and content parts it holds are objects other attempts hold too. */
module RequestHook {
  import opened Common
  import opened Capabilities
  import opened RequestRewrite

  // ---- The objects ---------------------------------------------------------------------------

  /** A content part: a dictionary, unless `loose` says what else it is. */
  class Part {
    const loose: Option<string>
    var fields: map<string, string>
    constructor (fields: map<string, string>)
      ensures loose == None && this.fields == fields
    {
      loose, this.fields := None, fields;
    }
  }

  datatype Content = Missing | Text(text: string) | List(parts: seq<Part>)

  /** A message or a tool. */
  class Entry {
    const loose: Option<string>
    var fields: map<string, string>
    var content: Content
    constructor (fields: map<string, string>, content: Content)
      ensures loose == None && this.fields == fields && this.content == content
    {
      loose, this.fields, this.content := None, fields, content;
    }
  }

  datatype Items = NotAList(text: string) | Items(items: seq<Entry>)

  /** The keyword arguments of one attempt. */
  class Kwargs {
    var deployment: Deployment
    var probe: bool
    var effort: Option<string>
    var thinking: Option<string>
    var toolChoice: ToolChoice
    var messages: Items
    var tools: Items
    var rest: map<string, string>

    /** A shallow copy, sent to another deployment. */
    constructor Routed(from: Kwargs, to: Deployment)
      ensures deployment == to && probe == from.probe && effort == from.effort && thinking == from.thinking
      ensures toolChoice == from.toolChoice && messages == from.messages && tools == from.tools && rest == from.rest
    {
      deployment, probe, effort, thinking := to, from.probe, from.effort, from.thinking;
      toolChoice, messages, tools, rest := from.toolChoice, from.messages, from.tools, from.rest;
    }
  }

  // ---- What they hold --------------------------------------------------------------------------

  ghost function SeePart(p: Part): PartTree
    reads p
  {
    match p.loose
    case Some(text) => LoosePart(text)
    case None => PartTree(p.fields)
  }

  ghost function SeeParts(parts: seq<Part>): seq<PartTree>
    reads parts
  {
    seq(|parts|, i requires 0 <= i < |parts| reads parts => SeePart(parts[i]))
  }

  ghost function PartsOf(c: Content): seq<Part> { if c.List? then c.parts else [] }

  ghost function SeeContent(c: Content): ContentTree
    reads PartsOf(c)
  {
    match c
    case Missing => NoContent
    case Text(text) => Whole(text)
    case List(parts) => Parts(SeeParts(parts))
  }

  ghost function SeeEntry(e: Entry): EntryTree
    reads e, PartsOf(e.content)
  {
    match e.loose
    case Some(text) => LooseEntry(text)
    case None => EntryTree(e.fields, SeeContent(e.content))
  }

  /** What a list of entries holds. */
  ghost predicate Holds(es: seq<Entry>, trees: seq<EntryTree>)
    reads *
  {
    |es| == |trees| && forall i :: 0 <= i < |es| ==> SeeEntry(es[i]) == trees[i]
  }

  /** Every entry whose tree does not satisfy `p` is shared. */
  ghost predicate Shares(p: EntryTree -> bool, trees: seq<EntryTree>, items: seq<Entry>, out: seq<Entry>) {
    && |trees| == |items| == |out|
    && (out != [] ==>
          var k := |out| - 1;
          Shares(p, trees[..k], items[..k], out[..k]) && (p(trees[k]) || out[k] == items[k]))
  }

  lemma Grow(f: EntryTree -> EntryTree, p: EntryTree -> bool, trees: seq<EntryTree>, n: nat)
    requires n < |trees|
    ensures EachOf(f, trees[..n + 1]) == EachOf(f, trees[..n]) + [f(trees[n])]
    ensures AnyOf(p, trees[..n + 1]) <==> AnyOf(p, trees[..n]) || p(trees[n])
  {
    assert trees[..n + 1][..n] == trees[..n];
  }

  lemma GrowShares(p: EntryTree -> bool, trees: seq<EntryTree>, items: seq<Entry>, out: seq<Entry>, item: Entry)
    requires |out| < |trees| == |items| && Shares(p, trees[..|out|], items[..|out|], out)
    requires p(trees[|out|]) || item == items[|out|]
    ensures Shares(p, trees[..|out| + 1], items[..|out| + 1], out + [item])
  {
    var n := |out|;
    assert trees[..n + 1][..n] == trees[..n] && items[..n + 1][..n] == items[..n] && (out + [item])[..n] == out;
  }

  // ---- Copy-on-write strips ------------------------------------------------------------------------

  method StripPart(part: Part) returns (r: Part)
    ensures SeePart(r) == CleanPart(SeePart(part))
    ensures r == part <==> !PartMarked(SeePart(part))
  {
    PartUntouched(SeePart(part));
    r := part;
    if part.loose.None? && CACHE in part.fields {
      r := new Part(part.fields - {CACHE});
    }
  }

  /** The content parts, copied when one of them is marked. */
  method StripParts(parts: seq<Part>) returns (out: seq<Part>)
    ensures Parts(SeeParts(out)) == CleanContent(Parts(SeeParts(parts)))
    ensures out == parts <==> SeeParts(out) == SeeParts(parts)
  {
    forall i | 0 <= i < |parts| ensures CleanPart(SeePart(parts[i])) == SeePart(parts[i]) <==> !PartMarked(SeePart(parts[i])) {
      PartUntouched(SeePart(parts[i]));
    }
    out := parts;
    if exists i :: 0 <= i < |parts| && parts[i].loose.None? && CACHE in parts[i].fields {
      out := [];
      for n := 0 to |parts|
        invariant |out| == n
        invariant forall i :: 0 <= i < n ==> SeePart(out[i]) == CleanPart(SeePart(parts[i]))
        invariant forall i :: 0 <= i < n ==> PartMarked(SeePart(parts[i])) || out[i] == parts[i]
      {
        var cleaned := StripPart(parts[n]);
        out := out + [cleaned];
      }
    }
    assert SeeParts(out) == CleanContent(Parts(SeeParts(parts))).parts;
    if SeeParts(out) == SeeParts(parts) {
      forall i | 0 <= i < |parts| ensures out[i] == parts[i] { assert SeeParts(out)[i] == SeeParts(parts)[i]; }
    }
  }

  /** One entry; the same object comes back exactly when nothing came off. */
  method StripEntry(item: Entry, ghost tree: EntryTree) returns (r: Entry)
    requires SeeEntry(item) == tree
    ensures SeeEntry(r) == CleanEntry(tree)
    ensures r == item <==> !Marked(tree)
  {
    EntryUntouched(tree);
    r := item;
    if item.loose.Some? { return; }
    if CACHE in item.fields {
      r := new Entry(item.fields - {CACHE}, item.content);
    }
    if item.content.List? {
      var cleaned := StripParts(item.content.parts);
      if cleaned != item.content.parts {
        if r == item { r := new Entry(item.fields, item.content); }
        r.content := List(cleaned);
      }
    }
  }

  /** The same for a message's thinking blocks. */
  method UnblockEntry(item: Entry, ghost tree: EntryTree) returns (r: Entry)
    requires SeeEntry(item) == tree
    ensures SeeEntry(r) == WithoutBlocks(tree)
    ensures r == item <==> !HasBlocks(tree)
  {
    BlocksUntouched(tree);
    r := item;
    if item.loose.None? && BLOCKS in item.fields {
      r := new Entry(item.fields - {BLOCKS}, item.content);
    }
  }

  /** `_strip_cache_control_entries`: nothing when no mark came off, else a list that shares
      every entry that did not change.  No object changes. */
  method StripCacheControl(items: seq<Entry>, ghost trees: seq<EntryTree>) returns (r: Option<seq<Entry>>)
    requires Holds(items, trees)
    ensures r.None? <==> !AnyOf(Marked, trees)
    ensures r.Some? ==> Holds(r.value, EachOf(CleanEntry, trees)) && Shares(Marked, trees, items, r.value)
  {
    ghost var want := [];
    var changed := false;
    var out: seq<Entry> := [];
    for n := 0 to |items|
      invariant |out| == n && want == EachOf(CleanEntry, trees[..n])
      invariant Holds(out, want) && Shares(Marked, trees[..n], items[..n], out)
      invariant changed == AnyOf(Marked, trees[..n])
    {
      var item := StripEntry(items[n], trees[n]);
      assert Holds(out, want);
      Grow(CleanEntry, Marked, trees, n);
      GrowShares(Marked, trees, items, out, item);
      want := want + [CleanEntry(trees[n])];
      if item != items[n] { changed := true; }
      out := out + [item];
    }
    assert trees[..|items|] == trees && items[..|items|] == items;
    r := if changed then Some(out) else None;
  }

  /** `_strip_thinking_blocks`, with the same promise. */
  method StripThinkingBlocks(items: seq<Entry>, ghost trees: seq<EntryTree>) returns (r: Option<seq<Entry>>)
    requires Holds(items, trees)
    ensures r.None? <==> !AnyOf(HasBlocks, trees)
    ensures r.Some? ==> Holds(r.value, EachOf(WithoutBlocks, trees)) && Shares(HasBlocks, trees, items, r.value)
  {
    ghost var want := [];
    var changed := false;
    var out: seq<Entry> := [];
    for n := 0 to |items|
      invariant |out| == n && want == EachOf(WithoutBlocks, trees[..n])
      invariant Holds(out, want) && Shares(HasBlocks, trees[..n], items[..n], out)
      invariant changed == AnyOf(HasBlocks, trees[..n])
    {
      var item := UnblockEntry(items[n], trees[n]);
      assert Holds(out, want);
      Grow(WithoutBlocks, HasBlocks, trees, n);
      GrowShares(HasBlocks, trees, items, out, item);
      want := want + [WithoutBlocks(trees[n])];
      if item != items[n] { changed := true; }
      out := out + [item];
    }
    assert trees[..|items|] == trees && items[..|items|] == items;
    r := if changed then Some(out) else None;
  }

  // ---- The hook ------------------------------------------------------------------------------------

  ghost predicate HoldsList(l: Items, t: ListTree)
    reads *
  {
    if l.NotAList? then t == NoList(l.text) else t.Entries? && Holds(l.items, t.entries)
  }

  /** Everything a request says, down to its content parts. */
  ghost predicate Shows(r: Kwargs, t: Tree)
    reads *
  {
    && r.deployment == t.deployment && r.probe == t.probe && Pair(r.effort, r.thinking) == t.thinking
    && r.toolChoice == t.toolChoice && r.rest == t.rest
    && HoldsList(r.messages, t.messages) && HoldsList(r.tools, t.tools)
  }

  /** `apply_thinking_off` */
  method ApplyThinkingOff(kwargs: Kwargs, caps: Record) returns (changed: bool)
    modifies kwargs`effort, kwargs`thinking
    ensures Pair(kwargs.effort, kwargs.thinking) == RewriteThinking(Pair(old(kwargs.effort), old(kwargs.thinking)), caps)
    ensures changed <==> kwargs.effort != old(kwargs.effort) || kwargs.thinking != old(kwargs.thinking)
    ensures old(kwargs.effort) != Some("none") ==> !changed
    ensures old(kwargs.effort) == Some("none") ==>
      (kwargs.effort, kwargs.thinking) ==
        match caps.thinkingOff
        case Some(ByDisabled) => (Some("none"), Some("disabled"))
        case Some(ByBetweenTools) => (Some("none"), Some("between_tools"))
        case Some(Unsupported) => (None, None)
        case Some(AlwaysOn) =>
          (match caps.thinkingFloor
           case Some(Some(level)) => if level == "" then (Some("none"), None) else (Some(level), None)
           case _ => (Some("none"), None))
        case _ => (Some("none"), None)
  {
    if kwargs.effort != Some(NONE) { return false; }
    var before := Pair(kwargs.effort, kwargs.thinking);
    kwargs.thinking := None;
    var way := caps.thinkingOff;
    if way == Some(ByDisabled) {
      kwargs.thinking := Some(DISABLED);
    } else if way == Some(ByBetweenTools) {
      kwargs.thinking := Some(BETWEEN_TOOLS);
    } else if way == Some(AlwaysOn) && caps.thinkingFloor.GetOr(None).GetOr("") != "" {
      kwargs.effort := caps.thinkingFloor.value;
    } else if way == Some(Unsupported) {
      kwargs.effort := None;
    }
    changed := Pair(kwargs.effort, kwargs.thinking) != before;
  }

  /** `downgrade_forced_tool_choice` */
  method DowngradeForced(kwargs: Kwargs, caps: Record) returns (changed: bool)
    modifies kwargs`toolChoice
    ensures kwargs.toolChoice == if changed then ChoiceText("auto") else old(kwargs.toolChoice)
    ensures changed <==> caps.forcedToolChoice == Some(false) && Forcing(old(kwargs.toolChoice))
  {
    ForcingMeans(kwargs.toolChoice);
    if caps.forcedToolChoice != Some(false) || !Forced(kwargs.toolChoice) { return false; }
    kwargs.toolChoice := AUTO;
    changed := true;
  }

  /** The cache markers of one list of the request. */
  method CleanItems(l: Items, ghost t: ListTree) returns (r: Items, changed: bool)
    requires HoldsList(l, t)
    ensures HoldsList(r, Each(CleanEntry, t))
    ensures changed <==> Each(CleanEntry, t) != t
  {
    r, changed := l, false;
    CleanList(t);
    if l.Items? {
      var stripped := StripCacheControl(l.items, t.entries);
      if stripped.Some? { r, changed := Items(stripped.value), true; }
    }
  }

  method UnblockItems(l: Items, ghost t: ListTree) returns (r: Items, changed: bool)
    requires HoldsList(l, t)
    ensures HoldsList(r, Each(WithoutBlocks, t))
    ensures changed <==> Each(WithoutBlocks, t) != t
  {
    r, changed := l, false;
    UnblockList(t);
    if l.Items? {
      var stripped := StripThinkingBlocks(l.items, t.entries);
      if stripped.Some? { r, changed := Items(stripped.value), true; }
    }
  }

  method StripItems(l: Items, markers: bool, blocks: bool, ghost t: ListTree) returns (r: Items, changed: bool)
    requires HoldsList(l, t)
    ensures HoldsList(r, Stripped(t, markers, blocks))
    ensures changed <==> Stripped(t, markers, blocks) != t
  {
    r, changed := l, false;
    ghost var cleaned := t;
    if markers {
      r, changed := CleanItems(l, t);
      cleaned := Each(CleanEntry, t);
    }
    if blocks {
      var changed1;
      r, changed1 := UnblockItems(r, cleaned);
      BothChange(t);
      changed := changed || changed1;
    }
  }

  /** The two fixes that follow the deployment's record. */
  method FixByRecord(kwargs: Kwargs, ghost was: Tree) returns (changed: bool)
    requires Shows(kwargs, was)
    modifies kwargs`effort, kwargs`thinking, kwargs`toolChoice
    ensures Shows(kwargs, ByRecord(was))
    ensures changed <==> ByRecord(was) != was
  {
    if kwargs.probe { return false; }
    changed := FixThinking(kwargs, was);
    ghost var now := was.(thinking := RewriteThinking(was.thinking, was.deployment.caps));
    var downgraded := FixToolChoice(kwargs, now);
    changed := changed || downgraded;
  }

  method FixThinking(kwargs: Kwargs, ghost was: Tree) returns (changed: bool)
    requires Shows(kwargs, was)
    modifies kwargs`effort, kwargs`thinking
    ensures Shows(kwargs, was.(thinking := RewriteThinking(was.thinking, was.deployment.caps)))
    ensures changed <==> RewriteThinking(was.thinking, was.deployment.caps) != was.thinking
  {
    changed := ApplyThinkingOff(kwargs, kwargs.deployment.caps);
    assert HoldsList(kwargs.messages, was.messages);
    assert HoldsList(kwargs.tools, was.tools);
  }

  method FixToolChoice(kwargs: Kwargs, ghost was: Tree) returns (changed: bool)
    requires Shows(kwargs, was)
    modifies kwargs`toolChoice
    ensures Shows(kwargs, was.(toolChoice := if changed then AUTO else was.toolChoice))
    ensures changed <==> was.deployment.caps.forcedToolChoice == Some(false) && Forced(was.toolChoice)
  {
    ForcingMeans(kwargs.toolChoice);
    changed := DowngradeForced(kwargs, kwargs.deployment.caps);
    assert HoldsList(kwargs.messages, was.messages);
    assert HoldsList(kwargs.tools, was.tools);
  }

  /** The strips that follow the deployment's dialect. */
  method FixByDialect(kwargs: Kwargs, ghost was: Tree) returns (changed: bool)
    requires Shows(kwargs, was)
    modifies kwargs`messages, kwargs`tools
    ensures Shows(kwargs, ByDialect(was))
    ensures changed <==> ByDialect(was) != was
  {
    var markers := !SpeaksIdiom(kwargs.deployment);
    var blocks := markers || (!kwargs.probe && kwargs.deployment.caps.thinkingReplay == Some(Some(false)));
    var tools, changed1 := StripItems(kwargs.tools, markers, false, was.tools);
    assert HoldsList(kwargs.messages, was.messages);
    var messages, changed2 := StripItems(kwargs.messages, markers, blocks, was.messages);
    assert HoldsList(tools, ByDialect(was).tools);
    Replace(kwargs, messages, tools, was, ByDialect(was));
    changed := changed1 || changed2;
  }

  method Replace(kwargs: Kwargs, messages: Items, tools: Items, ghost was: Tree, ghost now: Tree)
    requires Shows(kwargs, was) && now == was.(messages := now.messages, tools := now.tools)
    requires HoldsList(messages, now.messages) && HoldsList(tools, now.tools)
    modifies kwargs`messages, kwargs`tools
    ensures Shows(kwargs, now)
  {
    kwargs.messages, kwargs.tools := messages, tools;
    assert HoldsList(messages, now.messages);
    assert HoldsList(tools, now.tools);
  }

  /** Taking off both changes a list exactly when one of the two steps does. */
  lemma BothChange(t: ListTree)
    ensures var cleaned := Each(CleanEntry, t);
      Each(WithoutBlocks, cleaned) != t <==> cleaned != t || Each(WithoutBlocks, cleaned) != cleaned
  {
    CleanList(t);
    UnblockList(t);
    ListsCommute(t);
    CleanList(Each(WithoutBlocks, t));
  }

  /** `async_pre_call_deployment_hook`: the request becomes its rewrite for the deployment it
      names, the answer says whether that is a change, and no other object is written. */
  method PreCallDeployment(kwargs: Kwargs, ghost was: Tree) returns (changed: bool)
    requires Shows(kwargs, was)
    modifies kwargs
    ensures Shows(kwargs, Rewrite(was))
    ensures changed <==> Rewrite(was) != was
  {
    changed := FixByRecord(kwargs, was);
    var changed1 := FixByDialect(kwargs, ByRecord(was));
    changed := changed || changed1;
  }

  /** What each deployment is to get of a request. */
  ghost function RewriteEach(t: Tree, deployments: seq<Deployment>): (r: seq<Tree>)
    ensures |r| == |deployments|
  {
    if deployments == [] then []
    else
      var k := |deployments| - 1;
      RewriteEach(t, deployments[..k]) + [Rewrite(t.(deployment := deployments[k]))]
  }

  lemma {:induction false} RewriteEachAt(t: Tree, deployments: seq<Deployment>, k: nat)
    requires k < |deployments|
    ensures RewriteEach(t, deployments)[k] == Rewrite(t.(deployment := deployments[k]))
  {
    if k < |deployments| - 1 { RewriteEachAt(t, deployments[..|deployments| - 1], k); }
  }

  /** Attempts made one after the other from shallow copies of one request: each deployment gets
      the rewrite of the original for itself alone, and the original still says what it said. */
  method Failover(original: Kwargs, deployments: seq<Deployment>, ghost was: Tree) returns (sent: seq<Kwargs>)
    requires Shows(original, was)
    ensures Shows(original, was)
    ensures |sent| == |deployments|
    ensures forall k :: 0 <= k < |sent| ==> fresh(sent[k]) && Shows(sent[k], Rewrite(was.(deployment := deployments[k])))
  {
    sent := Attempts(original, deployments, was);
    forall k | 0 <= k < |deployments|
      ensures RewriteEach(was, deployments)[k] == Rewrite(was.(deployment := deployments[k]))
    {
      RewriteEachAt(was, deployments, k);
    }
  }

  ghost function RewriteOneMore(t: Tree, deployments: seq<Deployment>, n: nat, want: seq<Tree>): (r: seq<Tree>)
    requires n < |deployments| && want == RewriteEach(t, deployments[..n])
    ensures r == RewriteEach(t, deployments[..n + 1]) && |r| == n + 1 && r[..n] == want
    ensures r[n] == Rewrite(t.(deployment := deployments[n]))
  {
    assert deployments[..n + 1][..n] == deployments[..n];
    want + [Rewrite(t.(deployment := deployments[n]))]
  }

  /** One attempt: a shallow copy, routed and fixed.  Only the copy is written. */
  method SendTo(original: Kwargs, deployment: Deployment, ghost was: Tree) returns (attempt: Kwargs)
    requires Shows(original, was)
    ensures fresh(attempt) && Shows(attempt, Rewrite(was.(deployment := deployment)))
  {
    attempt := new Kwargs.Routed(original, deployment);
    ghost var tree := was.(deployment := deployment);
    assert HoldsList(original.messages, tree.messages) && HoldsList(original.tools, tree.tools);
    assert Shows(attempt, tree);
    var changed := PreCallDeployment(attempt, tree);
  }

  /** What was sent before stays as it was sent. */
  method SendNext(original: Kwargs, deployment: Deployment, ghost was: Tree, sent: seq<Kwargs>, ghost want: seq<Tree>)
      returns (attempt: Kwargs)
    requires Shows(original, was) && |sent| == |want| && forall k :: 0 <= k < |sent| ==> Shows(sent[k], want[k])
    ensures fresh(attempt) && Shows(attempt, Rewrite(was.(deployment := deployment)))
    ensures Shows(original, was) && forall k :: 0 <= k < |sent| ==> Shows(sent[k], want[k])
  {
    attempt := SendTo(original, deployment, was);
  }

  method Attempts(original: Kwargs, deployments: seq<Deployment>, ghost was: Tree) returns (sent: seq<Kwargs>)
    requires Shows(original, was)
    ensures Shows(original, was) && |sent| == |deployments|
    ensures forall k :: 0 <= k < |sent| ==> fresh(sent[k]) && Shows(sent[k], RewriteEach(was, deployments)[k])
  {
    sent := [];
    ghost var want := [];
    for n := 0 to |deployments|
      invariant Shows(original, was) && |sent| == n && want == RewriteEach(was, deployments[..n])
      invariant forall k :: 0 <= k < n ==> fresh(sent[k])
      invariant forall k :: 0 <= k < n ==> Shows(sent[k], want[k])
    {
      var attempt := SendNext(original, deployments[n], was, sent, want);
      want := RewriteOneMore(was, deployments, n, want);
      sent := sent + [attempt];
    }
    assert deployments[..|deployments|] == deployments;
  }
}
