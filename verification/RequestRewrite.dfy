/** What one deployment is sent of a request: the gateway's per-attempt rewrite, on values. */
module RequestRewrite {
  import opened Common
  import opened Capabilities
  import Probe
  import ProbeVerdicts

  // ---- Requests as trees --------------------------------------------------------------------

  /** A content part: a dictionary, or anything else. */
  datatype PartTree = LoosePart(text: string) | PartTree(fields: map<string, string>)

  datatype ContentTree = NoContent | Whole(text: string) | Parts(parts: seq<PartTree>)

  /** A message or a tool definition.  `content` holds the key of that name, `fields` the rest. */
  datatype EntryTree = LooseEntry(text: string) | EntryTree(fields: map<string, string>, content: ContentTree)

  /** The value under `messages` or `tools`. */
  datatype ListTree = NoList(text: string) | Entries(entries: seq<EntryTree>)

  datatype ToolChoice = NoChoice | ChoiceText(text: string) | ChoiceDict(typ: string, names: bool) | OddChoice

  /** Where the router sends an attempt. */
  datatype Deployment = Deployment(model: string, provider: Option<string>, caps: Record)

  datatype Tree = Tree(
    deployment: Deployment, probe: bool, thinking: Pair, toolChoice: ToolChoice,
    messages: ListTree, tools: ListTree, rest: map<string, string>)

  const CACHE := "cache_control"
  const BLOCKS := "thinking_blocks"

  // ---- Who speaks the idiom -------------------------------------------------------------------

  function AfterSlash(s: string): Option<(string, string)> {
    if s == "" then None
    else if s[0] == '/' then Some(("", s[1..]))
    else
      match AfterSlash(s[1..])
      case None => None
      case Some(cut) => Some(([s[0]] + cut.0, cut.1))
  }

  /** Provider to model markers; no markers means every model of that provider. */
  const KEEP_RULES: map<string, seq<string>> := map[
    "anthropic" := [],
    "bedrock" := ["anthropic.", "claude"],
    "bedrock_converse" := ["anthropic.", "claude"],
    "vertex_ai" := ["claude"]]

  /** `_should_strip_cache_control`, the other way round. */
  predicate KeepsMarkers(provider: Option<string>, model: string) {
    var p := provider.GetOr("");
    p in KEEP_RULES && (KEEP_RULES[p] == [] || exists i :: 0 <= i < |KEEP_RULES[p]| && Contains(model, KEEP_RULES[p][i]))
  }

  /** The provider and the bare model, from what the attempt carries. */
  predicate SpeaksIdiom(d: Deployment) {
    var cut := AfterSlash(d.model);
    var provider :=
      if d.provider.GetOr("") != "" then d.provider else if cut.Some? then Some(cut.value.0) else None;
    KeepsMarkers(provider, if cut.Some? then cut.value.1 else d.model)
  }

  // ---- Stripping -------------------------------------------------------------------------------

  predicate PartMarked(p: PartTree) { p.PartTree? && CACHE in p.fields }

  predicate Marked(e: EntryTree) {
    && e.EntryTree?
    && (CACHE in e.fields || (e.content.Parts? && exists i :: 0 <= i < |e.content.parts| && PartMarked(e.content.parts[i])))
  }

  predicate HasBlocks(e: EntryTree) { e.EntryTree? && BLOCKS in e.fields }

  function CleanPart(p: PartTree): PartTree {
    if p.PartTree? then PartTree(p.fields - {CACHE}) else p
  }

  function CleanContent(c: ContentTree): ContentTree {
    if c.Parts? then Parts(seq(|c.parts|, i requires 0 <= i < |c.parts| => CleanPart(c.parts[i]))) else c
  }

  function CleanEntry(e: EntryTree): EntryTree {
    if e.EntryTree? then EntryTree(e.fields - {CACHE}, CleanContent(e.content)) else e
  }

  function WithoutBlocks(e: EntryTree): EntryTree {
    if e.EntryTree? then e.(fields := e.fields - {BLOCKS}) else e
  }

  function EachOf(f: EntryTree -> EntryTree, es: seq<EntryTree>): seq<EntryTree> {
    if es == [] then [] else EachOf(f, es[..|es| - 1]) + [f(es[|es| - 1])]
  }

  function Each(f: EntryTree -> EntryTree, l: ListTree): ListTree {
    if l.Entries? then Entries(EachOf(f, l.entries)) else l
  }

  lemma {:induction false} EachAt(f: EntryTree -> EntryTree, es: seq<EntryTree>)
    ensures |EachOf(f, es)| == |es|
    ensures forall i :: 0 <= i < |es| ==> EachOf(f, es)[i] == f(es[i])
  {
    if es != [] { EachAt(f, es[..|es| - 1]); }
  }

  predicate AnyOf(p: EntryTree -> bool, es: seq<EntryTree>) {
    es != [] && (AnyOf(p, es[..|es| - 1]) || p(es[|es| - 1]))
  }

  predicate AnyIn(p: EntryTree -> bool, l: ListTree) { l.Entries? && AnyOf(p, l.entries) }

  // ---- The rewrite of one attempt ----------------------------------------------------------------

  /** `_is_forced` */
  predicate Forced(t: ToolChoice) {
    match t
    case ChoiceText(text) => text == "required" || text == "any"
    case ChoiceDict(typ, names) => typ == "function" || typ == "tool" || names
    case _ => false
  }

  const AUTO := ChoiceText("auto")

  /** What the deployment's record asks for; probe traffic is left alone. */
  function ByRecord(t: Tree): Tree {
    if t.probe then t
    else
      var caps := t.deployment.caps;
      t.(thinking := RewriteThinking(t.thinking, caps),
         toolChoice := if caps.forcedToolChoice == Some(false) && Forced(t.toolChoice) then AUTO else t.toolChoice)
  }

  predicate RefusesBlocks(t: Tree) {
    !SpeaksIdiom(t.deployment) || (!t.probe && t.deployment.caps.thinkingReplay == Some(Some(false)))
  }

  function Stripped(l: ListTree, markers: bool, blocks: bool): ListTree {
    var cleaned := if markers then Each(CleanEntry, l) else l;
    if blocks then Each(WithoutBlocks, cleaned) else cleaned
  }

  /** What the deployment's dialect asks for. */
  function ByDialect(t: Tree): Tree {
    t.(tools := Stripped(t.tools, !SpeaksIdiom(t.deployment), false),
       messages := Stripped(t.messages, !SpeaksIdiom(t.deployment), RefusesBlocks(t)))
  }

  function Rewrite(t: Tree): Tree { ByDialect(ByRecord(t)) }

  // ---- What stripping means -------------------------------------------------------------------

  lemma PartUntouched(p: PartTree)
    ensures CleanPart(p) == p <==> !PartMarked(p)
    ensures !PartMarked(CleanPart(p))
  {
    if p.PartTree? && CACHE !in p.fields {
      assert p.fields - {CACHE} == p.fields;
    }
  }

  /** Cleaning changes an entry exactly when it was marked, and leaves no mark. */
  lemma EntryUntouched(e: EntryTree)
    ensures CleanEntry(e) == e <==> !Marked(e)
    ensures !Marked(CleanEntry(e))
  {
    if e.EntryTree? {
      assert CACHE !in e.fields ==> e.fields - {CACHE} == e.fields;
      if e.content.Parts? {
        var ps, cs := e.content.parts, CleanContent(e.content).parts;
        forall i | 0 <= i < |ps| ensures (cs[i] == ps[i] <==> !PartMarked(ps[i])) && !PartMarked(cs[i]) {
          PartUntouched(ps[i]);
        }
        if forall i :: 0 <= i < |ps| ==> !PartMarked(ps[i]) {
          assert cs == ps;
        }
      }
    }
  }

  lemma BlocksUntouched(e: EntryTree)
    ensures WithoutBlocks(e) == e <==> !HasBlocks(e)
    ensures !HasBlocks(WithoutBlocks(e))
  {
    if e.EntryTree? && BLOCKS !in e.fields {
      assert e.fields - {BLOCKS} == e.fields;
    }
  }

  /** A list changes exactly when one of its entries is marked, and keeps none of the marks. */
  lemma {:induction false} ListUntouched(f: EntryTree -> EntryTree, p: EntryTree -> bool, es: seq<EntryTree>)
    requires forall e :: (f(e) == e <==> !p(e)) && !p(f(e))
    ensures EachOf(f, es) == es <==> !AnyOf(p, es)
    ensures !AnyOf(p, EachOf(f, es))
    ensures EachOf(f, EachOf(f, es)) == EachOf(f, es)
  {
    if es != [] {
      ListUntouched(f, p, es[..|es| - 1]);
      var fs, last := EachOf(f, es), f(es[|es| - 1]);
      assert fs[..|fs| - 1] == EachOf(f, es[..|es| - 1]) && fs[|fs| - 1] == last;
      assert f(last) == last;
      EachAt(f, es);
      if fs == es { assert fs[..|fs| - 1] == es[..|es| - 1]; }
    }
  }

  lemma CleanList(l: ListTree)
    ensures Each(CleanEntry, l) == l <==> !AnyIn(Marked, l)
    ensures !AnyIn(Marked, Each(CleanEntry, l))
    ensures Each(CleanEntry, Each(CleanEntry, l)) == Each(CleanEntry, l)
  {
    forall e ensures (CleanEntry(e) == e <==> !Marked(e)) && !Marked(CleanEntry(e)) { EntryUntouched(e); }
    if l.Entries? { ListUntouched(CleanEntry, Marked, l.entries); }
  }

  lemma UnblockList(l: ListTree)
    ensures Each(WithoutBlocks, l) == l <==> !AnyIn(HasBlocks, l)
    ensures !AnyIn(HasBlocks, Each(WithoutBlocks, l))
    ensures Each(WithoutBlocks, Each(WithoutBlocks, l)) == Each(WithoutBlocks, l)
  {
    forall e ensures (WithoutBlocks(e) == e <==> !HasBlocks(e)) && !HasBlocks(WithoutBlocks(e)) { BlocksUntouched(e); }
    if l.Entries? { ListUntouched(WithoutBlocks, HasBlocks, l.entries); }
  }

  /** The two strips do not disturb each other. */
  lemma {:induction false} StripsCommute(es: seq<EntryTree>)
    ensures EachOf(CleanEntry, EachOf(WithoutBlocks, es)) == EachOf(WithoutBlocks, EachOf(CleanEntry, es))
  {
    if es != [] {
      var init, e := es[..|es| - 1], es[|es| - 1];
      StripsCommute(init);
      StripsCommuteOn(e);
      assert (EachOf(WithoutBlocks, init) + [WithoutBlocks(e)])[..|EachOf(WithoutBlocks, es)| - 1] == EachOf(WithoutBlocks, init);
      assert (EachOf(CleanEntry, init) + [CleanEntry(e)])[..|EachOf(CleanEntry, es)| - 1] == EachOf(CleanEntry, init);
    }
  }

  lemma StripsCommuteOn(e: EntryTree)
    ensures CleanEntry(WithoutBlocks(e)) == WithoutBlocks(CleanEntry(e))
  {
    if e.EntryTree? { assert e.fields - {BLOCKS} - {CACHE} == e.fields - {CACHE} - {BLOCKS}; }
  }

  lemma ListsCommute(l: ListTree)
    ensures Each(CleanEntry, Each(WithoutBlocks, l)) == Each(WithoutBlocks, Each(CleanEntry, l))
  {
    if l.Entries? { StripsCommute(l.entries); }
  }

  // ---- What a deployment gets ------------------------------------------------------------------

  /** A retry of an already rewritten request on the same deployment changes nothing. */
  lemma RewriteSettles(t: Tree)
    ensures Rewrite(Rewrite(t)) == Rewrite(t)
  {
    var markers := !SpeaksIdiom(t.deployment);
    StrippedSettles(t.messages, markers, RefusesBlocks(ByRecord(t)));
    StrippedSettles(t.tools, markers, false);
  }

  lemma StrippedSettles(l: ListTree, markers: bool, blocks: bool)
    ensures Stripped(Stripped(l, markers, blocks), markers, blocks) == Stripped(l, markers, blocks)
  {
    var cleaned := Each(CleanEntry, l);
    CleanList(l);
    UnblockList(l);
    UnblockList(cleaned);
    ListsCommute(cleaned);
  }

  /** A deployment outside the idiom sees no marker and no thinking block, and one recorded as
      rejecting a forced choice or a replayed block sees none of those, probes aside. */
  lemma NothingUnwelcome(t: Tree)
    ensures var r := Rewrite(t);
      && (!SpeaksIdiom(t.deployment) ==>
            !AnyIn(Marked, r.messages) && !AnyIn(Marked, r.tools) && !AnyIn(HasBlocks, r.messages))
      && (!t.probe && t.deployment.caps.thinkingReplay == Some(Some(false)) ==> !AnyIn(HasBlocks, r.messages))
      && (!t.probe && t.deployment.caps.forcedToolChoice == Some(false) ==> !Forced(r.toolChoice))
  {
    BothStripped(t.messages);
    CleanList(t.tools);
    UnblockList(t.messages);
  }

  lemma BothStripped(l: ListTree)
    ensures !AnyIn(Marked, Each(WithoutBlocks, Each(CleanEntry, l)))
    ensures !AnyIn(HasBlocks, Each(WithoutBlocks, Each(CleanEntry, l)))
  {
    UnblockList(Each(CleanEntry, l));
    ListsCommute(l);
    CleanList(Each(WithoutBlocks, l));
  }

  /** A deployment in the idiom keeps every marker; nobody loses anything but markers and blocks. */
  lemma OnlyMarksGo(t: Tree)
    ensures var r := Rewrite(t);
      && (SpeaksIdiom(t.deployment) ==> r.tools == t.tools)
      && (SpeaksIdiom(t.deployment) && (t.probe || t.deployment.caps.thinkingReplay != Some(Some(false))) ==>
            r.messages == t.messages)
      && SameButMarks(t.messages, r.messages) && SameButMarks(t.tools, r.tools)
      && r == t.(thinking := r.thinking, toolChoice := r.toolChoice, messages := r.messages, tools := r.tools)
  {
    ListKept(t.messages);
    ListKept(t.tools);
  }

  lemma EntryKept(e: EntryTree)
    ensures SameEntry(e, e) && SameEntry(e, CleanEntry(e)) && SameEntry(e, WithoutBlocks(e))
    ensures SameEntry(e, WithoutBlocks(CleanEntry(e)))
  {
  }

  lemma ListKept(l: ListTree)
    ensures SameButMarks(l, l) && SameButMarks(l, Each(CleanEntry, l)) && SameButMarks(l, Each(WithoutBlocks, l))
    ensures SameButMarks(l, Each(WithoutBlocks, Each(CleanEntry, l)))
  {
    if l.Entries? {
      EachAt(CleanEntry, l.entries);
      EachAt(WithoutBlocks, l.entries);
      EachAt(WithoutBlocks, EachOf(CleanEntry, l.entries));
      forall i | 0 <= i < |l.entries|
        ensures var e := l.entries[i];
          SameEntry(e, e) && SameEntry(e, CleanEntry(e)) && SameEntry(e, WithoutBlocks(e))
          && SameEntry(e, WithoutBlocks(CleanEntry(e)))
      {
        EntryKept(l.entries[i]);
      }
    }
  }

  ghost predicate SameButMarks(a: ListTree, b: ListTree) {
    if a.NoList? then b == a
    else
      b.Entries? && |a.entries| == |b.entries|
      && forall i :: 0 <= i < |a.entries| ==> SameEntry(a.entries[i], b.entries[i])
  }

  ghost predicate SameFields(a: map<string, string>, b: map<string, string>) {
    forall k :: k != CACHE && k != BLOCKS ==> (k in a <==> k in b) && (k in a ==> a[k] == b[k])
  }

  ghost predicate SamePart(a: PartTree, b: PartTree) {
    if a.LoosePart? then b == a else b.PartTree? && b.fields in {a.fields, a.fields - {CACHE}}
  }

  ghost predicate SameEntry(a: EntryTree, b: EntryTree) {
    if a.LooseEntry? then b == a
    else
      && b.EntryTree? && SameFields(a.fields, b.fields)
      && (if a.content.Parts? then
            && b.content.Parts? && |a.content.parts| == |b.content.parts|
            && forall i :: 0 <= i < |a.content.parts| ==> SamePart(a.content.parts[i], b.content.parts[i])
          else b.content == a.content)
  }

  // ---- The same, key by key -----------------------------------------------------------------------

  /** A choice the model may not decline. */
  predicate Forcing(choice: ToolChoice) {
    match choice
    case NoChoice => false
    case ChoiceText("required") => true
    case ChoiceText("any") => true
    case ChoiceText(_) => false
    case ChoiceDict("function", _) => true
    case ChoiceDict("tool", _) => true
    case ChoiceDict(_, names) => names
    case OddChoice => false
  }

  /** The two thinking fields, the choice and the rest: a probe and a request that asks for some
      thinking keep both fields; a choice changes only where it forces and the deployment is
      recorded as refusing that, and then to `auto`. */
  lemma FieldsSent(t: Tree)
    ensures var r, caps := Rewrite(t), t.deployment.caps;
      && (t.probe || t.thinking.effort != Some("none") ==> r.thinking == t.thinking)
      && (!t.probe && t.thinking.effort == Some("none") ==>
            r.thinking ==
              match caps.thinkingOff
              case Some(ByDisabled) => Pair(Some("none"), Some("disabled"))
              case Some(ByBetweenTools) => Pair(Some("none"), Some("between_tools"))
              case Some(Unsupported) => Pair(None, None)
              case Some(AlwaysOn) =>
                (match caps.thinkingFloor
                 case Some(Some(level)) => if level == "" then Pair(Some("none"), None) else Pair(Some(level), None)
                 case _ => Pair(Some("none"), None))
              case _ => Pair(Some("none"), None))
      && r.toolChoice == (if !t.probe && caps.forcedToolChoice == Some(false) && Forcing(t.toolChoice)
                          then ChoiceText("auto") else t.toolChoice)
      && r.deployment == t.deployment && r.probe == t.probe && r.rest == t.rest
  {
    ThinkingSent(t.thinking, t.deployment.caps);
    ForcingMeans(t.toolChoice);
  }

  lemma ForcingMeans(choice: ToolChoice)
    ensures Forced(choice) <==> Forcing(choice)
  {
  }

  /** The keys a list loses on the way to a deployment. */
  ghost function KeysLost(markers: bool, blocks: bool): set<string> {
    (if markers then {"cache_control"} else {}) + (if blocks then {"thinking_blocks"} else {})
  }

  /** One list, entry by entry: each dictionary loses these keys and no other, each part of its
      content its marker; whatever is no dictionary, no list of parts or no part stays. */
  ghost predicate LosesKeys(a: ListTree, b: ListTree, markers: bool, blocks: bool) {
    match a
    case NoList(_) => b == a
    case Entries(es) =>
      b.Entries? && |b.entries| == |es| && forall i :: 0 <= i < |es| ==> EntryLoses(es[i], b.entries[i], markers, blocks)
  }

  ghost predicate EntryLoses(a: EntryTree, b: EntryTree, markers: bool, blocks: bool) {
    match a
    case LooseEntry(_) => b == a
    case EntryTree(fields, content) =>
      && b.EntryTree? && b.fields == fields - KeysLost(markers, blocks)
      && match content
         case Parts(parts) =>
           b.content.Parts? && |b.content.parts| == |parts|
           && forall j :: 0 <= j < |parts| ==> PartLoses(parts[j], b.content.parts[j], markers)
         case _ => b.content == content
  }

  ghost predicate PartLoses(a: PartTree, b: PartTree, markers: bool) {
    match a
    case LoosePart(_) => b == a
    case PartTree(fields) => b == PartTree(fields - KeysLost(markers, false))
  }

  lemma EntryStripped(e: EntryTree)
    ensures EntryLoses(e, e, false, false) && EntryLoses(e, CleanEntry(e), true, false)
    ensures EntryLoses(e, WithoutBlocks(e), false, true) && EntryLoses(e, WithoutBlocks(CleanEntry(e)), true, true)
  {
    if e.EntryTree? {
      assert e.fields - {} == e.fields;
      assert e.fields - {CACHE} - {BLOCKS} == e.fields - {"cache_control", "thinking_blocks"};
      if e.content.Parts? {
        forall j | 0 <= j < |e.content.parts| && e.content.parts[j].PartTree?
          ensures e.content.parts[j].fields - {} == e.content.parts[j].fields
        {
        }
      }
    }
  }

  lemma ListStripped(l: ListTree, markers: bool, blocks: bool)
    ensures LosesKeys(l, Stripped(l, markers, blocks), markers, blocks)
  {
    if l.Entries? {
      EachAt(CleanEntry, l.entries);
      EachAt(WithoutBlocks, l.entries);
      EachAt(WithoutBlocks, EachOf(CleanEntry, l.entries));
      forall i | 0 <= i < |l.entries|
        ensures EntryLoses(l.entries[i], Stripped(l, markers, blocks).entries[i], markers, blocks)
      {
        EntryStripped(l.entries[i]);
      }
    }
  }

  /** What each entry of a request loses: its cache markers outside the idiom; a message its thinking
      blocks there too, and where the replay is recorded as refused, probes aside. */
  lemma KeysSent(t: Tree)
    ensures var r, foreign := Rewrite(t), !SpeaksIdiom(t.deployment);
      && LosesKeys(t.tools, r.tools, foreign, false)
      && LosesKeys(t.messages, r.messages, foreign,
                   foreign || (!t.probe && t.deployment.caps.thinkingReplay == Some(Some(false))))
  {
    var foreign := !SpeaksIdiom(t.deployment);
    ListStripped(t.tools, foreign, false);
    ListStripped(t.messages, foreign, RefusesBlocks(t));
  }

  // ---- The allowlist -----------------------------------------------------------------------------

  lemma CutAtFirstSlash(provider: string, rest: string)
    requires '/' !in provider
    ensures AfterSlash(provider + "/" + rest) == Some((provider, rest))
  {
    if provider != "" {
      assert (provider + "/" + rest)[1..] == provider[1..] + "/" + rest;
      CutAtFirstSlash(provider[1..], rest);
      assert [provider[0]] + provider[1..] == provider;
    } else {
      assert provider + "/" + rest == "/" + rest;
    }
  }

  lemma NoSlash(s: string)
    ensures AfterSlash(s).None? <==> '/' !in s
  {
  }

  /** A registration that names its provider by prefix is judged as one that names it outright. */
  lemma PrefixNamesProvider(provider: string, model: string, caps: Record)
    requires provider != "" && '/' !in provider && '/' !in model
    ensures SpeaksIdiom(Deployment(provider + "/" + model, None, caps))
        <==> SpeaksIdiom(Deployment(model, Some(provider), caps))
  {
    CutAtFirstSlash(provider, model);
    NoSlash(model);
  }

  /** A provider named outright is taken at its word, and the prefix is not searched for markers. */
  lemma NamedProviderWins(provider: string, prefix: string, model: string, caps: Record)
    requires provider != "" && '/' !in prefix
    ensures SpeaksIdiom(Deployment(prefix + "/" + model, Some(provider), caps)) <==> KeepsMarkers(Some(provider), model)
    ensures '/' !in model ==>
      (SpeaksIdiom(Deployment(model, Some(provider), caps)) <==> KeepsMarkers(Some(provider), model))
  {
    CutAtFirstSlash(prefix, model);
    NoSlash(model);
  }

  /** Exactly whose markers are kept: anything sent to Anthropic itself, and what names an
      Anthropic model on the two clouds that serve others too. */
  lemma WhoKeepsMarkers(provider: string, model: string)
    ensures KeepsMarkers(Some(provider), model) <==>
      || provider == "anthropic"
      || ((provider == "bedrock" || provider == "bedrock_converse")
          && (Mentions(model, "anthropic.") || Mentions(model, "claude")))
      || (provider == "vertex_ai" && Mentions(model, "claude"))
    ensures !KeepsMarkers(None, model)
  {
    ContainsMentions(model, "anthropic.");
    ContainsMentions(model, "claude");
    if provider in KEEP_RULES && KEEP_RULES[provider] != [] {
      var markers := KEEP_RULES[provider];
      if (Contains(model, "anthropic.") || Contains(model, "claude")) && provider != "vertex_ai" {
        assert Contains(model, markers[0]) || Contains(model, markers[1]);
      }
      if Contains(model, "claude") { assert Contains(model, markers[|markers| - 1]); }
    }
  }

  /** A Bedrock deployment keeps its markers when its id names an Anthropic model anywhere, as
      the geographic profiles do; the same id without a provider loses them. */
  lemma BedrockProfiles(model: string, caps: Record)
    requires '/' !in model && (Mentions(model, "anthropic.") || Mentions(model, "claude"))
    ensures SpeaksIdiom(Deployment(model, Some("bedrock"), caps))
    ensures !SpeaksIdiom(Deployment(model, None, caps))
  {
    NoSlash(model);
    WhoKeepsMarkers("bedrock", model);
  }

  /** From probe to wire: whatever a client asks, a thinking-off request reaching the deployment
      that was just probed carries no pair the probe saw definitely refused. */
  lemma {:induction false} NoRefusedPairIsSent(log: seq<Sent>, candidates: seq<string>, t: Tree)
    requires Probe.ProbedBy(log, candidates, t.deployment.caps) && PairDecides(log)
    requires !t.probe && t.thinking.effort == Some(NONE)
    ensures !SawRefused(log, Rewrite(t).thinking)
  {
    Probe.FreshRecordIsSound(log, candidates, t.deployment.caps, t.thinking);
  }

  /** More than that: wherever the probe recorded a way, the pair sent is one this deployment answered;
      and where it recorded none that works, the effort and the switch are both left out. */
  lemma {:induction false} AnsweredPairIsSent(log: seq<Sent>, candidates: seq<string>, t: Tree)
    requires Probe.ProbedBy(log, candidates, t.deployment.caps) && candidates != []
    requires !t.probe && t.thinking.effort == Some("none") && t.deployment.caps.thinkingOff.Some?
    ensures var p := Rewrite(t).thinking;
      if ProbeVerdicts.SaidNoTo(log, Off(None)) then p == Pair(None, None)
      else
        || (p.effort == Some("none") && ProbeVerdicts.Answered(log, Off(p.thinking)))
        || (p.thinking.None? && p.effort.Some? && ProbeVerdicts.Answered(log, Floor(p.effort.value)))
  {
    var caps := t.deployment.caps;
    FieldsSent(t);
    ProbeVerdicts.OffWayVerdict(log, candidates, caps);
    ProbeVerdicts.FloorVerdict(log, candidates, caps);
  }
}
