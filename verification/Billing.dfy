/** From what a provider reports and what a caller embeds to the units on the bill. */
module Billing {
  import opened Common

  // ---- Token usage ---------------------------------------------------------------------------

  /** The prompt's details.  Absent counts are zero, here and below: the code reads both alike. */
  datatype Details = Details(cached: int, creation: int, text: int, webSearches: int)

  datatype Usage = Usage(
    prompt: int, input: int, completion: int, output: int, total: int,
    cacheRead: int, cacheCreation: int, details: Details, reasoning: int)

  datatype Unit = BaseInput | CacheCreation | CacheRead | BaseOutput | Reasoning | WebSearch | InputImages | InputText

  function Or(a: int, b: int): int { if a != 0 then a else b }

  function TotalOutput(u: Usage): int { Or(u.completion, u.output) }

  function TotalInput(u: Usage): int {
    var t := Or(u.prompt, u.input);
    if t == 0 && TotalOutput(u) == 0 then u.total else t
  }

  /** What is due for one unit; nothing is billed unless it is positive. */
  function Due(u: Usage, unit: Unit): int {
    match unit
    case BaseInput =>
      var rest := TotalInput(u) - u.details.cached - u.details.creation;
      if u.details.text != 0 then u.details.text else if rest < 0 then TotalInput(u) else rest
    case CacheCreation => Or(u.cacheCreation, u.details.creation)
    case CacheRead => Or(u.cacheRead, u.details.cached)
    case BaseOutput => TotalOutput(u) - u.reasoning
    case Reasoning => u.reasoning
    case WebSearch => if u.details.webSearches != 0 then 1 else 0
    case _ => 0
  }

  type Bill = map<Unit, int>

  ghost predicate Bills(bill: Bill, u: Usage) {
    && (forall k :: k in bill <==> Due(u, k) > 0)
    && forall k :: k in bill ==> bill[k] == Due(u, k)
  }

  /** A unit enters the bill only with a positive amount. */
  function Put(bill: Bill, unit: Unit, amount: int): Bill {
    if amount > 0 then bill[unit := amount] else bill
  }

  /** `_billing_unit_breakdown` */
  method BillingUnitBreakdown(u: Usage) returns (bill: Bill)
    ensures Bills(bill, u)
  {
    var totalInput, totalOutput := Or(u.prompt, u.input), Or(u.completion, u.output);
    if totalInput == 0 && totalOutput == 0 { totalInput := u.total; }
    var cacheRead := Or(u.cacheRead, u.details.cached);
    var cacheCreation := Or(u.cacheCreation, u.details.creation);
    var baseInput := u.details.text;
    if baseInput == 0 {
      baseInput := totalInput - u.details.cached - u.details.creation;
      if baseInput < 0 { baseInput := totalInput; }
    }
    assert Due(u, BaseInput) == baseInput;
    bill := map[];
    bill := Put(bill, BaseInput, baseInput);
    bill := Put(bill, CacheCreation, cacheCreation);
    bill := Put(bill, CacheRead, cacheRead);
    bill := Put(bill, BaseOutput, totalOutput - u.reasoning);
    bill := Put(bill, Reasoning, u.reasoning);
    bill := Put(bill, WebSearch, if u.details.webSearches != 0 then 1 else 0);
    forall k ensures Billed(bill, k) == (if Due(u, k) > 0 then Due(u, k) else 0) && (k in bill <==> Due(u, k) > 0) {
      match k case BaseInput => case _ =>
    }
  }

  function Billed(bill: Bill, k: Unit): int { if k in bill then bill[k] else 0 }

  // ---- Shapes of a report --------------------------------------------------------------------

  /** What was really used; reasoning is part of the output. */
  datatype Tokens = Tokens(base: int, read: int, creation: int, output: int, reasoning: int)

  predicate Real(t: Tokens) {
    t.base >= 0 && t.read >= 0 && t.creation >= 0 && 0 <= t.reasoning <= t.output
  }

  /** How a provider reports it: with the cache inside the prompt count, with or without the base
      spelt out and the cache counts mirrored at the top, or beside it.  `renamed` is the pair of
      alternative field names. */
  datatype Shape = Inclusive(text: bool, mirrored: bool) | Additive

  function PromptCount(shape: Shape, t: Tokens): int {
    if shape.Additive? then t.base else t.base + t.read + t.creation
  }

  function Encode(shape: Shape, renamed: bool, t: Tokens, total: int, webSearches: int): Usage {
    var prompt, top := PromptCount(shape, t), shape.Additive? || shape.mirrored;
    Usage(
      if renamed then 0 else prompt, if renamed then prompt else 0,
      if renamed then 0 else t.output, if renamed then t.output else 0,
      total, if top then t.read else 0, if top then t.creation else 0,
      if shape.Additive? then Details(0, 0, 0, webSearches)
      else Details(t.read, t.creation, if shape.text then t.base else 0, webSearches),
      t.reasoning)
  }

  /** What a bill says was used. */
  function Decode(bill: Bill): Tokens {
    Tokens(Billed(bill, BaseInput), Billed(bill, CacheRead), Billed(bill, CacheCreation),
           Billed(bill, BaseOutput) + Billed(bill, Reasoning), Billed(bill, Reasoning))
  }

  /** Every shape of the same usage gives the same bill back, unless a lone total is taken for a
      prompt: then, and only then, the base is overbilled. */
  lemma BillIsShapeIndependent(shape: Shape, renamed: bool, t: Tokens, total: nat, webSearches: nat, bill: Bill)
    requires Real(t) && Bills(bill, Encode(shape, renamed, t, total, webSearches))
    ensures Decode(bill) == t <==> total == 0 || PromptCount(shape, t) != 0 || t.output != 0
    ensures Decode(bill).(base := t.base) == t && Decode(bill).base >= t.base
    ensures forall k :: k in bill ==> bill[k] > 0
    ensures Billed(bill, WebSearch) == if webSearches > 0 then 1 else 0
  {
    var u := Encode(shape, renamed, t, total, webSearches);
    forall k ensures Billed(bill, k) == if Due(u, k) > 0 then Due(u, k) else 0 { }
  }

  /** Every unit of any report, count by count.  A count reported under two names is taken under the
      first that is not zero; the base is what is spelt out, else the input without what came from
      the cache, or the whole input where the cache is said to hold more than it. */
  lemma EveryUnitIsDue(u: Usage, bill: Bill)
    requires Bills(bill, u)
    ensures
      var output := if u.completion != 0 then u.completion else u.output;
      var named := if u.prompt != 0 then u.prompt else u.input;
      var input := if named == 0 && output == 0 then u.total else named;
      var inside := u.details.cached + u.details.creation;
      var base := if u.details.text != 0 then u.details.text else if inside <= input then input - inside else input;
      && Billed(bill, BaseInput) == (if base > 0 then base else 0)
      && Billed(bill, BaseOutput) == (if output > u.reasoning then output - u.reasoning else 0)
      && Billed(bill, Reasoning) == (if u.reasoning > 0 then u.reasoning else 0)
    ensures
      var read := if u.cacheRead != 0 then u.cacheRead else u.details.cached;
      var created := if u.cacheCreation != 0 then u.cacheCreation else u.details.creation;
      && Billed(bill, CacheRead) == (if read > 0 then read else 0)
      && Billed(bill, CacheCreation) == (if created > 0 then created else 0)
    ensures Billed(bill, WebSearch) == if u.details.webSearches == 0 then 0 else 1
    ensures InputImages !in bill && InputText !in bill && forall k :: k in bill ==> bill[k] > 0
  {
    forall k ensures Billed(bill, k) == if Due(u, k) > 0 then Due(u, k) else 0 { }
  }

  /** The units of a bill add up to what the report says was billed. */
  lemma BillAddsUp(shape: Shape, renamed: bool, t: Tokens, webSearches: nat, bill: Bill)
    requires Real(t) && Bills(bill, Encode(shape, renamed, t, 0, webSearches))
    ensures Billed(bill, BaseInput) + Billed(bill, CacheRead) + Billed(bill, CacheCreation) == t.base + t.read + t.creation
    ensures Billed(bill, BaseOutput) + Billed(bill, Reasoning) == TotalOutput(Encode(shape, renamed, t, 0, webSearches))
  {
    BillIsShapeIndependent(shape, renamed, t, 0, webSearches, bill);
  }

  /** For a report of any kind the output units add up exactly when reasoning stays within it. */
  lemma OutputAddsUp(u: Usage, bill: Bill)
    requires Bills(bill, u) && TotalOutput(u) >= 0 && u.reasoning >= 0
    ensures Billed(bill, BaseOutput) + Billed(bill, Reasoning) == TotalOutput(u) <==> u.reasoning <= TotalOutput(u)
  {
    assert Billed(bill, Reasoning) == u.reasoning;
    assert BaseOutput in bill <==> Due(u, BaseOutput) > 0;
  }

  // ---- Embedding input -------------------------------------------------------------------------

  /** One part of an embedding's input; a dictionary is an image or not. */
  datatype Part = Text(text: string) | TokenId(id: int) | Flag(value: bool) | Dict(image: bool) | Odd

  datatype Item = Single(part: Part) | Fused(parts: seq<Part>)

  datatype Input = Lone(part: Part) | Listed(items: seq<Item>)

  predicate Binary(s: string) { "data:" <= s || "gs://" <= s }

  function PartsOfItem(item: Item): seq<Part> {
    if item.Single? then [item.part] else item.parts
  }

  function PartsOfItems(items: seq<Item>): seq<Part> {
    if items == [] then [] else PartsOfItems(items[..|items| - 1]) + PartsOfItem(items[|items| - 1])
  }

  function ItemsOf(input: Input): seq<Item> {
    if input.Lone? then [Single(input.part)] else input.items
  }

  function PartsOf(input: Input): seq<Part> { PartsOfItems(ItemsOf(input)) }

  function CharsOf(p: Part): nat { if p.Text? && !Binary(p.text) then |p.text| else 0 }
  function IdsOf(p: Part): nat { if p.TokenId? then 1 else 0 }
  function ImagesOf(p: Part): nat { if (p.Text? && Binary(p.text)) || (p.Dict? && p.image) then 1 else 0 }

  function Sum(f: Part -> nat, parts: seq<Part>): nat {
    if parts == [] then 0 else Sum(f, parts[..|parts| - 1]) + f(parts[|parts| - 1])
  }

  /** The least whole number of tokens for so many characters. */
  ghost predicate LeastTokens(tokens: int, chars: int) { 4 * tokens >= chars > 4 * (tokens - 1) }

  lemma {:induction false} SumJoin(f: Part -> nat, a: seq<Part>, b: seq<Part>)
    ensures Sum(f, a + b) == Sum(f, a) + Sum(f, b)
  {
    if b == [] {
      assert a + b == a;
    } else {
      assert (a + b)[..|a + b| - 1] == a + b[..|b| - 1];
      SumJoin(f, a, b[..|b| - 1]);
    }
  }

  lemma SumOne(f: Part -> nat, p: Part)
    ensures Sum(f, [p]) == f(p)
  {
    assert [p][..0] == [];
  }

  lemma {:induction false} PartsJoin(a: seq<Item>, b: seq<Item>)
    ensures PartsOfItems(a + b) == PartsOfItems(a) + PartsOfItems(b)
  {
    if b == [] {
      assert a + b == a;
    } else {
      assert (a + b)[..|a + b| - 1] == a + b[..|b| - 1];
      PartsJoin(a, b[..|b| - 1]);
    }
  }

  lemma OnePartMore(f: Part -> nat, parts: seq<Part>, k: nat)
    requires k < |parts|
    ensures Sum(f, parts[..k + 1]) == Sum(f, parts[..k]) + f(parts[k])
  {
    assert parts[..k + 1][..k] == parts[..k];
  }

  lemma OneItemMore(f: Part -> nat, items: seq<Item>, n: nat)
    requires n < |items|
    ensures Sum(f, PartsOfItems(items[..n + 1])) == Sum(f, PartsOfItems(items[..n])) + Sum(f, PartsOfItem(items[n]))
  {
    assert items[..n + 1][..n] == items[..n];
    SumJoin(f, PartsOfItems(items[..n]), PartsOfItem(items[n]));
  }

  /** `_estimate_text_token_units` */
  method EstimateTextTokenUnits(input: Option<Input>) returns (units: nat)
    ensures input.None? ==> units == 0
    ensures input.Some? ==>
      var parts := PartsOf(input.value);
      LeastTokens(units - Sum(IdsOf, parts), Sum(CharsOf, parts))
  {
    if input.None? { return 0; }
    var items := ItemsOf(input.value);
    var chars, ids := 0, 0;
    for n := 0 to |items|
      invariant chars == Sum(CharsOf, PartsOfItems(items[..n])) && ids == Sum(IdsOf, PartsOfItems(items[..n]))
    {
      var parts := PartsOfItem(items[n]);
      ghost var chars0, ids0 := chars, ids;
      for k := 0 to |parts|
        invariant chars == chars0 + Sum(CharsOf, parts[..k]) && ids == ids0 + Sum(IdsOf, parts[..k])
      {
        match parts[k] {
          case Text(text) => if !("data:" <= text) && !("gs://" <= text) { chars := chars + |text|; }
          case TokenId(_) => ids := ids + 1;
          case _ =>
        }
        OnePartMore(CharsOf, parts, k);
        OnePartMore(IdsOf, parts, k);
      }
      assert parts[..|parts|] == parts;
      OneItemMore(CharsOf, items, n);
      OneItemMore(IdsOf, items, n);
    }
    assert items[..|items|] == items;
    units := -((-chars) / 4) + ids;
  }

  /** `_count_image_inputs` */
  method CountImageInputs(input: Option<Input>) returns (count: nat)
    ensures count == if input.Some? then Sum(ImagesOf, PartsOf(input.value)) else 0
  {
    if input.None? { return 0; }
    var items := ItemsOf(input.value);
    count := 0;
    for n := 0 to |items|
      invariant count == Sum(ImagesOf, PartsOfItems(items[..n]))
    {
      var parts := PartsOfItem(items[n]);
      ghost var count0 := count;
      for k := 0 to |parts|
        invariant count == count0 + Sum(ImagesOf, parts[..k])
      {
        match parts[k] {
          case Text(text) => if "data:" <= text || "gs://" <= text { count := count + 1; }
          case Dict(image) => if image { count := count + 1; }
          case _ =>
        }
        OnePartMore(ImagesOf, parts, k);
      }
      assert parts[..|parts|] == parts;
      OneItemMore(ImagesOf, items, n);
    }
    assert items[..|items|] == items;
  }

  /** The two together leave no string out and bill none twice: putting one more part anywhere
      adds its characters or one image, never both. */
  lemma EachStringBilledOnce(a: seq<Part>, text: string, b: seq<Part>)
    requires text != ""
    ensures var more, less := a + [Text(text)] + b, a + b;
      && Sum(IdsOf, more) == Sum(IdsOf, less)
      && ((Sum(CharsOf, more) == Sum(CharsOf, less) + |text| && Sum(ImagesOf, more) == Sum(ImagesOf, less))
          <==> !Binary(text))
      && ((Sum(CharsOf, more) == Sum(CharsOf, less) && Sum(ImagesOf, more) == Sum(ImagesOf, less) + 1)
          <==> Binary(text))
  {
    OneMorePart(IdsOf, a, Text(text), b);
    OneMorePart(CharsOf, a, Text(text), b);
    OneMorePart(ImagesOf, a, Text(text), b);
  }

  lemma OneMorePart(f: Part -> nat, a: seq<Part>, p: Part, b: seq<Part>)
    ensures Sum(f, a + [p] + b) == Sum(f, a + b) + f(p)
  {
    SumJoin(f, a + [p], b);
    SumJoin(f, a, [p]);
    SumJoin(f, a, b);
    SumOne(f, p);
  }

  /** What one part of an embedding's input costs: its characters, a token, an image, or nothing. */
  lemma WhatAPartCosts(p: Part)
    ensures match p
      case Text(text) =>
        if (|text| >= 5 && text[..5] == "data:") || (|text| >= 5 && text[..5] == "gs://")
        then CharsOf(p) == 0 && IdsOf(p) == 0 && ImagesOf(p) == 1
        else CharsOf(p) == |text| && IdsOf(p) == 0 && ImagesOf(p) == 0
      case TokenId(_) => CharsOf(p) == 0 && IdsOf(p) == 1 && ImagesOf(p) == 0
      case Flag(_) => CharsOf(p) == 0 && IdsOf(p) == 0 && ImagesOf(p) == 0
      case Dict(image) => CharsOf(p) == 0 && IdsOf(p) == 0 && ImagesOf(p) == if image then 1 else 0
      case Odd => CharsOf(p) == 0 && IdsOf(p) == 0 && ImagesOf(p) == 0
  {
  }

  // ---- Splitting a request ------------------------------------------------------------------------

  function Ceil4(chars: nat): nat { (chars + 3) / 4 }

  function Units(items: seq<Item>): nat {
    Ceil4(Sum(CharsOf, PartsOfItems(items))) + Sum(IdsOf, PartsOfItems(items))
  }

  lemma UnitsAreEstimated(items: seq<Item>, units: int)
    ensures units == Units(items) <==>
      LeastTokens(units - Sum(IdsOf, PartsOfItems(items)), Sum(CharsOf, PartsOfItems(items)))
  {
  }

  function UnitsOfAll(requests: seq<seq<Item>>): nat {
    if requests == [] then 0 else Units(requests[0]) + UnitsOfAll(requests[1..])
  }

  function Merged(requests: seq<seq<Item>>): seq<Item> {
    if requests == [] then [] else requests[0] + Merged(requests[1..])
  }

  /** Sending a list in several requests costs at most one token more per cut, and never less. */
  lemma {:induction false} SplittingCostsOnePerCut(requests: seq<seq<Item>>)
    requires requests != []
    ensures Units(Merged(requests)) <= UnitsOfAll(requests) <= Units(Merged(requests)) + |requests| - 1
  {
    var first, rest := requests[0], Merged(requests[1..]);
    if |requests| == 1 {
      assert Merged(requests) == first;
    } else {
      SplittingCostsOnePerCut(requests[1..]);
      PartsJoin(first, rest);
      SumJoin(CharsOf, PartsOfItems(first), PartsOfItems(rest));
      SumJoin(IdsOf, PartsOfItems(first), PartsOfItems(rest));
    }
  }

  // ---- The bill of a call --------------------------------------------------------------------------

  /** What is due for a call: token units, images, and a text estimate where no token of input
      was reported. */
  function DueFor(u: Usage, input: Option<Input>, unit: Unit): int {
    match unit
    case InputImages => if input.Some? then Sum(ImagesOf, PartsOf(input.value)) else 0
    case InputText => if input.Some? && Due(u, BaseInput) <= 0 then Units(ItemsOf(input.value)) else 0
    case _ => Due(u, unit)
  }

  ghost predicate BillsFor(bill: Bill, u: Usage, input: Option<Input>) {
    && (forall k :: k in bill <==> DueFor(u, input, k) > 0)
    && forall k :: k in bill ==> bill[k] == DueFor(u, input, k)
  }

  /** The units of `_build_record`. */
  method BuildBill(u: Usage, input: Option<Input>) returns (bill: Bill)
    ensures BillsFor(bill, u, input)
  {
    bill := BillingUnitBreakdown(u);
    var images := CountImageInputs(input);
    bill := Put(bill, InputImages, images);
    if input.Some? && BaseInput !in bill {
      var estimated := EstimateTextTokenUnits(input);
      UnitsAreEstimated(ItemsOf(input.value), estimated);
      bill := Put(bill, InputText, estimated);
    }
  }

  /** What is added to the reported units of a call: an image each, and for the text of an input for
      which no base was reported a token for every four characters begun and one for every id. */
  lemma WhatACallAdds(u: Usage, input: Option<Input>, bill: Bill, reported: Bill)
    requires BillsFor(bill, u, input) && Bills(reported, u)
    ensures forall k :: k != InputImages && k != InputText ==> Billed(bill, k) == Billed(reported, k)
    ensures input.None? ==> Billed(bill, InputImages) == 0 && Billed(bill, InputText) == 0
    ensures input.Some? ==>
      var parts := PartsOf(input.value);
      && Billed(bill, InputImages) == Sum(ImagesOf, parts)
      && (Billed(reported, BaseInput) > 0 ==> Billed(bill, InputText) == 0)
      && (Billed(reported, BaseInput) == 0 ==>
            var tokens := Billed(bill, InputText) - Sum(IdsOf, parts);
            4 * tokens >= Sum(CharsOf, parts) > 4 * (tokens - 1))
  {
    forall k ensures Billed(bill, k) == if DueFor(u, input, k) > 0 then DueFor(u, input, k) else 0 { }
    forall k ensures Billed(reported, k) == if Due(u, k) > 0 then Due(u, k) else 0 { }
  }

  predicate Billable(p: Part) { (p.Text? && p.text != "") || p.TokenId? || (p.Dict? && p.image) }

  lemma {:induction false} SumCovers(f: Part -> nat, parts: seq<Part>, k: nat)
    requires k < |parts|
    ensures Sum(f, parts) >= f(parts[k])
  {
    if k < |parts| - 1 { SumCovers(f, parts[..|parts| - 1], k); }
  }

  /** An embedding call with anything billable in its input never comes out free, and text is
      never billed both as reported and as estimated. */
  lemma EmbeddingIsBilled(u: Usage, input: Input, bill: Bill, k: nat)
    requires BillsFor(bill, u, Some(input)) && k < |PartsOf(input)| && Billable(PartsOf(input)[k])
    ensures BaseInput in bill || InputText in bill || InputImages in bill
    ensures !(BaseInput in bill && InputText in bill)
  {
    SumCovers(CharsOf, PartsOf(input), k);
    SumCovers(IdsOf, PartsOf(input), k);
    SumCovers(ImagesOf, PartsOf(input), k);
  }
}
