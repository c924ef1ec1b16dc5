/** Closing the object nodes of a response schema in place.  A schema is a graph of mutable
    nodes: nodes may be shared, and may even form a cycle, which the depth guard cuts. */
module SchemaClosing {
  import opened Common

  datatype Additional = Absent | Boolean(value: bool) | Other(text: string)

  /** A value where a schema may stand. */
  datatype Value = Node(schema: Schema) | Loose(text: string)

  datatype Table = NoTable | Table(entries: seq<(string, Value)>)

  datatype Items = NoItems | One(value: Value) | Many(values: seq<Value>)

  /** Every key of a node but `additionalProperties`.  A list that is absent or no list is empty;
      `defs` stands under `$defs`. */
  datatype Body = Body(
    saysObject: bool, properties: Table, items: Items,
    anyOf: seq<Value>, allOf: seq<Value>, oneOf: seq<Value>, prefixItems: seq<Value>,
    defs: Table, definitions: Table, rest: map<string, string>)

  class Schema {
    var body: Body
    var additional: Additional

    constructor (body: Body, additional: Additional)
      ensures this.body == body && this.additional == additional
    {
      this.body, this.additional := body, additional;
    }

    predicate IsObject()
      reads this`body
    {
      body.saysObject || body.properties.Table?
    }
  }

  const GUARD := 64

  // ---- Children ------------------------------------------------------------------------------

  function ValuesOf(t: Table): seq<Value> {
    if t.NoTable? then [] else seq(|t.entries|, i requires 0 <= i < |t.entries| => t.entries[i].1)
  }

  function ItemsOf(i: Items): seq<Value> {
    match i
    case NoItems => []
    case One(v) => if v.Node? then [v] else []
    case Many(vs) => vs
  }

  /** The values the pass looks into, in its order. */
  function Children(b: Body): seq<Value> {
    ValuesOf(b.properties) + ItemsOf(b.items)
    + b.anyOf + b.allOf + b.oneOf + b.prefixItems + ValuesOf(b.defs) + ValuesOf(b.definitions)
  }

  /** Where a schema may stand in a node: under `properties`, as the `items` or one of them, in one of
      the four lists, or under one of the two tables of definitions. */
  ghost predicate ChildOf(v: Value, b: Body) {
    || StandsIn(v, b.properties)
    || (match b.items case NoItems => false case One(w) => v == w && v.Node? case Many(ws) => v in ws)
    || v in b.anyOf || v in b.allOf || v in b.oneOf || v in b.prefixItems
    || StandsIn(v, b.defs) || StandsIn(v, b.definitions)
  }

  ghost predicate StandsIn(v: Value, t: Table) {
    match t
    case NoTable => false
    case Table(entries) => exists i :: 0 <= i < |entries| && entries[i].1 == v
  }

  /** The pass looks into every one of them and nowhere else. */
  lemma ChildrenAre(b: Body, v: Value)
    ensures v in Children(b) <==> ChildOf(v, b)
  {
    InValues(b.properties, v);
    InValues(b.defs, v);
    InValues(b.definitions, v);
    assert v in ItemsOf(b.items) <==>
      match b.items case NoItems => false case One(w) => v == w && v.Node? case Many(ws) => v in ws;
  }

  lemma InValues(t: Table, v: Value)
    ensures v in ValuesOf(t) <==> StandsIn(v, t)
  {
    if t.Table? {
      assert forall i :: 0 <= i < |t.entries| ==> ValuesOf(t)[i] == t.entries[i].1;
    }
  }

  /** `all` holds every node below its members. */
  ghost predicate Closed(all: set<Schema>)
    reads all`body
  {
    forall s, v :: s in all && v in Children(s.body) && v.Node? ==> v.schema in all
  }

  /** `to` is at most `n` steps below `v`. */
  ghost predicate Within(all: set<Schema>, v: Value, to: Schema, n: int)
    requires Closed(all) && (v.Node? ==> v.schema in all)
    reads all`body
    decreases if n < 0 then 0 else n + 1, 0
  {
    n >= 0 && v.Node? && (v.schema == to || WithinAny(all, Children(v.schema.body), to, n - 1))
  }

  ghost predicate WithinAny(all: set<Schema>, vs: seq<Value>, to: Schema, n: int)
    requires Closed(all) && forall v :: v in vs && v.Node? ==> v.schema in all
    reads all`body
    decreases if n < 0 then 0 else n + 1, 1
  {
    exists i :: 0 <= i < |vs| && Within(all, vs[i], to, n)
  }

  /** The object nodes at most `n` steps below `v`. */
  ghost function Objects(all: set<Schema>, v: Value, n: int): set<Schema>
    requires Closed(all) && (v.Node? ==> v.schema in all)
    reads all`body
  {
    set s | s in all && s.IsObject() && Within(all, v, s, n)
  }

  ghost function ObjectsOf(all: set<Schema>, vs: seq<Value>, n: int): set<Schema>
    requires Closed(all) && forall v :: v in vs && v.Node? ==> v.schema in all
    reads all`body
  {
    set s | s in all && s.IsObject() && WithinAny(all, vs, s, n)
  }

  function Settled(a: Additional): Additional { if a.Boolean? then a else Boolean(false) }

  // ---- Ways down -----------------------------------------------------------------------------

  /** A way down from `v` to `to`, one node after the other. */
  ghost predicate IsPath(v: Value, path: seq<Schema>, to: Schema)
    reads path`body
    decreases |path|
  {
    && path != [] && v == Node(path[0])
    && if |path| == 1 then path[0] == to
       else ChildOf(Node(path[1]), path[0].body) && IsPath(Node(path[1]), path[1..], to)
  }

  lemma Prepend(s: Schema, rest: seq<Schema>, to: Schema)
    requires rest != [] && ChildOf(Node(rest[0]), s.body) && IsPath(Node(rest[0]), rest, to)
    ensures IsPath(Node(s), [s] + rest, to)
  {
    assert ([s] + rest)[1..] == rest;
  }

  lemma ChildTowards(all: set<Schema>, v: Value, to: Schema, n: nat) returns (child: Value)
    requires Closed(all) && (v.Node? ==> v.schema in all) && Within(all, v, to, n) && v.schema != to
    ensures n > 0 && child in Children(v.schema.body) && (child.Node? ==> child.schema in all)
    ensures Within(all, child, to, n - 1)
  {
    var below := Children(v.schema.body);
    var i :| 0 <= i < |below| && Within(all, below[i], to, n - 1);
    child := below[i];
  }

  lemma {:induction false} WithinHasPath(all: set<Schema>, v: Value, to: Schema, n: nat) returns (path: seq<Schema>)
    requires Closed(all) && (v.Node? ==> v.schema in all) && Within(all, v, to, n)
    ensures IsPath(v, path, to) && |path| <= n + 1
    decreases n
  {
    if v.schema == to {
      path := [to];
    } else {
      var child := ChildTowards(all, v, to, n);
      var rest := WithinHasPath(all, child, to, n - 1);
      ChildrenAre(v.schema.body, child);
      Prepend(v.schema, rest, to);
      path := [v.schema] + rest;
    }
  }

  lemma StepDown(all: set<Schema>, v: Value, below: seq<Value>, child: Value, to: Schema, n: nat)
    requires Closed(all) && v.Node? && v.schema in all && below == Children(v.schema.body) && child in below
    requires Within(all, child, to, n - 1)
    ensures Within(all, v, to, n)
  {
    var i :| 0 <= i < |below| && below[i] == child;
    assert WithinAny(all, below, to, n - 1);
  }

  lemma {:induction false} PathIsWithin(all: set<Schema>, v: Value, to: Schema, n: int, path: seq<Schema>)
    requires Closed(all) && (v.Node? ==> v.schema in all) && IsPath(v, path, to) && |path| <= n + 1
    ensures Within(all, v, to, n)
    decreases |path|
  {
    if |path| > 1 {
      ChildrenAre(v.schema.body, Node(path[1]));
      PathIsWithin(all, Node(path[1]), to, n - 1, path[1..]);
      StepDown(all, v, Children(v.schema.body), Node(path[1]), to, n);
    }
  }

  /** Within the guard means reached by a path of that many steps. */
  lemma WithinMeansPath(all: set<Schema>, v: Value, to: Schema, n: nat)
    requires Closed(all) && (v.Node? ==> v.schema in all)
    ensures Leads(all, v, to, n) <==> exists path :: IsPath(v, path, to) && |path| <= n + 1
  {
    LeadsIsWithin(all, v, to, n);
    if Within(all, v, to, n) {
      var path := WithinHasPath(all, v, to, n);
    }
    if path :| IsPath(v, path, to) && |path| <= n + 1 {
      PathIsWithin(all, v, to, n, path);
    }
  }

  /** An object node: it says so, or it has properties. */
  ghost predicate ObjectNode(s: Schema)
    reads s`body
  {
    s.body.saysObject || (match s.body.properties case Table(_) => true case NoTable => false)
  }

  /** At most `steps` steps lead from `v` down to `to`. */
  ghost predicate Leads(all: set<Schema>, v: Value, to: Schema, steps: int)
    reads all`body
    decreases if steps < 0 then 0 else steps + 1
  {
    && steps >= 0 && v.Node? && v.schema in all
    && (v.schema == to || exists w :: w in all && ChildOf(Node(w), v.schema.body) && Leads(all, Node(w), to, steps - 1))
  }

  /** The object nodes at most `steps` steps down. */
  ghost function Reached(all: set<Schema>, v: Value, steps: int): set<Schema>
    reads all`body
  {
    set s | s in all && ObjectNode(s) && Leads(all, v, s, steps)
  }

  lemma {:induction false} WithinLeads(all: set<Schema>, v: Value, to: Schema, n: int)
    requires Closed(all) && (v.Node? ==> v.schema in all) && Within(all, v, to, n)
    ensures Leads(all, v, to, n)
    decreases if n < 0 then 0 else n + 1
  {
    if v.schema != to {
      var child := ChildTowards(all, v, to, n);
      ChildrenAre(v.schema.body, child);
      WithinLeads(all, child, to, n - 1);
      assert child == Node(child.schema) && child.schema in all;
    }
  }

  lemma {:induction false} LeadsWithin(all: set<Schema>, v: Value, to: Schema, n: int)
    requires Closed(all) && (v.Node? ==> v.schema in all) && Leads(all, v, to, n)
    ensures Within(all, v, to, n)
    decreases if n < 0 then 0 else n + 1
  {
    if v.schema != to {
      var w :| w in all && ChildOf(Node(w), v.schema.body) && Leads(all, Node(w), to, n - 1);
      ChildrenAre(v.schema.body, Node(w));
      LeadsWithin(all, Node(w), to, n - 1);
      assert n > 0;
      StepDown(all, v, Children(v.schema.body), Node(w), to, n);
    }
  }

  lemma LeadsIsWithin(all: set<Schema>, v: Value, to: Schema, n: int)
    requires Closed(all) && (v.Node? ==> v.schema in all)
    ensures Within(all, v, to, n) <==> Leads(all, v, to, n)
  {
    if Within(all, v, to, n) { WithinLeads(all, v, to, n); }
    if Leads(all, v, to, n) { LeadsWithin(all, v, to, n); }
  }

  lemma ObjectsAreReached(all: set<Schema>, v: Value, n: int)
    requires Closed(all) && (v.Node? ==> v.schema in all)
    ensures Objects(all, v, n) == Reached(all, v, n)
  {
    forall s | s in all ensures Within(all, v, s, n) <==> Leads(all, v, s, n) { LeadsIsWithin(all, v, s, n); }
  }

  // ---- The pass ------------------------------------------------------------------------------

  /** `_force_additional_properties_false`: exactly the object nodes within the guard get a
      boolean, booleans stay, and nothing else is written. */
  method Force(v: Value, depth: nat, ghost all: set<Schema>)
    requires Closed(all) && (v.Node? ==> v.schema in all)
    modifies all`additional
    ensures forall s :: s in all ==>
      s.additional == if s in old(Objects(all, v, GUARD - depth)) then Settled(old(s.additional)) else old(s.additional)
    ensures forall s :: s in all ==>
      s.additional == if s in old(Reached(all, v, 64 - depth)) && !old(s.additional).Boolean?
                      then Boolean(false) else old(s.additional)
    decreases GUARD + 1 - depth, 0
  {
    ObjectsAreReached(all, v, GUARD - depth);
    if v.Loose? || depth > GUARD { return; }
    var node := v.schema;
    ghost var below := ObjectsOf(all, Children(node.body), GUARD - depth - 1);
    assert Objects(all, v, GUARD - depth) == below + if node.IsObject() then {node} else {};
    if node.IsObject() && !node.additional.Boolean? { node.additional := Boolean(false); }
    assert ObjectsOf(all, Children(node.body), GUARD - depth - 1) == below;
    ForceAll(Children(node.body), depth + 1, all);
  }

  method ForceAll(vs: seq<Value>, depth: nat, ghost all: set<Schema>)
    requires Closed(all) && (forall v :: v in vs && v.Node? ==> v.schema in all) && depth <= GUARD + 1
    modifies all`additional
    ensures forall s :: s in all ==>
      s.additional == if s in old(ObjectsOf(all, vs, GUARD - depth)) then Settled(old(s.additional)) else old(s.additional)
    decreases GUARD + 1 - depth, 1
  {
    ghost var done: set<Schema> := {};
    for n := 0 to |vs|
      invariant done == old(ObjectsOf(all, vs[..n], GUARD - depth))
      invariant forall s :: s in all ==>
        s.additional == if s in done then Settled(old(s.additional)) else old(s.additional)
    {
      ghost var more := Objects(all, vs[n], GUARD - depth);
      assert more == old(Objects(all, vs[n], GUARD - depth));
      OneMore(all, vs, n, GUARD - depth);
      Force(vs[n], depth, all);
      done := done + more;
    }
    assert vs[..|vs|] == vs;
  }

  lemma OneMore(all: set<Schema>, vs: seq<Value>, n: nat, k: int)
    requires Closed(all) && (forall v :: v in vs && v.Node? ==> v.schema in all) && n < |vs|
    ensures ObjectsOf(all, vs[..n + 1], k) == ObjectsOf(all, vs[..n], k) + Objects(all, vs[n], k)
  {
    forall s | s in all
      ensures WithinAny(all, vs[..n + 1], s, k) <==> WithinAny(all, vs[..n], s, k) || Within(all, vs[n], s, k)
    {
      OneMoreFor(all, vs, n, s, k);
    }
  }

  lemma OneMoreFor(all: set<Schema>, vs: seq<Value>, n: nat, to: Schema, k: int)
    requires Closed(all) && (forall v :: v in vs && v.Node? ==> v.schema in all) && n < |vs|
    ensures WithinAny(all, vs[..n + 1], to, k) <==> WithinAny(all, vs[..n], to, k) || Within(all, vs[n], to, k)
  {
    if Within(all, vs[n], to, k) { assert vs[..n + 1][n] == vs[n]; }
    if WithinAny(all, vs[..n], to, k) {
      var i :| 0 <= i < n && Within(all, vs[..n][i], to, k);
      assert vs[..n + 1][i] == vs[..n][i];
    }
    if WithinAny(all, vs[..n + 1], to, k) {
      var i :| 0 <= i < n + 1 && Within(all, vs[..n + 1][i], to, k);
      if i < n { assert vs[..n][i] == vs[..n + 1][i]; }
    }
  }

  // ---- What it means ---------------------------------------------------------------------------

  /** An object node below `v`, however deep. */
  ghost predicate Below(all: set<Schema>, v: Value, s: Schema)
    reads all`body, s`body
  {
    ObjectNode(s) && exists n :: Leads(all, v, s, n)
  }

  /** Every object node below `v` is closed by a boolean. */
  ghost predicate AllClosed(all: set<Schema>, v: Value)
    reads all
  {
    forall s :: s in all && Below(all, v, s) ==> s.additional.Boolean?
  }

  /** Nothing lies more than 64 steps down. */
  ghost predicate AllInGuard(all: set<Schema>, v: Value)
    reads all`body
  {
    forall s :: s in all && Below(all, v, s) ==> Leads(all, v, s, 64)
  }

  /** The pass over a whole schema.  It closes everything below exactly when what lies beyond the
      guard was closed before, it leaves a closed schema alone, and it writes nothing but missing
      or unusable values of one key. */
  method CloseSchema(v: Value, ghost all: set<Schema>)
    requires Closed(all) && (v.Node? ==> v.schema in all)
    modifies all`additional
    ensures AllClosed(all, v) <==>
      forall s :: s in all && Below(all, v, s) && !Leads(all, v, s, 64) ==> old(s.additional).Boolean?
    ensures old(AllClosed(all, v)) ==> forall s :: s in all ==> s.additional == old(s.additional)
    ensures forall s :: s in all ==>
      s.additional == if ObjectNode(s) && Leads(all, v, s, 64) && !old(s.additional).Boolean?
                      then Boolean(false) else old(s.additional)
  {
    Force(v, 0, all);
    assert old(Reached(all, v, 64)) == Reached(all, v, 64);
  }

  /** A `response_format`; `jsonSchema` is the schema of its `json_schema`, if that is a
      dictionary, and `schema` the value directly under it. */
  datatype Format = Format(typ: string, jsonSchema: Option<Value>, schema: Value)

  function SchemaOf(f: Format): Value { if f.jsonSchema.Some? then f.jsonSchema.value else f.schema }

  /** `_sanitize_response_format` */
  method SanitizeResponseFormat(format: Option<Format>, ghost all: set<Schema>)
    requires Closed(all)
    requires format.Some? && SchemaOf(format.value).Node? ==> SchemaOf(format.value).schema in all
    modifies all`additional
    ensures format.Some? && format.value.typ == "json_schema" && AllInGuard(all, SchemaOf(format.value)) ==>
      AllClosed(all, SchemaOf(format.value))
    ensures format.None? || format.value.typ != "json_schema" ==> forall s :: s in all ==> s.additional == old(s.additional)
    ensures format.Some? && format.value.typ == "json_schema" ==>
      var v := match format.value.jsonSchema case Some(inner) => inner case None => format.value.schema;
      forall s :: s in all ==>
        s.additional == if ObjectNode(s) && Leads(all, v, s, 64) && !old(s.additional).Boolean?
                        then Boolean(false) else old(s.additional)
  {
    if format.None? || format.value.typ != "json_schema" { return; }
    CloseSchema(SchemaOf(format.value), all);
  }
}
