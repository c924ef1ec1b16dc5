/** The keys of `_intermediate_buffers`: `"{context_id}:{agent_name}"`, found again by
    prefix.  Proves that the prefix match splits the dictionary by conversation. */
module ChatKeys {

  /** A conversation id that cannot be confused with a key's separator. */
  predicate IsId(c: string) { ':' !in c }

  function Key(c: string, agent: string): string { c + ":" + agent }

  lemma {:induction false} KeyInjective(c: string, a: string, d: string, b: string)
    requires IsId(c) && IsId(d) && Key(c, a) == Key(d, b)
    ensures c == d && a == b
  {
    var k := Key(c, a);
    assert k[|c|] == ':' && k[|d|] == ':';
    assert forall i :: 0 <= i < |c| ==> k[i] == c[i];
    assert forall i :: 0 <= i < |d| ==> k[i] == d[i];
    assert |c| == |d|;
    assert c == k[..|c|] && d == k[..|d|];
    assert a == k[|c| + 1..] && b == k[|d| + 1..];
  }

  /** A key starts with `c + ":"` exactly when it is one of `c`'s keys. */
  lemma {:induction false} PrefixIsOwnership(c: string, d: string, b: string)
    requires IsId(c) && IsId(d)
    ensures Key(c, "") <= Key(d, b) <==> c == d
  {
    if Key(c, "") <= Key(d, b) {
      var rest := Key(d, b)[|c| + 1..];
      assert Key(c, rest) == Key(d, b);
      KeyInjective(c, rest, d, b);
    }
  }

  /** Whose keys a prefix match finds when only the searching id is free of colons: its own, and
      those of every id that starts with it and a colon. */
  lemma {:induction false} PrefixReach(c: string, d: string, b: string)
    requires IsId(c)
    ensures Key(c, "") <= Key(d, b) <==> c == d || Key(c, "") <= d
  {
    var p, k := Key(c, ""), Key(d, b);
    if p <= k {
      assert k[|d|] == ':' && p == k[..|p|];
      assert forall i :: 0 <= i < |c| ==> p[i] == c[i] && c[i] in c;
      assert |d| < |p| ==> p[|d|] == ':';
      assert |d| == |c| ==> k[..|c|] == d && p[..|c|] == c;
      assert |d| > |c| ==> k[..|p|] == d[..|p|];
    }
  }

  /** So an id with a colon is within another's reach. */
  lemma {:induction false} ColonsBreakOwnership()
    ensures exists c, d, b :: c != d && Key(c, "") <= Key(d, b)
  {
    assert Key("a", "") == "a:" && Key("a:b", "x") == "a:b:x";
    assert "a" != "a:b" && Key("a", "") <= Key("a:b", "x");
  }

  ghost function AgentsOf(buffers: map<string, string>, c: string): set<string> {
    set k | k in buffers && Key(c, "") <= k :: k[|c| + 1..]
  }

  /** One conversation's thoughts by agent: the entries the prefix match finds. */
  ghost function ThoughtsOf(buffers: map<string, string>, c: string): map<string, string> {
    map a | a in AgentsOf(buffers, c) && Key(c, a) in buffers :: buffers[Key(c, a)]
  }

  lemma ThoughtsAt(buffers: map<string, string>, c: string, a: string)
    ensures a in ThoughtsOf(buffers, c) <==> Key(c, a) in buffers
    ensures Key(c, a) in buffers ==> ThoughtsOf(buffers, c)[a] == buffers[Key(c, a)]
  {
    assert Key(c, "") <= Key(c, a) && Key(c, a)[|c| + 1..] == a;
  }

  /** Two dictionaries that agree on a conversation's keys give it the same thoughts. */
  lemma {:induction false} SameKeysSameThoughts(before: map<string, string>, after: map<string, string>, c: string)
    requires forall a :: Key(c, a) in before <==> Key(c, a) in after
    requires forall a :: Key(c, a) in before ==> before[Key(c, a)] == after[Key(c, a)]
    ensures ThoughtsOf(before, c) == ThoughtsOf(after, c)
  {
    forall a
      ensures a in ThoughtsOf(before, c) <==> a in ThoughtsOf(after, c)
      ensures a in ThoughtsOf(before, c) ==> ThoughtsOf(before, c)[a] == ThoughtsOf(after, c)[a]
    {
      ThoughtsAt(before, c, a);
      ThoughtsAt(after, c, a);
    }
  }

  /** Writing one key is a write to one agent's thoughts of one conversation. */
  lemma {:induction false} WriteKey(buffers: map<string, string>, c: string, agent: string, text: string)
    requires IsId(c)
    ensures ThoughtsOf(buffers[Key(c, agent) := text], c) == ThoughtsOf(buffers, c)[agent := text]
    ensures forall d :: IsId(d) && d != c ==> ThoughtsOf(buffers[Key(c, agent) := text], d) == ThoughtsOf(buffers, d)
  {
    var after := buffers[Key(c, agent) := text];
    forall a
      ensures a in ThoughtsOf(after, c) <==> a == agent || a in ThoughtsOf(buffers, c)
      ensures a in ThoughtsOf(after, c) ==> ThoughtsOf(after, c)[a] == ThoughtsOf(buffers, c)[agent := text][a]
    {
      ThoughtsAt(buffers, c, a);
      ThoughtsAt(after, c, a);
      if Key(c, a) == Key(c, agent) { KeyInjective(c, a, c, agent); }
    }
    forall d | IsId(d) && d != c ensures ThoughtsOf(after, d) == ThoughtsOf(buffers, d) {
      forall a ensures Key(d, a) != Key(c, agent) {
        if Key(d, a) == Key(c, agent) { KeyInjective(d, a, c, agent); }
      }
      SameKeysSameThoughts(buffers, after, d);
    }
  }

  /** Removing one key removes one agent's thoughts of one conversation. */
  lemma {:induction false} RemoveKey(buffers: map<string, string>, c: string, agent: string)
    requires IsId(c)
    ensures ThoughtsOf(buffers - {Key(c, agent)}, c) == ThoughtsOf(buffers, c) - {agent}
    ensures forall d :: IsId(d) && d != c ==> ThoughtsOf(buffers - {Key(c, agent)}, d) == ThoughtsOf(buffers, d)
  {
    var after := buffers - {Key(c, agent)};
    forall a
      ensures a in ThoughtsOf(after, c) <==> a != agent && a in ThoughtsOf(buffers, c)
      ensures a in ThoughtsOf(after, c) ==> ThoughtsOf(after, c)[a] == ThoughtsOf(buffers, c)[a]
    {
      ThoughtsAt(buffers, c, a);
      ThoughtsAt(after, c, a);
      if Key(c, a) == Key(c, agent) { KeyInjective(c, a, c, agent); }
    }
    forall d | IsId(d) && d != c ensures ThoughtsOf(after, d) == ThoughtsOf(buffers, d) {
      forall a ensures Key(d, a) != Key(c, agent) {
        if Key(d, a) == Key(c, agent) { KeyInjective(d, a, c, agent); }
      }
      SameKeysSameThoughts(buffers, after, d);
    }
  }

  /** Removing every key with a conversation's prefix empties it and touches no other. */
  lemma {:induction false} RemovePrefix(before: map<string, string>, after: map<string, string>, c: string)
    requires IsId(c)
    requires forall k :: k in after <==> k in before && !(Key(c, "") <= k)
    requires forall k :: k in after ==> after[k] == before[k]
    ensures ThoughtsOf(after, c) == map[]
    ensures forall d :: IsId(d) && d != c ==> ThoughtsOf(after, d) == ThoughtsOf(before, d)
  {
    forall d | IsId(d) && d != c ensures ThoughtsOf(after, d) == ThoughtsOf(before, d) {
      forall a ensures !(Key(c, "") <= Key(d, a)) { PrefixIsOwnership(c, d, a); }
      SameKeysSameThoughts(before, after, d);
    }
  }
}
