/**
 The bounded check made on a provider response before it is parsed: an explicit stack with running budgets
 that decides exactly the recursive question "few enough nodes, shallow enough, little enough text".
 */
module ResponseLimits {
  const MAX_NODES := 1024
  const MAX_CHARACTERS := 32768
  const MAX_DEPTH := 8

  /** Anything that is not text, a mapping or a list is a `Leaf`. */
  datatype Value = Leaf | Text(text: string) | Mapping(entries: seq<Entry>) | List(items: seq<Value>)
  datatype Entry = Entry(key: Value, value: Value)

  /** Nodes of the tree: containers, leaves, and the keys of mappings. */
  function Nodes(v: Value): (n: nat)
    ensures n >= 1
    decreases v
  {
    match v
    case Mapping(es) => 1 + EntryNodes(es)
    case List(vs) => 1 + ItemNodes(vs)
    case _ => 1
  }

  function EntryNodes(es: seq<Entry>): (n: nat)
    ensures n >= 2 * |es|
    decreases es
  {
    if |es| == 0 then 0
    else EntryNodes(es[..|es| - 1]) + PairNodes(es[|es| - 1])
  }

  function PairNodes(e: Entry): (n: nat)
    ensures n >= 2
    decreases e
  {
    Nodes(e.key) + Nodes(e.value)
  }

  function ItemNodes(vs: seq<Value>): (n: nat)
    ensures n >= |vs|
    decreases vs
  {
    if |vs| == 0 then 0 else ItemNodes(vs[..|vs| - 1]) + Nodes(vs[|vs| - 1])
  }

  function Characters(v: Value): nat
    decreases v
  {
    match v
    case Text(t) => |t|
    case Mapping(es) => EntryCharacters(es)
    case List(vs) => ItemCharacters(vs)
    case Leaf => 0
  }

  function EntryCharacters(es: seq<Entry>): nat
    decreases es
  {
    if |es| == 0 then 0
    else EntryCharacters(es[..|es| - 1]) + PairCharacters(es[|es| - 1])
  }

  function PairCharacters(e: Entry): nat
    decreases e
  {
    Characters(e.key) + Characters(e.value)
  }

  function ItemCharacters(vs: seq<Value>): nat
    decreases vs
  {
    if |vs| == 0 then 0 else ItemCharacters(vs[..|vs| - 1]) + Characters(vs[|vs| - 1])
  }

  /** No node of `v` lies deeper than `depth` levels below it. */
  predicate NoDeeper(v: Value, depth: int)
    decreases v
  {
    depth >= 0 && match v
      case Mapping(es) => forall e | e in es :: NoDeeper(e.key, depth - 1) && NoDeeper(e.value, depth - 1)
      case List(vs) => forall k | 0 <= k < |vs| :: NoDeeper(vs[k], depth - 1)
      case _ => true
  }

  predicate WithinLimits(v: Value) {
    Nodes(v) <= MAX_NODES && NoDeeper(v, MAX_DEPTH) && Characters(v) <= MAX_CHARACTERS
  }

  // ---------------------------------------------------------------- the stack

  datatype Pending = Pending(value: Value, depth: nat)

  ghost function StackNodes(s: seq<Pending>): nat {
    if |s| == 0 then 0 else StackNodes(s[..|s| - 1]) + Nodes(s[|s| - 1].value)
  }

  ghost function StackCharacters(s: seq<Pending>): nat {
    if |s| == 0 then 0 else StackCharacters(s[..|s| - 1]) + Characters(s[|s| - 1].value)
  }

  ghost predicate StackShallow(s: seq<Pending>) { forall p | p in s :: NoDeeper(p.value, MAX_DEPTH - p.depth) }

  lemma {:induction false} StackConcat(s: seq<Pending>, t: seq<Pending>)
    ensures StackNodes(s + t) == StackNodes(s) + StackNodes(t)
    ensures StackCharacters(s + t) == StackCharacters(s) + StackCharacters(t)
    ensures StackShallow(s + t) <==> StackShallow(s) && StackShallow(t)
  {
    if |t| == 0 {
      assert s + t == s;
    } else {
      StackConcat(s, t[..|t| - 1]);
      assert (s + t)[..|s + t| - 1] == s + t[..|t| - 1];
    }
    assert forall p :: p in s + t <==> p in s || p in t;
  }

  ghost predicate EntriesShallow(es: seq<Entry>, depth: int) {
    forall e | e in es :: NoDeeper(e.key, depth) && NoDeeper(e.value, depth)
  }

  lemma EntriesExtend(es: seq<Entry>, e: Entry, depth: int)
    ensures EntriesShallow(es + [e], depth) <==>
            EntriesShallow(es, depth) && NoDeeper(e.key, depth) && NoDeeper(e.value, depth)
    ensures EntryNodes(es + [e]) == EntryNodes(es) + PairNodes(e)
    ensures EntryCharacters(es + [e]) == EntryCharacters(es) + PairCharacters(e)
  {
    hide NoDeeper, PairNodes, PairCharacters;
    assert (es + [e])[..|es|] == es;
    assert forall x :: x in es + [e] <==> x in es || x == e;
  }

  /** Children of a mapping in the order they are pushed: each key, then its value. */
  method PushEntries(entries: seq<Entry>, depth: nat) returns (pushed: seq<Pending>)
    ensures StackNodes(pushed) == EntryNodes(entries)
    ensures StackCharacters(pushed) == EntryCharacters(entries)
    ensures StackShallow(pushed) <==> EntriesShallow(entries, MAX_DEPTH - depth)
  {
    hide NoDeeper, EntriesShallow, StackShallow, StackNodes, StackCharacters, EntryNodes, EntryCharacters, Nodes, Characters;
    pushed := [];
    EmptyStack();
    NoEntries(MAX_DEPTH - depth);
    for i := 0 to |entries|
      invariant StackNodes(pushed) == EntryNodes(entries[..i])
      invariant StackCharacters(pushed) == EntryCharacters(entries[..i])
      invariant StackShallow(pushed) <==> EntriesShallow(entries[..i], MAX_DEPTH - depth)
    {
      var pair := [Pending(entries[i].key, depth), Pending(entries[i].value, depth)];
      StackConcat(pushed, pair);
      PairOnStack(pair[0], pair[1]);
      EntriesExtend(entries[..i], entries[i], MAX_DEPTH - depth);
      assert entries[..i + 1] == entries[..i] + [entries[i]];
      pushed := pushed + pair;
    }
    assert entries[..|entries|] == entries;
  }

  lemma NoEntries(depth: int)
    ensures EntryNodes([]) == 0 && EntryCharacters([]) == 0 && EntriesShallow([], depth)
  {}

  lemma PairOnStack(a: Pending, b: Pending)
    ensures StackNodes([a, b]) == Nodes(a.value) + Nodes(b.value)
    ensures StackCharacters([a, b]) == Characters(a.value) + Characters(b.value)
    ensures StackShallow([a, b]) <==> NoDeeper(a.value, MAX_DEPTH - a.depth) && NoDeeper(b.value, MAX_DEPTH - b.depth)
  {
    hide Nodes, Characters, NoDeeper;
    assert [a, b] == [a] + [b];
    StackConcat([a], [b]);
    OneOnStack(a);
    OneOnStack(b);
  }

  lemma OneOnStack(a: Pending)
    ensures StackNodes([a]) == Nodes(a.value) && StackCharacters([a]) == Characters(a.value)
    ensures StackShallow([a]) <==> NoDeeper(a.value, MAX_DEPTH - a.depth)
  {
    hide Nodes, Characters, NoDeeper;
    assert [a][..0] == [];
    assert a in [a];
  }

  method PushItems(items: seq<Value>, depth: nat) returns (pushed: seq<Pending>)
    ensures StackNodes(pushed) == ItemNodes(items)
    ensures StackCharacters(pushed) == ItemCharacters(items)
    ensures StackShallow(pushed) <==> ItemsShallow(items, MAX_DEPTH - depth)
  {
    hide NoDeeper, ItemsShallow, StackShallow, StackNodes, StackCharacters, ItemNodes, ItemCharacters, Nodes, Characters;
    pushed := [];
    EmptyStack();
    NoItems(MAX_DEPTH - depth);
    for i := 0 to |items|
      invariant StackNodes(pushed) == ItemNodes(items[..i])
      invariant StackCharacters(pushed) == ItemCharacters(items[..i])
      invariant StackShallow(pushed) <==> ItemsShallow(items[..i], MAX_DEPTH - depth)
    {
      var one := Pending(items[i], depth);
      StackConcat(pushed, [one]);
      OneOnStack(one);
      ItemsExtend(items[..i], items[i], MAX_DEPTH - depth);
      assert items[..i + 1] == items[..i] + [items[i]];
      pushed := pushed + [one];
    }
    assert items[..|items|] == items;
  }

  ghost predicate ItemsShallow(vs: seq<Value>, depth: int) { forall k | 0 <= k < |vs| :: NoDeeper(vs[k], depth) }

  lemma NoItems(depth: int)
    ensures ItemNodes([]) == 0 && ItemCharacters([]) == 0 && ItemsShallow([], depth)
  {}

  lemma ItemsExtend(vs: seq<Value>, v: Value, depth: int)
    ensures ItemsShallow(vs + [v], depth) <==> ItemsShallow(vs, depth) && NoDeeper(v, depth)
    ensures ItemNodes(vs + [v]) == ItemNodes(vs) + Nodes(v)
    ensures ItemCharacters(vs + [v]) == ItemCharacters(vs) + Characters(v)
  {
    hide NoDeeper, Nodes, Characters;
    assert (vs + [v])[..|vs|] == vs;
    assert forall k | 0 <= k < |vs| :: (vs + [v])[k] == vs[k];
    assert (vs + [v])[|vs|] == v;
  }

  /** What taking one value off the stack and pushing its children does to the budgets. */
  lemma Expanded(rest: seq<Pending>, top: Pending, pushed: seq<Pending>)
    requires top.depth <= MAX_DEPTH
    requires match top.value
      case Mapping(es) =>
        && StackNodes(pushed) == EntryNodes(es) && StackCharacters(pushed) == EntryCharacters(es)
        && (StackShallow(pushed) <==> EntriesShallow(es, MAX_DEPTH - (top.depth + 1)))
      case List(vs) =>
        && StackNodes(pushed) == ItemNodes(vs) && StackCharacters(pushed) == ItemCharacters(vs)
        && (StackShallow(pushed) <==> forall k | 0 <= k < |vs| :: NoDeeper(vs[k], MAX_DEPTH - (top.depth + 1)))
      case _ => pushed == []
    ensures StackNodes(rest + [top]) == 1 + StackNodes(rest + pushed)
    ensures StackCharacters(rest + [top]) == StackCharacters(rest + pushed)
      + (if top.value.Text? then |top.value.text| else 0)
    ensures StackShallow(rest + [top]) <==> StackShallow(rest + pushed)
  {
    StackConcat(rest, [top]);
    StackConcat(rest, pushed);
    OneOnStack(top);
  }

  /** The worklist terminates and answers exactly the recursive question, early rejections included. */
  method ResponseWithinLimits(response: Value) returns (ok: bool)
    ensures ok == WithinLimits(response)
  {
    hide Nodes, Characters, NoDeeper, EntryNodes, ItemNodes, EntryCharacters, ItemCharacters, StackShallow;
    var pending := [Pending(response, 0)];
    var nodes, characters: int := MAX_NODES, MAX_CHARACTERS;
    OneOnStack(pending[0]);
    while |pending| > 0
      invariant nodes >= 0 && characters >= 0
      invariant MAX_NODES - nodes + StackNodes(pending) == Nodes(response)
      invariant MAX_CHARACTERS - characters + StackCharacters(pending) == Characters(response)
      invariant NoDeeper(response, MAX_DEPTH) <==> StackShallow(pending)
      decreases StackNodes(pending)
    {
      var top := pending[|pending| - 1];
      var value, depth := top.value, top.depth;
      ghost var before := pending;
      pending := pending[..|pending| - 1];
      assert before == pending + [top];
      nodes := nodes - 1;
      if depth > MAX_DEPTH || nodes < 0 {
        Rejected(pending, top);
        return false;
      }
      var pushed := [];
      match value {
        case Text(text) =>
          characters := characters - |text|;
          if characters < 0 {
            Rejected(pending, top);
            return false;
          }
        case Mapping(entries) =>
          if |entries| * 2 > nodes {
            Rejected(pending, top);
            return false;
          }
          pushed := PushEntries(entries, depth + 1);
        case List(items) =>
          if |items| > nodes {
            Rejected(pending, top);
            return false;
          }
          pushed := PushItems(items, depth + 1);
        case Leaf =>
      }
      Expanded(pending, top, pushed);
      pending := pending + pushed;
    }
    assert pending == [];
    EmptyStack();
    ok := true;
  }

  lemma EmptyStack()
    ensures StackNodes([]) == 0 && StackCharacters([]) == 0 && StackShallow([])
  {}

  /** Lower bounds that make each early rejection final. */
  lemma Rejected(rest: seq<Pending>, top: Pending)
    ensures StackNodes(rest + [top]) >= 1
    ensures top.value.Mapping? ==> StackNodes(rest + [top]) >= 1 + 2 * |top.value.entries|
    ensures top.value.List? ==> StackNodes(rest + [top]) >= 1 + |top.value.items|
    ensures top.value.Text? ==> StackCharacters(rest + [top]) >= |top.value.text|
    ensures top.depth > MAX_DEPTH ==> !StackShallow(rest + [top])
  {
    StackConcat(rest, [top]);
    OneOnStack(top);
  }
}
