/**
  Consequence trees: reading them from a model's JSON, printing them for the audit
  record, counting them and collecting their terminals.
  */
module Consequence {
  import opened Core

  datatype Node = Node(
    id: string,
    description: string,
    stakeholders: Container,
    probability: real,
    tangibility: real,
    harm: real,
    affectedParty: string,
    children: seq<Node>,
    isTerminal: bool)

  /** A JSON object for a node, with optional fields. */
  datatype Item = Item(
    description: Option<string>,
    stakeholders: Option<Container>,
    probability: Option<real>,
    tangibility: Option<real>,
    harm: Option<real>,
    affectedParty: Option<string>,
    children: seq<Item>,
    isTerminal: Option<bool>)

  /** Fresh identifiers, as a function of the position of a node in its tree. */
  type IdSupply = seq<nat> -> string

  datatype Tree = Tree(
    candidate: Candidate,
    roots: seq<Node>,
    totalNodes: nat,
    worst: Option<Node>,
    best: Option<Node>)

  /*** Parsing ***/

  /** The nodes of a list of items; at is the position of their parent and k the number of items before them. */
  function Parse(items: seq<Item>, ids: IdSupply, at: seq<nat>, k: nat): (nodes: seq<Node>)
    ensures |nodes| == |items|
  {
    if items == [] then []
    else
      var children := Parse(items[0].children, ids, at + [k], 0);
      [ParsedNode(items[0], ids(at + [k]), children)] + Parse(items[1..], ids, at, k + 1)
  }

  function ParsedNode(item: Item, id: string, children: seq<Node>): Node {
    Node(id, item.description.GetOr(""), item.stakeholders.GetOr(NOTHING),
         Clamp(item.probability.GetOr(0.5), 0.0, 1.0),
         Clamp(item.tangibility.GetOr(0.5), 0.0, 1.0),
         Clamp(item.harm.GetOr(0.0), -1.0, 1.0),
         item.affectedParty.GetOr(""), children, item.isTerminal.GetOr(|children| == 0))
  }

  /** A field of a node: the item's, or the default of a missing one. */
  predicate Field<T(==)>(given: Option<T>, default: T, value: T) {
    value == match given case None => default case Some(v) => v
  }

  /** A number of a node: the item's or the default, brought into the interval. */
  predicate NumberField(given: Option<real>, default: real, lo: real, hi: real, value: real) {
    var x := match given case None => default case Some(v) => v;
    (x < lo && value == lo) || (lo <= x <= hi && value == x) || (x > hi && value == hi)
  }

  /** The node of an item: its fields or their defaults, and terminal, if not marked, iff it has no children. */
  predicate NodeOf(item: Item, id: string, children: seq<Node>, n: Node) {
    && n.id == id && n.children == children
    && Field(item.description, "", n.description)
    && Field(item.stakeholders, Array([]), n.stakeholders)
    && NumberField(item.probability, 0.5, 0.0, 1.0, n.probability)
    && NumberField(item.tangibility, 0.5, 0.0, 1.0, n.tangibility)
    && NumberField(item.harm, 0.0, -1.0, 1.0, n.harm)
    && Field(item.affectedParty, "", n.affectedParty)
    && Field(item.isTerminal, item.children == [], n.isTerminal)
  }

  lemma ParsedNodeMeaning(item: Item, id: string, children: seq<Node>)
    requires |children| == |item.children|
    ensures NodeOf(item, id, children, ParsedNode(item, id, children))
  {
  }

  /** Item by item, a list is parsed into its nodes, with identifiers by position. */
  lemma {:induction false} ParseMeaning(items: seq<Item>, ids: IdSupply, at: seq<nat>, k: nat)
    ensures var nodes := Parse(items, ids, at, k);
            forall i :: 0 <= i < |items| ==>
              NodeOf(items[i], ids(at + [k + i]), Parse(items[i].children, ids, at + [k + i], 0), nodes[i])
  {
    hide NodeOf, ParsedNode;
    if items != [] {
      var nodes, rest := Parse(items, ids, at, k), Parse(items[1..], ids, at, k + 1);
      ParsedNodeMeaning(items[0], ids(at + [k]), Parse(items[0].children, ids, at + [k], 0));
      ParseMeaning(items[1..], ids, at, k + 1);
      assert nodes[0] == ParsedNode(items[0], ids(at + [k]), Parse(items[0].children, ids, at + [k], 0)) && nodes[1..] == rest;
      forall i | 0 <= i < |items|
        ensures NodeOf(items[i], ids(at + [k + i]), Parse(items[i].children, ids, at + [k + i], 0), nodes[i])
      {
        if i > 0 {
          assert nodes[i] == rest[i - 1] && items[i] == items[1..][i - 1] && k + 1 + (i - 1) == k + i;
        }
      }
    }
  }

  lemma {:induction false} ParseAppend(items: seq<Item>, item: Item, ids: IdSupply, at: seq<nat>, k: nat)
    ensures Parse(items + [item], ids, at, k) == Parse(items, ids, at, k) + Parse([item], ids, at, k + |items|)
  {
    hide ParsedNode;
    if items == [] {
      assert items + [item] == [item];
    } else {
      ParseAppend(items[1..], item, ids, at, k + 1);
      assert (items + [item])[1..] == items[1..] + [item];
      var first := ParsedNode(items[0], ids(at + [k]), Parse(items[0].children, ids, at + [k], 0));
      Associative([first], Parse(items[1..], ids, at, k + 1), Parse([item], ids, at, k + |items|));
    }
  }

  method ParseNodes(items: seq<Item>, ids: IdSupply, at: seq<nat>) returns (nodes: seq<Node>)
    ensures nodes == Parse(items, ids, at, 0)
    decreases items
  {
    nodes := [];
    for i := 0 to |items|
      invariant nodes == Parse(items[..i], ids, at, 0)
    {
      var children := [];
      if items[i].children != [] {
        children := ParseNodes(items[i].children, ids, at + [i]);
      }
      ParseAppend(items[..i], items[i], ids, at, 0);
      assert items[..i + 1] == items[..i] + [items[i]];
      assert [items[i]][1..] == [];
      nodes := nodes + [ParsedNode(items[i], ids(at + [i]), children)];
    }
    assert items[..|items|] == items;
  }

  /*** Printing ***/

  function Print(nodes: seq<Node>): (items: seq<Item>)
    ensures |items| == |nodes|
  {
    if nodes == [] then []
    else
      var n := nodes[0];
      [Item(Some(n.description), Some(n.stakeholders), Some(n.probability), Some(n.tangibility), Some(n.harm),
            Some(n.affectedParty), Print(n.children), Some(n.isTerminal))] + Print(nodes[1..])
  }

  /*** Counting and collecting ***/

  /** Every node, parents before children and siblings in order. */
  function Preorder(nodes: seq<Node>): seq<Node> {
    if nodes == [] then [] else [nodes[0]] + Preorder(nodes[0].children) + Preorder(nodes[1..])
  }

  function TerminalsOf(nodes: seq<Node>): seq<Node> {
    if nodes == [] then []
    else (if nodes[0].isTerminal then [nodes[0]] else []) + TerminalsOf(nodes[0].children) + TerminalsOf(nodes[1..])
  }

  lemma {:induction false} PreorderAppend(nodes: seq<Node>, n: Node)
    ensures Preorder(nodes + [n]) == Preorder(nodes) + ([n] + Preorder(n.children))
    ensures TerminalsOf(nodes + [n]) ==
            TerminalsOf(nodes) + ((if n.isTerminal then [n] else []) + TerminalsOf(n.children))
  {
    if nodes == [] {
      assert nodes + [n] == [n] && [n][1..] == [];
    } else {
      PreorderAppend(nodes[1..], n);
      assert (nodes + [n])[1..] == nodes[1..] + [n];
      var first := nodes[0];
      Associative([first] + Preorder(first.children), Preorder(nodes[1..]), [n] + Preorder(n.children));
      Associative((if first.isTerminal then [first] else []) + TerminalsOf(first.children), TerminalsOf(nodes[1..]),
                  (if n.isTerminal then [n] else []) + TerminalsOf(n.children));
    }
  }

  method CountNodes(nodes: seq<Node>) returns (count: nat)
    ensures count == |Preorder(nodes)|
    decreases nodes
  {
    count := 0;
    for i := 0 to |nodes|
      invariant count == |Preorder(nodes[..i])|
    {
      var below := CountNodes(nodes[i].children);
      PreorderAppend(nodes[..i], nodes[i]);
      assert nodes[..i + 1] == nodes[..i] + [nodes[i]];
      count := count + 1;
      count := count + below;
    }
    assert nodes[..|nodes|] == nodes;
  }

  method CollectTerminals(nodes: seq<Node>) returns (terminals: seq<Node>)
    ensures terminals == TerminalsOf(nodes)
    decreases nodes
  {
    terminals := [];
    for i := 0 to |nodes|
      invariant terminals == TerminalsOf(nodes[..i])
    {
      var below := CollectTerminals(nodes[i].children);
      PreorderAppend(nodes[..i], nodes[i]);
      assert nodes[..i + 1] == nodes[..i] + [nodes[i]];
      if nodes[i].isTerminal {
        terminals := terminals + [nodes[i]];
      }
      terminals := terminals + below;
    }
    assert nodes[..|nodes|] == nodes;
  }

  /** The terminals are the nodes of the tree that are marked terminal, in the same order. */
  lemma {:induction false} TerminalsAreMarked(nodes: seq<Node>)
    ensures TerminalsOf(nodes) == Marked(Preorder(nodes))
  {
    if nodes != [] {
      var n := nodes[0];
      TerminalsAreMarked(n.children);
      TerminalsAreMarked(nodes[1..]);
      MarkedConcat([n], Preorder(n.children));
      MarkedConcat([n] + Preorder(n.children), Preorder(nodes[1..]));
      assert [n][1..] == [];
    }
  }

  function Marked(nodes: seq<Node>): seq<Node> {
    if nodes == [] then [] else (if nodes[0].isTerminal then [nodes[0]] else []) + Marked(nodes[1..])
  }

  lemma {:induction false} MarkedConcat(s: seq<Node>, t: seq<Node>)
    ensures Marked(s + t) == Marked(s) + Marked(t)
  {
    if s == [] {
      assert s + t == t;
    } else {
      MarkedConcat(s[1..], t);
      assert (s + t)[1..] == s[1..] + t;
      Associative(if s[0].isTerminal then [s[0]] else [], Marked(s[1..]), Marked(t));
    }
  }

  /** The first node of least harm_benefit. */
  function Least(nodes: seq<Node>): Option<Node> {
    if nodes == [] then None
    else
      var rest := Least(nodes[1..]);
      if rest.None? || nodes[0].harm <= rest.value.harm then Some(nodes[0]) else rest
  }

  /** The first node of greatest harm_benefit. */
  function Greatest(nodes: seq<Node>): Option<Node> {
    if nodes == [] then None
    else
      var rest := Greatest(nodes[1..]);
      if rest.None? || nodes[0].harm >= rest.value.harm then Some(nodes[0]) else rest
  }

  /** The node at i is the first of least harm_benefit. */
  predicate FirstLeast(nodes: seq<Node>, i: nat) {
    && i < |nodes|
    && (forall j :: 0 <= j < |nodes| ==> nodes[j].harm >= nodes[i].harm)
    && (forall j :: 0 <= j < i ==> nodes[j].harm > nodes[i].harm)
  }

  /** The node at i is the first of greatest harm_benefit. */
  predicate FirstGreatest(nodes: seq<Node>, i: nat) {
    && i < |nodes|
    && (forall j :: 0 <= j < |nodes| ==> nodes[j].harm <= nodes[i].harm)
    && (forall j :: 0 <= j < i ==> nodes[j].harm < nodes[i].harm)
  }

  lemma {:induction false} LeastMeaning(nodes: seq<Node>) returns (i: nat)
    requires nodes != []
    ensures FirstLeast(nodes, i) && Least(nodes) == Some(nodes[i])
  {
    var rest := nodes[1..];
    assert forall j :: 0 < j < |nodes| ==> nodes[j] == rest[j - 1];
    i := 0;
    if rest != [] {
      var k := LeastMeaning(rest);
      i := if nodes[0].harm <= rest[k].harm then 0 else k + 1;
    }
  }

  lemma {:induction false} GreatestMeaning(nodes: seq<Node>) returns (i: nat)
    requires nodes != []
    ensures FirstGreatest(nodes, i) && Greatest(nodes) == Some(nodes[i])
  {
    var rest := nodes[1..];
    assert forall j :: 0 < j < |nodes| ==> nodes[j] == rest[j - 1];
    i := 0;
    if rest != [] {
      var k := GreatestMeaning(rest);
      i := if nodes[0].harm >= rest[k].harm then 0 else k + 1;
    }
  }

  /*** Whole trees ***/

  function TreeOf(candidate: Candidate, roots: seq<Node>): Tree {
    Tree(candidate, roots, |Preorder(roots)|, Least(TerminalsOf(roots)), Greatest(TerminalsOf(roots)))
  }

  /** One for every node. */
  function Size(nodes: seq<Node>): nat {
    if nodes == [] then 0 else 1 + Size(nodes[0].children) + Size(nodes[1..])
  }

  lemma {:induction false} PreorderSize(nodes: seq<Node>)
    ensures |Preorder(nodes)| == Size(nodes)
  {
    if nodes != [] {
      PreorderSize(nodes[0].children);
      PreorderSize(nodes[1..]);
    }
  }

  /** What a tree says of its roots: how many nodes there are, and the first terminals of least and of greatest harm_benefit. */
  lemma TreeMeaning(candidate: Candidate, roots: seq<Node>)
    ensures var tree, terminals := TreeOf(candidate, roots), TerminalsOf(roots);
            && tree.candidate == candidate && tree.roots == roots && tree.totalNodes == Size(roots)
            && (terminals == [] ==> tree.worst.None? && tree.best.None?)
            && (terminals != [] ==>
                  && (exists i: nat :: FirstLeast(terminals, i) && tree.worst == Some(terminals[i]))
                  && (exists i: nat :: FirstGreatest(terminals, i) && tree.best == Some(terminals[i])))
  {
    PreorderSize(roots);
    if TerminalsOf(roots) != [] {
      var i := LeastMeaning(TerminalsOf(roots));
      var j := GreatestMeaning(TerminalsOf(roots));
    }
  }

  /** Turning a model's list of consequences into a tree. */
  method BuildTree(candidate: Candidate, items: seq<Item>, ids: IdSupply) returns (tree: Tree)
    ensures tree == TreeOf(candidate, Parse(items, ids, [], 0)) && AllInRange(tree.roots)
  {
    ParsedInRange(items, ids, [], 0);
    var roots := ParseNodes(items, ids, []);
    var total := CountNodes(roots);
    var terminals := CollectTerminals(roots);
    tree := Tree(candidate, roots, total, Least(terminals), Greatest(terminals));
  }

  /*** Parsing undoes printing ***/

  predicate InRange(n: Node) {
    0.0 <= n.probability <= 1.0 && 0.0 <= n.tangibility <= 1.0 && -1.0 <= n.harm <= 1.0
  }

  predicate AllInRange(nodes: seq<Node>) {
    nodes != [] ==> InRange(nodes[0]) && AllInRange(nodes[0].children) && AllInRange(nodes[1..])
  }

  /** The same nodes with their identifiers blanked. */
  function Anonymous(nodes: seq<Node>): (r: seq<Node>)
    ensures |r| == |nodes|
  {
    if nodes == [] then []
    else [nodes[0].(id := "", children := Anonymous(nodes[0].children))] + Anonymous(nodes[1..])
  }

  lemma {:induction false} ParsedInRange(items: seq<Item>, ids: IdSupply, at: seq<nat>, k: nat)
    ensures AllInRange(Parse(items, ids, at, k))
  {
    if items != [] {
      ParsedInRange(items[0].children, ids, at + [k], 0);
      ParsedInRange(items[1..], ids, at, k + 1);
    }
  }

  /** Reading back a printed tree gives the tree, up to fresh identifiers. */
  lemma {:induction false} ParsePrint(nodes: seq<Node>, ids: IdSupply, at: seq<nat>, k: nat)
    requires AllInRange(nodes)
    ensures Anonymous(Parse(Print(nodes), ids, at, k)) == Anonymous(nodes)
  {
    if nodes != [] {
      ParsePrint(nodes[0].children, ids, at + [k], 0);
      ParsePrint(nodes[1..], ids, at, k + 1);
      assert Print(nodes)[1..] == Print(nodes[1..]);
      assert Parse(Print(nodes), ids, at, k)[1..] == Parse(Print(nodes[1..]), ids, at, k + 1);
    }
  }

  /** Printing a parsed tree and reading it with other identifiers is reading the original with these. */
  lemma {:induction false} ReparseIsParse(items: seq<Item>, ids: IdSupply, other: IdSupply, at: seq<nat>, k: nat)
    ensures Parse(Print(Parse(items, ids, at, k)), other, at, k) == Parse(items, other, at, k)
  {
    if items != [] {
      var once := Parse(items, ids, at, k);
      ReparseIsParse(items[0].children, ids, other, at + [k], 0);
      ReparseIsParse(items[1..], ids, other, at, k + 1);
      assert once[1..] == Parse(items[1..], ids, at, k + 1);
      assert Print(once)[1..] == Print(once[1..]);
    }
  }

  /** For any JSON at all, printing and reading again, with fresh identifiers, changes nothing else. */
  lemma ParsePrintParse(items: seq<Item>, ids: IdSupply, other: IdSupply, at: seq<nat>, k: nat)
    ensures var once := Parse(items, ids, at, k);
            var again := Parse(Print(once), other, at, k);
            again == Parse(items, other, at, k) && Anonymous(again) == Anonymous(once)
  {
    ReparseIsParse(items, ids, other, at, k);
    ParsedInRange(items, ids, at, k);
    ParsePrint(Parse(items, ids, at, k), other, at, k);
  }

  lemma {:induction false} AnonymousConcat(s: seq<Node>, t: seq<Node>)
    ensures Anonymous(s + t) == Anonymous(s) + Anonymous(t)
  {
    if s == [] {
      assert s + t == t;
    } else {
      AnonymousConcat(s[1..], t);
      assert (s + t)[1..] == s[1..] + t;
      Associative([s[0].(id := "", children := Anonymous(s[0].children))], Anonymous(s[1..]), Anonymous(t));
    }
  }

  lemma {:induction false} AnonymousTerminals(nodes: seq<Node>)
    ensures TerminalsOf(Anonymous(nodes)) == Anonymous(TerminalsOf(nodes))
    ensures |Preorder(Anonymous(nodes))| == |Preorder(nodes)|
  {
    if nodes != [] {
      var n := nodes[0];
      AnonymousTerminals(n.children);
      AnonymousTerminals(nodes[1..]);
      var first := if n.isTerminal then [n] else [];
      assert [n][1..] == [];
      AnonymousConcat(first, TerminalsOf(n.children));
      AnonymousConcat(first + TerminalsOf(n.children), TerminalsOf(nodes[1..]));
      assert Anonymous(nodes)[1..] == Anonymous(nodes[1..]);
    }
  }

  function AnonymousOption(n: Option<Node>): Option<Node> {
    match n
    case None => None
    case Some(node) => Some(node.(id := "", children := Anonymous(node.children)))
  }

  lemma {:induction false} AnonymousExtremes(nodes: seq<Node>)
    ensures Least(Anonymous(nodes)) == AnonymousOption(Least(nodes))
    ensures Greatest(Anonymous(nodes)) == AnonymousOption(Greatest(nodes))
  {
    if nodes != [] {
      AnonymousExtremes(nodes[1..]);
      assert Anonymous(nodes)[1..] == Anonymous(nodes[1..]);
    }
  }

  /** The same tree up to identifiers, in everything that the audit record says of it. */
  predicate SameButIds(a: Tree, b: Tree) {
    && a.candidate == b.candidate
    && Anonymous(a.roots) == Anonymous(b.roots)
    && a.totalNodes == b.totalNodes
    && Anonymous(TerminalsOf(a.roots)) == Anonymous(TerminalsOf(b.roots))
    && AnonymousOption(a.worst) == AnonymousOption(b.worst)
    && AnonymousOption(a.best) == AnonymousOption(b.best)
  }

  /** Roots that differ in identifiers only give such trees. */
  lemma SameRoots(candidate: Candidate, r: seq<Node>, s: seq<Node>)
    requires Anonymous(r) == Anonymous(s)
    ensures SameButIds(TreeOf(candidate, r), TreeOf(candidate, s))
  {
    AnonymousTerminals(r);
    AnonymousTerminals(s);
    AnonymousExtremes(TerminalsOf(r));
    AnonymousExtremes(TerminalsOf(s));
  }

  /** What the audit record says of a tree in range survives printing and parsing. */
  lemma TreeRoundTrip(candidate: Candidate, roots: seq<Node>, ids: IdSupply)
    requires AllInRange(roots)
    ensures SameButIds(TreeOf(candidate, Parse(Print(roots), ids, [], 0)), TreeOf(candidate, roots))
  {
    ParsePrint(roots, ids, [], 0);
    SameRoots(candidate, Parse(Print(roots), ids, [], 0), roots);
  }

  /** Every tree that was built from JSON is in range, and survives. */
  lemma BuiltTreeRoundTrip(candidate: Candidate, items: seq<Item>, ids: IdSupply, other: IdSupply)
    ensures var tree := TreeOf(candidate, Parse(items, ids, [], 0));
            AllInRange(tree.roots) && SameButIds(TreeOf(candidate, Parse(Print(tree.roots), other, [], 0)), tree)
  {
    ParsedInRange(items, ids, [], 0);
    TreeRoundTrip(candidate, Parse(items, ids, [], 0), other);
  }
}
