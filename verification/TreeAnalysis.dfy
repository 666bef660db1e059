/** Analyses of consequence trees: worst path, expected harm, catastrophic branches, stakeholder impact. */
module TreeAnalysis {
  import opened Core
  import opened Strings
  import opened Consequence

  /*** Worst path ***/

  /** The paths from a root to each terminal that a traversal which stops at terminals reaches. */
  function Paths(nodes: seq<Node>, prefix: seq<Node>): seq<seq<Node>> {
    if nodes == [] then [] else PathsThrough(nodes[0], prefix) + Paths(nodes[1..], prefix)
  }

  function PathsThrough(n: Node, prefix: seq<Node>): seq<seq<Node>> {
    if n.isTerminal then [prefix + [n]] else Paths(n.children, prefix + [n])
  }

  predicate NonEmptyPaths(paths: seq<seq<Node>>) {
    forall i :: 0 <= i < |paths| ==> paths[i] != []
  }

  /** The best path so far, replaced by each later one that ends strictly worse. */
  function Improve(best: seq<Node>, paths: seq<seq<Node>>): seq<Node>
    requires NonEmptyPaths(paths)
    decreases |paths|
  {
    if paths == [] then best else Improve(Worse(best, paths[0]), paths[1..])
  }

  function Worse(best: seq<Node>, path: seq<Node>): seq<Node>
    requires path != []
  {
    if best == [] || Last(path).harm < Last(best).harm then path else best
  }

  function WorstPath(roots: seq<Node>): seq<Node> {
    PathsNonEmpty(roots, []);
    Improve([], Paths(roots, []))
  }

  lemma {:induction false} PathsNonEmpty(nodes: seq<Node>, prefix: seq<Node>)
    ensures NonEmptyPaths(Paths(nodes, prefix))
  {
    if nodes != [] {
      PathsNonEmpty(nodes[0].children, prefix + [nodes[0]]);
      PathsNonEmpty(nodes[1..], prefix);
    }
  }

  lemma {:induction false} PathsAppend(nodes: seq<Node>, n: Node, prefix: seq<Node>)
    ensures Paths(nodes + [n], prefix) == Paths(nodes, prefix) + PathsThrough(n, prefix)
  {
    hide PathsThrough;
    if nodes == [] {
      assert nodes + [n] == [n] && [n][1..] == [];
    } else {
      PathsAppend(nodes[1..], n, prefix);
      assert (nodes + [n])[1..] == nodes[1..] + [n];
    }
  }

  lemma {:induction false} ImproveConcat(best: seq<Node>, s: seq<seq<Node>>, t: seq<seq<Node>>)
    requires NonEmptyPaths(s) && NonEmptyPaths(t)
    ensures NonEmptyPaths(s + t) && Improve(best, s + t) == Improve(Improve(best, s), t)
    decreases |s|
  {
    if s == [] {
      assert s + t == t;
    } else {
      ImproveConcat(Worse(best, s[0]), s[1..], t);
      assert (s + t)[1..] == s[1..] + t;
    }
  }

  /** One node and what is below it, with the worst path found so far as the accumulator. */
  method WorstPathFrom(n: Node, currentPath: seq<Node>, worstPath: seq<Node>) returns (worst: seq<Node>)
    ensures NonEmptyPaths(PathsThrough(n, currentPath)) && worst == Improve(worstPath, PathsThrough(n, currentPath))
    decreases n
  {
    var path := currentPath + [n];
    worst := worstPath;
    if n.isTerminal {
      assert [path][1..] == [];
      if worst == [] || n.harm < Last(worst).harm {
        worst := path;
      }
    } else {
      worst := WorstPathAmong(n.children, path, worst);
    }
  }

  method WorstPathAmong(nodes: seq<Node>, currentPath: seq<Node>, worstPath: seq<Node>) returns (worst: seq<Node>)
    ensures NonEmptyPaths(Paths(nodes, currentPath)) && worst == Improve(worstPath, Paths(nodes, currentPath))
    decreases nodes
  {
    worst := worstPath;
    for i := 0 to |nodes|
      invariant NonEmptyPaths(Paths(nodes[..i], currentPath))
      invariant worst == Improve(worstPath, Paths(nodes[..i], currentPath))
    {
      worst := WorstPathFrom(nodes[i], currentPath, worst);
      assert nodes[..i + 1] == nodes[..i] + [nodes[i]];
      PathsAppend(nodes[..i], nodes[i], currentPath);
      ImproveConcat(worstPath, Paths(nodes[..i], currentPath), PathsThrough(nodes[i], currentPath));
    }
    assert nodes[..|nodes|] == nodes;
  }

  method GetWorstPath(tree: Tree) returns (path: seq<Node>)
    ensures path == WorstPath(tree.roots)
  {
    path := WorstPathAmong(tree.roots, [], []);
  }

  /** The terminals that the traversal reaches: it does not look below a terminal. */
  function Reached(nodes: seq<Node>): seq<Node> {
    if nodes == [] then []
    else (if nodes[0].isTerminal then [nodes[0]] else Reached(nodes[0].children)) + Reached(nodes[1..])
  }

  function Ends(paths: seq<seq<Node>>): seq<Node>
    requires NonEmptyPaths(paths)
  {
    seq(|paths|, i requires 0 <= i < |paths| => Last(paths[i]))
  }

  lemma {:induction false} PathsEnd(nodes: seq<Node>, prefix: seq<Node>)
    ensures NonEmptyPaths(Paths(nodes, prefix)) && Ends(Paths(nodes, prefix)) == Reached(nodes)
  {
    PathsNonEmpty(nodes, prefix);
    if nodes != [] {
      PathsThroughEnd(nodes[0], prefix);
      PathsEnd(nodes[1..], prefix);
      EndsConcat(PathsThrough(nodes[0], prefix), Paths(nodes[1..], prefix));
    }
  }

  lemma {:induction false} PathsThroughEnd(n: Node, prefix: seq<Node>)
    ensures NonEmptyPaths(PathsThrough(n, prefix))
    ensures Ends(PathsThrough(n, prefix)) == if n.isTerminal then [n] else Reached(n.children)
  {
    if !n.isTerminal {
      PathsEnd(n.children, prefix + [n]);
    }
  }

  lemma EndsConcat(s: seq<seq<Node>>, t: seq<seq<Node>>)
    requires NonEmptyPaths(s) && NonEmptyPaths(t)
    ensures NonEmptyPaths(s + t) && Ends(s + t) == Ends(s) + Ends(t)
  {
  }

  lemma {:induction false} ImproveEnd(best: seq<Node>, paths: seq<seq<Node>>)
    requires NonEmptyPaths(paths)
    ensures Improve(best, paths) == [] <==> best == [] && paths == []
    ensures Improve(best, paths) != [] ==>
              var least := Least(Ends(paths));
              Last(Improve(best, paths)) ==
              if least.None? || (best != [] && Last(best).harm <= least.value.harm) then Last(best) else least.value
    ensures Improve(best, paths) == best || Improve(best, paths) in paths
    decreases |paths|
  {
    if paths != [] {
      ImproveEnd(Worse(best, paths[0]), paths[1..]);
      assert Ends(paths)[1..] == Ends(paths[1..]);
    }
  }

  /** The worst path ends at the first reached terminal of least harm_benefit. */
  lemma WorstPathEnd(roots: seq<Node>)
    ensures WorstPath(roots) == [] <==> Reached(roots) == []
    ensures WorstPath(roots) != [] ==> Some(Last(WorstPath(roots))) == Least(Reached(roots))
  {
    PathsEnd(roots, []);
    ImproveEnd([], Paths(roots, []));
    assert Reached(roots) == [] <==> Paths(roots, []) == [] by {
      assert |Ends(Paths(roots, []))| == |Paths(roots, [])|;
    }
  }

  /** Parent to child at every step, passing only through non-terminals, and ending at a terminal. */
  predicate Chain(path: seq<Node>) {
    && path != [] && Last(path).isTerminal
    && forall i :: 0 <= i < |path| - 1 ==> !path[i].isTerminal && path[i + 1] in path[i].children
  }

  /** A path so far that can be continued by one of the given nodes. */
  predicate Open(prefix: seq<Node>, nodes: seq<Node>) {
    && (forall i :: 0 <= i < |prefix| - 1 ==> !prefix[i].isTerminal && prefix[i + 1] in prefix[i].children)
    && (prefix != [] ==> !Last(prefix).isTerminal && forall n :: n in nodes ==> n in Last(prefix).children)
  }

  /** A chain that continues the prefix with one of the nodes. */
  predicate ChainFrom(path: seq<Node>, prefix: seq<Node>, nodes: seq<Node>) {
    Chain(path) && |prefix| < |path| && prefix == path[..|prefix|] && path[|prefix|] in nodes
  }

  lemma {:induction false} PathsAreChains(nodes: seq<Node>, prefix: seq<Node>)
    requires Open(prefix, nodes)
    ensures forall p :: p in Paths(nodes, prefix) ==> ChainFrom(p, prefix, nodes)
  {
    if nodes != [] {
      PathsThroughAreChains(nodes[0], prefix);
      PathsAreChains(nodes[1..], prefix);
    }
  }

  lemma {:induction false} PathsThroughAreChains(n: Node, prefix: seq<Node>)
    requires Open(prefix, [n])
    ensures forall p :: p in PathsThrough(n, prefix) ==> ChainFrom(p, prefix, [n])
  {
    var path := prefix + [n];
    assert n in [n];
    if !n.isTerminal {
      PathsAreChains(n.children, path);
      forall p | p in Paths(n.children, path) ensures ChainFrom(p, prefix, [n]) {
        assert p[..|prefix|] == p[..|path|][..|prefix|] && p[|prefix|] == p[..|path|][|prefix|];
      }
    }
  }

  /** The worst path is a genuine path of the tree, from a root down to a terminal. */
  lemma WorstPathIsChain(roots: seq<Node>)
    requires WorstPath(roots) != []
    ensures Chain(WorstPath(roots)) && WorstPath(roots)[0] in roots
  {
    PathsEnd(roots, []);
    ImproveEnd([], Paths(roots, []));
    PathsAreChains(roots, []);
  }

  lemma {:induction false} ChainIsPath(nodes: seq<Node>, prefix: seq<Node>, chain: seq<Node>)
    requires Chain(chain) && chain[0] in nodes
    ensures prefix + chain in Paths(nodes, prefix)
    decreases |chain|, |nodes|
  {
    var n := nodes[0];
    if chain[0] != n {
      ChainIsPath(nodes[1..], prefix, chain);
    } else if |chain| == 1 {
      assert chain == [n];
    } else {
      assert Last(chain[1..]) == Last(chain);
      ChainIsPath(n.children, prefix + [n], chain[1..]);
      assert prefix + [n] + chain[1..] == prefix + chain;
    }
  }

  /** The paths that the search compares are exactly the chains from a root to a terminal. */
  lemma PathsIff(roots: seq<Node>, path: seq<Node>)
    ensures path in Paths(roots, []) <==> Chain(path) && path[0] in roots
  {
    PathsAreChains(roots, []);
    if Chain(path) && path[0] in roots {
      ChainIsPath(roots, [], path);
      assert [] + path == path;
    }
  }

  /** No node marked terminal has children. */
  predicate TerminalsChildless(nodes: seq<Node>) {
    nodes != [] ==>
      (nodes[0].isTerminal ==> nodes[0].children == []) && TerminalsChildless(nodes[0].children)
      && TerminalsChildless(nodes[1..])
  }

  lemma {:induction false} ReachedAreTerminals(nodes: seq<Node>)
    ensures forall n :: n in Reached(nodes) ==> n in TerminalsOf(nodes)
    ensures Reached(nodes) == [] <==> TerminalsOf(nodes) == []
  {
    if nodes != [] {
      ReachedAreTerminals(nodes[0].children);
      ReachedAreTerminals(nodes[1..]);
    }
  }

  /** Nothing below a terminal is marked terminal again. */
  predicate TerminalsCover(nodes: seq<Node>) {
    nodes != [] ==>
      (if nodes[0].isTerminal then TerminalsOf(nodes[0].children) == [] else TerminalsCover(nodes[0].children))
      && TerminalsCover(nodes[1..])
  }

  lemma {:induction false} ReachedCount(nodes: seq<Node>)
    ensures |Reached(nodes)| <= |TerminalsOf(nodes)|
    ensures |Reached(nodes)| == |TerminalsOf(nodes)| <==> TerminalsCover(nodes)
  {
    if nodes != [] {
      ReachedCount(nodes[0].children);
      ReachedCount(nodes[1..]);
    }
  }

  lemma {:induction false} CoverReachesAll(nodes: seq<Node>)
    requires TerminalsCover(nodes)
    ensures Reached(nodes) == TerminalsOf(nodes)
  {
    if nodes != [] {
      if !nodes[0].isTerminal {
        CoverReachesAll(nodes[0].children);
      }
      CoverReachesAll(nodes[1..]);
    }
  }

  lemma {:induction false} ChildlessCover(nodes: seq<Node>)
    requires TerminalsChildless(nodes)
    ensures TerminalsCover(nodes)
  {
    if nodes != [] {
      ChildlessCover(nodes[0].children);
      ChildlessCover(nodes[1..]);
    }
  }

  lemma {:induction false} ExtremesBound(nodes: seq<Node>)
    ensures forall n :: n in nodes ==>
              Least(nodes).Some? && Greatest(nodes).Some?
              && Least(nodes).value.harm <= n.harm <= Greatest(nodes).value.harm
    ensures Least(nodes).Some? ==> Least(nodes).value in nodes
    ensures Greatest(nodes).Some? ==> Greatest(nodes).value in nodes
  {
    if nodes != [] {
      ExtremesBound(nodes[1..]);
      assert forall n :: n in nodes <==> n == nodes[0] || n in nodes[1..];
    }
  }

  /** The traversal reaches every terminal exactly when no terminal lies below another. */
  lemma ReachesAllIff(nodes: seq<Node>)
    ensures Reached(nodes) == TerminalsOf(nodes) <==> TerminalsCover(nodes)
  {
    ReachedCount(nodes);
    if TerminalsCover(nodes) {
      CoverReachesAll(nodes);
    }
  }

  /**
    Engine and analysis agree on the worst terminal when no terminal lies below another; there is a
    worst path exactly when there is a worst terminal, and its end is never worse than that terminal.
    */
  lemma WorstPathMatchesEngine(candidate: Candidate, roots: seq<Node>)
    ensures var tree, path := TreeOf(candidate, roots), WorstPath(roots);
            && (path == [] <==> tree.worst.None?)
            && (path != [] ==> Last(path).harm >= tree.worst.value.harm)
            && (path != [] && TerminalsCover(roots) ==> tree.worst == Some(Last(path)))
            && (path != [] && TerminalsChildless(roots) ==> tree.worst == Some(Last(path)))
  {
    WorstPathEnd(roots);
    ReachedAreTerminals(roots);
    ReachesAllIff(roots);
    ExtremesBound(Reached(roots));
    ExtremesBound(TerminalsOf(roots));
    if TerminalsChildless(roots) {
      ChildlessCover(roots);
    }
    assert Reached(roots) != [] ==> Reached(roots)[0] in Reached(roots);
  }

  /** A terminal with a worse terminal below it is where the two differ. */
  lemma TerminalWithChildrenDiffers()
    ensures var below := Node("b", "", NOTHING, 1.0, 1.0, -0.9, "", [], true);
            var above := Node("a", "", NOTHING, 1.0, 1.0, 0.5, "", [below], true);
            Least(TerminalsOf([above])) == Some(below) && WorstPath([above]) == [above]
  {
    var below := Node("b", "", NOTHING, 1.0, 1.0, -0.9, "", [], true);
    var above := Node("a", "", NOTHING, 1.0, 1.0, 0.5, "", [below], true);
    assert [above][1..] == [] && [below][1..] == [];
    assert TerminalsOf([below]) == [below];
    assert TerminalsOf([above]) == [above, below];
    assert [above, below][1..] == [below];
    var none: seq<Node> := [];
    assert none + [above] == [above];
    assert PathsThrough(above, none) == [[above]];
    assert Paths([above], none) == [[above]] + Paths([above][1..], none) == [[above]];
    assert [[above]][1..] == [];
    assert Improve(none, [[above]]) == Improve([above], []);
    assert Least([below]) == Some(below);
  }

  /*** Trees of one shape ***/

  /** The same tree except for the harms. */
  predicate Relabelled(nodes: seq<Node>, other: seq<Node>) {
    && |nodes| == |other|
    && (nodes != [] ==>
          && other[0] == nodes[0].(harm := other[0].harm, children := other[0].children)
          && Relabelled(nodes[0].children, other[0].children)
          && Relabelled(nodes[1..], other[1..]))
  }

  lemma {:induction false} RelabelledTerminals(nodes: seq<Node>, other: seq<Node>)
    requires Relabelled(nodes, other)
    ensures |TerminalsOf(other)| == |TerminalsOf(nodes)|
    ensures TerminalsCover(other) == TerminalsCover(nodes)
  {
    if nodes != [] {
      RelabelledTerminals(nodes[0].children, other[0].children);
      RelabelledTerminals(nodes[1..], other[1..]);
    }
  }

  /** The tree with harm -1 everywhere. */
  function Harmful(nodes: seq<Node>): (r: seq<Node>)
    ensures |r| == |nodes|
  {
    if nodes == [] then []
    else [nodes[0].(harm := -1.0, children := Harmful(nodes[0].children))] + Harmful(nodes[1..])
  }

  /** The tree with harm 0, and -1 below its terminals. */
  function HarmfulBelow(nodes: seq<Node>): (r: seq<Node>)
    ensures |r| == |nodes|
  {
    if nodes == [] then []
    else
      var n := nodes[0];
      [n.(harm := 0.0, children := if n.isTerminal then Harmful(n.children) else HarmfulBelow(n.children))]
      + HarmfulBelow(nodes[1..])
  }

  lemma {:induction false} HarmfulRelabels(nodes: seq<Node>)
    requires AllInRange(nodes)
    ensures Relabelled(nodes, Harmful(nodes)) && AllInRange(Harmful(nodes))
    ensures forall n :: n in TerminalsOf(Harmful(nodes)) ==> n.harm == -1.0
  {
    if nodes != [] {
      HarmfulRelabels(nodes[0].children);
      HarmfulRelabels(nodes[1..]);
      assert Harmful(nodes)[1..] == Harmful(nodes[1..]);
    }
  }

  lemma {:induction false} HarmfulBelowRelabels(nodes: seq<Node>)
    requires AllInRange(nodes)
    ensures Relabelled(nodes, HarmfulBelow(nodes)) && AllInRange(HarmfulBelow(nodes))
    ensures forall n :: n in Reached(HarmfulBelow(nodes)) ==> n.harm == 0.0
  {
    if nodes != [] {
      HarmfulRelabels(nodes[0].children);
      HarmfulBelowRelabels(nodes[0].children);
      HarmfulBelowRelabels(nodes[1..]);
      assert HarmfulBelow(nodes)[1..] == HarmfulBelow(nodes[1..]);
    }
  }

  /** A terminal below another is harmful and is not reached. */
  lemma {:induction false} HiddenHarm(nodes: seq<Node>) returns (hidden: Node)
    requires AllInRange(nodes) && !TerminalsCover(nodes)
    ensures hidden in TerminalsOf(HarmfulBelow(nodes)) && hidden.harm == -1.0
  {
    var n, other := nodes[0], HarmfulBelow(nodes);
    assert other[1..] == HarmfulBelow(nodes[1..]);
    if n.isTerminal && TerminalsOf(n.children) != [] {
      HarmfulRelabels(n.children);
      RelabelledTerminals(n.children, Harmful(n.children));
      hidden := TerminalsOf(other[0].children)[0];
      assert hidden in TerminalsOf(other[0].children);
    } else if !n.isTerminal && !TerminalsCover(n.children) {
      hidden := HiddenHarm(n.children);
    } else {
      hidden := HiddenHarm(nodes[1..]);
    }
  }

  /** The worst path ends at the engine's worst terminal, or there is neither. */
  predicate Agrees(candidate: Candidate, roots: seq<Node>) {
    TreeOf(candidate, roots).worst == if WorstPath(roots) == [] then None else Some(Last(WorstPath(roots)))
  }

  /** Engine and analysis agree for every labelling of a tree with harms exactly when no terminal lies below another. */
  lemma AgreesIff(candidate: Candidate, roots: seq<Node>)
    requires AllInRange(roots)
    ensures (forall other: seq<Node> :: Relabelled(roots, other) && AllInRange(other) ==> Agrees(candidate, other))
            <==> TerminalsCover(roots)
  {
    if TerminalsCover(roots) {
      forall other: seq<Node> | Relabelled(roots, other) && AllInRange(other) ensures Agrees(candidate, other) {
        RelabelledTerminals(roots, other);
        WorstPathMatchesEngine(candidate, other);
      }
    } else {
      var other := HarmfulBelow(roots);
      HarmfulBelowRelabels(roots);
      var hidden := HiddenHarm(roots);
      WorstPathEnd(other);
      ExtremesBound(Reached(other));
      ExtremesBound(TerminalsOf(other));
      assert !Agrees(candidate, other);
    }
  }

  /*** Expected harm ***/

  /** The probability of the path extended by one node. */
  function Along(prob: real, n: Node): real {
    prob * n.probability
  }

  function Weighed(n: Node, p: real): real {
    n.harm * p
  }

  function Expected(nodes: seq<Node>, prob: real): real {
    if nodes == [] then 0.0
    else ExpectedThrough(nodes[0], Along(prob, nodes[0])) + Expected(nodes[1..], prob)
  }

  function ExpectedThrough(n: Node, p: real): real {
    if n.isTerminal then Weighed(n, p) else Expected(n.children, p)
  }

  /** The total probability of the paths to reached terminals. */
  function Mass(nodes: seq<Node>, prob: real): real {
    if nodes == [] then 0.0
    else MassThrough(nodes[0], Along(prob, nodes[0])) + Mass(nodes[1..], prob)
  }

  function MassThrough(n: Node, p: real): real {
    if n.isTerminal then p else Mass(n.children, p)
  }

  /** The product of the probabilities along a path. */
  function Product(path: seq<Node>): real {
    if path == [] then 1.0 else Product(Init(path)) * Last(path).probability
  }

  /** Over some paths, the harm at the end of each times its probability. */
  function PathSum(paths: seq<seq<Node>>): real
    requires NonEmptyPaths(paths)
  {
    if paths == [] then 0.0 else Last(paths[0]).harm * Product(paths[0]) + PathSum(paths[1..])
  }

  lemma {:induction false} PathSumConcat(s: seq<seq<Node>>, t: seq<seq<Node>>)
    requires NonEmptyPaths(s) && NonEmptyPaths(t)
    ensures NonEmptyPaths(s + t) && PathSum(s + t) == PathSum(s) + PathSum(t)
  {
    if s == [] {
      assert s + t == t;
    } else {
      PathSumConcat(s[1..], t);
      assert (s + t)[1..] == s[1..] + t;
    }
  }

  lemma ProductAlong(prefix: seq<Node>, n: Node)
    ensures Product(prefix + [n]) == Along(Product(prefix), n)
  {
    assert Init(prefix + [n]) == prefix;
  }

  lemma {:induction false} ExpectedIsPathSum(nodes: seq<Node>, prefix: seq<Node>)
    ensures NonEmptyPaths(Paths(nodes, prefix)) && Expected(nodes, Product(prefix)) == PathSum(Paths(nodes, prefix))
  {
    hide Product, Along, ExpectedThrough, PathsThrough;
    PathsNonEmpty(nodes, prefix);
    if nodes != [] {
      ProductAlong(prefix, nodes[0]);
      ThroughIsPathSum(nodes[0], prefix);
      ExpectedIsPathSum(nodes[1..], prefix);
      PathSumConcat(PathsThrough(nodes[0], prefix), Paths(nodes[1..], prefix));
    }
  }

  lemma {:induction false} ThroughIsPathSum(n: Node, prefix: seq<Node>)
    ensures NonEmptyPaths(PathsThrough(n, prefix))
    ensures ExpectedThrough(n, Product(prefix + [n])) == PathSum(PathsThrough(n, prefix))
  {
    hide Product;
    if n.isTerminal {
      assert [prefix + [n]][1..] == [];
      assert PathSum([prefix + [n]]) == Last(prefix + [n]).harm * Product(prefix + [n]) + PathSum([]);
    } else {
      ExpectedIsPathSum(n.children, prefix + [n]);
    }
  }

  /** Expected harm is the sum, over the paths from a root to a terminal, of the harm at the end times the probability. */
  lemma ExpectedMeaning(roots: seq<Node>)
    ensures NonEmptyPaths(Paths(roots, [])) && Expected(roots, 1.0) == PathSum(Paths(roots, []))
  {
    ExpectedIsPathSum(roots, []);
  }

  lemma {:induction false} ExpectedAppend(nodes: seq<Node>, n: Node, prob: real)
    ensures Expected(nodes + [n], prob) == Expected(nodes, prob) + ExpectedThrough(n, Along(prob, n))
  {
    if nodes == [] {
      assert nodes + [n] == [n] && [n][1..] == [];
    } else {
      ExpectedAppend(nodes[1..], n, prob);
      assert (nodes + [n])[1..] == nodes[1..] + [n];
    }
  }

  method ExpectedFrom(n: Node, cumulative: real, total: real) returns (sum: real)
    ensures sum == total + ExpectedThrough(n, Along(cumulative, n))
    decreases n
  {
    var prob := Along(cumulative, n);
    if n.isTerminal {
      sum := total + Weighed(n, prob);
    } else {
      sum := ExpectedAmong(n.children, prob, total);
    }
  }

  method ExpectedAmong(nodes: seq<Node>, cumulative: real, total: real) returns (sum: real)
    ensures sum == total + Expected(nodes, cumulative)
    decreases nodes
  {
    sum := total;
    for i := 0 to |nodes|
      invariant sum == total + Expected(nodes[..i], cumulative)
    {
      sum := ExpectedFrom(nodes[i], cumulative, sum);
      assert nodes[..i + 1] == nodes[..i] + [nodes[i]];
      ExpectedAppend(nodes[..i], nodes[i], cumulative);
    }
    assert nodes[..|nodes|] == nodes;
  }

  method GetExpectedHarm(tree: Tree) returns (harm: real)
    ensures harm == Expected(tree.roots, 1.0)
  {
    harm := ExpectedAmong(tree.roots, 1.0, 0.0);
  }

  lemma TerminalBetween(lo: real, n: Node, hi: real, p: real)
    requires lo <= n.harm <= hi && p >= 0.0
    ensures Between(lo, Weighed(n, p), hi, p)
  {
    Scale(lo, n.harm, p);
    Scale(n.harm, hi, p);
  }

  lemma BetweenNothing(lo: real, hi: real)
    ensures Between(lo, 0.0, hi, 0.0)
  {
  }

  lemma AlongNonNegative(prob: real, n: Node)
    requires prob >= 0.0 && n.probability >= 0.0
    ensures Along(prob, n) >= 0.0
  {
  }

  predicate HarmsWithin(lo: real, nodes: seq<Node>, hi: real) {
    forall n :: n in nodes ==> lo <= n.harm <= hi
  }

  lemma HarmsOfParts(lo: real, s: seq<Node>, t: seq<Node>, hi: real)
    requires HarmsWithin(lo, s + t, hi)
    ensures HarmsWithin(lo, s, hi) && HarmsWithin(lo, t, hi)
  {
    assert forall n :: n in s || n in t ==> n in s + t;
  }

  /** The terminals that are reached through one node. */
  function ReachedThrough(n: Node): seq<Node> {
    if n.isTerminal then [n] else Reached(n.children)
  }

  /** With non-negative probabilities, expected harm lies between the extremes times the mass. */
  lemma {:induction false} ExpectedBounded(nodes: seq<Node>, prob: real, lo: real, hi: real)
    requires AllInRange(nodes) && prob >= 0.0 && HarmsWithin(lo, Reached(nodes), hi)
    ensures Between(lo, Expected(nodes, prob), hi, Mass(nodes, prob))
    ensures Mass(nodes, prob) >= 0.0
  {
    hide Between, Along, ExpectedThrough, MassThrough, HarmsWithin, ReachedThrough;
    if nodes == [] {
      BetweenNothing(lo, hi);
    } else {
      var n := nodes[0];
      var p := Along(prob, n);
      AlongNonNegative(prob, n);
      ReachedSplit(nodes);
      HarmsOfParts(lo, ReachedThrough(n), Reached(nodes[1..]), hi);
      ThroughBounded(n, p, lo, hi);
      ExpectedBounded(nodes[1..], prob, lo, hi);
      BetweenSum(lo, ExpectedThrough(n, p), Expected(nodes[1..], prob), hi, MassThrough(n, p), Mass(nodes[1..], prob));
    }
  }

  lemma ReachedSplit(nodes: seq<Node>)
    requires nodes != []
    ensures Reached(nodes) == ReachedThrough(nodes[0]) + Reached(nodes[1..])
  {
  }

  lemma {:induction false} ThroughBounded(n: Node, p: real, lo: real, hi: real)
    requires InRange(n) && AllInRange(n.children) && p >= 0.0 && HarmsWithin(lo, ReachedThrough(n), hi)
    ensures Between(lo, ExpectedThrough(n, p), hi, MassThrough(n, p))
    ensures MassThrough(n, p) >= 0.0
  {
    hide Between, Weighed;
    if n.isTerminal {
      assert n in ReachedThrough(n);
      TerminalBetween(lo, n, hi, p);
    } else {
      ExpectedBounded(n.children, p, lo, hi);
    }
  }

  function ProbabilitySum(nodes: seq<Node>): real {
    if nodes == [] then 0.0 else nodes[0].probability + ProbabilitySum(nodes[1..])
  }

  /** In every group of siblings below these nodes the probabilities sum to at most one. */
  predicate GroupsBounded(nodes: seq<Node>) {
    nodes != [] ==>
      ProbabilitySum(nodes[0].children) <= 1.0 && GroupsBounded(nodes[0].children) && GroupsBounded(nodes[1..])
  }

  lemma {:induction false} MassBounded(nodes: seq<Node>, prob: real)
    requires AllInRange(nodes) && GroupsBounded(nodes) && prob >= 0.0
    ensures Mass(nodes, prob) <= prob * ProbabilitySum(nodes)
  {
    if nodes != [] {
      var n := nodes[0];
      var p := Along(prob, n);
      AlongNonNegative(prob, n);
      MassBounded(nodes[1..], prob);
      MassBounded(n.children, p);
      AtMostOnce(Mass(n.children, p), p, ProbabilitySum(n.children));
      assert MassThrough(n, p) <= p;
      AlongSum(prob, n, ProbabilitySum(nodes[1..]));
    }
  }

  lemma AtMostOnce(mass: real, p: real, sum: real)
    requires mass <= p * sum && p >= 0.0 && sum <= 1.0
    ensures mass <= p
  {
    Scale(sum, 1.0, p);
  }

  lemma AlongSum(prob: real, n: Node, rest: real)
    ensures prob * (n.probability + rest) == Along(prob, n) + prob * rest
  {
  }

  /** Expected harm lies between the engine's worst and best terminal, scaled by the mass reached. */
  lemma ExpectedBetweenExtremes(candidate: Candidate, roots: seq<Node>)
    requires AllInRange(roots) && TerminalsOf(roots) != []
    ensures var tree, m := TreeOf(candidate, roots), Mass(roots, 1.0);
            Between(tree.worst.value.harm, Expected(roots, 1.0), tree.best.value.harm, m)
  {
    var terminals := TerminalsOf(roots);
    ExtremesBound(terminals);
    ReachedAreTerminals(roots);
    assert terminals[0] in terminals;
    ExpectedBounded(roots, 1.0, Least(terminals).value.harm, Greatest(terminals).value.harm);
  }

  lemma {:induction false} ReachedInRange(nodes: seq<Node>)
    requires AllInRange(nodes)
    ensures forall n :: n in Reached(nodes) ==> InRange(n)
  {
    if nodes != [] {
      ReachedInRange(nodes[0].children);
      ReachedInRange(nodes[1..]);
    }
  }

  /** When probabilities sum to at most one among siblings, so do the paths, and expected harm is in [-1, 1]. */
  lemma ExpectedNormalized(roots: seq<Node>)
    requires AllInRange(roots) && GroupsBounded(roots) && ProbabilitySum(roots) <= 1.0
    ensures 0.0 <= Mass(roots, 1.0) <= 1.0
    ensures -1.0 <= Expected(roots, 1.0) <= 1.0
  {
    ReachedInRange(roots);
    ExpectedBounded(roots, 1.0, -1.0, 1.0);
    MassBounded(roots, 1.0);
  }

  /** Trees that were built from JSON are in range, so both bounds hold of them without further conditions. */
  lemma BuiltTreeExpected(candidate: Candidate, items: seq<Item>, ids: IdSupply)
    ensures var tree := TreeOf(candidate, Parse(items, ids, [], 0));
            var harm, mass := Expected(tree.roots, 1.0), Mass(tree.roots, 1.0);
            && (if tree.worst.None? then harm == 0.0 else Between(tree.worst.value.harm, harm, tree.best.value.harm, mass))
            && (GroupsBounded(tree.roots) && ProbabilitySum(tree.roots) <= 1.0 ==>
                  0.0 <= mass <= 1.0 && -1.0 <= harm <= 1.0)
  {
    var roots := Parse(items, ids, [], 0);
    ParsedInRange(items, ids, [], 0);
    if TerminalsOf(roots) == [] {
      ReachedAreTerminals(roots);
      ExpectedBounded(roots, 1.0, 0.0, 0.0);
    } else {
      ExpectedBetweenExtremes(candidate, roots);
    }
    if GroupsBounded(roots) && ProbabilitySum(roots) <= 1.0 {
      ExpectedNormalized(roots);
    }
  }

  /*** Catastrophic branches ***/

  predicate Plausible(n: Node, threshold: real) {
    n.probability > 0.1 && n.harm <= threshold
  }

  predicate HasCatastrophic(nodes: seq<Node>, threshold: real) {
    nodes != [] && (Plausible(nodes[0], threshold) || HasCatastrophic(nodes[0].children, threshold)
                    || HasCatastrophic(nodes[1..], threshold))
  }

  method HasCatastrophicBranch(nodes: seq<Node>, threshold: real) returns (found: bool)
    ensures found <==> HasCatastrophic(nodes, threshold)
    decreases nodes
  {
    for i := 0 to |nodes|
      invariant HasCatastrophic(nodes, threshold) <==> HasCatastrophic(nodes[i..], threshold)
    {
      assert nodes[i..][1..] == nodes[i + 1..];
      if Plausible(nodes[i], threshold) {
        return true;
      }
      var below := HasCatastrophicBranch(nodes[i].children, threshold);
      if below {
        return true;
      }
    }
    return false;
  }

  /** Every node counts that is likelier than 0.1, not only the terminals. */
  lemma {:induction false} CatastrophicMeaning(nodes: seq<Node>, threshold: real)
    ensures HasCatastrophic(nodes, threshold) <==>
            exists n :: n in Preorder(nodes) && n.probability > 0.1 && n.harm <= threshold
  {
    if nodes != [] {
      var n := nodes[0];
      CatastrophicMeaning(n.children, threshold);
      CatastrophicMeaning(nodes[1..], threshold);
      assert forall x :: x in Preorder(nodes) <==> x == n || x in Preorder(n.children) || x in Preorder(nodes[1..]);
    }
  }

  function TreeRisk(roots: seq<Node>, threshold: real): Tier {
    if HasCatastrophic(roots, threshold) then Red else if Expected(roots, 1.0) < -0.3 then Yellow else Green
  }

  method ClassifyRisk(tree: Tree, threshold: real) returns (tier: Tier)
    ensures tier == TreeRisk(tree.roots, threshold)
  {
    var catastrophic := HasCatastrophicBranch(tree.roots, threshold);
    if catastrophic {
      return Red;
    }
    var harm := GetExpectedHarm(tree);
    if harm < -0.3 {
      return Yellow;
    }
    return Green;
  }

  /** RED for a plausible node at or below the threshold, and otherwise YELLOW for an expected harm over the paths below -0.3. */
  lemma TreeRiskMeaning(roots: seq<Node>, threshold: real)
    ensures NonEmptyPaths(Paths(roots, []))
    ensures TreeRisk(roots, threshold) == Red <==>
            exists n :: n in Preorder(roots) && n.probability > 0.1 && n.harm <= threshold
    ensures TreeRisk(roots, threshold) == Yellow <==>
            PathSum(Paths(roots, [])) < -0.3
            && forall n :: n in Preorder(roots) && n.probability > 0.1 ==> n.harm > threshold
    ensures TreeRisk(roots, threshold) != Orange
  {
    CatastrophicMeaning(roots, threshold);
    ExpectedMeaning(roots);
  }

  /** A normalized tree is YELLOW only if some terminal is worse than the YELLOW limit itself. */
  lemma YellowHasHarmfulTerminal(candidate: Candidate, roots: seq<Node>, threshold: real)
    requires AllInRange(roots) && GroupsBounded(roots) && ProbabilitySum(roots) <= 1.0
    requires TreeRisk(roots, threshold) == Yellow
    ensures TreeOf(candidate, roots).worst.Some? && TreeOf(candidate, roots).worst.value.harm < -0.3
  {
    ExpectedNormalized(roots);
    ReachedAreTerminals(roots);
    if TerminalsOf(roots) == [] {
      ExpectedBounded(roots, 1.0, 0.0, 0.0);
    } else {
      ExpectedBetweenExtremes(candidate, roots);
      var worst := TreeOf(candidate, roots).worst.value.harm;
      if worst >= -0.3 {
        MildMean(worst, Mass(roots, 1.0), Expected(roots, 1.0));
      }
    }
  }

  lemma MildMean(worst: real, mass: real, expected: real)
    requires worst >= -0.3 && 0.0 <= mass <= 1.0 && worst * mass <= expected
    ensures expected >= -0.3
  {
    if worst >= 0.0 {
      Scale(0.0, worst, mass);
    } else {
      Scale(mass, 1.0, -worst);
      assert mass * -worst == -(worst * mass);
    }
  }

  /** The same tree with no harm_benefit raised. */
  predicate Worsened(nodes: seq<Node>, worse: seq<Node>) {
    && |nodes| == |worse|
    && (nodes != [] ==>
          && worse[0] == nodes[0].(harm := worse[0].harm, children := worse[0].children)
          && worse[0].harm <= nodes[0].harm
          && Worsened(nodes[0].children, worse[0].children)
          && Worsened(nodes[1..], worse[1..]))
  }

  lemma {:induction false} WorsenedExpected(nodes: seq<Node>, worse: seq<Node>, prob: real)
    requires Worsened(nodes, worse) && AllInRange(nodes) && prob >= 0.0
    ensures Expected(worse, prob) <= Expected(nodes, prob)
  {
    if nodes != [] {
      var p := Along(prob, nodes[0]);
      AlongNonNegative(prob, nodes[0]);
      Scale(worse[0].harm, nodes[0].harm, p);
      WorsenedExpected(nodes[0].children, worse[0].children, p);
      WorsenedExpected(nodes[1..], worse[1..], prob);
      assert Along(prob, worse[0]) == p && ExpectedThrough(worse[0], p) <= ExpectedThrough(nodes[0], p);
    }
  }

  lemma {:induction false} WorsenedCatastrophic(nodes: seq<Node>, worse: seq<Node>, threshold: real)
    requires Worsened(nodes, worse) && HasCatastrophic(nodes, threshold)
    ensures HasCatastrophic(worse, threshold)
  {
    if HasCatastrophic(nodes[0].children, threshold) {
      WorsenedCatastrophic(nodes[0].children, worse[0].children, threshold);
    } else if HasCatastrophic(nodes[1..], threshold) {
      WorsenedCatastrophic(nodes[1..], worse[1..], threshold);
    }
  }

  /** More harm anywhere in a tree never lowers its tier. */
  lemma TreeRiskMonotone(nodes: seq<Node>, worse: seq<Node>, threshold: real)
    requires Worsened(nodes, worse) && AllInRange(nodes)
    ensures TreeRisk(worse, threshold).Rank() >= TreeRisk(nodes, threshold).Rank()
  {
    WorsenedExpected(nodes, worse, 1.0);
    if HasCatastrophic(nodes, threshold) {
      WorsenedCatastrophic(nodes, worse, threshold);
    }
  }

  /*** Stakeholder impact ***/

  function Impact(nodes: seq<Node>, stakeholder: string): real {
    if nodes == [] then 0.0
    else OwnImpact(nodes[0], stakeholder) + Impact(nodes[0].children, stakeholder) + Impact(nodes[1..], stakeholder)
  }

  function Severity(n: Node): real {
    n.harm * n.probability
  }

  function OwnImpact(n: Node, stakeholder: string): real {
    if Has(n.stakeholders, stakeholder) then Severity(n) else 0.0
  }

  /** Over some nodes, harm times probability of each that names the stakeholder. */
  function NodeSum(nodes: seq<Node>, stakeholder: string): real {
    if nodes == [] then 0.0
    else (if Has(nodes[0].stakeholders, stakeholder) then nodes[0].harm * nodes[0].probability else 0.0)
         + NodeSum(nodes[1..], stakeholder)
  }

  lemma {:induction false} NodeSumConcat(s: seq<Node>, t: seq<Node>, stakeholder: string)
    ensures NodeSum(s + t, stakeholder) == NodeSum(s, stakeholder) + NodeSum(t, stakeholder)
  {
    if s == [] {
      assert s + t == t;
    } else {
      NodeSumConcat(s[1..], t, stakeholder);
      assert (s + t)[1..] == s[1..] + t;
    }
  }

  /** The impact on a stakeholder is the sum over all nodes of the tree, in preorder, that name it. */
  lemma {:induction false} ImpactMeaning(nodes: seq<Node>, stakeholder: string)
    ensures Impact(nodes, stakeholder) == NodeSum(Preorder(nodes), stakeholder)
  {
    if nodes != [] {
      var n := nodes[0];
      ImpactMeaning(n.children, stakeholder);
      ImpactMeaning(nodes[1..], stakeholder);
      assert [n][1..] == [];
      NodeSumConcat([n], Preorder(n.children), stakeholder);
      NodeSumConcat([n] + Preorder(n.children), Preorder(nodes[1..]), stakeholder);
    }
  }

  lemma {:induction false} ImpactAppend(nodes: seq<Node>, n: Node, stakeholder: string)
    ensures Impact(nodes + [n], stakeholder) ==
            Impact(nodes, stakeholder) + OwnImpact(n, stakeholder) + Impact(n.children, stakeholder)
  {
    if nodes == [] {
      assert nodes + [n] == [n] && [n][1..] == [];
    } else {
      ImpactAppend(nodes[1..], n, stakeholder);
      assert (nodes + [n])[1..] == nodes[1..] + [n];
    }
  }

  method AddImpact(nodes: seq<Node>, stakeholder: string, total: real) returns (sum: real)
    ensures sum == total + Impact(nodes, stakeholder)
    decreases nodes
  {
    sum := total;
    for i := 0 to |nodes|
      invariant sum == total + Impact(nodes[..i], stakeholder)
    {
      if Has(nodes[i].stakeholders, stakeholder) {
        sum := sum + Severity(nodes[i]);
      }
      sum := AddImpact(nodes[i].children, stakeholder, sum);
      assert nodes[..i + 1] == nodes[..i] + [nodes[i]];
      ImpactAppend(nodes[..i], nodes[i], stakeholder);
    }
    assert nodes[..|nodes|] == nodes;
  }

  method GetStakeholderImpact(tree: Tree, stakeholder: string) returns (impact: real)
    ensures impact == Impact(tree.roots, stakeholder)
  {
    impact := AddImpact(tree.roots, stakeholder, 0.0);
  }

  function ImpactSum(nodes: seq<Node>, ids: seq<string>): real {
    if ids == [] then 0.0 else Impact(nodes, ids[0]) + ImpactSum(nodes, ids[1..])
  }

  /** The listed stakeholders that a node affects. */
  function Affected(n: Node, ids: seq<string>): set<string> {
    set id | id in ids && Has(n.stakeholders, id)
  }

  /** The impact of one node, once per listed stakeholder that it affects. */
  function Share(n: Node, ids: seq<string>): real {
    |Affected(n, ids)| as real * Severity(n)
  }

  /** Every node's share. */
  function ImpactByNode(nodes: seq<Node>, ids: seq<string>): real {
    if nodes == [] then 0.0
    else
      Share(nodes[0], ids)
      + ImpactByNode(nodes[0].children, ids) + ImpactByNode(nodes[1..], ids)
  }

  predicate Distinct(ids: seq<string>) {
    forall i, j :: 0 <= i < j < |ids| ==> ids[i] != ids[j]
  }

  lemma {:induction false} ImpactSumSplit(nodes: seq<Node>, ids: seq<string>)
    requires nodes != [] && Distinct(ids)
    ensures ImpactSum(nodes, ids) ==
            Share(nodes[0], ids)
            + ImpactSum(nodes[0].children, ids) + ImpactSum(nodes[1..], ids)
  {
    hide Share, Severity;
    if ids == [] {
      NoShare(nodes[0]);
    } else {
      ImpactSumSplit(nodes, ids[1..]);
      ShareCons(nodes[0], ids);
    }
  }

  lemma NoShare(n: Node)
    ensures Share(n, []) == 0.0
  {
    assert Affected(n, []) == {};
  }

  lemma ShareCons(n: Node, ids: seq<string>)
    requires ids != [] && Distinct(ids)
    ensures Share(n, ids) == OwnImpact(n, ids[0]) + Share(n, ids[1..])
  {
    AffectedCons(n, ids);
    OneMore(|Affected(n, ids[1..])|, Severity(n));
  }

  lemma OneMore(k: nat, x: real)
    ensures (k + 1) as real * x == k as real * x + x
  {
  }

  lemma AffectedCons(n: Node, ids: seq<string>)
    requires ids != [] && Distinct(ids)
    ensures |Affected(n, ids)| == |Affected(n, ids[1..])| + if Has(n.stakeholders, ids[0]) then 1 else 0
  {
    var rest := Affected(n, ids[1..]);
    assert ids[0] !in rest;
    assert Affected(n, ids) == rest + if Has(n.stakeholders, ids[0]) then {ids[0]} else {};
  }

  /** Summing over stakeholders first or over nodes first gives the same. */
  lemma {:induction false} ImpactExchange(nodes: seq<Node>, ids: seq<string>)
    requires Distinct(ids)
    ensures ImpactSum(nodes, ids) == ImpactByNode(nodes, ids)
  {
    if nodes == [] {
      NoImpact(ids);
    } else {
      ImpactSumSplit(nodes, ids);
      ImpactExchange(nodes[0].children, ids);
      ImpactExchange(nodes[1..], ids);
    }
  }

  lemma {:induction false} NoImpact(ids: seq<string>)
    ensures ImpactSum([], ids) == 0.0
  {
    if ids != [] {
      NoImpact(ids[1..]);
    }
  }

  /** All the names that a container has; a text has each of its parts. */
  function NamesIn(c: Container): set<string> {
    match c
    case Array(items) => set v | v in items && v.Text? :: v.text
    case Text(text) => set i, j | 0 <= i <= j <= |text| :: text[i..j]
    case Object(fields) => set f | f in fields :: f.0
  }

  lemma NamesInMeaning(c: Container, name: string)
    ensures name in NamesIn(c) <==> Has(c, name)
  {
    match c
    case Array(items) => assert Text(name) in items <==> exists v :: v in items && v.Text? && v.text == name;
    case Text(text) =>
      if Has(c, name) {
        var i :| 0 <= i <= |text| && OccursAt(text, name, i);
        assert text[i..i + |name|] == name;
      }
      if i, j :| 0 <= i <= j <= |text| && text[i..j] == name {
        assert OccursAt(text, name, i);
      }
    case Object(fields) =>
      if f :| f in fields && f.0 == name {
        var i :| 0 <= i < |fields| && fields[i] == f;
        assert Keys(fields)[i] == Text(name);
      }
  }

  /** Every stakeholder mentioned in the tree is listed. */
  predicate Listed(nodes: seq<Node>, ids: seq<string>) {
    nodes != [] ==>
      (forall s :: s in NamesIn(nodes[0].stakeholders) ==> s in ids) && Listed(nodes[0].children, ids) && Listed(nodes[1..], ids)
  }

  /** The impact of one node, once per distinct stakeholder that it mentions. */
  function OwnTotal(n: Node): real {
    |NamesIn(n.stakeholders)| as real * Severity(n)
  }

  /** Every node's total. */
  function TotalImpact(nodes: seq<Node>): real {
    if nodes == [] then 0.0
    else
      OwnTotal(nodes[0])
      + TotalImpact(nodes[0].children) + TotalImpact(nodes[1..])
  }

  /** Over a complete list of stakeholders, the impacts add up to the total impact of the tree. */
  lemma {:induction false} ImpactConserved(nodes: seq<Node>, ids: seq<string>)
    requires Distinct(ids) && Listed(nodes, ids)
    ensures ImpactSum(nodes, ids) == TotalImpact(nodes)
  {
    hide Share, OwnTotal, NamesIn, Impact;
    if nodes == [] {
      NoImpact(ids);
    } else {
      ImpactSumSplit(nodes, ids);
      ImpactConserved(nodes[0].children, ids);
      ImpactConserved(nodes[1..], ids);
      ShareOfAll(nodes[0], ids);
    }
  }

  lemma ShareOfAll(n: Node, ids: seq<string>)
    requires forall s :: s in NamesIn(n.stakeholders) ==> s in ids
    ensures Share(n, ids) == OwnTotal(n)
  {
    forall s ensures s in Affected(n, ids) <==> s in NamesIn(n.stakeholders) {
      NamesInMeaning(n.stakeholders, s);
    }
    assert Affected(n, ids) == NamesIn(n.stakeholders);
  }
}
