/** The prerequisite graph of agentic_rag/knowledge_graph.py and its bounded expansion. */
module KnowledgeGraph {
  import opened Collections

  type Edges = map<string, seq<string>>

  predicate OccursAt(whole: string, part: string, i: nat)
    requires i + |part| <= |whole|
  {
    whole[i..i + |part|] == part
  }

  /** Python's `part in whole` for strings. */
  predicate Contains(whole: string, part: string) {
    exists i | 0 <= i <= |whole| - |part| :: OccursAt(whole, part, i)
  }

  predicate Matches(seed: string, node: string) {
    Contains(node, seed) || Contains(seed, node)
  }

  lemma ContainsExactlyWhen(whole: string, part: string)
    ensures Contains(whole, part) <==> exists before, after :: whole == before + part + after
  {
    if i :| 0 <= i <= |whole| - |part| && OccursAt(whole, part, i) {
      assert whole == whole[..i] + part + whole[i + |part|..];
    }
    if before, after :| whole == before + part + after {
      assert OccursAt(whole, part, |before|);
    }
  }

  /** A node matches a seed if and only if one of them is a substring of the other. */
  lemma MatchesExactlyWhen(seed: string, node: string)
    ensures Matches(seed, node)
       <==> || (exists before, after :: node == before + seed + after)
            || (exists before, after :: seed == before + node + after)
  {
    hide Contains;
    ContainsExactlyWhen(node, seed);
    ContainsExactlyWhen(seed, node);
  }

  ghost function Elements(xs: seq<string>): set<string> {
    set x | x in xs
  }

  lemma ElementsConcat(xs: seq<string>, ys: seq<string>)
    ensures Elements(xs + ys) == Elements(xs) + Elements(ys)
  {
  }

  lemma ElementsAppend(xs: seq<string>, x: string)
    ensures Elements(xs + [x]) == Elements(xs) + {x}
    ensures Distinct(xs) && x !in Elements(xs) ==> Distinct(xs + [x])
  {
    forall i | 0 <= i < |xs| && x !in Elements(xs) ensures xs[i] != x {
      assert xs[i] in Elements(xs);
    }
  }

  /** list(dict.fromkeys(xs)): the first occurrence of each element, in order. */
  function Dedupe(xs: seq<string>): (ys: seq<string>)
    ensures Elements(ys) == Elements(xs) && Distinct(ys)
  {
    if xs == [] then []
    else
      var init := Dedupe(xs[..|xs| - 1]);
      var x := xs[|xs| - 1];
      assert xs == xs[..|xs| - 1] + [x];
      ElementsAppend(xs[..|xs| - 1], x);
      ElementsAppend(init, x);
      if x in init then init else init + [x]
  }

  lemma DedupeKeeps(xs: seq<string>, x: string)
    ensures x in Dedupe(xs) <==> x in xs
  {
    var ys := Dedupe(xs);
    assert x in ys <==> x in Elements(ys);
    assert x in xs <==> x in Elements(xs);
  }

  /** The position of the first occurrence. */
  function FirstAt(xs: seq<string>, x: string): (i: nat)
    requires x in xs
    ensures i < |xs| && xs[i] == x && x !in xs[..i]
  {
    if xs[0] == x then 0 else 1 + FirstAt(xs[1..], x)
  }

  lemma FirstInPrefix(xs: seq<string>, n: nat, x: string)
    requires n <= |xs| && x in xs[..n]
    ensures x in xs && FirstAt(xs, x) == FirstAt(xs[..n], x)
  {
    var i := FirstAt(xs[..n], x);
    assert xs[i] == x && xs[..n][..i] == xs[..i];
    assert FirstAt(xs, x) >= i;
  }

  /** The elements stay in the order of their first occurrences. */
  lemma {:induction false} DedupeKeepsOrder(xs: seq<string>, i: nat, j: nat)
    requires i < j < |Dedupe(xs)|
    ensures Dedupe(xs)[i] in xs && Dedupe(xs)[j] in xs
    ensures FirstAt(xs, Dedupe(xs)[i]) < FirstAt(xs, Dedupe(xs)[j])
    decreases |xs|
  {
    var n := |xs| - 1;
    var init, a, b := xs[..n], Dedupe(xs)[i], Dedupe(xs)[j];
    DedupeKeeps(xs, a);
    DedupeKeeps(xs, b);
    DedupeKeeps(init, xs[n]);
    assert xs == init + [xs[n]];
    DedupeKeeps(init, a);
    FirstInPrefix(xs, n, a);
    if j < |Dedupe(init)| {
      DedupeKeepsOrder(init, i, j);
      DedupeKeeps(init, b);
      FirstInPrefix(xs, n, b);
    }
  }

  // ---- What expansion means

  /** From a, the prerequisite p is one match-then-prerequisite hop away. */
  ghost predicate Hop(edges: Edges, a: string, p: string) {
    exists n :: n in edges && Matches(a, n) && p in edges[n]
  }

  ghost function Matched(edges: Edges, from: set<string>): set<string> {
    set n | n in edges && exists a :: a in from && Matches(a, n)
  }

  ghost function Required(edges: Edges, nodes: set<string>): set<string> {
    set n, p | n in nodes && n in edges && p in edges[n] :: p
  }

  ghost function Next(edges: Edges, from: set<string>): set<string> {
    Required(edges, Matched(edges, from))
  }

  ghost function Reach(edges: Edges, seeds: set<string>, depth: nat): set<string> {
    if depth == 0 then {} else Next(edges, seeds) + Next(edges, Reach(edges, seeds, depth - 1))
  }

  /** A path of hops that starts at a seed. */
  ghost predicate IsPath(edges: Edges, seeds: set<string>, path: seq<string>)
    ensures IsPath(edges, seeds, path) ==> path != []
  {
    && path != []
    && (exists s :: s in seeds && Hop(edges, s, path[0]))
    && (forall i | 0 <= i < |path| - 1 :: Hop(edges, path[i], path[i + 1]))
  }

  lemma NextIsHop(edges: Edges, from: set<string>, p: string)
    ensures p in Next(edges, from) <==> exists a :: a in from && Hop(edges, a, p)
  {
    if p in Next(edges, from) {
      var n :| n in Matched(edges, from) && p in edges[n];
      var a :| a in from && Matches(a, n);
      assert Hop(edges, a, p);
    }
    if a :| a in from && Hop(edges, a, p) {
      var n :| n in edges && Matches(a, n) && p in edges[n];
      assert n in Matched(edges, from);
    }
  }

  lemma NextUnion(edges: Edges, a: set<string>, b: set<string>)
    ensures Next(edges, a + b) == Next(edges, a) + Next(edges, b)
  {
    assert Matched(edges, a + b) == Matched(edges, a) + Matched(edges, b);
  }

  lemma {:induction false} ReachHasPath(edges: Edges, seeds: set<string>, depth: nat, p: string)
    returns (path: seq<string>)
    requires p in Reach(edges, seeds, depth)
    ensures IsPath(edges, seeds, path) && |path| <= depth && path[|path| - 1] == p
    decreases depth
  {
    hide Next, Hop;
    NextIsHop(edges, seeds, p);
    NextIsHop(edges, Reach(edges, seeds, depth - 1), p);
    if s :| s in seeds && Hop(edges, s, p) {
      path := [p];
    } else {
      var q :| q in Reach(edges, seeds, depth - 1) && Hop(edges, q, p);
      path := ReachHasPath(edges, seeds, depth - 1, q);
      path := path + [p];
    }
  }

  lemma {:induction false} PathReaches(edges: Edges, seeds: set<string>, depth: nat, path: seq<string>)
    requires IsPath(edges, seeds, path) && |path| <= depth
    ensures path[|path| - 1] in Reach(edges, seeds, depth)
    decreases |path|
  {
    hide Next, Hop;
    var n := |path| - 1;
    if n == 0 {
      NextIsHop(edges, seeds, path[0]);
    } else {
      PathReaches(edges, seeds, depth - 1, path[..n]);
      assert Hop(edges, path[n - 1], path[n]);
      NextIsHop(edges, Reach(edges, seeds, depth - 1), path[n]);
    }
  }

  /** Expansion to a depth is exactly what paths of at most that many hops reach. */
  lemma ReachIsPaths(edges: Edges, seeds: set<string>, depth: nat, p: string)
    ensures p in Reach(edges, seeds, depth)
       <==> exists path :: IsPath(edges, seeds, path) && |path| <= depth && path[|path| - 1] == p
  {
    hide Reach, IsPath;
    if p in Reach(edges, seeds, depth) {
      var path := ReachHasPath(edges, seeds, depth, p);
    }
    if path :| IsPath(edges, seeds, path) && |path| <= depth && path[|path| - 1] == p {
      PathReaches(edges, seeds, depth, path);
    }
  }

  /** A deeper expansion never loses a point. */
  lemma {:induction false} ReachGrows(edges: Edges, seeds: set<string>, depth: nat)
    ensures Reach(edges, seeds, depth) <= Reach(edges, seeds, depth + 1)
    decreases depth
  {
    hide Next;
    if depth == 0 {
    } else {
      ReachGrows(edges, seeds, depth - 1);
      var a, b := Reach(edges, seeds, depth - 1), Reach(edges, seeds, depth);
      assert b == a + b;
      NextUnion(edges, a, b);
    }
  }

  lemma {:induction false} ReachStable(edges: Edges, seeds: set<string>, depth: nat, more: nat)
    requires Reach(edges, seeds, depth) == Reach(edges, seeds, depth + 1)
    ensures Reach(edges, seeds, depth + more) == Reach(edges, seeds, depth)
    decreases more
  {
    hide Next;
    if more == 0 {
    } else {
      ReachStable(edges, seeds, depth, more - 1);
    }
  }

  ghost function AllPrerequisites(edges: Edges): set<string> {
    Required(edges, edges.Keys)
  }

  lemma SmallerSubset(a: set<string>, b: set<string>)
    requires a < b
    ensures |a| < |b|
  {
    var x :| x in b && x !in a;
    SubsetIsSmaller(a, b - {x});
  }

  /** Every level either adds a point or is the last one. */
  lemma {:induction false} ReachSize(edges: Edges, seeds: set<string>, depth: nat)
    ensures |Reach(edges, seeds, depth)| >= depth
            || Reach(edges, seeds, depth) == Reach(edges, seeds, depth + 1)
    decreases depth
  {
    hide Next;
    if depth == 0 {
    } else {
      ReachSize(edges, seeds, depth - 1);
      var a, b := Reach(edges, seeds, depth - 1), Reach(edges, seeds, depth);
      if a != b {
        ReachGrows(edges, seeds, depth - 1);
        SmallerSubset(a, b);
      }
    }
  }

  lemma ReachIsWithin(edges: Edges, seeds: set<string>, depth: nat)
    ensures Reach(edges, seeds, depth) <= AllPrerequisites(edges)
  {
  }

  /** Once the depth reaches the number of distinct prerequisites, expanding further adds nothing. */
  lemma ReachSaturates(edges: Edges, seeds: set<string>, depth: nat)
    requires depth >= |AllPrerequisites(edges)|
    ensures Reach(edges, seeds, depth) == Reach(edges, seeds, |AllPrerequisites(edges)|)
  {
    hide Reach, AllPrerequisites;
    var n := |AllPrerequisites(edges)|;
    var a, b := Reach(edges, seeds, n), Reach(edges, seeds, n + 1);
    ReachSize(edges, seeds, n);
    if a != b {
      ReachGrows(edges, seeds, n);
      SmallerSubset(a, b);
      ReachIsWithin(edges, seeds, n + 1);
      SubsetIsSmaller(b, AllPrerequisites(edges));
    }
    ReachStable(edges, seeds, n, depth - n);
  }

  lemma NextOfNone(edges: Edges)
    ensures Next(edges, {}) == {}
  {
  }

  /** One round of the loop: only the points that are new since the last round are followed. */
  lemma FollowingNewIsEnough(edges: Edges, seeds: set<string>, depth: nat)
    ensures Reach(edges, seeds, depth + 1)
            == Reach(edges, seeds, depth)
               + if depth == 0 then Next(edges, seeds)
                 else Next(edges, Reach(edges, seeds, depth) - Reach(edges, seeds, depth - 1))
  {
    hide Required;
    if depth == 0 {
      NextOfNone(edges);
    } else {
      var a, b := Reach(edges, seeds, depth - 1), Reach(edges, seeds, depth);
      ReachGrows(edges, seeds, depth - 1);
      assert b == a + (b - a);
      NextUnion(edges, a, b - a);
    }
  }

  /** The points within depth d are listed before all others. */
  ghost predicate LevelsFirst(edges: Edges, seeds: set<string>, d: nat, expanded: seq<string>) {
    var n := |Reach(edges, seeds, d)|;
    n <= |expanded| && Elements(expanded[..n]) == Reach(edges, seeds, d)
  }

  lemma {:induction false} DistinctSize(xs: seq<string>)
    requires Distinct(xs)
    ensures |Elements(xs)| == |xs|
    decreases |xs|
  {
    if xs == [] {
    } else {
      var n := |xs| - 1;
      DistinctSize(xs[..n]);
      assert xs == xs[..n] + [xs[n]];
      ElementsAppend(xs[..n], xs[n]);
      assert xs[n] !in Elements(xs[..n]);
    }
  }

  lemma AllIsFirst(edges: Edges, seeds: set<string>, d: nat, expanded: seq<string>)
    requires Distinct(expanded) && Elements(expanded) == Reach(edges, seeds, d)
    ensures LevelsFirst(edges, seeds, d, expanded)
  {
    DistinctSize(expanded);
    assert expanded[..|expanded|] == expanded;
  }

  lemma FirstStaysFirst(edges: Edges, seeds: set<string>, round: nat, before: seq<string>, expanded: seq<string>)
    requires before <= expanded
    requires forall d: nat | d <= round :: LevelsFirst(edges, seeds, d, before)
    ensures forall d: nat | d <= round :: LevelsFirst(edges, seeds, d, expanded)
  {
    forall d: nat | d <= round ensures LevelsFirst(edges, seeds, d, expanded) {
      var n := |Reach(edges, seeds, d)|;
      assert LevelsFirst(edges, seeds, d, before);
      assert expanded[..n] == before[..n];
    }
  }

  // ---- Adding an edge

  function NonEmpty(xs: seq<string>): (ys: seq<string>)
    ensures forall x :: x in ys <==> x in xs && x != ""
  {
    if xs == [] then []
    else if xs[0] == "" then NonEmpty(xs[1..])
    else [xs[0]] + NonEmpty(xs[1..])
  }

  lemma {:induction false} NonEmptyKeepsOrder(xs: seq<string>, x: string)
    ensures NonEmpty(xs + [x]) == NonEmpty(xs) + if x == "" then [] else [x]
  {
    if xs == [] {
    } else {
      NonEmptyKeepsOrder(xs[1..], x);
      assert (xs + [x])[1..] == xs[1..] + [x];
    }
  }

  /** The dictionary after add(point, prerequisites). */
  function Added(edges: Edges, point: string, prerequisites: seq<string>): Edges {
    if point == "" then edges
    else
      var existing := if point in edges then edges[point] else [];
      edges[point := Dedupe(existing + NonEmpty(prerequisites))]
  }

  lemma AddedEdges(edges: Edges, point: string, prerequisites: seq<string>, n: string, p: string)
    requires point != ""
    ensures var edges' := Added(edges, point, prerequisites);
            n in edges' && p in edges'[n]
            <==> (n in edges && p in edges[n]) || (n == point && p in prerequisites && p != "")
  {
    if n == point {
      var existing := if point in edges then edges[point] else [];
      DedupeKeeps(existing + NonEmpty(prerequisites), p);
    }
  }

  lemma {:induction false} DedupeOfDistinct(xs: seq<string>)
    requires Distinct(xs)
    ensures Dedupe(xs) == xs
    decreases |xs|
  {
    if xs == [] {
    } else {
      var n := |xs| - 1;
      DedupeOfDistinct(xs[..n]);
      assert xs == xs[..n] + [xs[n]];
      DedupeKeeps(xs[..n], xs[n]);
    }
  }

  lemma {:induction false} DedupeKeepsPrefix(xs: seq<string>, ys: seq<string>)
    requires Distinct(xs)
    ensures xs <= Dedupe(xs + ys)
    decreases |xs| + |ys|
  {
    if ys == [] {
      assert xs + ys == xs;
      DedupeOfDistinct(xs);
    } else {
      var n := |ys| - 1;
      DedupeKeepsPrefix(xs, ys[..n]);
      assert (xs + ys)[..|xs| + n] == xs + ys[..n];
    }
  }

  /** Old prerequisites keep their places; new ones come behind. */
  lemma AddedBehind(edges: Edges, point: string, prerequisites: seq<string>)
    requires point in edges && Distinct(edges[point])
    ensures edges[point] <= Added(edges, point, prerequisites)[point]
    ensures forall other | other in edges && other != point ::
              other in Added(edges, point, prerequisites) && Added(edges, point, prerequisites)[other] == edges[other]
  {
    DedupeKeepsPrefix(edges[point], NonEmpty(prerequisites));
  }

  lemma AddedNothing(edges: Edges, prerequisites: seq<string>)
    ensures Added(edges, "", prerequisites) == edges
  {
  }

  lemma AddKeepsHops(edges: Edges, point: string, prerequisites: seq<string>, a: string, p: string)
    requires Hop(edges, a, p)
    ensures Hop(Added(edges, point, prerequisites), a, p)
  {
    hide Added, Matches;
    if point != "" {
      var n :| n in edges && Matches(a, n) && p in edges[n];
      AddedEdges(edges, point, prerequisites, n, p);
    } else {
      AddedNothing(edges, prerequisites);
    }
  }

  lemma NextGrows(edges: Edges, edges': Edges, from: set<string>, from': set<string>)
    requires from <= from'
    requires forall a, p :: Hop(edges, a, p) ==> Hop(edges', a, p)
    ensures Next(edges, from) <= Next(edges', from')
  {
    hide Next, Hop;
    forall p | p in Next(edges, from) ensures p in Next(edges', from') {
      NextIsHop(edges, from, p);
      NextIsHop(edges', from', p);
    }
  }

  /** Adding prerequisites never takes a reachable point away. */
  lemma {:induction false} AddKeepsReach(edges: Edges, point: string, prerequisites: seq<string>,
                                         seeds: set<string>, depth: nat)
    ensures Reach(edges, seeds, depth) <= Reach(Added(edges, point, prerequisites), seeds, depth)
    decreases depth
  {
    hide Next, Hop, Added;
    if depth == 0 {
    } else {
      var edges' := Added(edges, point, prerequisites);
      AddKeepsReach(edges, point, prerequisites, seeds, depth - 1);
      forall a, p | Hop(edges, a, p) ensures Hop(edges', a, p) {
        AddKeepsHops(edges, point, prerequisites, a, p);
      }
      NextGrows(edges, edges', seeds, seeds);
      NextGrows(edges, edges', Reach(edges, seeds, depth - 1), Reach(edges', seeds, depth - 1));
    }
  }

  /** The graph object; nodes are the keys of the dictionary in insertion order. */
  class MathKnowledgeGraph {
    var nodes: seq<string>
    var edges: Edges

    ghost predicate Valid()
      reads this
    {
      Elements(nodes) == edges.Keys && Distinct(nodes)
    }

    constructor ()
      ensures Valid() && edges == map[]
    {
      nodes, edges := [], map[];
    }

    method Add(point: string, prerequisites: seq<string>)
      requires Valid()
      modifies this
      ensures Valid() && edges == Added(old(edges), point, prerequisites)
    {
      if point == "" {
        return;
      }
      if point !in edges {
        nodes := nodes + [point];
        edges := edges[point := []];
      }
      var existing := edges[point];
      edges := edges[point := Dedupe(existing + NonEmpty(prerequisites))];
      assert Elements(nodes) == edges.Keys;
    }

    method MatchNodes(seeds: seq<string>) returns (matches: seq<string>)
      requires Valid()
      ensures Elements(matches) == Matched(edges, Elements(seeds)) && Distinct(matches)
    {
      hide Matches, Distinct;
      matches := [];
      for i := 0 to |seeds|
        invariant Elements(matches) == Matched(edges, Elements(seeds[..i]))
      {
        ghost var before := Elements(matches);
        for j := 0 to |nodes|
          invariant Elements(matches) == before + MatchedAmong(nodes[..j], seeds[i])
        {
          assert nodes[..j + 1] == nodes[..j] + [nodes[j]];
          if Matches(seeds[i], nodes[j]) {
            ElementsAppend(matches, nodes[j]);
            matches := matches + [nodes[j]];
          }
        }
        assert nodes[..|nodes|] == nodes;
        assert seeds[..i + 1] == seeds[..i] + [seeds[i]];
        ElementsAppend(seeds[..i], seeds[i]);
        assert forall n :: n in nodes <==> n in Elements(nodes);
      }
      assert seeds[..|seeds|] == seeds;
      matches := Dedupe(matches);
    }

    /** expand(): no set of visited nodes is kept, only the list of points found so far. */
    method Expand(seeds: seq<string>, depth: int) returns (expanded: seq<string>)
      requires Valid()
      ensures Distinct(expanded)
      ensures Elements(expanded) == Reach(edges, Elements(seeds), if depth < 0 then 0 else depth)
      ensures forall d: nat | d <= depth :: LevelsFirst(edges, Elements(seeds), d, expanded)
    {
      hide Reach, Required, Matched, Elements, Distinct, LevelsFirst;
      var frontier := MatchNodes(seeds);
      expanded := [];
      ghost var from := Elements(seeds);
      NothingReached(edges, Elements(seeds));
      AllIsFirst(edges, Elements(seeds), 0, expanded);
      for round := 0 to if depth < 0 then 0 else depth
        invariant Distinct(expanded)
        invariant Elements(expanded) == Reach(edges, Elements(seeds), round)
        invariant from == if round == 0 then Elements(seeds)
                          else Reach(edges, Elements(seeds), round) - Reach(edges, Elements(seeds), round - 1)
        invariant Elements(frontier) == Matched(edges, from)
        invariant forall d: nat | d <= round :: LevelsFirst(edges, Elements(seeds), d, expanded)
      {
        FollowingNewIsEnough(edges, Elements(seeds), round);
        ghost var before := expanded;
        expanded, frontier := Follow(frontier, expanded);
        from := Elements(expanded) - Elements(before);
        FirstStaysFirst(edges, Elements(seeds), round, before, expanded);
        AllIsFirst(edges, Elements(seeds), round + 1, expanded);
      }
    }

    /** The two inner loops of one round; found is the next frontier. */
    method Follow(frontier: seq<string>, known: seq<string>) returns (expanded: seq<string>, found: seq<string>)
      requires Valid() && Distinct(known)
      ensures Distinct(expanded) && known <= expanded
      ensures Elements(expanded) == Elements(known) + Required(edges, Elements(frontier))
      ensures Elements(found) == Matched(edges, Elements(expanded) - Elements(known))
    {
      hide Matched, Required, Distinct, Elements;
      expanded, found := known, [];
      RequiredOfNone(edges, Elements(known));
      for i := 0 to |frontier|
        invariant Distinct(expanded) && known <= expanded
        invariant Elements(expanded) == Elements(known) + Required(edges, Elements(frontier[..i]))
        invariant Elements(found) == Matched(edges, Elements(expanded) - Elements(known))
      {
        ghost var before := Elements(expanded);
        expanded, found := FollowNode(frontier[i], known, expanded, found);
        assert frontier[..i + 1] == frontier[..i] + [frontier[i]];
        RequiredAppend(edges, frontier[..i], frontier[i]);
      }
      assert frontier[..|frontier|] == frontier;
      found := Dedupe(found);
    }

    method FollowNode(node: string, known: seq<string>, soFar: seq<string>, foundSoFar: seq<string>)
      returns (expanded: seq<string>, found: seq<string>)
      requires Valid() && Distinct(soFar) && Elements(known) <= Elements(soFar)
      requires Elements(foundSoFar) == Matched(edges, Elements(soFar) - Elements(known))
      ensures Distinct(expanded) && soFar <= expanded
      ensures Elements(expanded) == Elements(soFar) + Required(edges, {node})
      ensures Elements(found) == Matched(edges, Elements(expanded) - Elements(known))
    {
      hide Matched, Distinct;
      expanded, found := soFar, foundSoFar;
      var required := if node in edges then edges[node] else [];
      for j := 0 to |required|
        invariant Distinct(expanded) && soFar <= expanded
        invariant Elements(expanded) == Elements(soFar) + Elements(required[..j])
        invariant Elements(found) == Matched(edges, Elements(expanded) - Elements(known))
      {
        var p := required[j];
        assert required[..j + 1] == required[..j] + [p];
        ElementsAppend(required[..j], p);
        ElementsAppend(expanded, p);
        if p !in expanded {
          ghost var news := Elements(expanded) - Elements(known);
          var nodes := MatchNodes([p]);
          MatchedUnion(edges, news, Elements([p]));
          ElementsConcat(found, nodes);
          assert Elements(expanded) + {p} - Elements(known) == news + Elements([p]);
          expanded := expanded + [p];
          found := found + nodes;
        }
      }
      assert required[..|required|] == required;
    }
  }

  ghost function MatchedAmong(nodes: seq<string>, seed: string): set<string> {
    set n | n in nodes && Matches(seed, n)
  }

  lemma MatchedUnion(edges: Edges, a: set<string>, b: set<string>)
    ensures Matched(edges, a + b) == Matched(edges, a) + Matched(edges, b)
  {
  }

  lemma NothingReached(edges: Edges, seeds: set<string>)
    ensures Elements([]) == {} == Reach(edges, seeds, 0) && Distinct<string>([])
  {
  }

  lemma RequiredOfNone(edges: Edges, known: set<string>)
    ensures Elements([]) == {} && Required(edges, {}) == {} && Matched(edges, known - known) == {}
  {
  }

  lemma RequiredAppend(edges: Edges, nodes: seq<string>, node: string)
    ensures Required(edges, Elements(nodes + [node])) == Required(edges, Elements(nodes)) + Required(edges, {node})
  {
    ElementsAppend(nodes, node);
  }
}
