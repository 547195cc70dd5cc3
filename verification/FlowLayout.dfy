/**
  The console's layout of the rule-set graph: breadth-first levels from the start, the unreached rule
  sets one level further, and a stable order.
*/
module FlowLayout {
  import opened Sorting

  datatype Branch = Branch(id: string, emits: seq<string>)

  type Graph = map<string, seq<Branch>>

  datatype Reachability = Entry | Reached | Unreachable

  datatype Node = Node(ruleSet: string, level: int, branches: seq<Branch>, reachability: Reachability)

  /** `x` has an emit that names the known rule set `y`. */
  predicate Edge(g: Graph, x: string, y: string) {
    x in g && y in g && exists b | 0 <= b < |g[x]| :: y in g[x][b].emits
  }

  /** There is a walk of `n` edges from the start to `x`. */
  ghost predicate Walk(g: Graph, start: string, x: string, n: nat)
    decreases n
  {
    if n == 0 then x == start else exists y :: Walk(g, start, y, n - 1) && Edge(g, y, x)
  }

  // ---------------------------------------------------------------- one node of the search

  ghost predicate Distinct(s: seq<string>) {
    forall i, j | 0 <= i < j < |s| :: s[i] != s[j]
  }

  ghost predicate Covers(queue: seq<string>, levels: map<string, int>) {
    Distinct(queue) && (forall x :: x in queue <==> x in levels)
  }

  /** The names seen so far keep their level; the new ones are all of the given kind and on level `l`. */
  ghost predicate Grows(before: map<string, int>, after: map<string, int>, l: int) {
    (forall x | x in before :: x in after && after[x] == before[x]) &&
    (forall x | x in after && x !in before :: after[x] == l)
  }

  /** The two inner loops: put every known, unseen name that the branches emit on level `l`. */
  method Visit(g: Graph, branches: seq<Branch>, l: int, levels: map<string, int>, queue: seq<string>)
    returns (after: map<string, int>, longer: seq<string>)
    requires Covers(queue, levels)
    ensures Covers(longer, after) && queue <= longer && Grows(levels, after, l)
    ensures forall x :: x in after <==>
              x in levels || (x in g && exists b | 0 <= b < |branches| :: x in branches[b].emits)
  {
    after, longer := levels, queue;
    for b := 0 to |branches|
      invariant Covers(longer, after) && queue <= longer && Grows(levels, after, l)
      invariant forall x :: x in after <==> x in levels || (x in g && exists c | 0 <= c < b :: x in branches[c].emits)
    {
      var emits := branches[b].emits;
      ghost var before := after;
      for e := 0 to |emits|
        invariant Covers(longer, after) && queue <= longer && Grows(levels, after, l)
        invariant forall x :: x in after <==> x in before || (x in g && x in emits[..e])
      {
        var next := emits[e];
        if next in g && next !in after {
          after, longer := after[next := l], longer + [next];
        }
        assert emits[..e + 1] == emits[..e] + [next];
      }
      assert emits[..|emits|] == emits;
    }
  }

  // ---------------------------------------------------------------- the search

  /** Levels go up along the queue, by at most one, and no queued name is more than one past the cursor's. */
  ghost predicate Layered(queue: seq<string>, levels: map<string, int>, cursor: nat) {
    Covers(queue, levels) && cursor <= |queue| &&
    (forall i, j | 0 <= i < j < |queue| :: levels[queue[i]] <= levels[queue[j]]) &&
    (cursor < |queue| ==> forall i | 0 <= i < |queue| :: levels[queue[i]] <= levels[queue[cursor]] + 1)
  }

  /** Every level is the length of some walk. */
  ghost predicate Sound(g: Graph, start: string, levels: map<string, int>) {
    forall x | x in levels :: levels[x] >= 0 && x in g && Walk(g, start, x, levels[x])
  }

  /** The successors of everything before the cursor are known, at most one level further. */
  ghost predicate Closed(g: Graph, queue: seq<string>, levels: map<string, int>, cursor: nat) {
    forall i, y | 0 <= i < cursor && i < |queue| && queue[i] in levels && Edge(g, queue[i], y) ::
      y in levels && levels[y] <= levels[queue[i]] + 1
  }

  lemma VisitKeepsSound(g: Graph, start: string, levels: map<string, int>, after: map<string, int>, name: string)
    requires Sound(g, start, levels) && name in levels && Grows(levels, after, levels[name] + 1)
    requires forall x :: x in after <==> x in levels || Edge(g, name, x)
    ensures Sound(g, start, after)
  {
    forall x | x in after
      ensures after[x] >= 0 && x in g && Walk(g, start, x, after[x])
    {
      if x !in levels {
        assert Walk(g, start, name, levels[name]) && Edge(g, name, x);
      }
    }
  }

  lemma VisitKeepsLayered(queue: seq<string>, levels: map<string, int>, longer: seq<string>, after: map<string, int>,
                          cursor: nat)
    requires Layered(queue, levels, cursor) && cursor < |queue| && queue <= longer && Covers(longer, after)
    requires Grows(levels, after, levels[queue[cursor]] + 1)
    ensures Layered(longer, after, cursor + 1)
  {
    var l := levels[queue[cursor]];
    forall i | 0 <= i < |longer|
      ensures after[longer[i]] == if i < |queue| then levels[queue[i]] else l + 1
    {
      if i < |queue| {
        assert longer[i] == queue[i] && queue[i] in levels;
      } else {
        assert longer[i] !in queue;
      }
    }
    assert forall i | 0 <= i < |queue| :: levels[queue[i]] <= l + 1;
    assert cursor + 1 < |longer| ==> after[longer[cursor + 1]] >= l by {
      if cursor + 1 < |queue| {
        assert levels[queue[cursor]] <= levels[queue[cursor + 1]];
      }
    }
  }

  lemma VisitKeepsClosed(g: Graph, queue: seq<string>, levels: map<string, int>, longer: seq<string>,
                         after: map<string, int>, cursor: nat)
    requires Layered(queue, levels, cursor) && cursor < |queue| && queue <= longer && Covers(longer, after)
    requires Closed(g, queue, levels, cursor) && Grows(levels, after, levels[queue[cursor]] + 1)
    requires forall x :: x in after <==> x in levels || Edge(g, queue[cursor], x)
    ensures Closed(g, longer, after, cursor + 1)
  {
    forall i, y | 0 <= i < cursor + 1 && i < |longer| && longer[i] in after && Edge(g, longer[i], y)
      ensures y in after && after[y] <= after[longer[i]] + 1
    {
      assert longer[i] == queue[i] && queue[i] in levels;
      if i == cursor && y in levels {
        assert y in queue;
        var j :| 0 <= j < |queue| && queue[j] == y;
        assert levels[queue[j]] <= levels[queue[cursor]] + 1;
      }
    }
  }

  /** What a complete search knows: every walk ends at a known name, on a level no greater than its length. */
  lemma {:induction false} WalksAreCovered(g: Graph, start: string, queue: seq<string>, levels: map<string, int>,
                                           x: string, n: nat)
    requires Covers(queue, levels) && Closed(g, queue, levels, |queue|) && start in levels && levels[start] == 0
    requires Walk(g, start, x, n)
    ensures x in levels && levels[x] <= n
    decreases n
  {
    if n > 0 {
      var y :| Walk(g, start, y, n - 1) && Edge(g, y, x);
      WalksAreCovered(g, start, queue, levels, y, n - 1);
      assert y in queue;
      var i :| 0 <= i < |queue| && queue[i] == y;
    }
  }

  /** `n` is the number of edges of a shortest walk from the start to `x`. */
  ghost predicate Distance(g: Graph, start: string, x: string, n: int) {
    n >= 0 && Walk(g, start, x, n) && forall m: nat | m < n :: !Walk(g, start, x, m)
  }

  ghost predicate Reachable(g: Graph, start: string, x: string) {
    exists n: nat :: Walk(g, start, x, n)
  }

  /** The queue loop, on any graph, cycles included. */
  method Search(g: Graph, start: string) returns (levels: map<string, int>)
    requires start in g
    ensures forall x :: x in levels <==> Reachable(g, start, x)
    ensures forall x | x in levels :: x in g && Distance(g, start, x, levels[x])
  {
    hide Walk, Edge;
    levels := map[start := 0];
    var queue := [start];
    StartIsWalk(g, start);
    var cursor := 0;
    while cursor < |queue|
      invariant cursor <= |queue| && Layered(queue, levels, cursor) && Sound(g, start, levels) &&
                Closed(g, queue, levels, cursor)
      invariant start in levels && levels[start] == 0 && levels.Keys <= g.Keys
      decreases |g.Keys| - cursor
    {
      hide Covers, Layered, Sound, Closed, Grows;
      var name := queue[cursor];
      CursorIsKnown(g, start, queue, levels, cursor);
      var after, longer := Visit(g, g[name], levels[name] + 1, levels, queue);
      SuccessorsOf(g, name, levels, after);
      VisitKeepsSound(g, start, levels, after, name);
      VisitKeepsLayered(queue, levels, longer, after, cursor);
      VisitKeepsClosed(g, queue, levels, longer, after, cursor);
      GrowsAt(levels, after, levels[name] + 1, start);
      SoundIsKnown(g, start, after);
      levels, queue, cursor := after, longer, cursor + 1;
    }
    SearchIsExact(g, start, queue, levels);
  }

  lemma StartIsWalk(g: Graph, start: string)
    ensures Walk(g, start, start, 0)
  {
  }

  lemma CursorIsKnown(g: Graph, start: string, queue: seq<string>, levels: map<string, int>, cursor: nat)
    requires Layered(queue, levels, cursor) && cursor < |queue| && Sound(g, start, levels)
    ensures queue[cursor] in levels && queue[cursor] in g && Covers(queue, levels) && cursor < |g.Keys|
  {
    hide Walk;
    assert queue[cursor] in queue;
    DistinctFits(queue, g.Keys);
  }

  /** Distinct names of a graph are no more than the graph has. */
  lemma {:induction false} DistinctFits(s: seq<string>, keys: set<string>)
    requires Distinct(s) && forall x | x in s :: x in keys
    ensures |s| <= |keys|
  {
    if s != [] {
      var n := |s| - 1;
      var rest := s[..n];
      forall x | x in rest
        ensures x in keys - {s[n]}
      {
        assert x in s;
      }
      DistinctFits(rest, keys - {s[n]});
      assert s[n] in s;
    }
  }

  lemma SuccessorsOf(g: Graph, name: string, levels: map<string, int>, after: map<string, int>)
    requires name in g
    requires forall x :: x in after <==>
               x in levels || (x in g && exists b | 0 <= b < |g[name]| :: x in g[name][b].emits)
    ensures forall x :: x in after <==> x in levels || Edge(g, name, x)
  {
  }

  lemma GrowsAt(before: map<string, int>, after: map<string, int>, l: int, x: string)
    requires Grows(before, after, l) && x in before
    ensures x in after && after[x] == before[x]
  {
  }

  lemma SoundIsKnown(g: Graph, start: string, levels: map<string, int>)
    requires Sound(g, start, levels)
    ensures levels.Keys <= g.Keys
  {
  }

  lemma SearchIsExact(g: Graph, start: string, queue: seq<string>, levels: map<string, int>)
    requires Covers(queue, levels) && Closed(g, queue, levels, |queue|) && Sound(g, start, levels)
    requires start in levels && levels[start] == 0
    ensures forall x :: x in levels <==> Reachable(g, start, x)
    ensures forall x | x in levels :: x in g && Distance(g, start, x, levels[x])
  {
    hide Walk, Covers, Closed;
    forall x
      ensures x in levels <==> Reachable(g, start, x)
    {
      if x in levels {
        assert Walk(g, start, x, levels[x]);
      }
      if n: nat :| Walk(g, start, x, n) {
        WalksAreCovered(g, start, queue, levels, x, n);
      }
    }
    forall x, m: nat | x in levels && m < levels[x] && Walk(g, start, x, m)
      ensures false
    {
      WalksAreCovered(g, start, queue, levels, x, m);
    }
  }

  // ---------------------------------------------------------------- the nodes

  /** The names of a set, once each. */
  method Names(keys: set<string>) returns (list: seq<string>)
    ensures Distinct(list) && forall x :: x in list <==> x in keys
  {
    list := [];
    var todo := keys;
    while todo != {}
      invariant todo <= keys && Distinct(list) && forall x :: x in list <==> x in keys && x !in todo
      decreases |todo|
    {
      var x :| x in todo;
      list := list + [x];
      todo := todo - {x};
    }
  }

  ghost predicate IsDeepest(levels: map<string, int>, m: int) {
    (forall x | x in levels :: levels[x] <= m) && exists x :: x in levels && levels[x] == m
  }

  /** Math.max over the levels. */
  method Deepest(levels: map<string, int>, start: string) returns (m: int)
    requires start in levels
    ensures IsDeepest(levels, m)
  {
    m := levels[start];
    var todo := levels.Keys;
    while todo != {}
      invariant todo <= levels.Keys && (forall x | x in levels && x !in todo :: levels[x] <= m)
      invariant exists x :: x in levels && levels[x] == m
      decreases |todo|
    {
      var x :| x in todo;
      m := if levels[x] > m then levels[x] else m;
      todo := todo - {x};
    }
  }

  function NodeFor(g: Graph, levels: map<string, int>, deepest: int, x: string): Node
    requires x in g
  {
    if x in levels then Node(x, levels[x], g[x], if levels[x] == 0 then Entry else Reached)
    else Node(x, deepest + 1, g[x], Unreachable)
  }

  type Rank = string -> int

  function Earlier(rank: Rank): (Node, Node) -> bool {
    (a: Node, b: Node) => a.level < b.level || (a.level == b.level && rank(a.ruleSet) < rank(b.ruleSet))
  }

  ghost predicate Ranks(rank: Rank, names: seq<string>) {
    forall i, j | 0 <= i < j < |names| :: rank(names[i]) != rank(names[j])
  }

  /** The nodes are the graph's rule sets, once each. */
  ghost predicate OneNodeEach(g: Graph, nodes: seq<Node>) {
    (forall i, j | 0 <= i < j < |nodes| :: nodes[i].ruleSet != nodes[j].ruleSet) &&
    (forall x :: x in g <==> exists i | 0 <= i < |nodes| :: nodes[i].ruleSet == x)
  }

  ghost predicate NodesOf(g: Graph, levels: map<string, int>, deepest: int, nodes: seq<Node>) {
    forall i | 0 <= i < |nodes| :: nodes[i].ruleSet in g && nodes[i] == NodeFor(g, levels, deepest, nodes[i].ruleSet)
  }

  method BuildNodes(g: Graph, levels: map<string, int>, deepest: int, names: seq<string>) returns (nodes: seq<Node>)
    requires Distinct(names) && forall x :: x in names <==> x in g
    ensures |nodes| == |names| && forall i | 0 <= i < |names| :: nodes[i].ruleSet == names[i]
    ensures OneNodeEach(g, nodes) && NodesOf(g, levels, deepest, nodes)
  {
    nodes := [];
    for i := 0 to |names|
      invariant |nodes| == i && (forall j | 0 <= j < i :: nodes[j].ruleSet == names[j]) &&
                NodesOf(g, levels, deepest, nodes)
    {
      assert names[i] in names;
      nodes := nodes + [NodeFor(g, levels, deepest, names[i])];
    }
    forall x
      ensures x in g <==> exists i | 0 <= i < |nodes| :: nodes[i].ruleSet == x
    {
      if x in names {
        var i :| 0 <= i < |names| && names[i] == x;
        assert nodes[i].ruleSet == x;
      }
    }
  }

  lemma SortKeepsNodes(g: Graph, levels: map<string, int>, deepest: int, nodes: seq<Node>, sorted: seq<Node>,
                       less: (Node, Node) -> bool)
    requires OneNodeEach(g, nodes) && NodesOf(g, levels, deepest, nodes) && multiset(sorted) == multiset(nodes)
    requires Sorted(less, sorted) && Irreflexive(less)
    ensures OneNodeEach(g, sorted) && NodesOf(g, levels, deepest, sorted)
  {
    SameElements(nodes, sorted);
    forall i | 0 <= i < |sorted|
      ensures sorted[i].ruleSet in g && sorted[i] == NodeFor(g, levels, deepest, sorted[i].ruleSet)
    {
      assert sorted[i] in nodes;
    }
    forall i, j | 0 <= i < j < |sorted|
      ensures sorted[i].ruleSet != sorted[j].ruleSet
    {
      assert less(sorted[i], sorted[j]);
    }
    forall x
      ensures x in g <==> exists i | 0 <= i < |sorted| :: sorted[i].ruleSet == x
    {
      if x in g {
        var i :| 0 <= i < |nodes| && nodes[i].ruleSet == x;
        assert nodes[i] in sorted;
        var k :| 0 <= k < |sorted| && sorted[k] == nodes[i];
        assert sorted[k].ruleSet == x;
      }
    }
  }

  lemma EarlierOrders(rank: Rank, names: seq<string>, nodes: seq<Node>)
    requires Ranks(rank, names) && |nodes| == |names| && forall i | 0 <= i < |names| :: nodes[i].ruleSet == names[i]
    ensures Transitive(Earlier(rank)) && Irreflexive(Earlier(rank)) && Comparable(Earlier(rank), nodes)
  {
  }

  /** What the layout promises of one node. */
  ghost predicate Placed(g: Graph, start: string, deepest: int, node: Node) {
    node.ruleSet in g && node.branches == g[node.ruleSet] &&
    if Reachable(g, start, node.ruleSet) then
      Distance(g, start, node.ruleSet, node.level) && node.level <= deepest &&
      node.reachability == (if node.level == 0 then Entry else Reached)
    else node.level == deepest + 1 && node.reachability == Unreachable
  }

  /** The greatest distance of a reachable rule set. */
  ghost predicate Eccentricity(g: Graph, start: string, m: int) {
    (exists x :: Distance(g, start, x, m)) && forall x, n | Distance(g, start, x, n) :: n <= m
  }

  lemma DistanceIsUnique(g: Graph, start: string, x: string, m: int, n: int)
    requires Distance(g, start, x, m) && Distance(g, start, x, n)
    ensures m == n
  {
    hide Walk;
  }

  lemma LevelsPlace(g: Graph, start: string, levels: map<string, int>, deepest: int, nodes: seq<Node>)
    requires forall x :: x in levels <==> Reachable(g, start, x)
    requires forall x | x in levels :: x in g && Distance(g, start, x, levels[x])
    requires IsDeepest(levels, deepest) && NodesOf(g, levels, deepest, nodes)
    ensures Eccentricity(g, start, deepest) && forall i | 0 <= i < |nodes| :: Placed(g, start, deepest, nodes[i])
  {
    hide Walk;
    forall x, n | Distance(g, start, x, n)
      ensures n <= deepest
    {
      assert Reachable(g, start, x);
      DistanceIsUnique(g, start, x, n, levels[x]);
    }
  }

  /**
    layoutRuleFlow: every rule set of the graph exactly once. A reachable one is on the level of its
    shortest distance from the start, every other one is one past the greatest distance, and the nodes
    are in order of level and then name.
  */
  method LayoutRuleFlow(g: Graph, start: string, rank: Rank) returns (nodes: seq<Node>, ghost deepest: int)
    requires forall x, y | x in g && y in g && x != y :: rank(x) != rank(y)
    ensures start !in g ==> nodes == []
    ensures start in g ==> OneNodeEach(g, nodes) && Eccentricity(g, start, deepest)
    ensures start in g ==>
              forall i, j | 0 <= i < j < |nodes| ::
                nodes[i].level < nodes[j].level ||
                (nodes[i].level == nodes[j].level && rank(nodes[i].ruleSet) < rank(nodes[j].ruleSet))
    ensures start in g ==> forall i | 0 <= i < |nodes| :: Placed(g, start, deepest, nodes[i])
  {
    if start !in g {
      return [], 0;
    }
    hide Reachable, Distance, Eccentricity, Placed, Sorted, OneNodeEach, NodesOf, IsDeepest, Earlier;
    var levels := Search(g, start);
    StartIsReachable(g, start);
    var m := Deepest(levels, start);
    var names := Names(g.Keys);
    RanksOf(g, rank, names);
    nodes := BuildNodes(g, levels, m, names);
    EarlierOrders(rank, names, nodes);
    var sorted := Sort(Earlier(rank), nodes);
    SortKeepsNodes(g, levels, m, nodes, sorted, Earlier(rank));
    LevelsPlace(g, start, levels, m, sorted);
    nodes, deepest := sorted, m;
  }

  lemma StartIsReachable(g: Graph, start: string)
    ensures Reachable(g, start, start)
  {
    assert Walk(g, start, start, 0);
  }

  lemma RanksOf(g: Graph, rank: Rank, names: seq<string>)
    requires Distinct(names) && (forall x | x in names :: x in g)
    requires forall x, y | x in g && y in g && x != y :: rank(x) != rank(y)
    ensures Ranks(rank, names)
  {
    forall i, j | 0 <= i < j < |names|
      ensures rank(names[i]) != rank(names[j])
    {
      assert names[i] in names && names[j] in names;
    }
  }
}
