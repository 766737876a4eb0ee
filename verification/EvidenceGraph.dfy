/**
 The evidence graph: which steps go stale when one is run again, and how deep each
 step lies below the receipts it rests on. The graph should have no cycle, but
 nothing here relies on that to terminate.
 */
module EvidenceGraph {

  type Node(==, !new) = nat

  datatype Edge = Edge(source: Node, receipt: bool, step: Node, staleness: bool)

  /** Staleness passes from a receipt to the step that rests on it. */
  ghost predicate Rests(edges: seq<Edge>, a: Node, b: Node) {
    exists i :: 0 <= i < |edges| && edges[i] == Edge(a, true, b, true)
  }

  type Links = map<Node, set<Node>>

  function Next(links: Links, n: Node): set<Node> {
    if n in links then links[n] else {}
  }

  ghost predicate Represents(links: Links, edges: seq<Edge>) {
    forall a, b :: b in Next(links, a) <==> Rests(edges, a, b)
  }

  /** Consecutive nodes are linked. */
  ghost predicate Path(links: Links, path: seq<Node>) {
    path != [] && forall i | 0 <= i < |path| - 1 :: path[i + 1] in Next(links, path[i])
  }

  ghost predicate Joins(links: Links, path: seq<Node>, a: Node, b: Node) {
    Path(links, path) && path[0] == a && path[|path| - 1] == b
  }

  // ---------------------------------------------------------------------
  // Blast radius

  /** One or more links lead from a to b. */
  ghost predicate Reaches(links: Links, a: Node, b: Node) {
    exists path :: |path| >= 2 && Joins(links, path, a, b)
  }

  lemma ReachesNext(links: Links, a: Node, b: Node, c: Node)
    requires (a == b || Reaches(links, a, b)) && c in Next(links, b)
    ensures Reaches(links, a, c)
  {
    if Reaches(links, a, b) {
      var path :| |path| >= 2 && Joins(links, path, a, b);
      assert Joins(links, path + [c], a, c);
    } else {
      assert Joins(links, [a, c], a, c);
    }
  }

  /** A set that holds the start's successors and its members' holds all that is reached. */
  lemma {:induction false} ClosedHoldsReached(links: Links, start: Node, seen: set<Node>, path: seq<Node>, b: Node)
    requires Next(links, start) <= seen && forall n | n in seen :: Next(links, n) <= seen
    requires |path| >= 2 && Joins(links, path, start, b)
    ensures b in seen
  {
    var before := path[..|path| - 1];
    assert b in Next(links, path[|path| - 2]);
    if |path| > 2 {
      assert Joins(links, before, start, path[|path| - 2]);
      ClosedHoldsReached(links, start, seen, before, path[|path| - 2]);
    }
  }

  ghost function Universe(links: Links): set<Node> {
    set a, b | a in links && b in links[a] :: b
  }

  /** The members of a set, in some order. */
  method Listed(s: set<Node>) returns (list: seq<Node>)
    ensures forall n :: n in list <==> n in s
  {
    list := [];
    var left := s;
    while left != {}
      invariant left <= s && forall n :: n in list <==> n in s - left
      decreases left
    {
      var n :| n in left;
      list := list + [n];
      left := left - {n};
    }
  }

  /** What was found is reached, and everything found has its successors found too. */
  ghost predicate Searching(links: Links, start: Node, seen: set<Node>, stack: seq<Node>) {
    && (forall n | n in seen || n in stack :: n in Universe(links) && Reaches(links, start, n))
    && (forall n | n in Next(links, start) :: n in seen || n in stack)
    && (forall m, n | m in seen && n in Next(links, m) :: n in seen || n in stack)
  }

  lemma SearchBegins(links: Links, start: Node, stack: seq<Node>)
    requires forall n :: n in stack <==> n in Next(links, start)
    ensures Searching(links, start, {}, stack)
  {
    forall n | n in stack ensures Reaches(links, start, n) { ReachesNext(links, start, start, n); }
  }

  lemma SearchGoesOn(links: Links, start: Node, seen: set<Node>, stack: seq<Node>, more: seq<Node>)
    requires stack != [] && Searching(links, start, seen, stack)
    ensures var node := stack[|stack| - 1];
            var rest := stack[..|stack| - 1];
            && node in Universe(links)
            && (node in seen ==> Searching(links, start, seen, rest))
            && ((forall n :: n in more <==> n in Next(links, node)) ==>
                Searching(links, start, seen + {node}, rest + more))
  {
    var node := stack[|stack| - 1];
    assert stack == stack[..|stack| - 1] + [node];
    if forall n :: n in more <==> n in Next(links, node) {
      forall n | n in more ensures Reaches(links, start, n) { ReachesNext(links, start, node, n); }
    }
  }

  lemma FewerLeft(all: set<Node>, done: set<Node>, n: Node)
    requires n in all && n !in done
    ensures |all - (done + {n})| < |all - done|
  {
    assert all - done == (all - (done + {n})) + {n};
  }

  /** Everything some links away from the start, on every graph. */
  method Reach(links: Links, start: Node) returns (seen: set<Node>)
    ensures forall n :: n in seen <==> Reaches(links, start, n)
  {
    seen := {};
    var stack := Listed(Next(links, start));
    SearchBegins(links, start, stack);
    while stack != []
      invariant seen <= Universe(links) && Searching(links, start, seen, stack)
      decreases |Universe(links) - seen|, |stack|
    {
      var node := stack[|stack| - 1];
      if node in seen {
        SearchGoesOn(links, start, seen, stack, []);
        stack := stack[..|stack| - 1];
      } else {
        var more := Listed(Next(links, node));
        SearchGoesOn(links, start, seen, stack, more);
        FewerLeft(Universe(links), seen, node);
        seen := seen + {node};
        stack := stack[..|stack| - 1] + more;
      }
    }
    SearchEnds(links, start, seen);
  }

  lemma SearchEnds(links: Links, start: Node, seen: set<Node>)
    requires Searching(links, start, seen, [])
    ensures forall n :: n in seen <==> Reaches(links, start, n)
  {
    forall n | Reaches(links, start, n) ensures n in seen {
      var path :| |path| >= 2 && Joins(links, path, start, n);
      ClosedHoldsReached(links, start, seen, path, n);
    }
  }

  /** For each step, exactly the steps that go stale with it. */
  method BlastRadius(edges: seq<Edge>) returns (radius: map<Node, set<Node>>)
    ensures forall s :: s in radius <==> exists i :: 0 <= i < |edges| && edges[i].step == s
    ensures exists links :: Represents(links, edges)
                            && forall s | s in radius :: forall n :: n in radius[s] <==> Reaches(links, s, n)
  {
    var links: Links := map[];
    var steps: set<Node> := {};
    var i := 0;
    while i < |edges|
      invariant i <= |edges|
      invariant Represents(links, edges[..i])
      invariant forall s :: s in steps <==> exists j :: 0 <= j < i && edges[j].step == s
    {
      LinkOne(links, edges, i);
      if edges[i].staleness && edges[i].receipt {
        links := links[edges[i].source := Next(links, edges[i].source) + {edges[i].step}];
      }
      steps := steps + {edges[i].step};
      i := i + 1;
    }
    assert edges[..i] == edges;
    radius := map[];
    var left := steps;
    while left != {}
      invariant left <= steps && radius.Keys == steps - left
      invariant forall s | s in radius :: forall n :: n in radius[s] <==> Reaches(links, s, n)
      decreases left
    {
      var s :| s in left;
      var reached := Reach(links, s);
      radius := radius[s := reached];
      left := left - {s};
    }
  }

  lemma LinkOne(links: Links, edges: seq<Edge>, i: nat)
    requires i < |edges| && Represents(links, edges[..i])
    ensures var e := edges[i];
            Represents(if e.staleness && e.receipt then links[e.source := Next(links, e.source) + {e.step}] else links,
                       edges[..i + 1])
  {
    forall a, b ensures Rests(edges[..i + 1], a, b) <==> Rests(edges[..i], a, b) || edges[i] == Edge(a, true, b, true) {
      RestsOneMore(edges, i, a, b);
    }
  }

  // ---------------------------------------------------------------------
  // Tiers

  /** The longest path that ends here has this many links. */
  ghost predicate Longest(links: Links, n: Node, d: nat) {
    && (exists path :: Path(links, path) && path[|path| - 1] == n && |path| == d + 1)
    && (forall path | Path(links, path) && path[|path| - 1] == n :: |path| <= d + 1)
  }

  /** The parents of a node, as the ranking sees them. */
  ghost predicate Inverse(parents: Links, links: Links) {
    forall a, b :: a in Next(parents, b) <==> b in Next(links, a)
  }

  /** Heights go strictly down from a node to its parents: there is no cycle. */
  ghost predicate Acyclic(parents: Links, height: map<Node, nat>) {
    forall n | n in parents :: n in height && forall p | p in parents[n] :: p in height && height[p] < height[n]
  }

  ghost predicate Shallower(links: Links, p: Node, d: nat) {
    exists k: nat :: k < d && Longest(links, p, k)
  }

  lemma LongestFromParents(parents: Links, links: Links, n: Node, d: nat, deepest: Node)
    requires Inverse(parents, links)
    requires if Next(parents, n) == {} then d == 0 else
               deepest in Next(parents, n) && d > 0 && Longest(links, deepest, d - 1)
    requires forall p | p in Next(parents, n) :: Shallower(links, p, d)
    ensures Longest(links, n, d)
  {
    if Next(parents, n) == {} {
      assert Path(links, [n]);
    } else {
      var path :| Path(links, path) && path[|path| - 1] == deepest && |path| == d;
      assert Path(links, path + [n]);
    }
    forall path | Path(links, path) && path[|path| - 1] == n ensures |path| <= d + 1 {
      if |path| > 1 {
        var p := path[|path| - 2];
        assert path[|path| - 2 + 1] in Next(links, p);
        assert p in Next(parents, n);
        var k: nat :| k < d && Longest(links, p, k);
        assert Path(links, path[..|path| - 1]);
      }
    }
  }

  /** Every link goes strictly deeper. */
  lemma LinksGoDeeper(links: Links, a: Node, b: Node, d: nat, e: nat)
    requires b in Next(links, a) && Longest(links, a, d) && Longest(links, b, e)
    ensures d < e
  {
    var path :| Path(links, path) && path[|path| - 1] == a && |path| == d + 1;
    assert Path(links, path + [b]);
  }

  ghost function All(parents: Links): set<Node> {
    parents.Keys + Universe(parents)
  }

  /** Nodes that are done carry their longest path; those in `open` are still being
      ranked and hold a placeholder. */
  ghost predicate Good(depth: map<Node, nat>, links: Links, open: set<Node>) {
    forall m | m in depth && m !in open :: Longest(links, m, depth[m])
  }

  ghost predicate Keeps(before: map<Node, nat>, after: map<Node, nat>) {
    forall m | m in before :: m in after && after[m] == before[m]
  }

  /** There is no cycle, and the nodes being ranked all lie above this one. */
  ghost predicate Sane(parents: Links, links: Links, height: map<Node, nat>, open: set<Node>, n: Node) {
    && Inverse(parents, links) && Acyclic(parents, height)
    && forall m | m in open :: m in height && n in height && height[n] < height[m]
  }

  lemma ParentIsSane(parents: Links, links: Links, height: map<Node, nat>, open: set<Node>, n: Node, p: Node)
    requires Sane(parents, links, height, open, n) && p in Next(parents, n)
    ensures Sane(parents, links, height, open + {n}, p) && p !in open + {n}
  {
  }

  /** The parents ranked so far are all shallower, and one is exactly one less deep. */
  ghost predicate RankedSoFar(parents: Links, links: Links, depth: map<Node, nat>, n: Node, left: set<Node>,
                              d: nat, deepest: Node) {
    && (forall p | p in Next(parents, n) - left :: p in depth && depth[p] < d && Longest(links, p, depth[p]))
    && (if Next(parents, n) <= left then d == 0
        else deepest in Next(parents, n) && d > 0 && Longest(links, deepest, d - 1))
  }

  lemma RankedOneMore(parents: Links, links: Links, before: map<Node, nat>, after: map<Node, nat>, n: Node,
                      left: set<Node>, d: nat, deepest: Node, p: Node, r: nat)
    requires RankedSoFar(parents, links, before, n, left, d, deepest) && Keeps(before, after)
    requires p in left && left <= Next(parents, n) && p in after && after[p] == r && Longest(links, p, r)
    ensures RankedSoFar(parents, links, after, n, left - {p}, if r + 1 > d then r + 1 else d,
                        if r + 1 > d then p else deepest)
  {
  }

  lemma RankedAll(parents: Links, links: Links, depth: map<Node, nat>, n: Node, d: nat, deepest: Node)
    requires Inverse(parents, links) && RankedSoFar(parents, links, depth, n, {}, d, deepest)
    ensures Longest(links, n, d)
  {
    forall p | p in Next(parents, n) ensures Shallower(links, p, d) {
      assert p in Next(parents, n) - {};
      assert depth[p] < d && Longest(links, p, depth[p]);
    }
    LongestFromParents(parents, links, n, d, deepest);
  }

  lemma NoMoreLeft(all: set<Node>, before: map<Node, nat>, after: map<Node, nat>)
    requires Keeps(before, after)
    ensures |all - after.Keys| <= |all - before.Keys|
  {
    var less := all - after.Keys;
    var more := all - before.Keys;
    assert more == less + (more - less);
  }

  lemma Opens(all: set<Node>, links: Links, depth: map<Node, nat>, open: set<Node>, n: Node)
    requires n in all && n !in depth
    ensures |all - depth[n := 0].Keys| < |all - depth.Keys|
    ensures Good(depth, links, open) ==> Good(depth[n := 0], links, open + {n})
  {
    assert depth[n := 0].Keys == depth.Keys + {n};
    FewerLeft(all, depth.Keys, n);
  }

  lemma Closes(links: Links, before: map<Node, nat>, ranked: map<Node, nat>, open: set<Node>, n: Node, d: nat)
    requires n !in before && Keeps(before[n := 0], ranked)
    ensures Keeps(before, ranked[n := d])
    ensures Good(ranked, links, open + {n}) && Longest(links, n, d) ==> Good(ranked[n := d], links, open)
  {
    assert forall m | m in before :: m in before[n := 0] && before[n := 0][m] == before[m];
  }

  class Tiers {
    const parents: Links
    var depth: map<Node, nat>

    constructor (parents: Links)
      ensures this.parents == parents && depth == map[]
    {
      this.parents := parents;
      depth := map[];
    }

    /** Ranks a node, whatever the graph; on a graph without cycles, exactly. */
    method Rank(n: Node, ghost open: set<Node>, ghost links: Links, ghost height: map<Node, nat>) returns (d: nat)
      requires n in All(parents)
      modifies this`depth
      ensures n in depth && depth[n] == d && Keeps(old(depth), depth)
      ensures Sane(parents, links, height, open, n) && n !in open && Good(old(depth), links, open)
              ==> Good(depth, links, open) && Longest(links, n, d)
      decreases |All(parents) - depth.Keys|, 0
    {
      if n in depth { return depth[n]; }
      ghost var before := depth;
      Opens(All(parents), links, before, open, n);
      depth := depth[n := 0];
      d := RankParents(n, open, links, height);
      Closes(links, before, depth, open, n, d);
      depth := depth[n := d];
    }

    /** One more than the deepest parent, in whatever order they are visited. */
    method RankParents(n: Node, ghost open: set<Node>, ghost links: Links, ghost height: map<Node, nat>)
      returns (d: nat)
      requires n in All(parents)
      modifies this`depth
      ensures Keeps(old(depth), depth)
      ensures Sane(parents, links, height, open, n) && Good(old(depth), links, open + {n})
              ==> Good(depth, links, open + {n}) && Longest(links, n, d)
      decreases |All(parents) - depth.Keys|, 1
    {
      d := 0;
      var left := Next(parents, n);
      ghost var deepest := n;
      ghost var sane := Sane(parents, links, height, open, n) && Good(depth, links, open + {n});
      while left != {}
        invariant left <= Next(parents, n) && Keeps(old(depth), depth)
        invariant sane ==> Good(depth, links, open + {n}) && RankedSoFar(parents, links, depth, n, left, d, deepest)
        decreases left
      {
        var p :| p in left;
        ghost var before := depth;
        NoMoreLeft(All(parents), old(depth), depth);
        if sane { ParentIsSane(parents, links, height, open, n, p); }
        var r := Rank(p, open + {n}, links, height);
        if sane { RankedOneMore(parents, links, before, depth, n, left, d, deepest, p, r); }
        if r + 1 > d {
          d := r + 1;
          deepest := p;
        }
        left := left - {p};
      }
      if sane { RankedAll(parents, links, depth, n, d, deepest); }
    }

    /** Every step's tier. It always ends; without a cycle, each tier is the longest
        path to the step, whatever order steps and parents are visited in. */
    method Assign(ghost links: Links, ghost height: map<Node, nat>) returns (tiers: map<Node, nat>)
      requires depth == map[]
      modifies this`depth
      ensures tiers.Keys == parents.Keys
      ensures Inverse(parents, links) && Acyclic(parents, height) ==>
              forall n | n in tiers :: Longest(links, n, tiers[n])
    {
      tiers := map[];
      var left := parents.Keys;
      while left != {}
        invariant left <= parents.Keys && tiers.Keys == parents.Keys - left
        invariant Inverse(parents, links) && Acyclic(parents, height)
                  ==> Good(depth, links, {}) && forall n | n in tiers :: Longest(links, n, tiers[n])
        decreases left
      {
        var n :| n in left;
        var d := Rank(n, {}, links, height);
        tiers := tiers[n := d];
        left := left - {n};
      }
    }
  }

  /** The receipts each step rests on, with an entry for every step. */
  method ParentsOf(edges: seq<Edge>) returns (parents: Links)
    ensures forall a, b :: a in Next(parents, b) <==> Rests(edges, a, b)
    ensures forall s :: s in parents <==> exists i :: 0 <= i < |edges| && edges[i].step == s
  {
    parents := map[];
    var i := 0;
    while i < |edges|
      invariant i <= |edges|
      invariant forall a, b :: a in Next(parents, b) <==> Rests(edges[..i], a, b)
      invariant forall s :: s in parents <==> exists j :: 0 <= j < i && edges[j].step == s
    {
      var e := edges[i];
      forall a, b ensures Rests(edges[..i + 1], a, b) <==> Rests(edges[..i], a, b) || e == Edge(a, true, b, true) {
        RestsOneMore(edges, i, a, b);
      }
      parents := parents[e.step := Next(parents, e.step) + if e.staleness && e.receipt then {e.source} else {}];
      i := i + 1;
    }
    assert edges[..i] == edges;
  }

  lemma RestsOneMore(edges: seq<Edge>, i: nat, a: Node, b: Node)
    requires i < |edges|
    ensures Rests(edges[..i + 1], a, b) <==> Rests(edges[..i], a, b) || edges[i] == Edge(a, true, b, true)
  {
    if Rests(edges[..i], a, b) {
      var j :| 0 <= j < i && edges[..i][j] == Edge(a, true, b, true);
      assert edges[..i + 1][j] == Edge(a, true, b, true);
    }
    if Rests(edges[..i + 1], a, b) {
      var j :| 0 <= j < i + 1 && edges[..i + 1][j] == Edge(a, true, b, true);
      if j < i { assert edges[..i][j] == Edge(a, true, b, true); }
    }
    if edges[i] == Edge(a, true, b, true) { assert edges[..i + 1][i] == edges[i]; }
  }
}
