/**
 Which modules of an import graph are leaves: named in no layer, and importing only
 one another.
 */
module ArchGraph {

  type Node(==, !new) = nat
  type Imports = set<(Node, Node)>   // importer, imported

  /** The roots that declare a spine: some ranked module lies under them. */
  function Layered(roots: set<Node>, ranked: set<Node>, under: (Node, Node) -> bool): set<Node> {
    set r | r in roots && exists m | m in ranked :: under(m, r)
  }

  /** Modules that may be leaves: unranked, and in a package that declares a spine. */
  function Candidates(nodes: set<Node>, ranked: set<Node>, layered: set<Node>, rootOf: Node -> Node): set<Node> {
    set n | n in nodes && n !in ranked && rootOf(n) in layered
  }

  /** The module is here and in no layer, and its root declares a spine. */
  ghost predicate MayBeLeaf(nodes: set<Node>, ranked: set<Node>, roots: set<Node>, under: (Node, Node) -> bool,
                            rootOf: Node -> Node, n: Node)
  {
    n in nodes && n !in ranked && rootOf(n) in roots && exists m | m in ranked :: under(m, rootOf(n))
  }

  /** Members import only members. */
  ghost predicate Closed(imports: Imports, s: set<Node>) {
    forall e | e in imports :: e.0 in s ==> e.1 in s
  }

  /** One round: drop every member that imports something outside. */
  function Shrunk(imports: Imports, s: set<Node>): set<Node> {
    set n | n in s && forall e | e in imports :: e.0 == n ==> e.1 in s
  }

  /** Dropping can only stop at a closed set, and never drops a member of one. */
  lemma ShrinkingIsSafe(imports: Imports, s: set<Node>)
    ensures Shrunk(imports, s) <= s && (Shrunk(imports, s) == s <==> Closed(imports, s))
    ensures forall t | t <= s && Closed(imports, t) :: t <= Shrunk(imports, s)
  {
    if Shrunk(imports, s) == s {
      forall e | e in imports && e.0 in s ensures e.1 in s { assert e.0 in Shrunk(imports, s); }
    }
  }

  /** The largest set of candidates that import only one another; the loop ends on
      every graph, cycles among the candidates included. */
  method FindLeaves(nodes: set<Node>, imports: Imports, ranked: set<Node>, roots: set<Node>,
                    under: (Node, Node) -> bool, rootOf: Node -> Node) returns (leaves: set<Node>)
    ensures Closed(imports, leaves)
    ensures forall n | n in leaves :: MayBeLeaf(nodes, ranked, roots, under, rootOf, n)
    ensures forall t | (forall n | n in t :: MayBeLeaf(nodes, ranked, roots, under, rootOf, n)) && Closed(imports, t) ::
              t <= leaves
  {
    var candidates := Candidates(nodes, ranked, Layered(roots, ranked, under), rootOf);
    leaves := candidates;
    while true
      invariant leaves <= candidates
      invariant forall t | t <= candidates && Closed(imports, t) :: t <= leaves
      decreases |leaves|
    {
      var shrunk := Shrunk(imports, leaves);
      ShrinkingIsSafe(imports, leaves);
      if shrunk == leaves { return; }
      assert leaves == shrunk + (leaves - shrunk);
      leaves := shrunk;
    }
  }

  // ---------------------------------------------------------------------
  // The same set, told by paths

  ghost predicate Path(imports: Imports, path: seq<Node>) {
    path != [] && forall i | 0 <= i < |path| - 1 :: (path[i], path[i + 1]) in imports
  }

  /** Whatever this module reaches by imports, itself included, is a candidate. */
  ghost predicate ReachesOnly(imports: Imports, candidates: set<Node>, n: Node) {
    forall path | Path(imports, path) && path[0] == n :: path[|path| - 1] in candidates
  }

  lemma {:induction false} PathStaysInside(imports: Imports, s: set<Node>, path: seq<Node>)
    requires Closed(imports, s) && Path(imports, path) && path[0] in s
    ensures path[|path| - 1] in s
  {
    if |path| > 1 {
      assert (path[0], path[1]) in imports;
      assert forall i | 0 <= i < |path[1..]| - 1 :: (path[1..][i], path[1..][i + 1]) == (path[i + 1], path[i + 1 + 1]);
      PathStaysInside(imports, s, path[1..]);
    }
  }

  /** The largest closed set of candidates is exactly the modules that reach only candidates. */
  lemma LeavesReachOnlyCandidates(imports: Imports, candidates: set<Node>, leaves: set<Node>, n: Node)
    requires leaves <= candidates && Closed(imports, leaves)
    requires forall t | t <= candidates && Closed(imports, t) :: t <= leaves
    ensures n in leaves <==> ReachesOnly(imports, candidates, n)
  {
    if n in leaves {
      forall path | Path(imports, path) && path[0] == n ensures path[|path| - 1] in candidates {
        PathStaysInside(imports, leaves, path);
      }
    }
    if ReachesOnly(imports, candidates, n) {
      var all := set m | m in candidates && ReachesOnly(imports, candidates, m);
      forall e | e in imports && e.0 in all ensures e.1 in all {
        ReachesOnlyPassesOn(imports, candidates, e.0, e.1);
      }
      assert Path(imports, [n]);
      assert [n][|[n]| - 1] in candidates;
      assert n in all && all <= candidates && Closed(imports, all);
    }
  }

  lemma ReachesOnlyPassesOn(imports: Imports, candidates: set<Node>, a: Node, b: Node)
    requires ReachesOnly(imports, candidates, a) && (a, b) in imports
    ensures b in candidates && ReachesOnly(imports, candidates, b)
  {
    forall path | Path(imports, path) && path[0] == b ensures path[|path| - 1] in candidates {
      var longer := [a] + path;
      assert forall i | 0 < i < |longer| - 1 :: (longer[i], longer[i + 1]) == (path[i - 1], path[i - 1 + 1]);
      assert Path(imports, longer) && longer[|longer| - 1] == path[|path| - 1];
    }
    assert Path(imports, [b]) && [b][|[b]| - 1] == b;
  }
}
