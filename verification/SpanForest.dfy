/**
 The spans of a trace as a forest: dropping spans while keeping who ultimately
 reached whom, nesting the rest by parent, and listing them depth first.

 A span is known by its id; its fields are maps from ids. A parent may lie outside
 the set, which makes its child a root.
 */
module SpanForest {
  import opened Common

  type Id(==, !new) = nat
  type Parents = map<Id, Option<Id>>

  // ---------------------------------------------------------------------
  // Ancestry

  /** The span's parent is in the set too. */
  predicate Linked(parents: Parents, v: Id)
    requires v in parents
  {
    parents[v].Some? && parents[v].value in parents
  }

  /** The set has no cycle: ranks go strictly down from child to parent. */
  ghost predicate Acyclic(parents: Parents, rank: map<Id, nat>) {
    forall v | v in parents ::
      v in rank && (Linked(parents, v) ==> parents[v].value in rank && rank[parents[v].value] < rank[v])
  }

  ghost predicate Above(parents: Parents, rank: map<Id, nat>, u: Id, v: Id)
    requires Acyclic(parents, rank) && v in parents
    decreases rank[v]
  {
    Linked(parents, v) && (parents[v].value == u || Above(parents, rank, u, parents[v].value))
  }

  /** The number of a span's ancestors in the set. */
  ghost function Depth(parents: Parents, rank: map<Id, nat>, v: Id): nat
    requires Acyclic(parents, rank) && v in parents
    decreases rank[v]
  {
    if Linked(parents, v) then 1 + Depth(parents, rank, parents[v].value) else 0
  }

  lemma {:induction false} AboveIsHigher(parents: Parents, rank: map<Id, nat>, u: Id, v: Id)
    requires Acyclic(parents, rank) && v in parents && Above(parents, rank, u, v)
    ensures u in parents && rank[u] < rank[v]
    decreases rank[v]
  {
    if parents[v].value != u { AboveIsHigher(parents, rank, u, parents[v].value); }
  }

  lemma {:induction false} AboveIsTransitive(parents: Parents, rank: map<Id, nat>, u: Id, v: Id, w: Id)
    requires Acyclic(parents, rank) && v in parents && w in parents
    requires Above(parents, rank, u, v) && Above(parents, rank, v, w)
    ensures Above(parents, rank, u, w)
    decreases rank[w]
  {
    if parents[w].value != v { AboveIsTransitive(parents, rank, u, v, parents[w].value); }
  }

  /** A span's ancestors form a chain. */
  lemma {:induction false} AncestorsAreAChain(parents: Parents, rank: map<Id, nat>, a: Id, b: Id, v: Id)
    requires Acyclic(parents, rank) && v in parents && a in parents && b in parents
    requires Above(parents, rank, a, v) && Above(parents, rank, b, v)
    ensures a == b || Above(parents, rank, a, b) || Above(parents, rank, b, a)
    decreases rank[v]
  {
    var p := parents[v].value;
    if p != a && p != b { AncestorsAreAChain(parents, rank, a, b, p); }
  }

  // ---------------------------------------------------------------------
  // Pruning

  /** The nearest surviving ancestor, or what lies beyond the last dropped one. */
  function Survivor(parents: Parents, ghost rank: map<Id, nat>, doomed: set<Id>, at: Option<Id>): Option<Id>
    requires Acyclic(parents, rank) && doomed <= parents.Keys
    decreases if at.Some? && at.value in doomed then rank[at.value] + 1 else 0
  {
    if at.Some? && at.value in doomed then Survivor(parents, rank, doomed, parents[at.value]) else at
  }

  ghost function Pruned(parents: Parents, rank: map<Id, nat>, doomed: set<Id>): Parents
    requires Acyclic(parents, rank) && doomed <= parents.Keys
  {
    map v | v in parents && v !in doomed :: Survivor(parents, rank, doomed, parents[v])
  }

  /** A survivor in the set is a kept ancestor, and no kept ancestor is nearer. */
  lemma {:induction false} SurvivorIsNearest(parents: Parents, rank: map<Id, nat>, doomed: set<Id>, v: Id)
    requires Acyclic(parents, rank) && doomed <= parents.Keys && v in parents
    ensures var s := Survivor(parents, rank, doomed, parents[v]);
            && (s.Some? ==> s.value !in doomed)
            && (s.Some? && s.value in parents ==> Above(parents, rank, s.value, v))
            && forall u | u in parents && u !in doomed && Above(parents, rank, u, v) ::
                 s.Some? && s.value in parents && (s.value == u || Above(parents, rank, u, s.value))
    decreases rank[v]
  {
    if Linked(parents, v) && parents[v].value in doomed {
      var p := parents[v].value;
      SurvivorIsNearest(parents, rank, doomed, p);
      var s := Survivor(parents, rank, doomed, parents[p]);
      if s.Some? && s.value in parents { AboveIsTransitive(parents, rank, s.value, p, v); }
    }
  }

  /** Climbing from `v` only over spans that go ends at the parent of `u`. */
  ghost predicate ClimbsTo(parents: Parents, rank: map<Id, nat>, doomed: set<Id>, v: Id, u: Id)
    requires Acyclic(parents, rank) && v in parents
  {
    u in parents && (u == v || (u in doomed && Above(parents, rank, u, v)))
  }

  /** What is adopted is the parent of the span or of a dropped ancestor, so also what lies
      beyond the set when the last dropped one had its parent there. */
  lemma {:induction false} SurvivorIsAParent(parents: Parents, rank: map<Id, nat>, doomed: set<Id>, v: Id)
    returns (u: Id)
    requires Acyclic(parents, rank) && doomed <= parents.Keys && v in parents
    ensures ClimbsTo(parents, rank, doomed, v, u) && parents[u] == Survivor(parents, rank, doomed, parents[v])
    decreases rank[v]
  {
    u := v;
    if Linked(parents, v) && parents[v].value in doomed {
      u := SurvivorIsAParent(parents, rank, doomed, parents[v].value);
      if u != parents[v].value { AboveIsTransitive(parents, rank, u, parents[v].value, v); }
    }
  }

  lemma PrunedIsAcyclic(parents: Parents, rank: map<Id, nat>, doomed: set<Id>)
    requires Acyclic(parents, rank) && doomed <= parents.Keys
    ensures Acyclic(Pruned(parents, rank, doomed), rank)
  {
    var pruned := Pruned(parents, rank, doomed);
    forall v | v in pruned && Linked(pruned, v) ensures rank[pruned[v].value] < rank[v] {
      SurvivorIsNearest(parents, rank, doomed, v);
      AboveIsHigher(parents, rank, pruned[v].value, v);
    }
  }

  /** Among kept spans, who is an ancestor of whom is what it was before. */
  lemma {:induction false} AncestrySurvives(parents: Parents, rank: map<Id, nat>, doomed: set<Id>, u: Id, v: Id)
    requires Acyclic(parents, rank) && doomed <= parents.Keys
    requires u in parents && v in parents && u !in doomed && v !in doomed
    ensures Acyclic(Pruned(parents, rank, doomed), rank)
    ensures Above(Pruned(parents, rank, doomed), rank, u, v) <==> Above(parents, rank, u, v)
    decreases rank[v]
  {
    var pruned := Pruned(parents, rank, doomed);
    PrunedIsAcyclic(parents, rank, doomed);
    SurvivorIsNearest(parents, rank, doomed, v);
    if Linked(pruned, v) && pruned[v].value != u {
      var s := pruned[v].value;
      AboveIsHigher(parents, rank, s, v);
      AncestrySurvives(parents, rank, doomed, u, s);
      if Above(parents, rank, u, s) { AboveIsTransitive(parents, rank, u, s, v); }
    }
  }

  // ---------------------------------------------------------------------
  // Nesting

  predicate Unique(s: seq<Id>) {
    forall i, j | 0 <= i < j < |s| :: s[i] != s[j]
  }

  /** Every span with a parent in the set is in that parent's list, once. */
  ghost predicate ChildLists(parents: Parents, children: map<Id, seq<Id>>) {
    && children.Keys == parents.Keys
    && (forall v | v in children :: Unique(children[v]))
    && (forall v, c {:trigger c in children[v]} | v in children ::
          c in children[v] <==> c in parents && parents[c] == Some(v))
  }

  ghost predicate RootList(parents: Parents, roots: seq<Id>) {
    Unique(roots) && forall v {:trigger v in roots} :: v in roots <==> v in parents && !Linked(parents, v)
  }

  ghost predicate Forest(parents: Parents, rank: map<Id, nat>, top: nat, children: map<Id, seq<Id>>) {
    Acyclic(parents, rank) && ChildLists(parents, children) && forall v | v in parents :: rank[v] < top
  }

  lemma ChildrenRankHigher(children: map<Id, seq<Id>>, parents: Parents, rank: map<Id, nat>, top: nat, v: Id)
    requires Forest(parents, rank, top, children) && v in parents
    ensures rank[v] + 1 <= top
    ensures forall c | c in children[v] :: c in parents && rank[v] + 1 <= rank[c] && parents[c] == Some(v)
  {
    assert forall c | c in children[v] :: Linked(parents, c);
  }

  // ---------------------------------------------------------------------
  // Listing depth first

  datatype Entry = Entry(id: Id, depth: nat)

  function Walk(children: map<Id, seq<Id>>, ghost parents: Parents, ghost rank: map<Id, nat>, ghost top: nat,
                v: Id, depth: nat): seq<Entry>
    requires Forest(parents, rank, top, children) && v in parents
    decreases top - rank[v], 1, 0
  {
    assert forall c | c in children[v] :: Linked(parents, c);
    [Entry(v, depth)] + WalkAll(children, parents, rank, top, children[v], depth + 1, rank[v] + 1)
  }

  /** The subtrees of spans that all rank at least `floor`, one after the other. */
  function WalkAll(children: map<Id, seq<Id>>, ghost parents: Parents, ghost rank: map<Id, nat>, ghost top: nat,
                   vs: seq<Id>, depth: nat, ghost floor: nat): seq<Entry>
    requires Forest(parents, rank, top, children)
    requires floor <= top && forall v | v in vs :: v in parents && floor <= rank[v]
    decreases top - floor, 2, |vs|
  {
    if vs == [] then [] else
      Walk(children, parents, rank, top, vs[0], depth) + WalkAll(children, parents, rank, top, vs[1..], depth, floor)
  }

  /** The roots' subtrees. */
  function Flat(children: map<Id, seq<Id>>, ghost parents: Parents, ghost rank: map<Id, nat>, ghost top: nat,
                roots: seq<Id>): seq<Entry>
    requires Forest(parents, rank, top, children) && RootList(parents, roots)
  {
    WalkAll(children, parents, rank, top, roots, 0, 0)
  }

  ghost predicate Lists(entries: seq<Entry>, v: Id) {
    exists i :: 0 <= i < |entries| && entries[i].id == v
  }

  lemma ListsIn(a: seq<Entry>, b: seq<Entry>, v: Id)
    ensures Lists(a + b, v) <==> Lists(a, v) || Lists(b, v)
  {
    if Lists(a, v) { var i :| 0 <= i < |a| && a[i].id == v; assert (a + b)[i].id == v; }
    if Lists(b, v) { var i :| 0 <= i < |b| && b[i].id == v; assert (a + b)[|a| + i].id == v; }
  }

  /** A descendant of a span is, or lies below, one of its children. */
  lemma {:induction false} BelowIsBelowAChild(parents: Parents, rank: map<Id, nat>, v: Id, w: Id) returns (c: Id)
    requires Acyclic(parents, rank) && w in parents && Above(parents, rank, v, w)
    ensures c in parents && parents[c] == Some(v) && (c == w || Above(parents, rank, c, w))
    decreases rank[w]
  {
    if parents[w].value == v { return w; }
    c := BelowIsBelowAChild(parents, rank, v, parents[w].value);
  }

  /** A subtree lists the span and exactly its descendants. */
  lemma {:induction false} WalkListsSubtree(children: map<Id, seq<Id>>, parents: Parents, rank: map<Id, nat>, top: nat,
                                           v: Id, depth: nat, w: Id)
    requires Forest(parents, rank, top, children) && v in parents
    ensures Lists(Walk(children, parents, rank, top, v, depth), w)
            <==> w == v || (w in parents && Above(parents, rank, v, w))
    decreases top - rank[v], 1, 0
  {
    assert forall c | c in children[v] :: Linked(parents, c);
    var below := WalkAll(children, parents, rank, top, children[v], depth + 1, rank[v] + 1);
    ListsIn([Entry(v, depth)], below, w);
    assert Lists([Entry(v, depth)], w) <==> w == v by { assert [Entry(v, depth)][0].id == v; }
    WalkAllListsSubtrees(children, parents, rank, top, children[v], depth + 1, rank[v] + 1, w);
    if w in parents && Above(parents, rank, v, w) {
      var c := BelowIsBelowAChild(parents, rank, v, w);
      assert c in children[v];
    }
    if Lists(below, w) {
      var c :| c in children[v] && InSubtree(parents, rank, c, w);
      if c != w { AboveIsTransitive(parents, rank, v, c, w); }
    }
  }

  ghost predicate InSubtree(parents: Parents, rank: map<Id, nat>, v: Id, w: Id)
    requires Acyclic(parents, rank)
  {
    w in parents && (v == w || Above(parents, rank, v, w))
  }

  lemma {:induction false} WalkAllListsSubtrees(children: map<Id, seq<Id>>, parents: Parents, rank: map<Id, nat>,
                                                top: nat, vs: seq<Id>, depth: nat, floor: nat, w: Id)
    requires Forest(parents, rank, top, children)
    requires floor <= top && forall v | v in vs :: v in parents && floor <= rank[v]
    ensures Lists(WalkAll(children, parents, rank, top, vs, depth, floor), w)
            <==> exists v :: v in vs && InSubtree(parents, rank, v, w)
    decreases top - floor, 2, |vs|
  {
    if vs != [] {
      WalkListsSubtree(children, parents, rank, top, vs[0], depth, w);
      WalkAllListsSubtrees(children, parents, rank, top, vs[1..], depth, floor, w);
      ListsIn(Walk(children, parents, rank, top, vs[0], depth),
              WalkAll(children, parents, rank, top, vs[1..], depth, floor), w);
      assert Lists(Walk(children, parents, rank, top, vs[0], depth), w) <==> InSubtree(parents, rank, vs[0], w);
      if InSubtree(parents, rank, vs[0], w) { assert vs[0] in vs; }
    }
  }

  // ---------------------------------------------------------------------
  // Every span once

  ghost predicate Once(entries: seq<Entry>) {
    forall i, j | 0 <= i < j < |entries| :: entries[i].id != entries[j].id
  }

  /** No two of these share a subtree. */
  ghost predicate Apart(parents: Parents, rank: map<Id, nat>, vs: seq<Id>)
    requires Acyclic(parents, rank) && forall v | v in vs :: v in parents
  {
    Unique(vs) && forall a, b | a in vs && b in vs :: !Above(parents, rank, a, b)
  }

  lemma ApartShareNothing(parents: Parents, rank: map<Id, nat>, vs: seq<Id>, a: Id, b: Id, w: Id)
    requires Acyclic(parents, rank) && (forall v | v in vs :: v in parents) && Apart(parents, rank, vs)
    requires a in vs && b in vs && InSubtree(parents, rank, a, w) && InSubtree(parents, rank, b, w)
    ensures a == b
  {
    if a != w && b != w { AncestorsAreAChain(parents, rank, a, b, w); }
  }

  lemma SiblingsAreApart(parents: Parents, rank: map<Id, nat>, top: nat, children: map<Id, seq<Id>>, v: Id)
    requires Forest(parents, rank, top, children) && v in parents
    ensures forall c | c in children[v] :: c in parents && Linked(parents, c)
    ensures Apart(parents, rank, children[v])
  {
    forall a, b | a in children[v] && b in children[v] ensures !Above(parents, rank, a, b) {
      if Above(parents, rank, a, b) {
        assert parents[b].value == v && Linked(parents, a);
        if a != v { AboveIsHigher(parents, rank, a, v); }
      }
    }
  }

  lemma NotBelowItself(children: map<Id, seq<Id>>, parents: Parents, rank: map<Id, nat>, top: nat, v: Id, depth: nat)
    requires Forest(parents, rank, top, children) && v in parents
    ensures forall c | c in children[v] :: c in parents && rank[v] + 1 <= rank[c]
    ensures !Lists(WalkAll(children, parents, rank, top, children[v], depth + 1, rank[v] + 1), v)
  {
    ChildrenRankHigher(children, parents, rank, top, v);
    WalkAllListsSubtrees(children, parents, rank, top, children[v], depth + 1, rank[v] + 1, v);
    forall c | c in children[v] ensures !InSubtree(parents, rank, c, v) {
      if c != v && Above(parents, rank, c, v) { AboveIsHigher(parents, rank, c, v); }
    }
  }

  lemma OnceMore(e: Entry, below: seq<Entry>)
    requires Once(below) && !Lists(below, e.id)
    ensures Once([e] + below)
  {
    forall i | 0 <= i < |below| ensures below[i].id != e.id { assert below[i].id == e.id ==> Lists(below, e.id); }
  }

  lemma {:induction false} WalkIsOnce(children: map<Id, seq<Id>>, parents: Parents, rank: map<Id, nat>, top: nat,
                                      v: Id, depth: nat)
    requires Forest(parents, rank, top, children) && v in parents
    ensures Once(Walk(children, parents, rank, top, v, depth))
    decreases top - rank[v], 1, 0
  {
    SiblingsAreApart(parents, rank, top, children, v);
    NotBelowItself(children, parents, rank, top, v, depth);
    WalkAllIsOnce(children, parents, rank, top, children[v], depth + 1, rank[v] + 1);
    OnceMore(Entry(v, depth), WalkAll(children, parents, rank, top, children[v], depth + 1, rank[v] + 1));
  }

  lemma {:induction false} WalkAllIsOnce(children: map<Id, seq<Id>>, parents: Parents, rank: map<Id, nat>, top: nat,
                                        vs: seq<Id>, depth: nat, floor: nat)
    requires Forest(parents, rank, top, children)
    requires floor <= top && forall v | v in vs :: v in parents && floor <= rank[v]
    requires Apart(parents, rank, vs)
    ensures Once(WalkAll(children, parents, rank, top, vs, depth, floor))
    decreases top - floor, 2, |vs|
  {
    if vs != [] {
      var first := Walk(children, parents, rank, top, vs[0], depth);
      var rest := WalkAll(children, parents, rank, top, vs[1..], depth, floor);
      WalkIsOnce(children, parents, rank, top, vs[0], depth);
      WalkAllIsOnce(children, parents, rank, top, vs[1..], depth, floor);
      forall i, j | 0 <= i < |first| && 0 <= j < |rest| ensures first[i].id != rest[j].id {
        FirstIsApart(children, parents, rank, top, vs, depth, floor, first[i].id);
        assert Lists(first, first[i].id) && Lists(rest, rest[j].id);
      }
    }
  }

  lemma FirstIsApart(children: map<Id, seq<Id>>, parents: Parents, rank: map<Id, nat>, top: nat,
                     vs: seq<Id>, depth: nat, floor: nat, w: Id)
    requires Forest(parents, rank, top, children)
    requires floor <= top && (forall v | v in vs :: v in parents && floor <= rank[v])
    requires Apart(parents, rank, vs) && vs != []
    ensures !(Lists(Walk(children, parents, rank, top, vs[0], depth), w)
              && Lists(WalkAll(children, parents, rank, top, vs[1..], depth, floor), w))
  {
    WalkListsSubtree(children, parents, rank, top, vs[0], depth, w);
    WalkAllListsSubtrees(children, parents, rank, top, vs[1..], depth, floor, w);
    if Lists(Walk(children, parents, rank, top, vs[0], depth), w)
       && Lists(WalkAll(children, parents, rank, top, vs[1..], depth, floor), w) {
      var b :| b in vs[1..] && InSubtree(parents, rank, b, w);
      var j :| 0 <= j < |vs[1..]| && vs[1..][j] == b;
      assert vs[j + 1] == b;
      ApartShareNothing(parents, rank, vs, vs[0], b, w);
    }
  }

  // ---------------------------------------------------------------------
  // Depths, and subtrees in one piece

  /** Depths count ancestors. */
  ghost predicate DepthsRight(parents: Parents, rank: map<Id, nat>, entries: seq<Entry>)
    requires Acyclic(parents, rank)
  {
    forall e | e in entries :: e.id in parents && e.depth == Depth(parents, rank, e.id)
  }

  lemma {:induction false} WalkDepths(children: map<Id, seq<Id>>, parents: Parents, rank: map<Id, nat>, top: nat, v: Id)
    requires Forest(parents, rank, top, children) && v in parents
    ensures DepthsRight(parents, rank, Walk(children, parents, rank, top, v, Depth(parents, rank, v)))
    decreases top - rank[v], 1, 0
  {
    assert forall c | c in children[v] :: Linked(parents, c);
    WalkAllDepths(children, parents, rank, top, children[v], Depth(parents, rank, v) + 1, rank[v] + 1);
  }

  lemma {:induction false} WalkAllDepths(children: map<Id, seq<Id>>, parents: Parents, rank: map<Id, nat>, top: nat,
                                        vs: seq<Id>, depth: nat, floor: nat)
    requires Forest(parents, rank, top, children)
    requires floor <= top && forall v | v in vs :: v in parents && floor <= rank[v] && Depth(parents, rank, v) == depth
    ensures DepthsRight(parents, rank, WalkAll(children, parents, rank, top, vs, depth, floor))
    decreases top - floor, 2, |vs|
  {
    if vs != [] {
      WalkDepths(children, parents, rank, top, vs[0]);
      WalkAllDepths(children, parents, rank, top, vs[1..], depth, floor);
    }
  }

  ghost predicate StandsAt(piece: seq<Entry>, entries: seq<Entry>, i: nat) {
    i + |piece| <= |entries| && entries[i..i + |piece|] == piece
  }

  /** The listing holds this piece without interruption. */
  ghost predicate Within(piece: seq<Entry>, entries: seq<Entry>) {
    exists i :: StandsAt(piece, entries, i)
  }

  lemma WithinJoined(piece: seq<Entry>, a: seq<Entry>, b: seq<Entry>)
    requires Within(piece, a) || Within(piece, b)
    ensures Within(piece, a + b)
  {
    if Within(piece, a) {
      var i :| StandsAt(piece, a, i);
      assert StandsAt(piece, a + b, i);
    } else {
      var i :| StandsAt(piece, b, i);
      assert StandsAt(piece, a + b, |a| + i);
    }
  }

  ghost function Subtree(children: map<Id, seq<Id>>, parents: Parents, rank: map<Id, nat>, top: nat, w: Id): seq<Entry>
    requires Forest(parents, rank, top, children) && w in parents
  {
    Walk(children, parents, rank, top, w, Depth(parents, rank, w))
  }

  lemma {:induction false} SubtreesAreWhole(children: map<Id, seq<Id>>, parents: Parents, rank: map<Id, nat>, top: nat,
                                           v: Id, w: Id)
    requires Forest(parents, rank, top, children) && v in parents && InSubtree(parents, rank, v, w)
    ensures Within(Subtree(children, parents, rank, top, w), Subtree(children, parents, rank, top, v))
    decreases top - rank[v], 1, 0
  {
    var all := Subtree(children, parents, rank, top, v);
    if v == w {
      assert StandsAt(all, all, 0);
    } else {
      assert forall c | c in children[v] :: Linked(parents, c);
      var c := BelowIsBelowAChild(parents, rank, v, w);
      WholeInOneOf(children, parents, rank, top, children[v], Depth(parents, rank, v) + 1, rank[v] + 1, c, w);
      WithinJoined(Subtree(children, parents, rank, top, w), [all[0]],
                   WalkAll(children, parents, rank, top, children[v], Depth(parents, rank, v) + 1, rank[v] + 1));
    }
  }

  lemma {:induction false} WholeInOneOf(children: map<Id, seq<Id>>, parents: Parents, rank: map<Id, nat>, top: nat,
                                       vs: seq<Id>, depth: nat, floor: nat, v: Id, w: Id)
    requires Forest(parents, rank, top, children)
    requires floor <= top && forall x | x in vs :: x in parents && floor <= rank[x] && Depth(parents, rank, x) == depth
    requires v in vs && InSubtree(parents, rank, v, w)
    ensures Within(Subtree(children, parents, rank, top, w), WalkAll(children, parents, rank, top, vs, depth, floor))
    decreases top - floor, 2, |vs|
  {
    if vs[0] == v {
      SubtreesAreWhole(children, parents, rank, top, v, w);
    } else {
      WholeInOneOf(children, parents, rank, top, vs[1..], depth, floor, v, w);
    }
    WithinJoined(Subtree(children, parents, rank, top, w), Walk(children, parents, rank, top, vs[0], depth),
                 WalkAll(children, parents, rank, top, vs[1..], depth, floor));
  }

  // ---------------------------------------------------------------------
  // The whole listing

  lemma {:induction false} HasRoot(parents: Parents, rank: map<Id, nat>, v: Id) returns (root: Id)
    requires Acyclic(parents, rank) && v in parents
    ensures root in parents && !Linked(parents, root) && InSubtree(parents, rank, root, v)
    decreases rank[v]
  {
    if !Linked(parents, v) { return v; }
    root := HasRoot(parents, rank, parents[v].value);
  }

  /** The listing holds every span once, each with the number of its ancestors, and
      each span's subtree in one piece that starts with the span and lists exactly it
      and its descendants: parents come before their descendants. */
  lemma ListingIsPreorder(children: map<Id, seq<Id>>, parents: Parents, rank: map<Id, nat>, top: nat, roots: seq<Id>)
    requires Forest(parents, rank, top, children) && RootList(parents, roots)
    ensures var flat := Flat(children, parents, rank, top, roots);
            && Once(flat) && DepthsRight(parents, rank, flat)
            && (forall v :: Lists(flat, v) <==> v in parents)
            && (forall v | v in parents :: Within(Subtree(children, parents, rank, top, v), flat))
    ensures forall v | v in parents ::
              var piece := Subtree(children, parents, rank, top, v);
              piece != [] && piece[0].id == v && forall w :: Lists(piece, w) <==> InSubtree(parents, rank, v, w)
  {
    assert Apart(parents, rank, roots);
    WalkAllIsOnce(children, parents, rank, top, roots, 0, 0);
    WalkAllDepths(children, parents, rank, top, roots, 0, 0);
    forall v ensures Lists(Flat(children, parents, rank, top, roots), v) <==> v in parents {
      WalkAllListsSubtrees(children, parents, rank, top, roots, 0, 0, v);
      if v in parents { var root := HasRoot(parents, rank, v); assert root in roots; }
    }
    forall v | v in parents
      ensures Within(Subtree(children, parents, rank, top, v), Flat(children, parents, rank, top, roots))
    {
      var root := HasRoot(parents, rank, v);
      WholeInOneOf(children, parents, rank, top, roots, 0, 0, root, v);
    }
    forall v, w | v in parents
      ensures Lists(Subtree(children, parents, rank, top, v), w) <==> InSubtree(parents, rank, v, w)
    {
      WalkListsSubtree(children, parents, rank, top, v, Depth(parents, rank, v), w);
    }
  }

  /** One span is listed before the other. */
  ghost predicate Earlier(entries: seq<Entry>, a: Id, b: Id) {
    exists i, j :: 0 <= i < j < |entries| && entries[i].id == a && entries[j].id == b
  }

  lemma EarlierJoined(a: seq<Entry>, b: seq<Entry>, v: Id, w: Id)
    requires Earlier(a, v, w) || Earlier(b, v, w) || (Lists(a, v) && Lists(b, w))
    ensures Earlier(a + b, v, w)
  {
    var s := a + b;
    if Earlier(a, v, w) {
      var i, j :| 0 <= i < j < |a| && a[i].id == v && a[j].id == w;
      assert s[i].id == v && s[j].id == w;
    } else if Earlier(b, v, w) {
      var i, j :| 0 <= i < j < |b| && b[i].id == v && b[j].id == w;
      assert s[|a| + i].id == v && s[|a| + j].id == w;
    } else {
      var i, j :| 0 <= i < |a| && a[i].id == v && 0 <= j < |b| && b[j].id == w;
      assert s[i].id == v && s[|a| + j].id == w;
    }
  }

  lemma {:induction false} WalkAllKeepsOrder(children: map<Id, seq<Id>>, parents: Parents, rank: map<Id, nat>, top: nat,
                                             vs: seq<Id>, depth: nat, floor: nat, i: nat, j: nat)
    requires Forest(parents, rank, top, children)
    requires floor <= top && forall v | v in vs :: v in parents && floor <= rank[v]
    requires i < j < |vs|
    ensures Earlier(WalkAll(children, parents, rank, top, vs, depth, floor), vs[i], vs[j])
  {
    var first := Walk(children, parents, rank, top, vs[0], depth);
    var rest := WalkAll(children, parents, rank, top, vs[1..], depth, floor);
    if i == 0 {
      assert first[0].id == vs[0];
      WalkAllListsSubtrees(children, parents, rank, top, vs[1..], depth, floor, vs[j]);
      assert vs[j] == vs[1..][j - 1] && InSubtree(parents, rank, vs[j], vs[j]);
    } else {
      WalkAllKeepsOrder(children, parents, rank, top, vs[1..], depth, floor, i - 1, j - 1);
    }
    EarlierJoined(first, rest, vs[i], vs[j]);
  }

  lemma WithinKeepsOrder(piece: seq<Entry>, entries: seq<Entry>, v: Id, w: Id)
    requires Within(piece, entries) && Earlier(piece, v, w)
    ensures Earlier(entries, v, w)
  {
    var at: nat :| StandsAt(piece, entries, at);
    var i, j :| 0 <= i < j < |piece| && piece[i].id == v && piece[j].id == w;
    assert entries[at..at + |piece|][i].id == v && entries[at..at + |piece|][j].id == w;
    assert entries[at + i].id == v && entries[at + j].id == w;
  }

  /** Roots, and the children of one span, are listed in the order their lists have them. */
  lemma ListingKeepsOrder(children: map<Id, seq<Id>>, parents: Parents, rank: map<Id, nat>, top: nat, roots: seq<Id>)
    requires Forest(parents, rank, top, children) && RootList(parents, roots)
    ensures var flat := Flat(children, parents, rank, top, roots);
            && (forall i, j | 0 <= i < j < |roots| :: Earlier(flat, roots[i], roots[j]))
            && (forall v, i, j | v in parents && 0 <= i < j < |children[v]| ::
                  Earlier(flat, children[v][i], children[v][j]))
  {
    forall i, j | 0 <= i < j < |roots|
      ensures Earlier(Flat(children, parents, rank, top, roots), roots[i], roots[j])
    {
      WalkAllKeepsOrder(children, parents, rank, top, roots, 0, 0, i, j);
    }
    forall v, i, j | v in parents && 0 <= i < j < |children[v]|
      ensures Earlier(Flat(children, parents, rank, top, roots), children[v][i], children[v][j])
    {
      ChildrenInOrder(children, parents, rank, top, roots, v, i, j);
    }
  }

  lemma ChildrenInOrder(children: map<Id, seq<Id>>, parents: Parents, rank: map<Id, nat>, top: nat, roots: seq<Id>,
                        v: Id, i: nat, j: nat)
    requires Forest(parents, rank, top, children) && RootList(parents, roots)
    requires v in parents && i < j < |children[v]|
    ensures Earlier(Flat(children, parents, rank, top, roots), children[v][i], children[v][j])
  {
    var depth, piece := Depth(parents, rank, v), Subtree(children, parents, rank, top, v);
    ChildrenRankHigher(children, parents, rank, top, v);
    WalkAllKeepsOrder(children, parents, rank, top, children[v], depth + 1, rank[v] + 1, i, j);
    EarlierJoined([Entry(v, depth)], WalkAll(children, parents, rank, top, children[v], depth + 1, rank[v] + 1),
                  children[v][i], children[v][j]);
    ListingIsPreorder(children, parents, rank, top, roots);
    WithinKeepsOrder(piece, Flat(children, parents, rank, top, roots), children[v][i], children[v][j]);
  }

  // ---------------------------------------------------------------------
  // Start order

  predicate Before(starts: map<Id, int>, a: Id, b: Id) {
    a in starts && b in starts && (starts[a] < starts[b] || (starts[a] == starts[b] && a <= b))
  }

  predicate InOrder(starts: map<Id, int>, s: seq<Id>) {
    forall i, j | 0 <= i < j < |s| :: Before(starts, s[i], s[j])
  }

  predicate NotLater(starts: map<Id, int>, a: Id, b: Id) {
    a in starts && b in starts && starts[a] <= starts[b]
  }

  /** No span started before one that stands ahead of it. */
  ghost predicate NoneStartsSooner(starts: map<Id, int>, s: seq<Id>) {
    forall i, j {:trigger NotLater(starts, s[i], s[j])} | 0 <= i < j < |s| :: NotLater(starts, s[i], s[j])
  }

  lemma InOrderMeansStarts(starts: map<Id, int>, s: seq<Id>)
    requires InOrder(starts, s)
    ensures NoneStartsSooner(starts, s)
  {
    forall i, j | 0 <= i < j < |s| ensures NotLater(starts, s[i], s[j]) {
      assert Before(starts, s[i], s[j]);
    }
  }

  function Insert(starts: map<Id, int>, v: Id, s: seq<Id>): seq<Id> {
    if s == [] || Before(starts, v, s[0]) then [v] + s else [s[0]] + Insert(starts, v, s[1..])
  }

  function Arrange(starts: map<Id, int>, s: seq<Id>): seq<Id> {
    if s == [] then [] else Insert(starts, s[0], Arrange(starts, s[1..]))
  }

  lemma {:induction false} InsertHolds(starts: map<Id, int>, v: Id, s: seq<Id>)
    ensures forall x :: x in Insert(starts, v, s) <==> x == v || x in s
  {
    if s != [] && !Before(starts, v, s[0]) {
      InsertHolds(starts, v, s[1..]);
      assert s == [s[0]] + s[1..];
    }
  }

  lemma {:induction false} InsertIsUnique(starts: map<Id, int>, v: Id, s: seq<Id>)
    requires Unique(s) && v !in s
    ensures Unique(Insert(starts, v, s))
  {
    if s != [] && !Before(starts, v, s[0]) {
      InsertIsUnique(starts, v, s[1..]);
      InsertHolds(starts, v, s[1..]);
      var rest := Insert(starts, v, s[1..]);
      forall j | 0 <= j < |rest| ensures rest[j] != s[0] { assert rest[j] in rest; }
    }
  }

  lemma {:induction false} InsertSorts(starts: map<Id, int>, v: Id, s: seq<Id>)
    requires v in starts && (forall x | x in s :: x in starts) && InOrder(starts, s)
    ensures InOrder(starts, Insert(starts, v, s))
  {
    if s != [] && !Before(starts, v, s[0]) {
      InsertSorts(starts, v, s[1..]);
      InsertHolds(starts, v, s[1..]);
      FirstComesFirst(starts, s);
      var rest := Insert(starts, v, s[1..]);
      forall j | 0 <= j < |rest| ensures Before(starts, s[0], rest[j]) { assert rest[j] in rest; }
    }
  }

  lemma FirstComesFirst(starts: map<Id, int>, s: seq<Id>)
    requires s != [] && InOrder(starts, s)
    ensures forall x | x in s[1..] :: Before(starts, s[0], x)
  {
    forall x | x in s[1..] ensures Before(starts, s[0], x) {
      var i :| 0 <= i < |s[1..]| && s[1..][i] == x;
      assert s[i + 1] == x;
    }
  }

  lemma {:induction false} ArrangeHolds(starts: map<Id, int>, s: seq<Id>)
    ensures forall x :: x in Arrange(starts, s) <==> x in s
  {
    if s != [] {
      ArrangeHolds(starts, s[1..]);
      InsertHolds(starts, s[0], Arrange(starts, s[1..]));
      assert s == [s[0]] + s[1..];
    }
  }

  lemma FirstIsNotAgain(s: seq<Id>)
    requires s != [] && Unique(s)
    ensures s[0] !in s[1..]
  {
    forall i | 0 <= i < |s[1..]| ensures s[1..][i] != s[0] { assert s[1..][i] == s[i + 1]; }
  }

  lemma {:induction false} ArrangeSorts(starts: map<Id, int>, s: seq<Id>)
    requires forall x | x in s :: x in starts
    ensures InOrder(starts, Arrange(starts, s)) && (Unique(s) ==> Unique(Arrange(starts, s)))
  {
    if s != [] {
      var rest := Arrange(starts, s[1..]);
      ArrangeSorts(starts, s[1..]);
      ArrangeHolds(starts, s[1..]);
      InsertSorts(starts, s[0], rest);
      if Unique(s) {
        FirstIsNotAgain(s);
        InsertIsUnique(starts, s[0], rest);
      }
    }
  }

  // ---------------------------------------------------------------------
  // The operations on a trace

  /** A pattern names a whole span when it starts with "=", else part of one. */
  predicate Matches(name: string, patterns: seq<string>) {
    exists i | 0 <= i < |patterns| ::
      if patterns[i] != [] && patterns[i][0] == '=' then name == patterns[i][1..] else Contains(name, patterns[i])
  }

  predicate Contains(name: string, pattern: string) {
    pattern <= name || (name != [] && Contains(name[1..], pattern))
  }

  predicate Kept(name: string, keep: seq<string>) {
    exists i | 0 <= i < |keep| :: Contains(name, keep[i])
  }

  /** The spans that match a pattern to drop, or none to keep when there are some. */
  predicate Dropped(name: string, patterns: seq<string>, keep: seq<string>) {
    Matches(name, patterns) || (keep != [] && !Kept(name, keep))
  }

  /** The pattern stands somewhere in the name. */
  ghost predicate Part(name: string, pattern: string) {
    exists i: nat :: PartAt(name, pattern, i)
  }

  ghost predicate PartAt(name: string, pattern: string, i: nat) {
    i + |pattern| <= |name| && name[i..i + |pattern|] == pattern
  }

  lemma {:induction false} ContainsIsPart(name: string, pattern: string)
    ensures Contains(name, pattern) <==> Part(name, pattern)
  {
    if pattern <= name {
      assert PartAt(name, pattern, 0);
    } else if name != [] {
      ContainsIsPart(name[1..], pattern);
      if i: nat :| PartAt(name[1..], pattern, i) {
        assert name[i + 1..i + 1 + |pattern|] == name[1..][i..i + |pattern|];
        assert PartAt(name, pattern, i + 1);
      }
      if i: nat :| PartAt(name, pattern, i) {
        assert i > 0;
        assert name[1..][i - 1..i - 1 + |pattern|] == name[i..i + |pattern|];
        assert PartAt(name[1..], pattern, i - 1);
      }
    }
  }

  /** A span goes when its name matches a pattern to drop, or when there are parts to keep
      and it has none of them. A pattern that starts with "=" is the whole name. */
  ghost predicate Goes(name: string, patterns: seq<string>, keep: seq<string>) {
    || (exists p | p in patterns :: if p != [] && p[0] == '=' then name == p[1..] else Part(name, p))
    || (keep != [] && forall p | p in keep :: !Part(name, p))
  }

  lemma DroppedGoes(name: string, patterns: seq<string>, keep: seq<string>)
    ensures Dropped(name, patterns, keep) <==> Goes(name, patterns, keep)
  {
    forall p { ContainsIsPart(name, p); }
    assert Matches(name, patterns)
      <==> exists p | p in patterns :: if p != [] && p[0] == '=' then name == p[1..] else Part(name, p);
    assert Kept(name, keep) <==> exists p | p in keep :: Part(name, p);
  }

  function Without(spans: seq<Id>, doomed: set<Id>): seq<Id> {
    if spans == [] then []
    else Without(spans[..|spans| - 1], doomed)
         + if spans[|spans| - 1] in doomed then [] else [spans[|spans| - 1]]
  }

  lemma {:induction false} WithoutHolds(spans: seq<Id>, doomed: set<Id>)
    requires Unique(spans)
    ensures forall v :: v in Without(spans, doomed) <==> v in spans && v !in doomed
    ensures Unique(Without(spans, doomed))
  {
    if spans != [] {
      var rest := spans[..|spans| - 1];
      WithoutHolds(rest, doomed);
      assert spans == rest + [spans[|spans| - 1]];
    }
  }

  /** One span stands before the other. */
  ghost predicate Precedes(s: seq<Id>, a: Id, b: Id) {
    exists i, j :: 0 <= i < j < |s| && s[i] == a && s[j] == b
  }

  lemma {:induction false} WithoutKeepsOrder(spans: seq<Id>, doomed: set<Id>, a: Id, b: Id)
    requires Unique(spans) && Precedes(Without(spans, doomed), a, b)
    ensures Precedes(spans, a, b)
  {
    var kept, n := Without(spans, doomed), |spans| - 1;
    var rest := Without(spans[..n], doomed);
    var i, j :| 0 <= i < j < |kept| && kept[i] == a && kept[j] == b;
    WithoutHolds(spans[..n], doomed);
    if j < |rest| {
      assert rest[i] == a && rest[j] == b;
      WithoutKeepsOrder(spans[..n], doomed, a, b);
      var k, l :| 0 <= k < l < n && spans[..n][k] == a && spans[..n][l] == b;
      assert spans[k] == a && spans[l] == b;
    } else {
      assert rest[i] == a && a in rest;
      var k :| 0 <= k < n && spans[..n][k] == a;
      assert spans[k] == a && spans[n] == b;
    }
  }

  class Trace {
    var spans: seq<Id>                 // in the order they were captured
    var names: map<Id, string>
    var starts: map<Id, int>
    var parents: Parents
    var children: map<Id, seq<Id>>
    var ordered: seq<Entry>            // the listing, each span with its stamped depth

    ghost predicate Valid()
      reads this
    {
      && Unique(spans)
      && (forall v :: v in spans <==> v in parents)
      && names.Keys == parents.Keys && starts.Keys == parents.Keys && children.Keys == parents.Keys
    }

    /** Drops spans and hands their children to the nearest ancestor left. */
    method Prune(patterns: seq<string>, keep: seq<string>, ghost rank: map<Id, nat>)
      returns (kept: seq<Id>, ghost doomed: set<Id>)
      requires Valid() && Acyclic(parents, rank)
      modifies this`parents
      ensures forall v :: v in doomed <==> v in spans && Goes(names[v], patterns, keep)
      ensures kept == Without(spans, doomed)
      ensures Unique(kept) && forall v :: v in kept <==> v in spans && v !in doomed
      ensures forall a, b | Precedes(kept, a, b) :: Precedes(spans, a, b)
      ensures parents.Keys == old(parents).Keys && doomed <= parents.Keys
      ensures forall v | v in parents ::
                parents[v] == if v in doomed then old(parents)[v] else Pruned(old(parents), rank, doomed)[v]
    {
      var gone := FindDoomed(patterns, keep);
      doomed := gone;
      WithoutHolds(spans, gone);
      kept := Without(spans, gone);
      forall a, b | Precedes(kept, a, b) ensures Precedes(spans, a, b) { WithoutKeepsOrder(spans, gone, a, b); }
      Reparent(kept, gone, rank);
    }

    method FindDoomed(patterns: seq<string>, keep: seq<string>) returns (gone: set<Id>)
      requires Valid()
      ensures forall v :: v in gone <==> v in spans && Goes(names[v], patterns, keep)
    {
      gone := {};
      var i := 0;
      while i < |spans|
        invariant i <= |spans|
        invariant forall v :: v in gone <==> v in spans[..i] && Goes(names[v], patterns, keep)
      {
        DroppedGoes(names[spans[i]], patterns, keep);
        if Dropped(names[spans[i]], patterns, keep) { gone := gone + {spans[i]}; }
        i := i + 1;
      }
      assert spans[..i] == spans;
    }

    /** Climbs over the spans that go. */
    method FindSurvivor(ghost was: Parents, from: Option<Id>, gone: set<Id>, ghost rank: map<Id, nat>)
      returns (at: Option<Id>)
      requires Acyclic(was, rank) && gone <= was.Keys && gone <= parents.Keys
      requires forall v | v in gone :: parents[v] == was[v]
      ensures at == Survivor(was, rank, gone, from)
    {
      at := from;
      while at.Some? && at.value in gone
        invariant Survivor(was, rank, gone, at) == Survivor(was, rank, gone, from)
        decreases if at.Some? && at.value in gone then rank[at.value] + 1 else 0
      {
        at := parents[at.value];
      }
    }

    method Reparent(kept: seq<Id>, gone: set<Id>, ghost rank: map<Id, nat>)
      requires Acyclic(parents, rank) && gone <= parents.Keys
      requires Unique(kept) && forall v :: v in kept <==> v in parents && v !in gone
      modifies this`parents
      ensures parents.Keys == old(parents).Keys
      ensures forall v | v in parents ::
                parents[v] == if v in gone then old(parents)[v] else Pruned(old(parents), rank, gone)[v]
    {
      ghost var was := parents;
      var k := 0;
      while k < |kept|
        invariant k <= |kept| && parents.Keys == was.Keys
        invariant forall v | v in gone || v in kept[k..] :: parents[v] == was[v]
        invariant forall v | v in kept[..k] :: parents[v] == Survivor(was, rank, gone, was[v])
      {
        var at := FindSurvivor(was, parents[kept[k]], gone, rank);
        assert kept[k] in kept[k..];
        parents := parents[kept[k] := at];
        k := k + 1;
      }
      assert kept[..k] == kept;
    }

    /** Nests the spans: every one under its parent when that is here, else a root. */
    method BuildForest() returns (roots: seq<Id>)
      requires Valid() && forall v | v in children :: children[v] == []
      modifies this`children
      ensures Valid() && ChildLists(parents, children) && RootList(parents, roots)
      ensures InOrder(starts, roots) && forall v | v in children :: InOrder(starts, children[v])
      ensures NoneStartsSooner(starts, roots) && forall v | v in children :: NoneStartsSooner(starts, children[v])
    {
      NestsToForest(parents, children, spans);
      roots := Nest();
      roots := SortAll(roots);
      InOrderMeansStarts(starts, roots);
      forall v | v in children { InOrderMeansStarts(starts, children[v]); }
    }

    /** Children and roots in the order they started. */
    method SortAll(unsorted: seq<Id>) returns (roots: seq<Id>)
      requires Valid() && ChildLists(parents, children) && RootList(parents, unsorted)
      modifies this`children
      ensures Valid() && ChildLists(parents, children) && RootList(parents, roots)
      ensures InOrder(starts, roots) && forall v | v in children :: InOrder(starts, children[v])
    {
      SortChildren();
      ArrangedRoots(parents, starts, unsorted);
      roots := Arrange(starts, unsorted);
    }

    method Nest() returns (roots: seq<Id>)
      requires Valid()
      modifies this`children
      ensures Nesting(children, roots) == NestAll(parents, old(children), spans)
    {
      roots := [];
      var i := 0;
      while i < |spans|
        invariant i <= |spans|
        invariant Nesting(children, roots) == NestAll(parents, old(children), spans[..i])
      {
        var v := spans[i];
        assert spans[..i + 1][..i] == spans[..i];
        if parents[v].Some? && parents[v].value in parents {
          var p := parents[v].value;
          children := children[p := children[p] + [v]];
        } else {
          roots := roots + [v];
        }
        i := i + 1;
      }
      assert spans[..i] == spans;
    }

    method SortChildren()
      requires Valid() && ChildLists(parents, children)
      modifies this`children
      ensures ChildLists(parents, children) && forall v | v in children :: InOrder(starts, children[v])
    {
      var i := 0;
      while i < |spans|
        invariant i <= |spans| && ChildLists(parents, children) && SortedUpTo(starts, children, spans, i)
      {
        ArrangeOne(parents, starts, children, spans, i);
        children := children[spans[i] := Arrange(starts, children[spans[i]])];
        i := i + 1;
      }
      AllAreSorted(starts, children, spans);
    }

    /** Lists the forest depth first, stamping every span with its depth. */
    method Flatten(roots: seq<Id>, ghost rank: map<Id, nat>, ghost top: nat)
      requires Forest(parents, rank, top, children) && RootList(parents, roots)
      modifies this`ordered
      ensures ordered == Flat(children, parents, rank, top, roots)
    {
      ordered := [];
      ghost var listed := Flat(children, parents, rank, top, roots);
      WalkSpans(roots, 0, rank, top, 0);
      assert [] + listed == listed;
    }

    method WalkSpan(v: Id, depth: nat, ghost rank: map<Id, nat>, ghost top: nat)
      requires Forest(parents, rank, top, children) && v in parents
      modifies this`ordered
      ensures ordered == old(ordered) + Walk(children, parents, rank, top, v, depth)
      decreases top - rank[v], 1, 0
    {
      ghost var before := ordered;
      ordered := ordered + [Entry(v, depth)];
      ChildrenRankHigher(children, parents, rank, top, v);
      WalkSpans(children[v], depth + 1, rank, top, rank[v] + 1);
      Regroup(before, [Entry(v, depth)], WalkAll(children, parents, rank, top, children[v], depth + 1, rank[v] + 1));
    }

    method WalkSpans(vs: seq<Id>, depth: nat, ghost rank: map<Id, nat>, ghost top: nat, ghost floor: nat)
      requires Forest(parents, rank, top, children)
      requires floor <= top && forall v | v in vs :: v in parents && floor <= rank[v]
      modifies this`ordered
      ensures ordered == old(ordered) + WalkAll(children, parents, rank, top, vs, depth, floor)
      decreases top - floor, 2, |vs|
    {
      if vs != [] {
        ghost var before := ordered;
        WalkSpan(vs[0], depth, rank, top);
        WalkSpans(vs[1..], depth, rank, top, floor);
        Regroup(before, Walk(children, parents, rank, top, vs[0], depth),
                WalkAll(children, parents, rank, top, vs[1..], depth, floor));
      }
    }
  }

  ghost predicate Nested(done: set<Id>, parents: Parents, children: map<Id, seq<Id>>) {
    && (forall v | v in children :: Unique(children[v]))
    && (forall v, c {:trigger c in children[v]} | v in children ::
          c in children[v] <==> c in done && c in parents && parents[c] == Some(v))
  }

  ghost predicate Rooted(done: set<Id>, parents: Parents, roots: seq<Id>) {
    Unique(roots)
    && forall v {:trigger v in roots} :: v in roots <==> v in done && v in parents && !Linked(parents, v)
  }

  datatype Nesting = Nesting(children: map<Id, seq<Id>>, roots: seq<Id>)

  function NestOne(parents: Parents, n: Nesting, v: Id): Nesting
    requires n.children.Keys == parents.Keys && v in parents
  {
    if Linked(parents, v) then n.(children := n.children[parents[v].value := n.children[parents[v].value] + [v]])
    else n.(roots := n.roots + [v])
  }

  function NestAll(parents: Parents, children: map<Id, seq<Id>>, spans: seq<Id>): (n: Nesting)
    requires children.Keys == parents.Keys && forall v | v in spans :: v in parents
    ensures n.children.Keys == parents.Keys
  {
    if spans == [] then Nesting(children, [])
    else NestOne(parents, NestAll(parents, children, spans[..|spans| - 1]), spans[|spans| - 1])
  }

  ghost function Members(s: seq<Id>): set<Id> { set v | v in s }

  lemma {:induction false} NestAllHolds(parents: Parents, children: map<Id, seq<Id>>, spans: seq<Id>)
    requires children.Keys == parents.Keys && Nested({}, parents, children)
    requires Unique(spans) && forall v | v in spans :: v in parents
    ensures var n := NestAll(parents, children, spans);
            Nested(Members(spans), parents, n.children) && Rooted(Members(spans), parents, n.roots)
  {
    if spans == [] {
      assert Members(spans) == {};
    } else {
      var done := spans[..|spans| - 1];
      var v := spans[|spans| - 1];
      NestAllHolds(parents, children, done);
      assert v in spans && v !in done;
      NestOneHolds(Members(done), parents, NestAll(parents, children, done), v);
      assert Members(spans) == Members(done) + {v} by { assert spans == done + [v]; }
    }
  }

  lemma NestsToForest(parents: Parents, children: map<Id, seq<Id>>, spans: seq<Id>)
    requires children.Keys == parents.Keys && forall v | v in children :: children[v] == []
    requires Unique(spans) && forall v :: v in spans <==> v in parents
    ensures var n := NestAll(parents, children, spans); ChildLists(parents, n.children) && RootList(parents, n.roots)
  {
    assert Nested({}, parents, children);
    NestAllHolds(parents, children, spans);
    assert Members(spans) == parents.Keys;
    var n := NestAll(parents, children, spans);
    NestedIsForest(parents, n.children, n.roots);
  }

  lemma NestOneHolds(done: set<Id>, parents: Parents, n: Nesting, v: Id)
    requires n.children.Keys == parents.Keys && v in parents && v !in done
    requires Nested(done, parents, n.children) && Rooted(done, parents, n.roots)
    ensures var m := NestOne(parents, n, v);
            Nested(done + {v}, parents, m.children) && Rooted(done + {v}, parents, m.roots)
  {
    var m := NestOne(parents, n, v);
    forall w, c | w in m.children
      ensures c in m.children[w] <==> c in done + {v} && c in parents && parents[c] == Some(w)
    {
      assert c in n.children[w] <==> c in done && c in parents && parents[c] == Some(w);
    }
    assert forall w | w in m.children :: v !in n.children[w];
    forall w ensures w in m.roots <==> w in done + {v} && w in parents && !Linked(parents, w) {
      assert w in n.roots <==> w in done && w in parents && !Linked(parents, w);
    }
    assert v !in n.roots;
  }

  lemma NestedIsForest(parents: Parents, children: map<Id, seq<Id>>, roots: seq<Id>)
    requires children.Keys == parents.Keys
    requires Nested(parents.Keys, parents, children) && Rooted(parents.Keys, parents, roots)
    ensures ChildLists(parents, children) && RootList(parents, roots)
  {
  }

  lemma ArrangedRoots(parents: Parents, starts: map<Id, int>, roots: seq<Id>)
    requires RootList(parents, roots) && starts.Keys == parents.Keys
    ensures forall v | v in roots :: v in starts
    ensures RootList(parents, Arrange(starts, roots)) && InOrder(starts, Arrange(starts, roots))
  {
    ArrangeHolds(starts, roots);
    ArrangeSorts(starts, roots);
  }

  ghost predicate SortedUpTo(starts: map<Id, int>, children: map<Id, seq<Id>>, spans: seq<Id>, i: nat) {
    forall j | 0 <= j < i <= |spans| :: spans[j] in children && InOrder(starts, children[spans[j]])
  }

  lemma ArrangeOne(parents: Parents, starts: map<Id, int>, children: map<Id, seq<Id>>, spans: seq<Id>, i: nat)
    requires ChildLists(parents, children) && starts.Keys == parents.Keys
    requires i < |spans| && spans[i] in children && SortedUpTo(starts, children, spans, i)
    ensures var arranged := children[spans[i] := Arrange(starts, children[spans[i]])];
            ChildLists(parents, arranged) && SortedUpTo(starts, arranged, spans, i + 1)
  {
    var list := children[spans[i]];
    ArrangeHolds(starts, list);
    ArrangeSorts(starts, list);
    SameListElsewhere(parents, children, spans[i], Arrange(starts, list));
  }

  lemma SameListElsewhere(parents: Parents, children: map<Id, seq<Id>>, v: Id, list: seq<Id>)
    requires ChildLists(parents, children) && v in children && Unique(list)
    requires forall c :: c in list <==> c in children[v]
    ensures ChildLists(parents, children[v := list])
  {
  }

  lemma AllAreSorted(starts: map<Id, int>, children: map<Id, seq<Id>>, spans: seq<Id>)
    requires SortedUpTo(starts, children, spans, |spans|) && forall v | v in children :: v in spans
    ensures forall v | v in children :: InOrder(starts, children[v])
  {
    forall v | v in children ensures InOrder(starts, children[v]) {
      var j :| 0 <= j < |spans| && spans[j] == v;
    }
  }
}

