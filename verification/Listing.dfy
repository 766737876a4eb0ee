/**
 Files as listings: entries in the order of their paths. A directory tree, an
 archive and an inventory are all listed this way, so what holds the same entries
 is the same listing.
 */
module Listing {
  import opened Common
  import opened Text

  type Path = string

  datatype Entry<T> = Entry(path: Path, content: T)

  ghost predicate Ascending<T(!new)>(s: seq<Entry<T>>) {
    forall i, j | 0 <= i < j < |s| :: Below(s[i].path, s[j].path)
  }

  ghost predicate Distinct<T(!new)>(s: seq<Entry<T>>) {
    forall i, j | 0 <= i < j < |s| :: s[i].path != s[j].path
  }

  ghost predicate HasPath<T(!new)>(s: seq<Entry<T>>, path: Path) {
    exists i :: 0 <= i < |s| && s[i].path == path
  }

  lemma AscendingIsDistinct<T(!new)>(s: seq<Entry<T>>)
    requires Ascending(s)
    ensures Distinct(s)
  {
    forall i, j | 0 <= i < j < |s| ensures s[i].path != s[j].path { BelowIsAnOrder(s[i].path, s[j].path, s[i].path); }
  }

  /** Entries with one path are one entry. */
  lemma OnePathOneEntry<T(!new)>(s: seq<Entry<T>>, x: Entry<T>, y: Entry<T>)
    requires Distinct(s) && x in s && y in s && x.path == y.path
    ensures x == y
  {
  }

  // ---------------------------------------------------------------------
  // Sorting by path

  function Insert<T(!new)>(e: Entry<T>, s: seq<Entry<T>>): seq<Entry<T>> {
    if s == [] || !Below(s[0].path, e.path) then [e] + s else [s[0]] + Insert(e, s[1..])
  }

  function Arranged<T(!new)>(s: seq<Entry<T>>): seq<Entry<T>> {
    if s == [] then [] else Insert(s[0], Arranged(s[1..]))
  }

  lemma {:induction false} InsertHolds<T(!new)>(e: Entry<T>, s: seq<Entry<T>>)
    ensures forall x :: x in Insert(e, s) <==> x == e || x in s
  {
    if s != [] && Below(s[0].path, e.path) {
      InsertHolds(e, s[1..]);
      assert s == [s[0]] + s[1..];
    }
  }

  lemma {:induction false} ArrangedHolds<T(!new)>(s: seq<Entry<T>>)
    ensures forall x :: x in Arranged(s) <==> x in s
  {
    if s != [] {
      ArrangedHolds(s[1..]);
      InsertHolds(s[0], Arranged(s[1..]));
      assert s == [s[0]] + s[1..];
    }
  }

  lemma {:induction false} InsertAscends<T(!new)>(e: Entry<T>, s: seq<Entry<T>>)
    requires Ascending(s) && !HasPath(s, e.path)
    ensures Ascending(Insert(e, s))
  {
    if s == [] || !Below(s[0].path, e.path) {
      forall j | 0 <= j < |s| ensures Below(e.path, s[j].path) {
        assert s[0].path != e.path;
        BelowIsAnOrder(e.path, s[0].path, s[j].path);
        BelowIsAnOrder(s[0].path, e.path, e.path);
      }
    } else {
      var rest := s[1..];
      assert forall i | 0 <= i < |rest| :: rest[i] == s[i + 1];
      InsertAscends(e, rest);
      InsertHolds(e, rest);
      var r := Insert(e, rest);
      forall j | 0 <= j < |r| ensures Below(s[0].path, r[j].path) {
        assert r[j] in r;
        if r[j] != e { var i :| 0 <= i < |rest| && rest[i] == r[j]; }
      }
    }
  }

  lemma {:induction false} ArrangedAscends<T(!new)>(s: seq<Entry<T>>)
    requires Distinct(s)
    ensures Ascending(Arranged(s))
  {
    if s != [] {
      ArrangedAscends(s[1..]);
      ArrangedHolds(s[1..]);
      var r := Arranged(s[1..]);
      forall i | 0 <= i < |r| ensures r[i].path != s[0].path {
        assert r[i] in r && r[i] in s[1..];
        var j :| 0 <= j < |s[1..]| && s[1..][j] == r[i];
        assert s[j + 1] == r[i];
      }
      InsertAscends(s[0], Arranged(s[1..]));
    }
  }

  /** Ascending listings of the same entries are the same. */
  lemma {:induction false} AscendingIsUnique<T(!new)>(a: seq<Entry<T>>, b: seq<Entry<T>>)
    requires Ascending(a) && Ascending(b) && forall x :: x in a <==> x in b
    ensures a == b
  {
    assert b != [] ==> b[0] in b;
    if a != [] {
      assert a[0] in a;
      FirstIsLowest(a, b[0]);
      FirstIsLowest(b, a[0]);
      BelowIsAnOrder(a[0].path, b[0].path, a[0].path);
      assert a == [a[0]] + a[1..] && b == [b[0]] + b[1..];
      forall x ensures x in a[1..] <==> x in b[1..] {
        FirstIsOnce(a, x);
        FirstIsOnce(b, x);
      }
      AscendingIsUnique(a[1..], b[1..]);
    }
  }

  lemma FirstIsLowest<T(!new)>(a: seq<Entry<T>>, x: Entry<T>)
    requires Ascending(a) && x in a
    ensures x == a[0] || Below(a[0].path, x.path)
  {
  }

  lemma FirstIsOnce<T(!new)>(a: seq<Entry<T>>, x: Entry<T>)
    requires Ascending(a) && a != []
    ensures x in a[1..] <==> x in a && x != a[0]
  {
    assert a == [a[0]] + a[1..];
    if x in a[1..] {
      var i :| 0 <= i < |a[1..]| && a[1..][i] == x;
      assert a[i + 1] == x && Below(a[0].path, x.path);
    }
    BelowIsAnOrder(x.path, x.path, x.path);
  }

  // ---------------------------------------------------------------------
  // Looking up, leaving out, subtrees

  function Lookup<T(!new)>(s: seq<Entry<T>>, path: Path): Option<T> {
    if s == [] then None else if s[0].path == path then Some(s[0].content) else Lookup(s[1..], path)
  }

  lemma {:induction false} LookupHolds<T(!new)>(s: seq<Entry<T>>, path: Path)
    ensures var r := Lookup(s, path);
            if r.Some? then Entry(path, r.value) in s else forall e | e in s :: e.path != path
  {
    if s != [] {
      LookupHolds(s[1..], path);
      assert s == [s[0]] + s[1..];
    }
  }

  function Without<T(!new)>(s: seq<Entry<T>>, path: Path): seq<Entry<T>> {
    if s == [] then [] else (if s[0].path == path then [] else [s[0]]) + Without(s[1..], path)
  }

  lemma {:induction false} WithoutHolds<T(!new)>(s: seq<Entry<T>>, path: Path)
    ensures forall x :: x in Without(s, path) <==> x in s && x.path != path
  {
    if s != [] {
      WithoutHolds(s[1..], path);
      assert s == [s[0]] + s[1..];
    }
  }

  /** The files under a prefix, by their paths below it. */
  function Subtree<T(!new)>(s: seq<Entry<T>>, prefix: Path): seq<Entry<T>> {
    if s == [] then [] else
      (if prefix <= s[0].path then [Entry(s[0].path[|prefix|..], s[0].content)] else []) + Subtree(s[1..], prefix)
  }

  /** A path in a subtree stands for exactly the prefixed path. */
  lemma {:induction false} SubtreeHolds<T(!new)>(s: seq<Entry<T>>, prefix: Path, x: Entry<T>)
    ensures x in Subtree(s, prefix) <==> Entry(prefix + x.path, x.content) in s
  {
    if s != [] {
      SubtreeHolds(s[1..], prefix, x);
      assert s == [s[0]] + s[1..];
      assert prefix <= s[0].path ==> prefix + s[0].path[|prefix|..] == s[0].path;
      assert (prefix + x.path)[|prefix|..] == x.path;
    }
  }

  /** A tree's files, filed under a prefix. */
  function Prefixed<T(!new)>(prefix: Path, tree: seq<Entry<T>>): seq<Entry<T>> {
    if tree == [] then [] else [Entry(prefix + tree[0].path, tree[0].content)] + Prefixed(prefix, tree[1..])
  }

  lemma {:induction false} PrefixedAt<T(!new)>(prefix: Path, tree: seq<Entry<T>>)
    ensures var r := Prefixed(prefix, tree);
            |r| == |tree| && forall i | 0 <= i < |tree| :: r[i] == Entry(prefix + tree[i].path, tree[i].content)
  {
    if tree != [] { PrefixedAt(prefix, tree[1..]); }
  }

  lemma PrefixedHolds<T(!new)>(prefix: Path, tree: seq<Entry<T>>, x: Entry<T>)
    ensures x in Prefixed(prefix, tree) <==> prefix <= x.path && Entry(x.path[|prefix|..], x.content) in tree
  {
    var r := Prefixed(prefix, tree);
    PrefixedAt(prefix, tree);
    if x in r {
      var i :| 0 <= i < |r| && r[i] == x;
      assert x.path[|prefix|..] == tree[i].path;
    }
    if prefix <= x.path && Entry(x.path[|prefix|..], x.content) in tree {
      var i :| 0 <= i < |tree| && tree[i] == Entry(x.path[|prefix|..], x.content);
      assert prefix + x.path[|prefix|..] == x.path && r[i] == x;
    }
  }

  lemma HeadIsBelow<T(!new)>(s: seq<Entry<T>>, y: Entry<T>)
    requires Ascending(s) && s != [] && y in s[1..]
    ensures Below(s[0].path, y.path)
  {
    var i :| 0 <= i < |s[1..]| && s[1..][i] == y;
    assert s[i + 1] == y;
  }

  lemma {:induction false} WithoutAscends<T(!new)>(s: seq<Entry<T>>, path: Path)
    requires Ascending(s)
    ensures Ascending(Without(s, path))
  {
    if s != [] {
      WithoutAscends(s[1..], path);
      WithoutHolds(s[1..], path);
      var r := Without(s[1..], path);
      forall j | 0 <= j < |r| ensures Below(s[0].path, r[j].path) {
        assert r[j] in r;
        HeadIsBelow(s, r[j]);
      }
    }
  }

  lemma {:induction false} SubtreeAscends<T(!new)>(s: seq<Entry<T>>, prefix: Path)
    requires Ascending(s)
    ensures Ascending(Subtree(s, prefix))
  {
    if s != [] {
      SubtreeAscends(s[1..], prefix);
      if prefix <= s[0].path {
        var r := Subtree(s[1..], prefix);
        var head := s[0].path[|prefix|..];
        forall j | 0 <= j < |r| ensures Below(head, r[j].path) {
          assert r[j] in r;
          SubtreeHolds(s[1..], prefix, r[j]);
          HeadIsBelow(s, Entry(prefix + r[j].path, r[j].content));
          assert s[0].path == prefix + head;
          PrefixKeepsOrder(prefix, head, r[j].path);
        }
      }
    }
  }

  lemma PrefixedIsDistinct<T(!new)>(prefix: Path, tree: seq<Entry<T>>)
    requires Distinct(tree)
    ensures Distinct(Prefixed(prefix, tree))
  {
    PrefixedAt(prefix, tree);
    forall i, j | 0 <= i < j < |tree| ensures prefix + tree[i].path != prefix + tree[j].path {
      assert (prefix + tree[i].path)[|prefix|..] == tree[i].path;
      assert (prefix + tree[j].path)[|prefix|..] == tree[j].path;
    }
  }

  ghost predicate Apart<T(!new)>(a: seq<Entry<T>>, b: seq<Entry<T>>) {
    forall x, y | x in a && y in b :: x.path != y.path
  }

  lemma DistinctJoin<T(!new)>(a: seq<Entry<T>>, b: seq<Entry<T>>)
    requires Distinct(a) && Distinct(b) && Apart(a, b)
    ensures Distinct(a + b)
  {
    forall i, j | 0 <= i < j < |a + b| ensures (a + b)[i].path != (a + b)[j].path {
      if i < |a| <= j { assert a[i] in a && b[j - |a|] in b; }
    }
  }

  // ---------------------------------------------------------------------
  // Listings that can be laid out on disk

  /** One path names a directory on the way to the other. */
  ghost predicate Blocks(a: Path, b: Path) {
    a + "/" <= b
  }

  /** No file stands where another one needs a directory. */
  ghost predicate TreeLike<T(!new)>(s: seq<Entry<T>>) {
    forall x, y | x in s && y in s :: !Blocks(x.path, y.path)
  }
}
