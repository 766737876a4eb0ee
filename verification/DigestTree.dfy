/**
 The digest of a directory tree hashes every file's path and content digest with a
 NUL byte after each. No two trees feed the hasher the same bytes.
 */
module DigestTree {
  import opened Common

  const NUL: Byte := 0

  /** A path below the root, in the order the tree is walked; directories are skipped. */
  datatype Node = Node(path: Bytes, isFile: bool, content: Bytes)

  datatype Entry = Entry(path: Bytes, digest: Bytes)

  function Framed(entries: seq<Entry>): Bytes {
    if entries == [] then []
    else Framed(entries[..|entries| - 1]) + FrameOf(entries[|entries| - 1])
  }

  function FrameOf(e: Entry): Bytes {
    e.path + [NUL] + e.digest + [NUL]
  }

  /** Paths cannot hold a NUL, and digests are text of one fixed shape. */
  ghost predicate Clean(entries: seq<Entry>) {
    forall e | e in entries :: NUL !in e.path && NUL !in e.digest
  }

  lemma {:induction false} FramedHead(entries: seq<Entry>)
    requires entries != []
    ensures Framed(entries) == FrameOf(entries[0]) + Framed(entries[1..])
    ensures Framed(entries) == entries[0].path + [NUL] + entries[0].digest + [NUL] + Framed(entries[1..])
  {
    if |entries| > 1 {
      var init := entries[..|entries| - 1];
      FramedHead(init);
      assert entries[1..][..|entries[1..]| - 1] == init[1..];
      assert entries[1..][|entries[1..]| - 1] == entries[|entries| - 1];
    } else {
      assert entries[..0] == [] && entries[1..] == [];
    }
  }

  /** The first NUL tells two strings apart. */
  lemma {:induction false} FirstNul(a: Bytes, x: Bytes, b: Bytes, y: Bytes)
    requires NUL !in a && NUL !in b && a + [NUL] + x == b + [NUL] + y
    ensures a == b && x == y
  {
    var s, t := a + [NUL] + x, b + [NUL] + y;
    assert s[|a|] == NUL && t[|b|] == NUL;
    assert forall i | 0 <= i < |a| :: s[i] == a[i] && a[i] in a;
    assert forall i | 0 <= i < |b| :: t[i] == b[i] && b[i] in b;
    assert a == s[..|a|] && b == t[..|b|] && x == s[|a| + 1..] && y == t[|b| + 1..];
  }

  /** Distinct lists of paths and digests feed distinct bytes. */
  lemma {:induction false} FramingIsInjective(a: seq<Entry>, b: seq<Entry>)
    requires Clean(a) && Clean(b) && Framed(a) == Framed(b)
    ensures a == b
  {
    if a != [] { FramedHead(a); }
    if b != [] { FramedHead(b); }
    if a != [] && b != [] {
      HeadsAgree(a[0], Framed(a[1..]), b[0], Framed(b[1..]));
      FramingIsInjective(a[1..], b[1..]);
      assert a == [a[0]] + a[1..] && b == [b[0]] + b[1..];
    }
  }

  lemma HeadsAgree(e: Entry, x: Bytes, f: Entry, y: Bytes)
    requires NUL !in e.path && NUL !in e.digest && NUL !in f.path && NUL !in f.digest
    requires FrameOf(e) + x == FrameOf(f) + y
    ensures e == f && x == y
  {
    var afterE := e.digest + [NUL] + x;
    var afterF := f.digest + [NUL] + y;
    assert FrameOf(e) + x == e.path + [NUL] + afterE;
    assert FrameOf(f) + y == f.path + [NUL] + afterF;
    FirstNul(e.path, afterE, f.path, afterF);
    FirstNul(e.digest, x, f.digest, y);
  }

  /** Without that, it would not be: a NUL in a path can stand for a boundary. */
  lemma NulInAPathCollides(p: Bytes, q: Bytes, d: Bytes)
    ensures Framed([Entry(p + [NUL] + d + [NUL] + q, d)]) == Framed([Entry(p, d), Entry(q, d)])
    ensures [Entry(p + [NUL] + d + [NUL] + q, d)] != [Entry(p, d), Entry(q, d)]
  {
    var one := [Entry(p + [NUL] + d + [NUL] + q, d)];
    var two := [Entry(p, d), Entry(q, d)];
    FramedHead(one);
    FramedHead(two);
    FramedHead(two[1..]);
    assert one[1..] == [] && two[1..][1..] == [];
  }

  // ---------------------------------------------------------------------
  // Trees

  function Entries(nodes: seq<Node>, digest: Bytes -> Bytes): seq<Entry> {
    if nodes == [] then []
    else
      var last := nodes[|nodes| - 1];
      Entries(nodes[..|nodes| - 1], digest) + if last.isFile then [Entry(last.path, digest(last.content))] else []
  }

  function Files(nodes: seq<Node>): seq<(Bytes, Bytes)> {
    if nodes == [] then []
    else
      var last := nodes[|nodes| - 1];
      Files(nodes[..|nodes| - 1]) + if last.isFile then [(last.path, last.content)] else []
  }

  /** These are the files of the walk, in its order: at these places it has them, and at
      no other place it has a file. */
  ghost predicate FilesAt(nodes: seq<Node>, files: seq<(Bytes, Bytes)>, places: seq<nat>) {
    && |places| == |files|
    && (forall k | 0 <= k < |places| ::
          && places[k] < |nodes| && nodes[places[k]].isFile
          && files[k] == (nodes[places[k]].path, nodes[places[k]].content))
    && (forall k, l | 0 <= k < l < |places| :: places[k] < places[l])
    && (forall i | 0 <= i < |nodes| && nodes[i].isFile :: i in places)
  }

  lemma {:induction false} FilesInOrder(nodes: seq<Node>) returns (places: seq<nat>)
    ensures FilesAt(nodes, Files(nodes), places)
  {
    places := [];
    if nodes != [] {
      var n := |nodes| - 1;
      var before := FilesInOrder(nodes[..n]);
      places := before + if nodes[n].isFile then [n] else [];
      FilesOneMore(nodes, Files(nodes[..n]), before);
    }
  }

  lemma FilesOneMore(nodes: seq<Node>, files: seq<(Bytes, Bytes)>, places: seq<nat>)
    requires nodes != [] && FilesAt(nodes[..|nodes| - 1], files, places)
    ensures var last := nodes[|nodes| - 1];
            if last.isFile then FilesAt(nodes, files + [(last.path, last.content)], places + [|nodes| - 1])
            else FilesAt(nodes, files, places)
  {
    var n := |nodes| - 1;
    assert forall i | 0 <= i < n :: nodes[..n][i] == nodes[i];
    assert forall i | 0 <= i < n && nodes[i].isFile :: i in places;
  }

  lemma {:induction false} EntriesOfFiles(nodes: seq<Node>, digest: Bytes -> Bytes)
    ensures |Entries(nodes, digest)| == |Files(nodes)|
    ensures forall i | 0 <= i < |Files(nodes)| ::
              Entries(nodes, digest)[i] == Entry(Files(nodes)[i].0, digest(Files(nodes)[i].1))
    ensures forall f | f in Files(nodes) :: exists n :: n in nodes && n.path == f.0
  {
    if nodes != [] {
      EntriesOfFiles(nodes[..|nodes| - 1], digest);
      assert nodes == nodes[..|nodes| - 1] + [nodes[|nodes| - 1]];
      assert nodes[|nodes| - 1] in nodes;
      forall f | f in Files(nodes[..|nodes| - 1]) ensures exists n :: n in nodes && n.path == f.0 {
        var n :| n in nodes[..|nodes| - 1] && n.path == f.0;
        assert n in nodes;
      }
    }
  }

  /** With a content digest that never collides, trees that feed the same bytes hold
      the same files at the same paths. */
  lemma TreesAreTold(a: seq<Node>, b: seq<Node>, digest: Bytes -> Bytes)
    requires forall x, y | digest(x) == digest(y) :: x == y
    requires forall x :: NUL !in digest(x)
    requires forall n | n in a || n in b :: NUL !in n.path
    requires Framed(Entries(a, digest)) == Framed(Entries(b, digest))
    ensures Files(a) == Files(b)
  {
    EntriesAreClean(a, digest);
    EntriesAreClean(b, digest);
    FramingIsInjective(Entries(a, digest), Entries(b, digest));
    EntriesFixFiles(a, b, digest);
  }

  lemma EntriesAreClean(nodes: seq<Node>, digest: Bytes -> Bytes)
    requires forall x :: NUL !in digest(x)
    requires forall n | n in nodes :: NUL !in n.path
    ensures Clean(Entries(nodes, digest))
  {
    EntriesOfFiles(nodes, digest);
  }

  lemma EntriesFixFiles(a: seq<Node>, b: seq<Node>, digest: Bytes -> Bytes)
    requires forall x, y | digest(x) == digest(y) :: x == y
    requires Entries(a, digest) == Entries(b, digest)
    ensures Files(a) == Files(b)
  {
    EntriesOfFiles(a, digest);
    EntriesOfFiles(b, digest);
    forall i | 0 <= i < |Files(a)| ensures Files(a)[i] == Files(b)[i] {
      assert Entries(a, digest)[i] == Entries(b, digest)[i];
    }
  }

  lemma FedOneMore(nodes: seq<Node>, i: nat, digest: Bytes -> Bytes)
    requires i < |nodes|
    ensures Framed(Entries(nodes[..i + 1], digest)) ==
              Framed(Entries(nodes[..i], digest)) + if nodes[i].isFile then FrameOf(EntryOf(nodes[i], digest)) else []
  {
    assert nodes[..i + 1][..i] == nodes[..i];
    var before, e := Entries(nodes[..i], digest), EntryOf(nodes[i], digest);
    if nodes[i].isFile {
      assert Entries(nodes[..i + 1], digest) == before + [e];
      assert (before + [e])[..|before|] == before;
    } else {
      assert Entries(nodes[..i + 1], digest) == before;
      assert Framed(before) + [] == Framed(before);
    }
  }

  function EntryOf(node: Node, digest: Bytes -> Bytes): Entry {
    Entry(node.path, digest(node.content))
  }

  class Hasher {
    var fed: Bytes

    constructor ()
      ensures fed == []
    {
      fed := [];
    }

    method Update(data: Bytes)
      modifies this
      ensures fed == old(fed) + data
    {
      fed := fed + data;
    }

    /** The path and the digest of a file, each with a NUL after it. */
    method UpdateFile(path: Bytes, digest: Bytes)
      modifies this
      ensures fed == old(fed) + FrameOf(Entry(path, digest))
      ensures fed == old(fed) + path + [NUL] + digest + [NUL]
    {
      Update(path);
      Update([NUL]);
      Update(digest);
      Update([NUL]);
      ghost var before := old(fed);
      assert before + path + [NUL] + digest + [NUL] == before + (path + [NUL] + digest + [NUL]);
    }
  }

  /** A file is fed; a directory is passed over. */
  method Feed(hasher: Hasher, node: Node, digest: Bytes -> Bytes)
    modifies hasher
    ensures hasher.fed == old(hasher.fed) + if node.isFile then FrameOf(EntryOf(node, digest)) else []
  {
    if node.isFile { hasher.UpdateFile(node.path, digest(node.content)); }
  }

  /** What the hasher is fed for a tree; nothing for an absent or empty one. */
  method DigestTree(root: Option<seq<Node>>, digest: Bytes -> Bytes) returns (hasher: Hasher)
    ensures fresh(hasher)
    ensures hasher.fed == Framed(Entries(if root.Some? then root.value else [], digest))
    ensures root.None? ==> hasher.fed == []
  {
    hasher := new Hasher();
    if root.None? { return; }
    var nodes := root.value;
    var i := 0;
    while i < |nodes|
      invariant i <= |nodes| && fresh(hasher)
      invariant hasher.fed == Framed(Entries(nodes[..i], digest))
      modifies hasher
    {
      FedOneMore(nodes, i, digest);
      Feed(hasher, nodes[i], digest);
      i := i + 1;
    }
    assert nodes[..i] == nodes;
  }
}
