/**
 Publishing an REE as one archive and loading it back: the trees are gathered under
 fixed prefixes into sorted entries, the document carries the inventory of all other
 entries, and loading accepts only what matches the inventory.

 An archive is the listing of its entries: packing is taken to be deterministic and
 to lose nothing.
 */
module Bundle {
  import opened Common
  import opened Text
  import opened Listing

  /** `runtime` is the runtime's place in the workspace, when the build names one. */
  datatype Definition = Definition(name: string, runtime: Option<Path>, rest: nat)

  datatype Item = Item(digest: nat, size: nat)

  datatype Subject = Subject(definition: Definition, receipts: nat, contents: seq<Entry<Item>>)

  datatype Seal = Seal(at: nat, digest: nat)

  datatype Ree = Ree(subject: Subject, seal: Option<Seal>)

  datatype Content = Raw(bytes: Bytes) | Document(ree: Ree)

  type Tree = seq<Entry<Content>>

  const RUN: Path := "run.sh"
  const README: Path := "REPRODUCING.md"
  const ACQUIRE: Path := "ree/acquire_source.sh"
  const MATERIALIZE: Path := "ree/materialize_workspace.sh"
  const SNAPSHOT: Path := "ree/snapshot.tar.gz"
  const MANIFEST: Path := "ree/ree.json"
  const OVERLAY: Path := "ree/overlay/"
  const ARTIFACTS: Path := "ree/artifacts/"
  const RESULTS: Path := "ree/results/"

  /** What the model leaves to the outside: digests, sizes, and the generated scripts. */
  datatype Codec = Codec(
    digest: Content -> nat,
    size: Content -> nat,
    subject: Subject -> nat,
    scripts: (Definition, nat) -> (Bytes, Bytes, Bytes, Bytes))

  // ---------------------------------------------------------------------
  // Paths

  predicate IsFixed(p: Path) {
    p == RUN || p == README || p == ACQUIRE || p == MATERIALIZE || p == SNAPSHOT || p == MANIFEST
  }

  predicate IsPrefix(p: Path) {
    p == OVERLAY || p == ARTIFACTS || p == RESULTS
  }

  /** The strings part ways at some place both have. */
  ghost predicate Differ(a: Path, b: Path) {
    exists i :: 0 <= i < |a| && i < |b| && a[i] != b[i]
  }

  lemma DifferAt(a: Path, b: Path, i: nat)
    requires i < |a| && i < |b| && a[i] != b[i]
    ensures Differ(a, b) && Differ(b, a)
  {
  }

  lemma DifferentWays(a: Path, b: Path, s: Path)
    requires Differ(a, b)
    ensures !(a <= s && b <= s)
  {
  }

  lemma PrefixesDiffer(a: Path, b: Path)
    requires IsPrefix(a) && IsPrefix(b) && a != b
    ensures Differ(a, b)
  {
    DifferAt(OVERLAY, ARTIFACTS, 4);
    DifferAt(OVERLAY, RESULTS, 4);
    DifferAt(ARTIFACTS, RESULTS, 4);
  }

  lemma FixedDiffers(p: Path, prefix: Path)
    requires IsFixed(p) && IsPrefix(prefix)
    ensures Differ(p, prefix)
  {
    if p == RUN { DifferAt(p, prefix, 1); }
    else if p == README { DifferAt(p, prefix, 0); }
    else if p == MATERIALIZE || p == SNAPSHOT { DifferAt(p, prefix, 4); }
    else if p == ACQUIRE { DifferAt(p, prefix, if prefix == ARTIFACTS then 5 else 4); }
    else { DifferAt(p, prefix, if prefix == RESULTS then 6 else 4); }
  }

  lemma FixedBlocksNothing(p: Path, q: Path)
    requires IsFixed(p) && (IsFixed(q) || exists prefix :: IsPrefix(prefix) && prefix <= q)
    ensures !Blocks(p, q)
  {
    if IsFixed(q) {
      assert |p| < |q| ==> q[|p|] != '/';
      assert |p| < |q| ==> (p + "/")[|p|] == '/';
    } else {
      var prefix :| IsPrefix(prefix) && prefix <= q;
      FixedDiffers(p, prefix);
      var i :| 0 <= i < |p| && i < |prefix| && p[i] != prefix[i];
      assert (p + "/")[i] == p[i];
    }
  }

  // ---------------------------------------------------------------------
  // Gathering

  /** What goes into an archive besides the document: the reproducer's scripts, the
      trees, the snapshot and the runtime lifted among the artifacts. */
  datatype Parts = Parts(scripts: Tree, overlay: Tree, artifacts: Tree, snapshot: Tree, lifted: Tree, results: Tree)

  function Gathered(p: Parts): Tree {
    p.scripts + Prefixed(OVERLAY, p.overlay) + Prefixed(ARTIFACTS, p.artifacts) + p.snapshot
    + Prefixed(ARTIFACTS, p.lifted) + Prefixed(RESULTS, p.results)
  }

  ghost predicate FixedOnly(t: Tree) {
    forall x | x in t :: IsFixed(x.path) && x.path != MANIFEST
  }

  /** Trees are listed as they are on disk; the lifted runtime is new there. */
  ghost predicate Sound(p: Parts) {
    && FixedOnly(p.scripts) && Distinct(p.scripts) && (forall x | x in p.scripts :: x.path != SNAPSHOT)
    && (forall x | x in p.snapshot :: x.path == SNAPSHOT) && |p.snapshot| <= 1
    && Ascending(p.overlay) && Ascending(p.artifacts) && Ascending(p.results)
    && |p.lifted| <= 1 && Apart(p.artifacts, p.lifted)
  }

  /** Filed under this prefix in this tree. */
  ghost predicate Under(prefix: Path, tree: Tree, x: Entry<Content>) {
    prefix <= x.path && Entry(x.path[|prefix|..], x.content) in tree
  }

  lemma GatheredHolds(p: Parts, x: Entry<Content>)
    ensures x in Gathered(p) <==>
              x in p.scripts || x in p.snapshot || Under(OVERLAY, p.overlay, x)
              || Under(ARTIFACTS, p.artifacts + p.lifted, x) || Under(RESULTS, p.results, x)
  {
    PrefixedHolds(OVERLAY, p.overlay, x);
    PrefixedHolds(ARTIFACTS, p.artifacts, x);
    PrefixedHolds(ARTIFACTS, p.lifted, x);
    PrefixedHolds(RESULTS, p.results, x);
  }

  lemma PrefixedApart(a: Path, s: Tree, b: Path, t: Tree)
    requires IsPrefix(a) && IsPrefix(b) && (a == b ==> Apart(s, t))
    ensures Apart(Prefixed(a, s), Prefixed(b, t))
  {
    forall x, y | x in Prefixed(a, s) && y in Prefixed(b, t) ensures x.path != y.path {
      PrefixedHolds(a, s, x);
      PrefixedHolds(b, t, y);
      if a != b {
        PrefixesDiffer(a, b);
        DifferentWays(a, b, x.path);
      }
    }
  }

  lemma FixedApart(fixed: Tree, b: Path, t: Tree)
    requires (forall x | x in fixed :: IsFixed(x.path)) && IsPrefix(b)
    ensures Apart(fixed, Prefixed(b, t)) && Apart(Prefixed(b, t), fixed)
  {
    forall x, y | x in fixed && y in Prefixed(b, t) ensures x.path != y.path {
      PrefixedHolds(b, t, y);
      FixedDiffers(x.path, b);
      DifferentWays(x.path, b, x.path);
    }
  }

  lemma ApartJoin(a: Tree, b: Tree, c: Tree)
    requires Apart(a, c) && Apart(b, c)
    ensures Apart(a + b, c)
  {
  }

  lemma GatheredIsDistinct(p: Parts)
    requires Sound(p)
    ensures Distinct(Gathered(p))
  {
    AscendingIsDistinct(p.overlay);
    AscendingIsDistinct(p.artifacts);
    AscendingIsDistinct(p.results);
    PrefixedIsDistinct(OVERLAY, p.overlay);
    PrefixedIsDistinct(ARTIFACTS, p.artifacts);
    PrefixedIsDistinct(ARTIFACTS, p.lifted);
    PrefixedIsDistinct(RESULTS, p.results);
    GatherStep(p.scripts, OVERLAY, p.overlay);
    var upToOverlay := p.scripts + Prefixed(OVERLAY, p.overlay);
    FixedApart(p.scripts, ARTIFACTS, p.artifacts);
    PrefixedApart(OVERLAY, p.overlay, ARTIFACTS, p.artifacts);
    ApartJoin(p.scripts, Prefixed(OVERLAY, p.overlay), Prefixed(ARTIFACTS, p.artifacts));
    DistinctJoin(upToOverlay, Prefixed(ARTIFACTS, p.artifacts));
    var upToArtifacts := upToOverlay + Prefixed(ARTIFACTS, p.artifacts);
    FixedApart(p.snapshot, OVERLAY, p.overlay);
    FixedApart(p.snapshot, ARTIFACTS, p.artifacts);
    ApartJoin(p.scripts, Prefixed(OVERLAY, p.overlay), p.snapshot);
    ApartJoin(upToOverlay, Prefixed(ARTIFACTS, p.artifacts), p.snapshot);
    DistinctJoin(upToArtifacts, p.snapshot);
    var upToSnapshot := upToArtifacts + p.snapshot;
    GatherRest(p, upToSnapshot);
  }

  lemma GatherStep(fixed: Tree, prefix: Path, t: Tree)
    requires (forall x | x in fixed :: IsFixed(x.path)) && Distinct(fixed) && IsPrefix(prefix)
             && Distinct(Prefixed(prefix, t))
    ensures Distinct(fixed + Prefixed(prefix, t))
  {
    FixedApart(fixed, prefix, t);
    DistinctJoin(fixed, Prefixed(prefix, t));
  }

  lemma GatherRest(p: Parts, front: Tree)
    requires Sound(p) && Distinct(front) && Distinct(Prefixed(ARTIFACTS, p.lifted))
    requires Distinct(Prefixed(RESULTS, p.results))
    requires front == p.scripts + Prefixed(OVERLAY, p.overlay) + Prefixed(ARTIFACTS, p.artifacts) + p.snapshot
    ensures Distinct(Gathered(p))
  {
    AllApart(p, front, ARTIFACTS, p.lifted);
    DistinctJoin(front, Prefixed(ARTIFACTS, p.lifted));
    AllApart(p, front, RESULTS, p.results);
    PrefixedApart(ARTIFACTS, p.lifted, RESULTS, p.results);
    ApartJoin(front, Prefixed(ARTIFACTS, p.lifted), Prefixed(RESULTS, p.results));
    DistinctJoin(front + Prefixed(ARTIFACTS, p.lifted), Prefixed(RESULTS, p.results));
  }

  lemma AllApart(p: Parts, front: Tree, prefix: Path, t: Tree)
    requires Sound(p) && prefix != OVERLAY && IsPrefix(prefix) && (prefix == ARTIFACTS ==> Apart(p.artifacts, t))
    requires front == p.scripts + Prefixed(OVERLAY, p.overlay) + Prefixed(ARTIFACTS, p.artifacts) + p.snapshot
    ensures Apart(front, Prefixed(prefix, t))
  {
    FixedApart(p.scripts, prefix, t);
    FixedApart(p.snapshot, prefix, t);
    PrefixedApart(OVERLAY, p.overlay, prefix, t);
    PrefixedApart(ARTIFACTS, p.artifacts, prefix, t);
    ApartJoin(p.scripts, Prefixed(OVERLAY, p.overlay), Prefixed(prefix, t));
    ApartJoin(p.scripts + Prefixed(OVERLAY, p.overlay), Prefixed(ARTIFACTS, p.artifacts), Prefixed(prefix, t));
    ApartJoin(p.scripts + Prefixed(OVERLAY, p.overlay) + Prefixed(ARTIFACTS, p.artifacts), p.snapshot,
              Prefixed(prefix, t));
  }

  // ---------------------------------------------------------------------
  // The archive and its trees

  /** The entries of an archive: the sorted parts, and the document filed among them. */
  function Packed(p: Parts, document: Content): Tree {
    Arranged(Arranged(Gathered(p)) + [Entry(MANIFEST, document)])
  }

  lemma GatheredHasNoManifest(p: Parts, x: Entry<Content>)
    requires Sound(p) && x in Gathered(p)
    ensures x.path != MANIFEST
  {
    GatheredHolds(p, x);
    FixedDiffers(MANIFEST, OVERLAY);
    FixedDiffers(MANIFEST, ARTIFACTS);
    FixedDiffers(MANIFEST, RESULTS);
  }

  lemma EntriesAscend(p: Parts)
    requires Sound(p)
    ensures Ascending(Arranged(Gathered(p)))
    ensures forall x | x in Arranged(Gathered(p)) :: x.path != MANIFEST
  {
    var entries := Arranged(Gathered(p));
    GatheredIsDistinct(p);
    ArrangedAscends(Gathered(p));
    ArrangedHolds(Gathered(p));
    forall x | x in entries ensures x.path != MANIFEST { GatheredHasNoManifest(p, x); }
  }

  lemma PackedIs(p: Parts, document: Content)
    requires Sound(p)
    ensures Ascending(Packed(p, document)) && Ascending(Arranged(Gathered(p)))
    ensures forall x :: x in Packed(p, document) <==> x in Gathered(p) || x == Entry(MANIFEST, document)
    ensures Without(Packed(p, document), MANIFEST) == Arranged(Gathered(p))
    ensures Lookup(Packed(p, document), MANIFEST) == Some(document)
  {
    EntriesAscend(p);
    FileAmong(Arranged(Gathered(p)), MANIFEST, document);
    ArrangedHolds(Gathered(p));
    ArrangedHolds(Arranged(Gathered(p)) + [Entry(MANIFEST, document)]);
  }

  /** Filing one more entry and leaving it out again. */
  lemma FileAmong(entries: Tree, path: Path, content: Content)
    requires Ascending(entries) && forall x | x in entries :: x.path != path
    ensures var filed := Arranged(entries + [Entry(path, content)]);
            Ascending(filed) && Without(filed, path) == entries && Lookup(filed, path) == Some(content)
  {
    var filed := Arranged(entries + [Entry(path, content)]);
    AscendingIsDistinct(entries);
    DistinctJoin(entries, [Entry(path, content)]);
    ArrangedAscends(entries + [Entry(path, content)]);
    ArrangedHolds(entries + [Entry(path, content)]);
    WithoutAscends(filed, path);
    WithoutHolds(filed, path);
    AscendingIsUnique(Without(filed, path), entries);
    assert Entry(path, content) in filed;
    AscendingIsDistinct(filed);
    LookupHolds(filed, path);
  }

  /** Under each prefix an archive holds exactly the tree that was filed there. */
  lemma SubtreeBack(p: Parts, document: Content, prefix: Path, tree: Tree)
    requires Sound(p) && Ascending(tree)
    requires (prefix == OVERLAY && tree == p.overlay) || (prefix == RESULTS && tree == p.results)
             || (prefix == ARTIFACTS && tree == Arranged(p.artifacts + p.lifted))
    ensures Subtree(Packed(p, document), prefix) == tree
  {
    PackedIs(p, document);
    SubtreeAscends(Packed(p, document), prefix);
    forall x ensures x in Subtree(Packed(p, document), prefix) <==> x in tree {
      SubtreeHolds(Packed(p, document), prefix, x);
      InOnePrefix(p, prefix, tree, Entry(prefix + x.path, x.content));
      assert (prefix + x.path)[|prefix|..] == x.path;
      FixedDiffers(MANIFEST, prefix);
    }
    AscendingIsUnique(Subtree(Packed(p, document), prefix), tree);
  }

  lemma OnlyOnePrefix(prefix: Path, other: Path, path: Path)
    requires IsPrefix(prefix) && IsPrefix(other) && prefix <= path && other != prefix
    ensures !(other <= path)
  {
    PrefixesDiffer(other, prefix);
    DifferentWays(other, prefix, path);
  }

  lemma InOnePrefix(p: Parts, prefix: Path, tree: Tree, x: Entry<Content>)
    requires Sound(p) && prefix <= x.path
    requires (prefix == OVERLAY && tree == p.overlay) || (prefix == RESULTS && tree == p.results)
             || (prefix == ARTIFACTS && tree == Arranged(p.artifacts + p.lifted))
    ensures x in Gathered(p) <==> Under(prefix, tree, x)
  {
    GatheredHolds(p, x);
    ArrangedHolds(p.artifacts + p.lifted);
    if IsFixed(x.path) {
      FixedDiffers(x.path, prefix);
      DifferentWays(x.path, prefix, x.path);
    }
    if prefix != OVERLAY { OnlyOnePrefix(prefix, OVERLAY, x.path); }
    if prefix != ARTIFACTS { OnlyOnePrefix(prefix, ARTIFACTS, x.path); }
    if prefix != RESULTS { OnlyOnePrefix(prefix, RESULTS, x.path); }
  }

  lemma ArtifactsAscend(p: Parts)
    requires Sound(p)
    ensures Ascending(Arranged(p.artifacts + p.lifted))
  {
    AscendingIsDistinct(p.artifacts);
    DistinctJoin(p.artifacts, p.lifted);
    ArrangedAscends(p.artifacts + p.lifted);
  }

  /** Whatever was lifted, the same archive comes from the artifacts with it in place. */
  lemma LiftedInPlace(p: Parts)
    requires Sound(p)
    ensures var q := p.(artifacts := Arranged(p.artifacts + p.lifted), lifted := []);
            Sound(q) && Arranged(Gathered(q)) == Arranged(Gathered(p))
  {
    var q := p.(artifacts := Arranged(p.artifacts + p.lifted), lifted := []);
    ArtifactsAscend(p);
    assert Sound(q);
    EntriesAscend(p);
    EntriesAscend(q);
    forall x ensures x in Arranged(Gathered(p)) <==> x in Arranged(Gathered(q)) { LiftedInPlaceHolds(p, x); }
    AscendingIsUnique(Arranged(Gathered(p)), Arranged(Gathered(q)));
  }

  lemma LiftedInPlaceHolds(p: Parts, x: Entry<Content>)
    ensures var q := p.(artifacts := Arranged(p.artifacts + p.lifted), lifted := []);
            x in Arranged(Gathered(p)) <==> x in Arranged(Gathered(q))
  {
    var q := p.(artifacts := Arranged(p.artifacts + p.lifted), lifted := []);
    ArrangedHolds(p.artifacts + p.lifted);
    ArrangedHolds(Gathered(p));
    ArrangedHolds(Gathered(q));
    GatheredHolds(p, x);
    GatheredHolds(q, x);
  }

  lemma SnapshotBack(p: Parts, document: Content)
    requires Sound(p)
    ensures Lookup(Packed(p, document), SNAPSHOT) == if p.snapshot == [] then None else Some(p.snapshot[0].content)
  {
    PackedIs(p, document);
    AscendingIsDistinct(Packed(p, document));
    FixedDiffers(SNAPSHOT, OVERLAY);
    FixedDiffers(SNAPSHOT, ARTIFACTS);
    FixedDiffers(SNAPSHOT, RESULTS);
    LookupHolds(Packed(p, document), SNAPSHOT);
    var found := Lookup(Packed(p, document), SNAPSHOT);
    if found.Some? { GatheredHolds(p, Entry(SNAPSHOT, found.value)); }
    if p.snapshot != [] {
      assert p.snapshot[0] in p.snapshot;
      GatheredHolds(p, p.snapshot[0]);
      OnePathOneEntry(Packed(p, document), Entry(SNAPSHOT, found.value), p.snapshot[0]);
    }
  }

  // ---------------------------------------------------------------------
  // When the archive can be unpacked

  /** No artifact lies in a directory of the lifted runtime's name. */
  ghost predicate Clear(p: Parts) {
    forall l, a | l in p.lifted && a in p.artifacts :: !Blocks(l.path, a.path)
  }

  /** The archive can be laid out on disk exactly when nothing is in the runtime's way. */
  lemma UnpacksUnlessBlocked(p: Parts, document: Content)
    requires Sound(p) && TreeLike(p.overlay) && TreeLike(p.artifacts) && TreeLike(p.results)
    requires forall l | l in p.lifted :: '/' !in l.path
    ensures TreeLike(Packed(p, document)) <==> Clear(p)
  {
    if TreeLike(Packed(p, document)) {
      forall l, a | l in p.lifted && a in p.artifacts ensures !Blocks(l.path, a.path) {
        UnpackedIsClear(p, document, l, a);
      }
    }
    if Clear(p) {
      ArtifactsFit(p);
      forall x, y | x in Packed(p, document) && y in Packed(p, document) ensures !Blocks(x.path, y.path) {
        NothingBlocks(p, document, x, y);
      }
    }
  }

  lemma UnpackedIsClear(p: Parts, document: Content, l: Entry<Content>, a: Entry<Content>)
    requires Sound(p) && TreeLike(Packed(p, document)) && l in p.lifted && a in p.artifacts
    ensures !Blocks(l.path, a.path)
  {
    FiledArtifact(p, document, l);
    FiledArtifact(p, document, a);
    NotBlocked(Packed(p, document), Entry(ARTIFACTS + l.path, l.content), Entry(ARTIFACTS + a.path, a.content));
    PrefixKeepsBlocking(ARTIFACTS, l.path, a.path);
  }

  lemma NotBlocked(tree: Tree, x: Entry<Content>, y: Entry<Content>)
    requires TreeLike(tree) && x in tree && y in tree
    ensures !Blocks(x.path, y.path)
  {
  }

  lemma PrefixKeepsBlocking(prefix: Path, a: Path, b: Path)
    ensures Blocks(a, b) ==> Blocks(prefix + a, prefix + b)
  {
    assert prefix + a + "/" == prefix + (a + "/");
    if Blocks(a, b) { assert b == (a + "/") + b[|a| + 1..]; }
  }

  lemma FiledArtifact(p: Parts, document: Content, a: Entry<Content>)
    requires Sound(p) && (a in p.artifacts || a in p.lifted)
    ensures Entry(ARTIFACTS + a.path, a.content) in Packed(p, document)
  {
    PackedIs(p, document);
    var x := Entry(ARTIFACTS + a.path, a.content);
    assert x.path[|ARTIFACTS|..] == a.path;
    GatheredHolds(p, x);
  }

  lemma BlockedHasSlash(a: Path, b: Path)
    requires Blocks(a, b)
    ensures '/' in b && |a| < |b|
  {
    assert b[|a|] == (a + "/")[|a|];
  }

  lemma ArtifactsFit(p: Parts)
    requires TreeLike(p.artifacts) && |p.lifted| <= 1 && Clear(p) && forall l | l in p.lifted :: '/' !in l.path
    ensures TreeLike(Arranged(p.artifacts + p.lifted))
  {
    var all := Arranged(p.artifacts + p.lifted);
    ArrangedHolds(p.artifacts + p.lifted);
    forall x, y | x in all && y in all ensures !Blocks(x.path, y.path) {
      if Blocks(x.path, y.path) { BlockedHasSlash(x.path, y.path); }
      assert y in p.artifacts || y in p.lifted;
    }
  }

  lemma PackedKinds(p: Parts, document: Content, x: Entry<Content>)
    requires Sound(p) && x in Packed(p, document)
    ensures IsFixed(x.path) || Under(OVERLAY, p.overlay, x) || Under(RESULTS, p.results, x)
            || Under(ARTIFACTS, Arranged(p.artifacts + p.lifted), x)
    ensures IsFixed(x.path) || exists prefix :: IsPrefix(prefix) && prefix <= x.path
  {
    PackedIs(p, document);
    GatheredHolds(p, x);
    ArrangedHolds(p.artifacts + p.lifted);
    assert IsPrefix(OVERLAY) && IsPrefix(ARTIFACTS) && IsPrefix(RESULTS);
  }

  lemma UnderInPacked(p: Parts, document: Content, prefix: Path, tree: Tree, x: Entry<Content>)
    requires Sound(p) && x in Packed(p, document) && prefix <= x.path
    requires (prefix == OVERLAY && tree == p.overlay) || (prefix == RESULTS && tree == p.results)
             || (prefix == ARTIFACTS && tree == Arranged(p.artifacts + p.lifted))
    ensures Under(prefix, tree, x)
  {
    PackedIs(p, document);
    FixedDiffers(MANIFEST, prefix);
    DifferentWays(MANIFEST, prefix, x.path);
    InOnePrefix(p, prefix, tree, x);
  }

  lemma NothingBlocks(p: Parts, document: Content, x: Entry<Content>, y: Entry<Content>)
    requires Sound(p) && TreeLike(p.overlay) && TreeLike(Arranged(p.artifacts + p.lifted)) && TreeLike(p.results)
    requires x in Packed(p, document) && y in Packed(p, document)
    ensures !Blocks(x.path, y.path)
  {
    PackedKinds(p, document, x);
    PackedKinds(p, document, y);
    if IsFixed(x.path) {
      FixedBlocksNothing(x.path, y.path);
    } else if Under(OVERLAY, p.overlay, x) {
      if OVERLAY <= y.path { UnderInPacked(p, document, OVERLAY, p.overlay, y); }
      SamePrefixBlocks(OVERLAY, p.overlay, x, y);
    } else if Under(RESULTS, p.results, x) {
      if RESULTS <= y.path { UnderInPacked(p, document, RESULTS, p.results, y); }
      SamePrefixBlocks(RESULTS, p.results, x, y);
    } else {
      var artifacts := Arranged(p.artifacts + p.lifted);
      if ARTIFACTS <= y.path { UnderInPacked(p, document, ARTIFACTS, artifacts, y); }
      SamePrefixBlocks(ARTIFACTS, artifacts, x, y);
    }
  }

  lemma SamePrefixBlocks(prefix: Path, tree: Tree, x: Entry<Content>, y: Entry<Content>)
    requires TreeLike(tree) && Under(prefix, tree, x) && (prefix <= y.path ==> Under(prefix, tree, y))
    ensures !Blocks(x.path, y.path)
  {
    if Blocks(x.path, y.path) {
      StripBlocks(prefix, x.path, y.path);
      NotBlocked(tree, Entry(x.path[|prefix|..], x.content), Entry(y.path[|prefix|..], y.content));
    }
  }

  lemma StripBlocks(prefix: Path, a: Path, b: Path)
    requires prefix <= a && Blocks(a, b)
    ensures prefix <= b && Blocks(a[|prefix|..], b[|prefix|..])
  {
    BlockedHasSlash(a, b);
    assert b[..|prefix|] == a[..|prefix|];
    assert a[|prefix|..] + "/" == (a + "/")[|prefix|..];
  }

  // ---------------------------------------------------------------------
  // Sealing, exporting, loading

  /** The last part of a path. */
  function Name(path: Path): (name: Path)
    ensures '/' !in name
  {
    if path != [] && '/' in path then Name(path[1..]) else path
  }

  /** It is the whole path, or what stands behind a slash. */
  lemma {:induction false} NameIsLast(path: Path) returns (before: Path)
    ensures path == before + Name(path) && (before != [] ==> before[|before| - 1] == '/')
  {
    before := [];
    if path != [] && '/' in path {
      before := NameIsLast(path[1..]);
      if before == [] { assert path == [path[0]] + path[1..] && '/' !in path[1..]; }
      before := [path[0]] + before;
    }
  }

  datatype Store = Store(
    ree: Option<Ree>, overlay: Tree, artifacts: Tree, results: Tree, snapshot: Option<Content>,
    upstream: Tree, workspace: Tree, sealed: Option<Tree>)

  datatype Included = Included(source: bool, runtime: bool, results: bool)

  const EVERYTHING := Included(true, true, true)

  /** The built runtime, when the archive takes it and no artifact has its name. */
  function Lifted(s: Store, d: Definition): Tree {
    if d.runtime.None? then [] else
      var built := Lookup(s.workspace, d.runtime.value);
      var name := Name(d.runtime.value);
      if built.None? || Lookup(s.artifacts, name).Some? then [] else [Entry(name, built.value)]
  }

  function Scripts(c: Codec, subject: Subject): Tree {
    var (run, acquire, materialize, readme) := c.scripts(subject.definition, subject.receipts);
    [Entry(RUN, Raw(run)), Entry(ACQUIRE, Raw(acquire)), Entry(MATERIALIZE, Raw(materialize)),
     Entry(README, Raw(readme))]
  }

  function PartsOf(c: Codec, s: Store, subject: Subject, i: Included): Parts {
    Parts(Scripts(c, subject), s.overlay, s.artifacts,
          if i.source && s.snapshot.Some? then [Entry(SNAPSHOT, s.snapshot.value)] else [],
          if i.runtime then Lifted(s, subject.definition) else [],
          if i.results then s.results else [])
  }

  /** One of the four scripts that are made from the definition and the receipts. */
  predicate IsScript(c: Codec, subject: Subject, x: Entry<Content>) {
    var made := c.scripts(subject.definition, subject.receipts);
    x == Entry(RUN, Raw(made.0)) || x == Entry(ACQUIRE, Raw(made.1)) || x == Entry(MATERIALIZE, Raw(made.2))
    || x == Entry(README, Raw(made.3))
  }

  /** The runtime as it goes among the artifacts: what stands at its place in the workspace,
      under its own name, when no artifact has that name. */
  ghost predicate IsRuntime(s: Store, d: Definition, x: Entry<Content>) {
    && d.runtime.Some? && Lookup(s.workspace, d.runtime.value) == Some(x.content)
    && x.path == Name(d.runtime.value) && forall a | a in s.artifacts :: a.path != x.path
  }

  /** What an archive of this store holds besides its document. */
  ghost predicate Collected(c: Codec, s: Store, subject: Subject, i: Included, x: Entry<Content>) {
    || IsScript(c, subject, x)
    || Under(OVERLAY, s.overlay, x)
    || Under(ARTIFACTS, s.artifacts, x)
    || (i.source && s.snapshot.Some? && x == Entry(SNAPSHOT, s.snapshot.value))
    || (i.runtime && exists l :: IsRuntime(s, subject.definition, l) && x == Entry(ARTIFACTS + l.path, l.content))
    || (i.results && Under(RESULTS, s.results, x))
  }

  /** Path, digest and size of every entry. */
  function Inventory(c: Codec, t: Tree): seq<Entry<Item>> {
    if t == [] then [] else [ItemOf(c, t[0])] + Inventory(c, t[1..])
  }

  function ItemOf(c: Codec, e: Entry<Content>): Entry<Item> {
    Entry(e.path, Item(c.digest(e.content), c.size(e.content)))
  }

  /** An item of an inventory stands for this file. */
  predicate Lists(c: Codec, item: Entry<Item>, file: Entry<Content>) {
    item.path == file.path && item.content.digest == c.digest(file.content)
    && item.content.size == c.size(file.content)
  }

  lemma {:induction false} InventoryAt(c: Codec, t: Tree)
    ensures |Inventory(c, t)| == |t| && forall k | 0 <= k < |t| :: Inventory(c, t)[k] == ItemOf(c, t[k])
    ensures forall k | 0 <= k < |t| :: Lists(c, Inventory(c, t)[k], t[k])
  {
    if t != [] { InventoryAt(c, t[1..]); }
  }

  function Inventoried(c: Codec, subject: Subject, p: Parts): Subject {
    subject.(contents := Inventory(c, Arranged(Gathered(p))))
  }

  predicate SealHolds(c: Codec, ree: Ree) {
    ree.seal.Some? ==> ree.seal.value.digest == c.subject(ree.subject)
  }

  /** A sealed REE is its stored archive; a draft is gathered anew. */
  function Exported(c: Codec, s: Store): Option<Tree> {
    if s.ree.None? then None
    else if s.ree.value.seal.Some? then s.sealed
    else
      var p := PartsOf(c, s, s.ree.value.subject, EVERYTHING);
      Some(Packed(p, Document(Ree(Inventoried(c, s.ree.value.subject, p), None))))
  }

  /** The document of a bundle that may be loaded: it is there, its seal holds, and
      every other file is what its inventory says. */
  function Accepted(c: Codec, bundle: Tree): Option<Ree> {
    var document := Lookup(bundle, MANIFEST);
    if document.Some? && document.value.Document? && SealHolds(c, document.value.ree)
       && Inventory(c, Without(bundle, MANIFEST)) == document.value.ree.subject.contents
    then Some(document.value.ree) else None
  }

  /** The document is this one, its seal is of what it says, and what it says of the other
      files holds: each is listed with its digest and size, in order, and no other is. */
  ghost predicate Vouches(c: Codec, ree: Ree, bundle: Tree) {
    var files, items := Without(bundle, MANIFEST), ree.subject.contents;
    && Lookup(bundle, MANIFEST) == Some(Document(ree))
    && (ree.seal.Some? ==> ree.seal.value.digest == c.subject(ree.subject))
    && |items| == |files| && forall k | 0 <= k < |files| :: Lists(c, items[k], files[k])
  }

  lemma AcceptedIsVouched(c: Codec, ree: Ree, bundle: Tree)
    ensures Accepted(c, bundle) == Some(ree) <==> Vouches(c, ree, bundle)
  {
    var files, items := Without(bundle, MANIFEST), ree.subject.contents;
    InventoryAt(c, files);
    if Vouches(c, ree, bundle) {
      forall k | 0 <= k < |files| ensures items[k] == Inventory(c, files)[k] { assert Lists(c, items[k], files[k]); }
    }
  }

  /** What an accepted bundle's files make of a store. */
  function Rebuilt(ree: Ree, bundle: Tree, archive: Tree): Store {
    Store(Some(ree), Subtree(bundle, OVERLAY), Subtree(bundle, ARTIFACTS), Subtree(bundle, RESULTS),
          Lookup(bundle, SNAPSHOT), [], [], if ree.seal.Some? then Some(archive) else None)
  }

  function Restored(c: Codec, s: Store, bundle: Tree, archive: Tree): Option<Store> {
    if s.ree.None? || Accepted(c, bundle).None? then None
    else Some(Rebuilt(Accepted(c, bundle).value, bundle, archive))
  }

  /** Trees as they are on disk. */
  ghost predicate OnDisk(s: Store) {
    && Ascending(s.overlay) && Ascending(s.artifacts) && Ascending(s.results)
    && TreeLike(s.overlay) && TreeLike(s.artifacts) && TreeLike(s.results)
  }

  lemma PartsAreSound(c: Codec, s: Store, subject: Subject, i: Included)
    requires OnDisk(s)
    ensures Sound(PartsOf(c, s, subject, i))
    ensures forall l | l in PartsOf(c, s, subject, i).lifted :: '/' !in l.path
  {
    ScriptsAreSound(c, subject);
    LiftedIsNew(s, subject.definition);
  }

  lemma ScriptsAreSound(c: Codec, subject: Subject)
    ensures var scripts := Scripts(c, subject);
            FixedOnly(scripts) && Distinct(scripts) && forall x | x in scripts :: x.path != SNAPSHOT
  {
    ScriptPathsDiffer();
    var scripts := Scripts(c, subject);
    assert scripts[0].path == RUN && scripts[1].path == ACQUIRE && scripts[2].path == MATERIALIZE
      && scripts[3].path == README;
    forall x | x in scripts ensures IsFixed(x.path) && x.path != MANIFEST && x.path != SNAPSHOT {
      var k :| 0 <= k < 4 && scripts[k] == x;
    }
  }

  lemma LiftedIsNew(s: Store, d: Definition)
    ensures |Lifted(s, d)| <= 1 && Apart(s.artifacts, Lifted(s, d)) && forall l | l in Lifted(s, d) :: '/' !in l.path
  {
    if Lifted(s, d) != [] { LookupHolds(s.artifacts, Name(d.runtime.value)); }
  }

  lemma ScriptPathsDiffer()
    ensures RUN != ACQUIRE && RUN != MATERIALIZE && RUN != README
    ensures ACQUIRE != MATERIALIZE && ACQUIRE != README && MATERIALIZE != README
    ensures SNAPSHOT != RUN && SNAPSHOT != ACQUIRE && SNAPSHOT != MATERIALIZE && SNAPSHOT != README
    ensures MANIFEST != RUN && MANIFEST != ACQUIRE && MANIFEST != MATERIALIZE && MANIFEST != README
    ensures MANIFEST != SNAPSHOT
  {
    assert |RUN| == 6 && |README| == 14 && |ACQUIRE| == 21 && |MATERIALIZE| == 28 && |SNAPSHOT| == 19
      && |MANIFEST| == 12;
  }

  lemma LiftedHolds(s: Store, d: Definition, l: Entry<Content>)
    ensures l in Lifted(s, d) <==> IsRuntime(s, d, l)
  {
    if d.runtime.Some? { LookupHolds(s.artifacts, Name(d.runtime.value)); }
  }

  lemma UnderLifted(s: Store, d: Definition, x: Entry<Content>)
    ensures Under(ARTIFACTS, Lifted(s, d), x)
            <==> exists l :: IsRuntime(s, d, l) && x == Entry(ARTIFACTS + l.path, l.content)
  {
    if Under(ARTIFACTS, Lifted(s, d), x) {
      var l := Entry(x.path[|ARTIFACTS|..], x.content);
      LiftedHolds(s, d, l);
      assert x.path == ARTIFACTS + l.path;
    }
    if l :| IsRuntime(s, d, l) && x == Entry(ARTIFACTS + l.path, l.content) {
      LiftedHolds(s, d, l);
      assert x.path[|ARTIFACTS|..] == l.path;
    }
  }

  /** Gathering takes exactly what is to be collected. */
  lemma GatheredIsCollected(c: Codec, s: Store, subject: Subject, i: Included, x: Entry<Content>)
    ensures x in Gathered(PartsOf(c, s, subject, i)) <==> Collected(c, s, subject, i, x)
  {
    var p := PartsOf(c, s, subject, i);
    GatheredHolds(p, x);
    UnderLifted(s, subject.definition, x);
  }

  // ---------------------------------------------------------------------
  // Round trips

  /** What loading an archive made of these parts leaves behind. */
  function Loaded(p: Parts, ree: Ree, archive: Tree): Store {
    Store(Some(ree), p.overlay, Arranged(p.artifacts + p.lifted), p.results,
          if p.snapshot == [] then None else Some(p.snapshot[0].content), [], [],
          if ree.seal.Some? then Some(archive) else None)
  }

  /** An archive whose document carries its inventory is accepted, and rebuilds the
      trees it was made of, with the runtime among the artifacts. */
  lemma PackedIsAccepted(c: Codec, target: Store, p: Parts, ree: Ree, archive: Tree)
    requires Sound(p) && target.ree.Some? && SealHolds(c, ree)
    requires ree.subject.contents == Inventory(c, Arranged(Gathered(p)))
    ensures Restored(c, target, Packed(p, Document(ree)), archive) == Some(Loaded(p, ree, archive))
  {
    DocumentIsAccepted(c, p, ree);
    PackedIsRebuilt(p, ree, archive);
  }

  lemma DocumentIsAccepted(c: Codec, p: Parts, ree: Ree)
    requires Sound(p) && SealHolds(c, ree) && ree.subject.contents == Inventory(c, Arranged(Gathered(p)))
    ensures Accepted(c, Packed(p, Document(ree))) == Some(ree)
  {
    EntriesAscend(p);
    FileAmong(Arranged(Gathered(p)), MANIFEST, Document(ree));
  }

  lemma PackedIsRebuilt(p: Parts, ree: Ree, archive: Tree)
    requires Sound(p)
    ensures Rebuilt(ree, Packed(p, Document(ree)), archive) == Loaded(p, ree, archive)
  {
    ArtifactsAscend(p);
    SubtreeBack(p, Document(ree), OVERLAY, p.overlay);
    SubtreeBack(p, Document(ree), ARTIFACTS, Arranged(p.artifacts + p.lifted));
    SubtreeBack(p, Document(ree), RESULTS, p.results);
    SnapshotBack(p, Document(ree));
  }

  /** An archive of this store: in order, what is to be collected and the document. */
  ghost predicate Holds(c: Codec, s: Store, subject: Subject, i: Included, document: Content, archive: Tree) {
    && Ascending(archive)
    && forall x :: x in archive <==> Collected(c, s, subject, i, x) || x == Entry(MANIFEST, document)
  }

  /** The document carries the inventory of all other entries, and else says of the REE
      what the store said. */
  ghost predicate Describes(c: Codec, s: Store, ree: Ree, archive: Tree)
    requires s.ree.Some?
  {
    ree.subject == s.ree.value.subject.(contents := Inventory(c, Without(archive, MANIFEST)))
  }

  /** What sealing leaves as the document and the archive. */
  ghost predicate SealedAs(c: Codec, s: Store, i: Included, at: nat, ree: Ree, archive: Tree)
    requires s.ree.Some?
  {
    Holds(c, s, s.ree.value.subject, i, Document(ree), archive) && Describes(c, s, ree, archive)
    && ree.seal == Some(Seal(at, c.subject(ree.subject)))
  }

  /** What exporting a draft makes: everything, and no seal. */
  ghost predicate DraftedAs(c: Codec, s: Store, ree: Ree, archive: Tree)
    requires s.ree.Some?
  {
    Holds(c, s, s.ree.value.subject, EVERYTHING, Document(ree), archive) && Describes(c, s, ree, archive)
    && ree.seal.None?
  }

  lemma CollectedInOrder(c: Codec, s: Store, subject: Subject, i: Included)
    requires OnDisk(s)
    ensures var entries := Arranged(Gathered(PartsOf(c, s, subject, i)));
            Ascending(entries) && forall x :: x in entries <==> Collected(c, s, subject, i, x)
  {
    PartsAreSound(c, s, subject, i);
    EntriesAscend(PartsOf(c, s, subject, i));
    ArrangedHolds(Gathered(PartsOf(c, s, subject, i)));
    forall x { GatheredIsCollected(c, s, subject, i, x); }
  }

  /** Packing what was gathered makes an archive as promised. */
  lemma PackedAsPromised(c: Codec, s: Store, i: Included, ree: Ree)
    requires OnDisk(s) && s.ree.Some?
    requires ree.subject == Inventoried(c, s.ree.value.subject, PartsOf(c, s, s.ree.value.subject, i))
    ensures var archive := Packed(PartsOf(c, s, s.ree.value.subject, i), Document(ree));
            Holds(c, s, s.ree.value.subject, i, Document(ree), archive) && Describes(c, s, ree, archive)
  {
    var p := PartsOf(c, s, s.ree.value.subject, i);
    PartsAreSound(c, s, s.ree.value.subject, i);
    PackedIs(p, Document(ree));
    HoldsIsPacked(c, s, s.ree.value.subject, i, Document(ree), Packed(p, Document(ree)));
  }

  lemma HoldsIsPacked(c: Codec, s: Store, subject: Subject, i: Included, document: Content, archive: Tree)
    requires OnDisk(s)
    ensures Holds(c, s, subject, i, document, archive) <==> archive == Packed(PartsOf(c, s, subject, i), document)
  {
    var p := PartsOf(c, s, subject, i);
    PartsAreSound(c, s, subject, i);
    PackedIs(p, document);
    forall x { GatheredIsCollected(c, s, subject, i, x); }
    if Holds(c, s, subject, i, document, archive) { AscendingIsUnique(archive, Packed(p, document)); }
  }

  lemma MadeIs(c: Codec, s: Store, i: Included, ree: Ree, archive: Tree)
    requires OnDisk(s) && s.ree.Some?
    requires Holds(c, s, s.ree.value.subject, i, Document(ree), archive) && Describes(c, s, ree, archive)
    ensures var p := PartsOf(c, s, s.ree.value.subject, i);
            && archive == Packed(p, Document(ree)) && Without(archive, MANIFEST) == Arranged(Gathered(p))
            && ree.subject == Inventoried(c, s.ree.value.subject, p)
  {
    PartsAreSound(c, s, s.ree.value.subject, i);
    HoldsIsPacked(c, s, s.ree.value.subject, i, Document(ree), archive);
    PackedIs(PartsOf(c, s, s.ree.value.subject, i), Document(ree));
  }

  /** The trees of a store made from an archive of `s`: each tree that was included comes
      back as it was, the runtime among the artifacts, and nothing else is there. */
  ghost predicate GivesBack(s: Store, i: Included, ree: Ree, archive: Tree, back: Store)
    requires s.ree.Some?
  {
    && back.ree == Some(ree) && back.overlay == s.overlay
    && back.results == (if i.results then s.results else [])
    && back.snapshot == (if i.source then s.snapshot else None)
    && Ascending(back.artifacts)
    && (forall a :: a in back.artifacts <==>
          a in s.artifacts || (i.runtime && IsRuntime(s, s.ree.value.subject.definition, a)))
    && back.upstream == [] && back.workspace == []
    && back.sealed == (if ree.seal.Some? then Some(archive) else None)
  }

  /** An artifact lies in a directory of the name the lifted runtime gets. */
  ghost predicate RuntimeBlocked(s: Store, i: Included)
    requires s.ree.Some?
  {
    i.runtime && exists l, a :: IsRuntime(s, s.ree.value.subject.definition, l) && a in s.artifacts
                                && Blocks(l.path, a.path)
  }

  lemma LoadedGivesBack(c: Codec, s: Store, i: Included, ree: Ree, archive: Tree)
    requires OnDisk(s) && s.ree.Some?
    ensures GivesBack(s, i, ree, archive, Loaded(PartsOf(c, s, s.ree.value.subject, i), ree, archive))
    ensures Clear(PartsOf(c, s, s.ree.value.subject, i)) <==> !RuntimeBlocked(s, i)
  {
    var p := PartsOf(c, s, s.ree.value.subject, i);
    PartsAreSound(c, s, s.ree.value.subject, i);
    ArtifactsAscend(p);
    ArrangedHolds(p.artifacts + p.lifted);
    forall a { LiftedHolds(s, s.ree.value.subject.definition, a); }
  }

  /** Sealing and loading. Whatever sealing made of a store can be laid out on disk unless an
      artifact is in the runtime's way; any store accepts it, and gets back each tree that
      was included; and what was loaded is exported as the very archive. */
  lemma SealRoundTrip(c: Codec, s: Store, i: Included, at: nat, ree: Ree, archive: Tree, target: Store)
    requires OnDisk(s) && s.ree.Some? && target.ree.Some? && SealedAs(c, s, i, at, ree, archive)
    ensures TreeLike(archive) <==> !RuntimeBlocked(s, i)
    ensures Restored(c, target, archive, archive).Some?
    ensures var back := Restored(c, target, archive, archive).value;
            GivesBack(s, i, ree, archive, back) && Exported(c, back) == Some(archive)
  {
    var p := PartsOf(c, s, s.ree.value.subject, i);
    PartsAreSound(c, s, s.ree.value.subject, i);
    MadeIs(c, s, i, ree, archive);
    assert TreeLike(p.results);
    SoundPartsRoundTrip(c, p, ree, target);
    LoadedGivesBack(c, s, i, ree, archive);
    SealedExportIsStored(c, p, ree, archive);
  }

  /** Whatever the document, parts that fit its inventory unpack and load alike. */
  lemma SoundPartsRoundTrip(c: Codec, p: Parts, ree: Ree, target: Store)
    requires Sound(p) && (forall l | l in p.lifted :: '/' !in l.path)
    requires TreeLike(p.overlay) && TreeLike(p.artifacts) && TreeLike(p.results)
    requires target.ree.Some? && SealHolds(c, ree) && ree.subject.contents == Inventory(c, Arranged(Gathered(p)))
    ensures var archive := Packed(p, Document(ree));
            && (TreeLike(archive) <==> Clear(p))
            && Restored(c, target, archive, archive) == Some(Loaded(p, ree, archive))
  {
    UnpacksUnlessBlocked(p, Document(ree));
    PackedIsAccepted(c, target, p, ree, Packed(p, Document(ree)));
  }

  /** A sealed REE is exported as the very archive it was loaded from. */
  lemma SealedExportIsStored(c: Codec, p: Parts, ree: Ree, archive: Tree)
    requires ree.seal.Some?
    ensures Exported(c, Loaded(p, ree, archive)) == Some(archive)
  {
  }

  /** Exporting and loading a draft: laid out, accepted and given back as a sealed one is,
      and exporting what was loaded gives the same archive again, the runtime lifted once. */
  lemma DraftRoundTrip(c: Codec, s: Store, ree: Ree, archive: Tree, target: Store)
    requires OnDisk(s) && s.ree.Some? && target.ree.Some? && DraftedAs(c, s, ree, archive)
    ensures TreeLike(archive) <==> !RuntimeBlocked(s, EVERYTHING)
    ensures Restored(c, target, archive, archive).Some?
    ensures var back := Restored(c, target, archive, archive).value;
            GivesBack(s, EVERYTHING, ree, archive, back) && Exported(c, back) == Some(archive)
  {
    var subject := s.ree.value.subject;
    var p := PartsOf(c, s, subject, EVERYTHING);
    PartsAreSound(c, s, subject, EVERYTHING);
    MadeIs(c, s, EVERYTHING, ree, archive);
    SoundPartsRoundTrip(c, p, ree, target);
    LoadedGivesBack(c, s, EVERYTHING, ree, archive);
    LoadedPartsAgree(c, s, subject, ree, archive);
  }

  /** A loaded draft gathers the same entries: its workspace is empty, so nothing is
      lifted a second time. */
  lemma LoadedPartsAgree(c: Codec, s: Store, subject: Subject, draft: Ree, archive: Tree)
    requires OnDisk(s) && draft.subject == Inventoried(c, subject, PartsOf(c, s, subject, EVERYTHING))
    ensures var p := PartsOf(c, s, subject, EVERYTHING);
            var q := PartsOf(c, Loaded(p, draft, archive), draft.subject, EVERYTHING);
            Arranged(Gathered(q)) == Arranged(Gathered(p))
  {
    var p := PartsOf(c, s, subject, EVERYTHING);
    PartsAreSound(c, s, subject, EVERYTHING);
    LiftedInPlace(p);
    var q := PartsOf(c, Loaded(p, draft, archive), draft.subject, EVERYTHING);
    assert q == p.(artifacts := Arranged(p.artifacts + p.lifted), lifted := []);
  }

  /** Such an artifact can be there: the archive of this draft cannot be unpacked. */
  lemma ABlockedRuntime(c: Codec, content: Content) returns (s: Store)
    ensures OnDisk(s) && s.ree.Some? && s.ree.value.seal.None?
    ensures !TreeLike(Packed(PartsOf(c, s, s.ree.value.subject, EVERYTHING), content))
  {
    var subject := Subject(Definition("", Some("out"), 0), 0, []);
    s := Store(Some(Ree(subject, None)), [], [Entry("out/log", content)], [], None, [], [Entry("out", content)], None);
    assert |"out"| == 3 && |"out/log"| == 7 && |"out/log" + "/"| == 8;
    assert TreeLike(s.artifacts);
    OutIsLifted(s, content);
    OutBlocks(c, s, subject, content);
  }

  lemma OutBlocks(c: Codec, s: Store, subject: Subject, content: Content)
    requires OnDisk(s) && s.artifacts == [Entry("out/log", content)]
    requires subject.definition == Definition("", Some("out"), 0)
    requires Lifted(s, subject.definition) == [Entry("out", content)]
    ensures !TreeLike(Packed(PartsOf(c, s, subject, EVERYTHING), content))
  {
    var p := PartsOf(c, s, subject, EVERYTHING);
    PartsAreSound(c, s, subject, EVERYTHING);
    assert Blocks("out", "out/log") by { assert "out" + "/" == "out/log"[..4]; }
    assert p.lifted[0] in p.lifted && p.artifacts[0] in p.artifacts && !Clear(p);
    UnpacksUnlessBlocked(p, content);
  }

  lemma OutIsLifted(s: Store, content: Content)
    requires s.artifacts == [Entry("out/log", content)] && s.workspace == [Entry("out", content)]
    ensures Lifted(s, Definition("", Some("out"), 0)) == [Entry("out", content)]
  {
    assert |"out"| == 3 && |"out/log"| == 7 && '/' !in "out";
    assert Name("out") == "out";
    LookupHolds(s.artifacts, "out");
  }

  // ---------------------------------------------------------------------
  // What a document says a bundle holds

  /** With a digest that never collides, an inventory fixes the files it was made from. */
  lemma InventoryFixesFiles(c: Codec, a: Tree, b: Tree)
    requires forall x, y | c.digest(x) == c.digest(y) :: x == y
    requires Inventory(c, a) == Inventory(c, b)
    ensures a == b
  {
    InventoryAt(c, a);
    InventoryAt(c, b);
    forall k | 0 <= k < |a| ensures a[k] == b[k] {
      assert ItemOf(c, a[k]) == ItemOf(c, b[k]);
    }
  }

  /** Two accepted bundles with one document hold the same files: any changed, added
      or missing file is refused. */
  lemma TamperedIsRefused(c: Codec, s: Store, a: Tree, b: Tree, archive: Tree)
    requires forall x, y | c.digest(x) == c.digest(y) :: x == y
    requires Ascending(a) && Ascending(b) && Lookup(a, MANIFEST) == Lookup(b, MANIFEST)
    requires Restored(c, s, a, archive).Some? && Restored(c, s, b, archive).Some?
    ensures a == b
  {
    InventoryFixesFiles(c, Without(a, MANIFEST), Without(b, MANIFEST));
    SameBesides(a, b, MANIFEST);
  }

  lemma SameBesides(a: Tree, b: Tree, path: Path)
    requires Ascending(a) && Ascending(b)
    requires Without(a, path) == Without(b, path) && Lookup(a, path) == Lookup(b, path)
    ensures a == b
  {
    AscendingIsDistinct(a);
    AscendingIsDistinct(b);
    WithoutHolds(a, path);
    WithoutHolds(b, path);
    LookupHolds(a, path);
    LookupHolds(b, path);
    forall x ensures x in a <==> x in b {
      if x.path == path {
        if x in a { OnePathOneEntry(a, x, Entry(path, Lookup(a, path).value)); }
        if x in b { OnePathOneEntry(b, x, Entry(path, Lookup(b, path).value)); }
      } else {
        assert x in a <==> x in Without(a, path);
        assert x in b <==> x in Without(b, path);
      }
    }
    AscendingIsUnique(a, b);
  }

  /** The digest a seal records decides every file the sealed bundle may hold. */
  lemma SealDigestFixesFiles(c: Codec, s: Store, a: Tree, b: Tree, archive: Tree)
    requires forall x, y | c.digest(x) == c.digest(y) :: x == y
    requires forall x, y | c.subject(x) == c.subject(y) :: x == y
    requires Restored(c, s, a, archive).Some? && Restored(c, s, b, archive).Some?
    requires var r := Restored(c, s, a, archive).value.ree.value.seal;
             var t := Restored(c, s, b, archive).value.ree.value.seal;
             r.Some? && t.Some? && r.value.digest == t.value.digest
    ensures Without(a, MANIFEST) == Without(b, MANIFEST)
  {
    InventoryFixesFiles(c, Without(a, MANIFEST), Without(b, MANIFEST));
  }

  // ---------------------------------------------------------------------
  // The store

  class ReeStore {
    const codec: Codec
    var ree: Option<Ree>
    var overlay: Tree
    var artifacts: Tree
    var results: Tree
    var snapshot: Option<Content>
    var upstream: Tree
    var workspace: Tree
    var sealed: Option<Tree>

    ghost function View(): Store reads this {
      Store(ree, overlay, artifacts, results, snapshot, upstream, workspace, sealed)
    }

    constructor (codec: Codec, s: Store)
      ensures View() == s && this.codec == codec
    {
      this.codec := codec;
      ree, overlay, artifacts, results := s.ree, s.overlay, s.artifacts, s.results;
      snapshot, upstream, workspace, sealed := s.snapshot, s.upstream, s.workspace, s.sealed;
    }

    /** Scripts, trees, snapshot, runtime and results in turn, then sorted. */
    method CollectEntries(subject: Subject, i: Included) returns (entries: Tree)
      requires OnDisk(View())
      ensures entries == Arranged(Gathered(PartsOf(codec, View(), subject, i)))
      ensures Ascending(entries)
      ensures forall x :: x in entries <==> Collected(codec, View(), subject, i, x)
    {
      CollectedInOrder(codec, View(), subject, i);
      entries := CollectFront(subject, i);
      entries := AddRuntime(subject, i, entries);
      if i.results {
        entries := entries + Prefixed(RESULTS, results);
      } else {
        assert entries == entries + Prefixed(RESULTS, []);
      }
      entries := Arranged(entries);
    }

    method CollectFront(subject: Subject, i: Included) returns (entries: Tree)
      ensures entries == Front(PartsOf(codec, View(), subject, i))
    {
      entries := Scripts(codec, subject);
      entries := entries + Prefixed(OVERLAY, overlay);
      entries := entries + Prefixed(ARTIFACTS, artifacts);
      if i.source && snapshot.Some? {
        entries := entries + [Entry(SNAPSHOT, snapshot.value)];
      }
    }

    method AddRuntime(subject: Subject, i: Included, entries: Tree) returns (more: Tree)
      requires OnDisk(View()) && entries == Front(PartsOf(codec, View(), subject, i))
      ensures more == entries + Prefixed(ARTIFACTS, PartsOf(codec, View(), subject, i).lifted)
    {
      more := entries;
      if i.runtime && subject.definition.runtime.Some? {
        var built := Lookup(workspace, subject.definition.runtime.value);
        var name := Name(subject.definition.runtime.value);
        RuntimeIsNew(codec, View(), subject, i, name);
        if built.Some? && Lookup(entries, ARTIFACTS + name).None? {
          more := entries + [Entry(ARTIFACTS + name, built.value)];
        }
      }
    }

    /** Refused when the evidence is stale or the REE is sealed already. */
    method SealRee(i: Included, at: nat, stale: bool) returns (ok: bool)
      requires OnDisk(View())
      modifies this
      ensures ok == (old(ree).Some? && !stale && old(ree).value.seal.None?)
      ensures !ok ==> View() == old(View())
      ensures ok ==>
                && ree.Some? && sealed.Some? && SealedAs(codec, old(View()), i, at, ree.value, sealed.value)
                && View() == old(View()).(ree := ree, sealed := sealed)
    {
      if ree.None? || stale { return false; }
      var subject := ree.value.subject;
      var entries := CollectEntries(subject, i);
      if ree.value.seal.Some? { return false; }
      var inventoried := subject.(contents := Inventory(codec, entries));
      var made := Ree(inventoried, Some(Seal(at, codec.subject(inventoried))));
      PackedAsPromised(codec, View(), i, made);
      sealed := Some(Arranged(entries + [Entry(MANIFEST, Document(made))]));
      ree := Some(made);
      ok := true;
    }

    method BuildReeArchive() returns (archive: Option<Tree>)
      requires OnDisk(View())
      ensures archive == Exported(codec, View())
      ensures ree.None? ==> archive.None?
      ensures ree.Some? && ree.value.seal.Some? ==> archive == sealed
      ensures ree.Some? && ree.value.seal.None? ==>
                archive.Some? && exists draft :: DraftedAs(codec, View(), draft, archive.value)
    {
      if ree.None? { return None; }
      if ree.value.seal.Some? { return sealed; }
      var entries := CollectEntries(ree.value.subject, EVERYTHING);
      var draft := ree.value.(subject := ree.value.subject.(contents := Inventory(codec, entries)));
      PackedAsPromised(codec, View(), EVERYTHING, draft);
      archive := Some(Arranged(entries + [Entry(MANIFEST, Document(draft))]));
      assert DraftedAs(codec, View(), draft, archive.value);
    }

    /** Nothing is touched until the bundle is accepted. */
    method RestoreReeBundle(bundle: Tree, archive: Tree) returns (ok: bool)
      modifies this
      ensures ok == Restored(codec, old(View()), bundle, archive).Some?
      ensures View() == if ok then Restored(codec, old(View()), bundle, archive).value else old(View())
      ensures ok <==> old(ree).Some? && exists loaded :: Vouches(codec, loaded, bundle)
      ensures ok ==> ree.Some? && Vouches(codec, ree.value, bundle)
    {
      forall r { AcceptedIsVouched(codec, r, bundle); }
      var loaded := Check(bundle);
      if ree.None? || loaded.None? { return false; }
      Rebuild(loaded.value, bundle, archive);
      ok := true;
    }

    /** Clears the trees, then writes back what the bundle holds. */
    method Rebuild(loaded: Ree, bundle: Tree, archive: Tree)
      modifies this
      ensures View() == Rebuilt(loaded, bundle, archive)
    {
      upstream, overlay, artifacts, workspace, results := [], [], [], [], [];
      snapshot := Lookup(bundle, SNAPSHOT);
      overlay := Subtree(bundle, OVERLAY);
      artifacts := Subtree(bundle, ARTIFACTS);
      results := Subtree(bundle, RESULTS);
      ree := Some(loaded);
      sealed := if loaded.seal.Some? then Some(archive) else None;
    }

    method Check(bundle: Tree) returns (loaded: Option<Ree>)
      ensures loaded == Accepted(codec, bundle)
    {
      var document := Lookup(bundle, MANIFEST);
      if document.None? || !document.value.Document? { return None; }
      var ree := document.value.ree;
      if !SealHolds(codec, ree) { return None; }
      var actual := ActualInventory(bundle);
      loaded := if actual == ree.subject.contents then Some(ree) else None;
    }

    /** Every file but the document, in order. */
    method ActualInventory(bundle: Tree) returns (items: seq<Entry<Item>>)
      ensures items == Inventory(codec, Without(bundle, MANIFEST))
      ensures var files := Without(bundle, MANIFEST);
              |items| == |files| && forall k | 0 <= k < |files| :: Lists(codec, items[k], files[k])
    {
      InventoryAt(codec, Without(bundle, MANIFEST));
      items := [];
      var k := 0;
      assert bundle[..0] == [];
      while k < |bundle|
        invariant k <= |bundle| && items == Inventory(codec, Without(bundle[..k], MANIFEST))
      {
        InventoryOneMore(codec, bundle, k);
        if bundle[k].path != MANIFEST {
          items := items + [ItemOf(codec, bundle[k])];
        }
        k := k + 1;
      }
      assert bundle[..k] == bundle;
    }
  }

  lemma {:induction false} WithoutJoined(a: Tree, b: Tree, path: Path)
    ensures Without(a + b, path) == Without(a, path) + Without(b, path)
  {
    if a == [] {
      assert a + b == b;
    } else {
      assert (a + b)[1..] == a[1..] + b;
      WithoutJoined(a[1..], b, path);
    }
  }

  lemma InventoryOneMore(c: Codec, bundle: Tree, k: nat)
    requires k < |bundle|
    ensures Inventory(c, Without(bundle[..k + 1], MANIFEST)) ==
              Inventory(c, Without(bundle[..k], MANIFEST))
              + if bundle[k].path == MANIFEST then [] else [ItemOf(c, bundle[k])]
  {
    assert bundle[..k + 1] == bundle[..k] + [bundle[k]];
    WithoutJoined(bundle[..k], [bundle[k]], MANIFEST);
    var last := Without([bundle[k]], MANIFEST);
    assert last == if bundle[k].path == MANIFEST then [] else [bundle[k]] by { assert [bundle[k]][1..] == []; }
    InventoryJoined(c, Without(bundle[..k], MANIFEST), last);
  }

  lemma InventoryJoined(c: Codec, a: Tree, b: Tree)
    ensures Inventory(c, a + b) == Inventory(c, a) + Inventory(c, b)
  {
    InventoryAt(c, a + b);
    InventoryAt(c, a);
    InventoryAt(c, b);
  }

  /** Everything gathered before the runtime. */
  function Front(p: Parts): Tree {
    p.scripts + Prefixed(OVERLAY, p.overlay) + Prefixed(ARTIFACTS, p.artifacts) + p.snapshot
  }

  /** Among the entries gathered so far, only an artifact can have the runtime's path. */
  lemma RuntimeIsNew(c: Codec, s: Store, subject: Subject, i: Included, name: Path)
    requires OnDisk(s)
    ensures Lookup(Front(PartsOf(c, s, subject, i)), ARTIFACTS + name).None? <==> Lookup(s.artifacts, name).None?
  {
    var p := PartsOf(c, s, subject, i);
    PartsAreSound(c, s, subject, i);
    LookupHolds(Front(p), ARTIFACTS + name);
    LookupHolds(s.artifacts, name);
    if Lookup(Front(p), ARTIFACTS + name).Some? {
      InFrontMeansArtifact(p, name, Lookup(Front(p), ARTIFACTS + name).value);
    }
    if Lookup(s.artifacts, name).Some? {
      PrefixedHolds(ARTIFACTS, p.artifacts, Entry(ARTIFACTS + name, Lookup(s.artifacts, name).value));
      assert (ARTIFACTS + name)[|ARTIFACTS|..] == name;
    }
  }

  lemma InFrontMeansArtifact(p: Parts, name: Path, found: Content)
    requires Sound(p) && Entry(ARTIFACTS + name, found) in Front(p)
    ensures Entry(name, found) in p.artifacts
  {
    var bare := p.(lifted := [], results := []);
    var e := Entry(ARTIFACTS + name, found);
    GatheredHolds(bare, e);
    FrontIsGathered(bare);
    InOnePrefix(bare, ARTIFACTS, Arranged(bare.artifacts + bare.lifted), e);
    ArrangedHolds(bare.artifacts + bare.lifted);
    assert (ARTIFACTS + name)[|ARTIFACTS|..] == name;
  }

  lemma FrontIsGathered(p: Parts)
    requires p.lifted == [] && p.results == []
    ensures Gathered(p) == Front(p)
  {
  }
}
