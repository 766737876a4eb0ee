/**
 Host-side staging of uploads: how many bytes the staging directory can ever hold.

 An upload snapshots what the rest of the directory leaves it once, when it opens
 its file, so uploads in flight together may each be promised the same room. The
 step system lets any number of PUTs run, also on one token, with buffered writes
 reaching the disk late, failures and failed resets, and sweeps that unlink a file
 while it is being written.
 */
module Staging {
  import opened Common

  type Token(==, !new) = nat
  type PutId(==, !new) = nat

  // ---------------------------------------------------------------------
  // Sums over maps

  ghost function Sum(m: map<nat, nat>): nat
    decreases m.Keys
  {
    if m == map[] then 0 else
      var k :| k in m;
      m[k] + Sum(m - {k})
  }

  /** The order of summation does not matter. */
  lemma {:induction false} SumSplits(m: map<nat, nat>, k: nat)
    requires k in m
    ensures Sum(m) == m[k] + Sum(m - {k})
    decreases m.Keys
  {
    var j :| j in m && Sum(m) == m[j] + Sum(m - {j});
    if j != k {
      SumSplits(m - {j}, k);
      SumSplits(m - {k}, j);
      assert m - {j} - {k} == m - {k} - {j};
    }
  }

  lemma SumSet(m: map<nat, nat>, k: nat, v: nat)
    ensures Sum(m[k := v]) == Sum(m - {k}) + v
    ensures Sum(m - {k}) + (if k in m then m[k] else 0) == Sum(m)
  {
    SumSplits(m[k := v], k);
    assert m[k := v] - {k} == m - {k};
    if k in m { SumSplits(m, k); } else { assert m - {k} == m; }
  }

  /** `n` times `cap`, as repeated addition. */
  function Caps(n: nat, cap: nat): nat {
    if n == 0 then 0 else cap + Caps(n - 1, cap)
  }

  lemma {:induction false} CapsMultiply(n: nat, cap: nat)
    ensures Caps(n, cap) == n * cap
  {
    if n > 0 {
      CapsMultiply(n - 1, cap);
      assert (n - 1) * cap + cap == n * cap;
    }
  }

  lemma {:induction false} CapsGrow(n: nat, m: nat, cap: nat)
    requires n <= m
    ensures Caps(n, cap) <= Caps(m, cap)
  {
    if n < m { CapsGrow(n, m - 1, cap); }
  }

  lemma {:induction false} SumAtMost(m: map<nat, nat>, cap: nat)
    requires forall k | k in m :: m[k] <= cap
    ensures Sum(m) <= Caps(|m|, cap)
    decreases m.Keys
  {
    if m != map[] {
      var k :| k in m;
      SumSplits(m, k);
      SumAtMost(m - {k}, cap);
      assert (m - {k}).Keys == m.Keys - {k} && |m - {k}| == |m| - 1;
    }
  }

  lemma {:induction false} SumMonotone(m: map<nat, nat>, n: map<nat, nat>)
    requires m.Keys == n.Keys && forall k | k in m :: m[k] <= n[k]
    ensures Sum(m) <= Sum(n)
    decreases m.Keys
  {
    if m != map[] {
      var k :| k in m;
      SumSplits(m, k);
      SumSplits(n, k);
      SumMonotone(m - {k}, n - {k});
    }
  }

  // ---------------------------------------------------------------------
  // The step system

  /** A staged file: its length, and how much of that finished uploads account for. */
  datatype File = File(inode: nat, size: nat, settled: nat)

  /** One PUT: bytes counted so far, and how many of them left the write buffer. */
  datatype Put = Put(token: Token, inode: nat, allowance: nat, total: nat, flushed: nat)

  datatype Sys = Sys(files: map<Token, File>, puts: map<PutId, Put>, inodes: nat)

  datatype Limits = Limits(cap: nat, budget: nat) {
    /** The most one upload can be promised. */
    function Share(): nat { Min(cap, budget) }
  }

  datatype Step =
    | Mint(token: Token)
    | Open(put: PutId, token: Token)
    | Chunk(put: PutId, n: nat, resets: bool)
    | Flush(put: PutId, n: nat)
    | Finish(put: PutId, declared: nat, resets: bool)
    | Fail(put: PutId, resets: bool)
    | Discard(token: Token)

  const EMPTY: Sys := Sys(map[], map[], 0)

  ghost function Sizes(s: Sys): map<nat, nat> { map t | t in s.files :: s.files[t].size }
  ghost function Settled(s: Sys): map<nat, nat> { map t | t in s.files :: s.files[t].settled }
  ghost function Allowances(s: Sys): map<nat, nat> { map p | p in s.puts :: s.puts[p].allowance }

  /** The bytes in the staging directory. */
  ghost function Staged(s: Sys): nat { Sum(Sizes(s)) }

  function Left(budget: nat, used: nat): nat { if used < budget then budget - used else 0 }

  /** What an upload may grow to, given what the other files hold now. */
  ghost function Allowance(limits: Limits, s: Sys, token: Token): nat {
    Min(limits.cap, Left(limits.budget, Sum(Sizes(s) - {token})))
  }

  /** Opening for writing truncates the file, or makes it when it is gone. */
  function Truncated(s: Sys, token: Token): Sys {
    if token in s.files then s.(files := s.files[token := File(s.files[token].inode, 0, 0)])
    else s.(files := s.files[token := File(s.inodes, 0, 0)], inodes := s.inodes + 1)
  }

  /** The writer's first `upTo` bytes are in its file, unless that was unlinked. */
  function Written(s: Sys, p: Put, upTo: nat, settles: bool): Sys {
    if p.token in s.files && s.files[p.token].inode == p.inode then
      var f := s.files[p.token];
      var settled := if settles then Max(f.settled, upTo) else f.settled;
      s.(files := s.files[p.token := File(f.inode, Max(f.size, upTo), settled)])
    else s
  }

  /** The file is closed and the PUT is over; on failure the file is reset to the
      minted marker, when that works. */
  function Over(s: Sys, put: PutId, reset: bool): Sys
    requires put in s.puts
  {
    var p := s.puts[put];
    var closed := Written(s, p, p.total, true).(puts := s.puts - {put});
    if reset then Truncated(closed, p.token) else closed
  }

  ghost function Do(limits: Limits, s: Sys, step: Step): Sys {
    match step
    case Mint(t) => if t in s.files then s else Truncated(s, t)
    case Open(put, t) =>
      if put in s.puts then s else
        var s' := Truncated(s, t);
        s'.(puts := s.puts[put := Put(t, s'.files[t].inode, Allowance(limits, s, t), 0, 0)])
    case Chunk(put, n, resets) =>
      if put !in s.puts then s else
        var p := s.puts[put];
        if p.total + n > p.allowance then Over(s, put, resets)
        else s.(puts := s.puts[put := p.(total := p.total + n)])
    case Flush(put, n) =>
      if put !in s.puts || s.puts[put].flushed + n > s.puts[put].total then s else
        var p := s.puts[put].(flushed := s.puts[put].flushed + n);
        Written(s, p, p.flushed, false).(puts := s.puts[put := p])
    case Finish(put, declared, resets) =>
      if put !in s.puts then s
      else Over(s, put, declared > 0 && s.puts[put].total != declared && resets)
    case Fail(put, resets) => if put !in s.puts then s else Over(s, put, resets)
    case Discard(t) => s.(files := s.files - {t})
  }

  ghost function Run(limits: Limits, steps: seq<Step>): Sys {
    if steps == [] then EMPTY else Do(limits, Run(limits, steps[..|steps| - 1]), steps[|steps| - 1])
  }

  // ---------------------------------------------------------------------
  // What every step keeps

  ghost predicate PutOk(limits: Limits, s: Sys, put: PutId)
    requires put in s.puts
  {
    var p := s.puts[put];
    p.flushed <= p.total <= p.allowance <= limits.Share() && p.inode < s.inodes
  }

  /** A file is no longer than finished uploads explain, or than some writer has
      written into it. */
  ghost predicate FileOk(s: Sys, t: Token)
    requires t in s.files
  {
    var f := s.files[t];
    && f.inode < s.inodes && f.settled <= f.size
    && (f.size <= f.settled || exists p | p in s.puts :: s.puts[p].inode == f.inode && f.size <= s.puts[p].flushed)
  }

  ghost predicate PutsOk(limits: Limits, s: Sys) {
    forall p {:trigger PutOk(limits, s, p)} | p in s.puts :: PutOk(limits, s, p)
  }

  ghost predicate FilesOk(s: Sys) {
    forall t {:trigger FileOk(s, t)} | t in s.files :: FileOk(s, t)
  }

  /** An inode belongs to one token. */
  ghost predicate InodesOk(s: Sys) {
    && (forall t, u | t in s.files && u in s.files && t != u :: s.files[t].inode != s.files[u].inode)
    && (forall p, t | p in s.puts && t in s.files && s.puts[p].inode == s.files[t].inode :: s.puts[p].token == t)
  }

  ghost predicate Shape(limits: Limits, s: Sys) {
    PutsOk(limits, s) && FilesOk(s) && InodesOk(s)
  }

  /** Finished bytes and what the uploads in flight were promised. */
  ghost function Promised(s: Sys): nat {
    Sum(Settled(s)) + Sum(Allowances(s))
  }

  lemma TruncateKeepsShape(limits: Limits, s: Sys, t: Token)
    requires Shape(limits, s)
    ensures Shape(limits, Truncated(s, t))
  {
    var s' := Truncated(s, t);
    forall p | p in s'.puts ensures PutOk(limits, s', p) { assert PutOk(limits, s, p); }
    forall u | u in s'.files ensures FileOk(s', u) {
      if u != t { assert FileOk(s, u); } else if u in s.files { assert FileOk(s, t); }
    }
    forall u, v | u in s'.files && v in s'.files && u != v ensures s'.files[u].inode != s'.files[v].inode {
      if u in s.files { assert FileOk(s, u); }
      if v in s.files { assert FileOk(s, v); }
    }
    forall p, u | p in s'.puts && u in s'.files && s'.puts[p].inode == s'.files[u].inode
      ensures s'.puts[p].token == u
    {
      assert PutOk(limits, s, p);
    }
  }

  lemma OverKeepsShape(limits: Limits, s: Sys, put: PutId, reset: bool)
    requires Shape(limits, s) && put in s.puts
    ensures Shape(limits, Over(s, put, reset))
  {
    var p := s.puts[put];
    var closed := Written(s, p, p.total, true).(puts := s.puts - {put});
    assert PutOk(limits, s, put);
    forall q | q in closed.puts ensures PutOk(limits, closed, q) { assert PutOk(limits, s, q); }
    forall t | t in closed.files ensures FileOk(closed, t) {
      assert FileOk(s, t);
      if s.files[t].size > s.files[t].settled {
        var q :| q in s.puts && s.puts[q].inode == s.files[t].inode && s.files[t].size <= s.puts[q].flushed;
        assert q != put ==> q in closed.puts;
      }
    }
    TruncateKeepsShape(limits, closed, p.token);
  }

  lemma StepKeepsShape(limits: Limits, s: Sys, step: Step)
    requires Shape(limits, s)
    ensures Shape(limits, Do(limits, s, step))
  {
    match step
    case Mint(t) => TruncateKeepsShape(limits, s, t);
    case Open(put, t) =>
      TruncateKeepsShape(limits, s, t);
      if put !in s.puts { OpenKeepsShape(limits, s, put, t); }
    case Chunk(put, n, resets) => ChunkKeepsShape(limits, s, put, n, resets);
    case Flush(put, n) =>
      if put in s.puts && s.puts[put].flushed + n <= s.puts[put].total { FlushKeepsShape(limits, s, put, n); }
    case Finish(put, declared, resets) =>
      if put in s.puts { OverKeepsShape(limits, s, put, declared > 0 && s.puts[put].total != declared && resets); }
    case Fail(put, resets) => if put in s.puts { OverKeepsShape(limits, s, put, resets); }
    case Discard(t) => ForgetFile(limits, s, t);
  }

  lemma ChunkKeepsShape(limits: Limits, s: Sys, put: PutId, n: nat, resets: bool)
    requires Shape(limits, s)
    ensures Shape(limits, Do(limits, s, Chunk(put, n, resets)))
  {
    if put in s.puts {
      if s.puts[put].total + n > s.puts[put].allowance { OverKeepsShape(limits, s, put, resets); }
      else { CountKeepsShape(limits, s, put, n); }
    }
  }

  lemma OpenKeepsShape(limits: Limits, s: Sys, put: PutId, t: Token)
    requires Shape(limits, s) && Shape(limits, Truncated(s, t)) && put !in s.puts
    ensures Shape(limits, Do(limits, s, Open(put, t)))
  {
    var s' := Do(limits, s, Open(put, t));
    var cut := Truncated(s, t);
    forall p | p in s'.puts ensures PutOk(limits, s', p) {
      if p in s.puts { assert PutOk(limits, cut, p); } else { assert FileOk(cut, t); }
    }
    forall u | u in s'.files ensures FileOk(s', u) {
      assert FileOk(cut, u);
      if cut.files[u].size > cut.files[u].settled {
        var q :| q in cut.puts && cut.puts[q].inode == cut.files[u].inode && cut.files[u].size <= cut.puts[q].flushed;
        assert s'.puts[q] == cut.puts[q];
      }
    }
    forall p, u | p in s'.puts && u in s'.files && s'.puts[p].inode == s'.files[u].inode
      ensures s'.puts[p].token == u
    {
      if p in s.puts { assert cut.puts[p].inode == cut.files[u].inode; }
      else { assert cut.files[u].inode == cut.files[t].inode; }
    }
  }

  lemma CountKeepsShape(limits: Limits, s: Sys, put: PutId, n: nat)
    requires Shape(limits, s) && put in s.puts && s.puts[put].total + n <= s.puts[put].allowance
    ensures Shape(limits, s.(puts := s.puts[put := s.puts[put].(total := s.puts[put].total + n)]))
  {
    var s' := s.(puts := s.puts[put := s.puts[put].(total := s.puts[put].total + n)]);
    forall p | p in s'.puts ensures PutOk(limits, s', p) { assert PutOk(limits, s, p); }
    SameWritersKeepFiles(s, s');
  }

  lemma SameWritersKeepFiles(s: Sys, s': Sys)
    requires s'.files == s.files && s'.inodes == s.inodes
    requires forall t | t in s.files :: FileOk(s, t)
    requires forall p | p in s.puts ::
               p in s'.puts && s'.puts[p].inode == s.puts[p].inode && s'.puts[p].flushed >= s.puts[p].flushed
    ensures forall t | t in s'.files :: FileOk(s', t)
  {
    forall t | t in s'.files ensures FileOk(s', t) {
      assert FileOk(s, t);
      if s.files[t].size > s.files[t].settled {
        var q :| q in s.puts && s.puts[q].inode == s.files[t].inode && s.files[t].size <= s.puts[q].flushed;
        assert q in s'.puts && s'.files[t].size <= s'.puts[q].flushed;
      }
    }
  }

  /** Bytes leave the write buffer, before they reach the file. */
  function Moved(s: Sys, put: PutId, n: nat): Sys
    requires put in s.puts
  {
    s.(puts := s.puts[put := s.puts[put].(flushed := s.puts[put].flushed + n)])
  }

  lemma FlushKeepsShape(limits: Limits, s: Sys, put: PutId, n: nat)
    requires Shape(limits, s) && put in s.puts && s.puts[put].flushed + n <= s.puts[put].total
    ensures Shape(limits, Do(limits, s, Flush(put, n)))
  {
    var moved := Moved(s, put, n);
    MoveKeepsShape(limits, s, put, n);
    WritingKeepsShape(limits, moved, put);
    assert Do(limits, s, Flush(put, n)) == Written(moved, moved.puts[put], moved.puts[put].flushed, false);
  }

  lemma MoveKeepsShape(limits: Limits, s: Sys, put: PutId, n: nat)
    requires Shape(limits, s) && put in s.puts && s.puts[put].flushed + n <= s.puts[put].total
    ensures Shape(limits, Moved(s, put, n))
  {
    var moved := Moved(s, put, n);
    forall q | q in moved.puts ensures PutOk(limits, moved, q) { assert PutOk(limits, s, q); }
    SameWritersKeepFiles(s, moved);
  }

  lemma WritingKeepsShape(limits: Limits, s: Sys, put: PutId)
    requires Shape(limits, s) && put in s.puts
    ensures Shape(limits, Written(s, s.puts[put], s.puts[put].flushed, false))
  {
    var s' := Written(s, s.puts[put], s.puts[put].flushed, false);
    forall q | q in s'.puts ensures PutOk(limits, s', q) { assert PutOk(limits, s, q); }
    forall t | t in s'.files ensures FileOk(s', t) {
      assert FileOk(s, t);
      FlushKeepsFile(s, put, t);
    }
  }

  lemma FlushKeepsFile(s: Sys, put: PutId, t: Token)
    requires put in s.puts && t in s.files && FileOk(s, t)
    ensures FileOk(Written(s, s.puts[put], s.puts[put].flushed, false), t)
  {
    var s' := Written(s, s.puts[put], s.puts[put].flushed, false);
    assert s'.puts == s.puts;
  }

  // ---------------------------------------------------------------------
  // The directory holds no more than was promised

  lemma {:induction false} StagedWithinPromise(limits: Limits, s: Sys)
    requires Shape(limits, s)
    ensures Staged(s) <= Promised(s)
    decreases |s.files|
  {
    if s.files == map[] { assert Sizes(s) == map[]; return; }
    var t :| t in s.files;
    assert FileOk(s, t);
    var rest := s.(files := s.files - {t});
    WithoutFile(s, t);
    if s.files[t].size <= s.files[t].settled {
      ForgetFile(limits, s, t);
      StagedWithinPromise(limits, rest);
    } else {
      var p :| p in s.puts && s.puts[p].inode == s.files[t].inode && s.files[t].size <= s.puts[p].flushed;
      var fewer := rest.(puts := s.puts - {p});
      ForgetWriter(limits, s, t, p);
      StagedWithinPromise(limits, fewer);
      WithoutPut(rest, p);
      assert PutOk(limits, s, p);
    }
  }

  lemma WithoutFile(s: Sys, t: Token)
    requires t in s.files
    ensures var rest := s.(files := s.files - {t});
            && |rest.files| == |s.files| - 1
            && Staged(s) == s.files[t].size + Staged(rest)
            && Promised(s) == s.files[t].settled + Promised(rest)
  {
    var rest := s.(files := s.files - {t});
    assert rest.files.Keys == s.files.Keys - {t};
    assert Sizes(rest) == Sizes(s) - {t} && Settled(rest) == Settled(s) - {t} && Allowances(rest) == Allowances(s);
    SumSplits(Sizes(s), t);
    SumSplits(Settled(s), t);
  }

  lemma WithoutPut(s: Sys, p: PutId)
    requires p in s.puts
    ensures Promised(s) == s.puts[p].allowance + Promised(s.(puts := s.puts - {p}))
    ensures Staged(s) == Staged(s.(puts := s.puts - {p}))
  {
    var rest := s.(puts := s.puts - {p});
    assert Sizes(rest) == Sizes(s) && Settled(rest) == Settled(s) && Allowances(rest) == Allowances(s) - {p};
    SumSplits(Allowances(s), p);
  }

  lemma ForgetFile(limits: Limits, s: Sys, t: Token)
    requires Shape(limits, s)
    ensures Shape(limits, s.(files := s.files - {t}))
  {
    var rest := s.(files := s.files - {t});
    forall p | p in rest.puts ensures PutOk(limits, rest, p) { assert PutOk(limits, s, p); }
    forall u | u in rest.files ensures FileOk(rest, u) { assert FileOk(s, u); }
  }

  lemma ForgetWriter(limits: Limits, s: Sys, t: Token, p: PutId)
    requires Shape(limits, s) && t in s.files && p in s.puts && s.puts[p].inode == s.files[t].inode
    ensures Shape(limits, s.(files := s.files - {t}, puts := s.puts - {p}))
  {
    var rest := s.(files := s.files - {t}, puts := s.puts - {p});
    forall q | q in rest.puts ensures PutOk(limits, rest, q) { assert PutOk(limits, s, q); }
    forall u | u in rest.files ensures FileOk(rest, u) {
      assert FileOk(s, u);
      if s.files[u].size > s.files[u].settled {
        var q :| q in s.puts && s.puts[q].inode == s.files[u].inode && s.files[u].size <= s.puts[q].flushed;
        assert q in rest.puts;
      }
    }
  }

  // ---------------------------------------------------------------------
  // What was promised stays within the budget and one cap per extra upload

  lemma TruncateReleases(s: Sys, t: Token)
    ensures Promised(Truncated(s, t)) == Sum(Settled(s) - {t}) + Sum(Allowances(s))
    ensures Promised(Truncated(s, t)) <= Promised(s)
  {
    var s' := Truncated(s, t);
    assert Settled(s') == Settled(s)[t := 0] && Allowances(s') == Allowances(s);
    SumSet(Settled(s), t, 0);
  }

  lemma OverReleases(limits: Limits, s: Sys, put: PutId, reset: bool)
    requires Shape(limits, s) && put in s.puts
    ensures Promised(Over(s, put, reset)) <= Promised(s)
  {
    var p := s.puts[put];
    assert PutOk(limits, s, put);
    SettlingCosts(s, put);
    TruncateReleases(Written(s, p, p.total, true).(puts := s.puts - {put}), p.token);
  }

  /** A finished upload settles no more than it was promised. */
  lemma SettlingCosts(s: Sys, put: PutId)
    requires put in s.puts && s.puts[put].total <= s.puts[put].allowance
    ensures Promised(Written(s, s.puts[put], s.puts[put].total, true).(puts := s.puts - {put})) <= Promised(s)
  {
    var p := s.puts[put];
    var written := Written(s, p, p.total, true);
    assert Allowances(written) == Allowances(s);
    WithoutPut(written, put);
    if p.token in s.files && s.files[p.token].inode == p.inode {
      var settled := Max(s.files[p.token].settled, p.total);
      assert Settled(written) == Settled(s)[p.token := settled];
      SumSet(Settled(s), p.token, settled);
    }
  }

  lemma OpenIsBudgeted(limits: Limits, s: Sys, put: PutId, t: Token, extra: nat)
    requires Shape(limits, s) && put !in s.puts && Caps(|s.puts|, limits.Share()) <= extra
    ensures Promised(Do(limits, s, Open(put, t))) <= Max(Promised(s), limits.budget + extra)
  {
    assert Sum(Allowances(s)) <= extra by { PromisesAreCapped(limits, s); }
    assert Sum(Settled(s) - {t}) <= Sum(Sizes(s) - {t}) by { SettledIsStaged(limits, s, t); }
    OpenFits(limits, s, put, t, extra);
  }

  lemma OpenFits(limits: Limits, s: Sys, put: PutId, t: Token, extra: nat)
    requires put !in s.puts
    requires Sum(Settled(s) - {t}) <= Sum(Sizes(s) - {t}) && Sum(Allowances(s)) <= extra
    ensures Promised(Do(limits, s, Open(put, t))) <= Max(Promised(s), limits.budget + extra)
  {
    TruncateReleases(s, t);
    OpenAdds(limits, s, put, t);
  }

  lemma OpenAdds(limits: Limits, s: Sys, put: PutId, t: Token)
    requires put !in s.puts
    ensures Promised(Do(limits, s, Open(put, t))) == Promised(Truncated(s, t)) + Allowance(limits, s, t)
  {
    var s' := Do(limits, s, Open(put, t));
    var allowance := Allowance(limits, s, t);
    assert Allowances(s') == Allowances(s)[put := allowance] && Settled(s') == Settled(Truncated(s, t));
    SumSet(Allowances(s), put, allowance);
    assert Allowances(s) - {put} == Allowances(s) == Allowances(Truncated(s, t));
  }

  lemma PromisesAreCapped(limits: Limits, s: Sys)
    requires Shape(limits, s)
    ensures Sum(Allowances(s)) <= Caps(|s.puts|, limits.Share())
  {
    forall p | p in Allowances(s) ensures Allowances(s)[p] <= limits.Share() { assert PutOk(limits, s, p); }
    SumAtMost(Allowances(s), limits.Share());
    assert Allowances(s).Keys == s.puts.Keys;
  }

  /** The snapshot counts at least what finished uploads left in the other files. */
  lemma SettledIsStaged(limits: Limits, s: Sys, t: Token)
    requires Shape(limits, s)
    ensures Sum(Settled(s) - {t}) <= Sum(Sizes(s) - {t})
  {
    forall u | u in Settled(s) - {t} ensures (Settled(s) - {t})[u] <= (Sizes(s) - {t})[u] { assert FileOk(s, u); }
    SumMonotone(Settled(s) - {t}, Sizes(s) - {t});
  }

  lemma OtherStepsRelease(limits: Limits, s: Sys, step: Step)
    requires Shape(limits, s) && !step.Open?
    ensures Promised(Do(limits, s, step)) <= Promised(s)
  {
    match step
    case Mint(t) => TruncateReleases(s, t);
    case Chunk(put, n, resets) =>
      if put in s.puts {
        if s.puts[put].total + n > s.puts[put].allowance { OverReleases(limits, s, put, resets); }
        else { WritingPromisesNothing(limits, s, step); }
      }
    case Flush(_, _) => WritingPromisesNothing(limits, s, step);
    case Finish(put, declared, resets) =>
      if put in s.puts { OverReleases(limits, s, put, declared > 0 && s.puts[put].total != declared && resets); }
    case Fail(put, resets) => if put in s.puts { OverReleases(limits, s, put, resets); }
    case Discard(t) => DiscardReleases(s, t);
  }

  lemma DiscardReleases(s: Sys, t: Token)
    ensures Promised(s.(files := s.files - {t})) <= Promised(s)
  {
    if t in s.files { WithoutFile(s, t); } else { assert s.files - {t} == s.files; }
  }

  /** Counting a chunk that fits, and bytes reaching the file, settle nothing yet. */
  lemma WritingPromisesNothing(limits: Limits, s: Sys, step: Step)
    requires step.Flush?
             || (step.Chunk? && step.put in s.puts && s.puts[step.put].total + step.n <= s.puts[step.put].allowance)
    ensures Promised(Do(limits, s, step)) == Promised(s)
  {
    SamePromises(s, Do(limits, s, step));
  }

  lemma SamePromises(s: Sys, s': Sys)
    requires s'.files.Keys == s.files.Keys && s'.puts.Keys == s.puts.Keys
    requires forall t | t in s.files :: s'.files[t].settled == s.files[t].settled
    requires forall p | p in s.puts :: s'.puts[p].allowance == s.puts[p].allowance
    ensures Promised(s') == Promised(s)
  {
    assert Settled(s') == Settled(s) && Allowances(s') == Allowances(s);
  }

  ghost function Bound(limits: Limits, most: nat): nat
    requires most > 0
  {
    limits.budget + Caps(most - 1, limits.Share())
  }

  lemma StepStaysBounded(limits: Limits, s: Sys, step: Step, most: nat)
    requires Shape(limits, s) && most > 0 && Promised(s) <= Bound(limits, most)
    requires |Do(limits, s, step).puts| <= most
    ensures Promised(Do(limits, s, step)) <= Bound(limits, most)
  {
    if !step.Open? {
      OtherStepsRelease(limits, s, step);
    } else if step.put !in s.puts {
      OneMoreInFlight(limits, s, step.put, step.token, most);
      OpenIsBudgeted(limits, s, step.put, step.token, Caps(most - 1, limits.Share()));
    }
  }

  /** At most `most` uploads are in flight at any moment of this run. */
  ghost predicate Crowded(limits: Limits, steps: seq<Step>, most: nat) {
    |Run(limits, steps).puts| <= most && (steps == [] || Crowded(limits, steps[..|steps| - 1], most))
  }

  lemma {:induction false} PromisesAreBounded(limits: Limits, steps: seq<Step>, most: nat)
    requires most > 0 && Crowded(limits, steps, most)
    ensures Shape(limits, Run(limits, steps)) && Promised(Run(limits, steps)) <= Bound(limits, most)
  {
    if steps == [] {
      assert Settled(EMPTY) == map[] && Allowances(EMPTY) == map[];
    } else {
      var before := steps[..|steps| - 1];
      PromisesAreBounded(limits, before, most);
      StepKeepsShape(limits, Run(limits, before), steps[|steps| - 1]);
      StepStaysBounded(limits, Run(limits, before), steps[|steps| - 1], most);
    }
  }

  /** In every run with at most `most` uploads in flight at once, the directory
      never holds more than the budget and, for each upload but one, what a single
      upload can be promised. */
  lemma StagingIsBounded(limits: Limits, steps: seq<Step>, most: nat)
    requires most > 0 && Crowded(limits, steps, most)
    ensures Staged(Run(limits, steps)) <= limits.budget + (most - 1) * limits.Share()
  {
    PromisesAreBounded(limits, steps, most);
    StagedAtMost(limits, Run(limits, steps), Bound(limits, most));
    BoundIs(limits, most);
  }

  lemma StagedAtMost(limits: Limits, s: Sys, bound: nat)
    requires Shape(limits, s) && Promised(s) <= bound
    ensures Staged(s) <= bound
  {
    StagedWithinPromise(limits, s);
  }

  lemma BoundIs(limits: Limits, most: nat)
    requires most > 0
    ensures Bound(limits, most) == limits.budget + (most - 1) * limits.Share()
  {
    CapsMultiply(most - 1, limits.Share());
  }

  lemma OneMoreInFlight(limits: Limits, s: Sys, put: PutId, t: Token, most: nat)
    requires put !in s.puts && |Do(limits, s, Open(put, t)).puts| <= most
    ensures most > 0 && Caps(|s.puts|, limits.Share()) <= Caps(most - 1, limits.Share())
  {
    var s' := Do(limits, s, Open(put, t));
    assert s'.puts.Keys == s.puts.Keys + {put};
    assert |s'.puts.Keys| == |s.puts.Keys| + 1;
    CapsGrow(|s.puts|, most - 1, limits.Share());
  }

  /** Some run with at most `most` uploads in flight at once ends here. */
  ghost predicate Reached(limits: Limits, s: Sys, most: nat) {
    exists steps :: Run(limits, steps) == s && Crowded(limits, steps, most)
  }

  lemma RunOneMore(limits: Limits, steps: seq<Step>, step: Step)
    ensures Run(limits, steps + [step]) == Do(limits, Run(limits, steps), step)
  {
    assert (steps + [step])[..|steps|] == steps;
  }

  lemma CrowdedOneMore(limits: Limits, steps: seq<Step>, step: Step, most: nat)
    requires Crowded(limits, steps, most) && |Run(limits, steps + [step]).puts| <= most
    ensures Crowded(limits, steps + [step], most)
  {
    assert (steps + [step])[..|steps|] == steps;
  }

  lemma ReachStep(limits: Limits, s: Sys, step: Step, most: nat)
    requires Reached(limits, s, most) && |Do(limits, s, step).puts| <= most
    ensures Reached(limits, Do(limits, s, step), most)
  {
    var steps :| Run(limits, steps) == s && Crowded(limits, steps, most);
    RunOneMore(limits, steps, step);
    CrowdedOneMore(limits, steps, step, most);
  }

  lemma NothingIsReached(limits: Limits, most: nat)
    ensures Reached(limits, EMPTY, most)
  {
    assert Run(limits, []) == EMPTY && Crowded(limits, [], most);
  }

  /** No upload is in flight, and tokens from `base` on are unused. */
  ghost predicate Idle(s: Sys, base: nat) {
    s.puts == map[] && forall t | t in s.files :: t < base
  }

  /** The uploads in flight are numbered below `n`. */
  ghost predicate Numbered(puts: map<PutId, Put>, n: nat) {
    |puts| == n && forall p: PutId :: p in puts <==> p < n
  }

  /** Upload `p` was just opened on the `p`th file from `first`, with the given promise. */
  ghost predicate JustOpened(share: nat, s: Sys, first: Token, p: PutId) {
    && p in s.puts && first + p in s.files
    && s.files[first + p] == File(s.files[first + p].inode, 0, 0)
    && s.puts[p] == Put(first + p, s.files[first + p].inode, share, 0, 0)
  }

  ghost predicate AllJustOpened(share: nat, s: Sys, first: Token, n: nat) {
    forall p: PutId | p < n :: JustOpened(share, s, first, p)
  }

  /** Opening an unused token leaves the directory's size as it is. */
  lemma OpenAddsNothing(limits: Limits, s: Sys, put: PutId, t: Token)
    requires put !in s.puts && t !in s.files
    ensures var s' := Do(limits, s, Open(put, t));
            && s'.files == s.files[t := File(s.inodes, 0, 0)] && Staged(s') == Staged(s)
            && s'.puts == s.puts[put := Put(t, s.inodes, Min(limits.cap, Left(limits.budget, Staged(s))), 0, 0)]
  {
    var s' := Do(limits, s, Open(put, t));
    assert Sizes(s) - {t} == Sizes(s);
    assert Sizes(s') == Sizes(s)[t := 0];
    SumSet(Sizes(s), t, 0);
  }

  /** The upload sends `n` bytes and ends; they stay in its file. */
  function Deliver(limits: Limits, s: Sys, put: PutId, n: nat): Sys
    requires put in s.puts
  {
    var p := s.puts[put];
    Written(s, p, n, true).(puts := s.puts - {put})
  }

  lemma DeliverIsReached(limits: Limits, s: Sys, put: PutId, n: nat, most: nat)
    requires put in s.puts && s.puts[put].total == 0 && n <= s.puts[put].allowance
    requires Reached(limits, s, most) && |s.puts| <= most
    ensures Reached(limits, Deliver(limits, s, put, n), most)
  {
    var counted := Do(limits, s, Chunk(put, n, false));
    assert counted.puts.Keys == s.puts.Keys;
    assert |counted.puts| == |s.puts|;
    ReachStep(limits, s, Chunk(put, n, false), most);
    var done := Do(limits, counted, Finish(put, 0, false));
    assert counted.puts - {put} == s.puts - {put};
    assert done == Deliver(limits, s, put, n);
    assert done.puts.Keys == s.puts.Keys - {put};
    assert |done.puts| == |s.puts| - 1;
    ReachStep(limits, counted, Finish(put, 0, false), most);
  }

  /** The bytes of a delivered upload are in the directory. */
  lemma DeliveredBytes(limits: Limits, s: Sys, put: PutId, n: nat)
    requires put in s.puts && s.puts[put].token in s.files
    requires s.files[s.puts[put].token] == File(s.puts[put].inode, 0, 0)
    ensures Staged(Deliver(limits, s, put, n)) == Staged(s) + n
  {
    var s' := Deliver(limits, s, put, n);
    var t := s.puts[put].token;
    assert Sizes(s') == Sizes(s)[t := n];
    SumSet(Sizes(s), t, n);
  }

  /** One upload at a time, the directory is filled to any size within the budget. */
  lemma {:induction false} Fill(limits: Limits, size: nat, most: nat) returns (s: Sys, base: nat)
    requires most > 0 && limits.cap > 0 && size <= limits.budget
    ensures Reached(limits, s, most) && Idle(s, base) && Staged(s) == size
    decreases size
  {
    if size == 0 {
      s, base := EMPTY, 0;
      NothingIsReached(limits, most);
      assert Sizes(EMPTY) == map[];
    } else {
      var n := Min(limits.cap, size);
      s, base := Fill(limits, size - n, most);
      s, base := FillMore(limits, s, base, n, most);
    }
  }

  lemma FillMore(limits: Limits, s: Sys, base: nat, n: nat, most: nat) returns (s': Sys, base': nat)
    requires most > 0 && Reached(limits, s, most) && Idle(s, base)
    requires n <= limits.cap && Staged(s) + n <= limits.budget
    ensures Reached(limits, s', most) && Idle(s', base') && Staged(s') == Staged(s) + n
  {
    var opening := Do(limits, s, Open(0, base));
    OpenAddsNothing(limits, s, 0, base);
    assert opening.puts.Keys == {0};
    assert |opening.puts| == 1;
    ReachStep(limits, s, Open(0, base), most);
    DeliverIsReached(limits, opening, 0, n, most);
    DeliveredBytes(limits, opening, 0, n);
    s', base' := Deliver(limits, opening, 0, n), base + 1;
  }

  /** With a full share of the budget left, uploads opened together are each
      promised all of it. */
  lemma {:induction false} OpenTogether(limits: Limits, s: Sys, first: nat, n: nat, most: nat) returns (s': Sys)
    requires n <= most && Reached(limits, s, most) && Idle(s, first)
    requires Staged(s) == limits.budget - limits.Share()
    ensures Reached(limits, s', most) && Staged(s') == Staged(s)
    ensures Together(limits, s', first, n)
  {
    s' := s;
    if n > 0 {
      var before := OpenTogether(limits, s, first, n - 1, most);
      s' := OpenOneMore(limits, before, first, n - 1, most);
    }
  }

  ghost predicate Together(limits: Limits, s: Sys, first: Token, n: nat) {
    && Numbered(s.puts, n) && AllJustOpened(limits.Share(), s, first, n)
    && forall t | t in s.files :: t < first + n
  }

  lemma OpenOneMore(limits: Limits, s: Sys, first: nat, n: nat, most: nat) returns (s': Sys)
    requires n < most && Reached(limits, s, most) && Together(limits, s, first, n)
    requires Staged(s) == limits.budget - limits.Share()
    ensures Reached(limits, s', most) && Staged(s') == Staged(s)
    ensures Together(limits, s', first, n + 1)
  {
    s' := Opened(limits, s, n, first + n);
    OneMoreTogether(limits, s, s', first, n);
    ReachOpened(limits, s, n, first + n, most);
  }

  /** An unused token opened while a full share of the budget is left. */
  function Opened(limits: Limits, s: Sys, put: PutId, t: Token): Sys {
    s.(files := s.files[t := File(s.inodes, 0, 0)], inodes := s.inodes + 1,
       puts := s.puts[put := Put(t, s.inodes, limits.Share(), 0, 0)])
  }

  lemma OpenIsOpened(limits: Limits, s: Sys, put: PutId, t: Token)
    requires put !in s.puts && t !in s.files && Staged(s) == limits.budget - limits.Share()
    ensures Do(limits, s, Open(put, t)) == Opened(limits, s, put, t)
    ensures Staged(Opened(limits, s, put, t)) == Staged(s)
  {
    OpenAddsNothing(limits, s, put, t);
  }

  lemma ReachOpened(limits: Limits, s: Sys, put: PutId, t: Token, most: nat)
    requires Reached(limits, s, most) && put !in s.puts && t !in s.files && |s.puts| < most
    requires Staged(s) == limits.budget - limits.Share()
    ensures Reached(limits, Opened(limits, s, put, t), most) && Staged(Opened(limits, s, put, t)) == Staged(s)
  {
    OpenIsOpened(limits, s, put, t);
    OneMorePut(s.puts, put, Put(t, s.inodes, limits.Share(), 0, 0));
    ReachStep(limits, s, Open(put, t), most);
  }

  lemma OneMorePut(puts: map<PutId, Put>, put: PutId, p: Put)
    requires put !in puts
    ensures |puts[put := p]| == |puts| + 1
  {
    assert puts[put := p].Keys == puts.Keys + {put};
    assert |puts[put := p]| == |puts[put := p].Keys|;
  }

  lemma OneMoreTogether(limits: Limits, s: Sys, s': Sys, first: Token, n: nat)
    requires Together(limits, s, first, n) && s' == Opened(limits, s, n, first + n)
    ensures Together(limits, s', first, n + 1) && first + n !in s.files && n !in s.puts && |s.puts| == n
  {
    OpenedIsJustOpened(limits, s, first, n);
    OneMorePut(s.puts, n, s'.puts[n]);
    OneMoreJustOpened(limits.Share(), s, s', first, n);
  }

  lemma OpenedIsJustOpened(limits: Limits, s: Sys, first: Token, n: nat)
    ensures var s' := Opened(limits, s, n, first + n);
            && JustOpened(limits.Share(), s', first, n)
            && s'.puts - {n} == s.puts - {n} && s'.files - {first + n} == s.files - {first + n}
  {
  }

  lemma OneMoreJustOpened(share: nat, s: Sys, s': Sys, first: Token, n: nat)
    requires AllJustOpened(share, s, first, n) && JustOpened(share, s', first, n)
    requires s'.puts - {n} == s.puts - {n} && s'.files - {first + n} == s.files - {first + n}
    ensures AllJustOpened(share, s', first, n + 1)
  {
    forall p: PutId | p < n + 1 ensures JustOpened(share, s', first, p) {
      if p < n { StillJustOpened(share, s, s', first, n, p); }
    }
  }

  lemma StillJustOpened(share: nat, s: Sys, s': Sys, first: Token, n: nat, p: PutId)
    requires AllJustOpened(share, s, first, n) && p < n
    requires s'.puts - {n} == s.puts - {n} && s'.files - {first + n} == s.files - {first + n}
    ensures JustOpened(share, s', first, p)
  {
    assert JustOpened(share, s, first, p);
    assert p in s.puts - {n} && first + p in s.files - {first + n};
    assert (s'.puts - {n})[p] == s.puts[p] && (s'.files - {first + n})[first + p] == s.files[first + p];
  }

  /** Uploads opened together all deliver what they were promised. */
  lemma {:induction false} DeliverAll(limits: Limits, s: Sys, first: nat, n: nat, most: nat) returns (s': Sys)
    requires n <= most && Reached(limits, s, most)
    requires Numbered(s.puts, n) && AllJustOpened(limits.Share(), s, first, n)
    ensures Reached(limits, s', most) && Staged(s') == Staged(s) + Caps(n, limits.Share())
    decreases n
  {
    s' := s;
    if n > 0 {
      assert JustOpened(limits.Share(), s, first, n - 1);
      DeliverIsReached(limits, s, n - 1, limits.Share(), most);
      DeliveredBytes(limits, s, n - 1, limits.Share());
      OneFewerOpened(limits, s, first, n - 1);
      s' := DeliverAll(limits, Deliver(limits, s, n - 1, limits.Share()), first, n - 1, most);
    }
  }

  lemma OneFewerOpened(limits: Limits, s: Sys, first: Token, n: nat)
    requires Numbered(s.puts, n + 1) && AllJustOpened(limits.Share(), s, first, n + 1)
    ensures var s' := Deliver(limits, s, n, limits.Share());
            Numbered(s'.puts, n) && AllJustOpened(limits.Share(), s', first, n)
  {
    var s' := Deliver(limits, s, n, limits.Share());
    assert s'.puts.Keys == s.puts.Keys - {n};
    assert |s'.puts| == |s'.puts.Keys| == n;
    assert JustOpened(limits.Share(), s, first, n);
    assert s'.files - {first + n} == s.files - {first + n};
    forall p: PutId | p < n ensures JustOpened(limits.Share(), s', first, p) {
      StillJustOpened(limits.Share(), s, s', first, n, p);
    }
  }

  /** The bound is met, whatever the limits and the number of uploads: fill the
      directory until one share is left, then open the uploads together. */
  lemma TheBoundIsMet(limits: Limits, most: nat) returns (s: Sys)
    requires most > 0 && limits.cap > 0
    ensures Reached(limits, s, most)
    ensures Staged(s) == limits.budget + (most - 1) * limits.Share()
  {
    var base;
    s, base := Fill(limits, limits.budget - limits.Share(), most);
    s := OpenTogether(limits, s, base, most, most);
    s := DeliverAll(limits, s, base, most, most);
    ShareAndBound(limits, most);
  }

  lemma ShareAndBound(limits: Limits, most: nat)
    requires most > 0
    ensures limits.budget - limits.Share() + Caps(most, limits.Share())
            == limits.budget + (most - 1) * limits.Share()
  {
    BoundIs(limits, most);
  }

  /** When the budget can be exceeded. */
  lemma OvershootIsPossible(limits: Limits, most: nat)
    requires most > 0
    ensures (exists s :: Reached(limits, s, most) && Staged(s) > limits.budget)
            <==> most >= 2 && limits.cap > 0 && limits.budget > 0
  {
    if most >= 2 && limits.cap > 0 && limits.budget > 0 {
      var s := TheBoundIsMet(limits, most);
      CapsMultiply(most - 1, limits.Share());
      assert Reached(limits, s, most) && Staged(s) > limits.budget;
    } else {
      forall s | Reached(limits, s, most) ensures Staged(s) <= limits.budget {
        ReachedIsBounded(limits, s, most);
        assert most - 1 == 0 || limits.Share() == 0;
      }
    }
  }

  lemma ReachedIsBounded(limits: Limits, s: Sys, most: nat)
    requires most > 0 && Reached(limits, s, most)
    ensures Staged(s) <= limits.budget + (most - 1) * limits.Share()
  {
    var steps :| Run(limits, steps) == s && Crowded(limits, steps, most);
    StagingIsBounded(limits, steps, most);
  }

  // ---------------------------------------------------------------------
  // The staging directory, one upload at a time

  datatype Outcome = Stored | Unknown | TooLarge | Full | Mismatch | Broken

  function Flat(chunks: seq<Bytes>): Bytes {
    if chunks == [] then [] else Flat(chunks[..|chunks| - 1]) + chunks[|chunks| - 1]
  }

  lemma {:induction false} FlatGrows(chunks: seq<Bytes>, k: nat)
    requires k <= |chunks|
    ensures Flat(chunks[..k]) <= Flat(chunks)
  {
    if k < |chunks| {
      FlatGrows(chunks[..|chunks| - 1], k);
      assert chunks[..|chunks| - 1][..k] == chunks[..k];
    } else {
      assert chunks[..k] == chunks;
    }
  }

  ghost function Lengths(files: map<Token, Bytes>): map<nat, nat> { map t | t in files :: |files[t]| }

  ghost function LengthsOf(files: map<Token, Bytes>, among: set<Token>): map<nat, nat> {
    map t | t in files && t in among :: |files[t]|
  }

  /** The stream is refused at its first chunk past the allowance, as too large when
      that chunk passes the upload cap as well. */
  ghost predicate RefusedAt(chunks: seq<Bytes>, allowance: nat, cap: nat, k: nat, outcome: Outcome) {
    && k < |chunks| && |Flat(chunks[..k])| <= allowance < |Flat(chunks[..k + 1])|
    && outcome == if |Flat(chunks[..k + 1])| > cap then TooLarge else Full
  }

  ghost predicate Refused(chunks: seq<Bytes>, allowance: nat, cap: nat, outcome: Outcome) {
    |Flat(chunks)| > allowance && exists k :: RefusedAt(chunks, allowance, cap, k, outcome)
  }

  /** How a PUT on a minted token ends: refused at the chunk that does not fit, broken
      off by a client that went away, of another size than declared, or stored. */
  ghost predicate Judged(chunks: seq<Bytes>, allowance: nat, cap: nat, size: nat, broken: bool, outcome: Outcome) {
    var total := |Flat(chunks)|;
    && (outcome.TooLarge? || outcome.Full? <==> total > allowance)
    && (total > allowance ==> Refused(chunks, allowance, cap, outcome))
    && (outcome.Broken? <==> total <= allowance && broken)
    && (outcome.Mismatch? <==> total <= allowance && !broken && size > 0 && total != size)
    && (outcome.Stored? <==> total <= allowance && !broken && (size == 0 || total == size))
  }

  ghost function RoomFor(files: map<Token, Bytes>, limits: Limits, token: Token): nat {
    Min(limits.cap, Left(limits.budget, Sum(Lengths(files) - {token})))
  }

  class UploadStaging {
    const limits: Limits
    const ttl: nat
    var files: map<Token, Bytes>
    var stamps: map<Token, nat>
    var declared: map<Token, nat>

    constructor (limits: Limits, ttl: nat)
      ensures this.limits == limits && this.ttl == ttl && files == map[] && stamps == map[]
    {
      this.limits, this.ttl := limits, ttl;
      files, stamps, declared := map[], map[], map[];
    }

    ghost predicate Valid() reads this {
      stamps.Keys == files.Keys
    }

    method Discard(token: Token)
      requires Valid()
      modifies this
      ensures Valid()
      ensures files == old(files) - {token} && stamps == old(stamps) - {token} && declared == old(declared) - {token}
    {
      files, stamps, declared := files - {token}, stamps - {token}, declared - {token};
    }

    /** Drops exactly the files last written more than the time to live ago. */
    method DiscardExpired(now: nat)
      requires Valid()
      modifies this
      ensures Valid()
      ensures forall t :: t in files <==> t in old(files) && old(stamps)[t] + ttl >= now
      ensures forall t | t in files :: files[t] == old(files)[t] && stamps[t] == old(stamps)[t]
      ensures declared == old(declared) - (old(files).Keys - files.Keys)
    {
      var left := files.Keys;
      while left != {}
        invariant Valid() && left <= old(files).Keys
        invariant forall t :: t in files <==> t in old(files) && (t in left || old(stamps)[t] + ttl >= now)
        invariant forall t | t in files :: files[t] == old(files)[t] && stamps[t] == old(stamps)[t]
        invariant declared == old(declared) - (old(files).Keys - files.Keys)
        decreases left
      {
        var t :| t in left;
        left := left - {t};
        if stamps[t] + ttl < now { Discard(t); }
      }
    }

    method NewToken(token: Token, size: nat, now: nat)
      requires Valid() && token !in files
      modifies this
      ensures Valid()
      ensures forall t :: t in files <==> t == token || (t in old(files) && old(stamps)[t] + ttl >= now)
      ensures files[token] == [] && stamps[token] == now && token in declared && declared[token] == size
      ensures forall t | t in files && t != token :: files[t] == old(files)[t] && stamps[t] == old(stamps)[t]
      ensures forall t | t != token ::
                t in declared <==> t in old(declared) && (t in old(files) ==> old(stamps)[t] + ttl >= now)
      ensures forall t | t in declared && t != token :: declared[t] == old(declared)[t]
    {
      DiscardExpired(now);
      files, stamps, declared := files[token := []], stamps[token := now], declared[token := size];
    }

    /** What the rest of the directory leaves this file, whatever order it is listed in:
        within it cap and budget are kept, and one byte more breaks one of them. */
    method StagingAllowance(token: Token) returns (room: nat)
      ensures room == RoomFor(files, limits, token) <= limits.cap
      ensures room > 0 ==> Sum(Lengths(files) - {token}) + room <= limits.budget
      ensures room == limits.cap || Sum(Lengths(files) - {token}) + room >= limits.budget
    {
      var used := 0;
      var left := files.Keys;
      assert LengthsOf(files, left - {token}) == Lengths(files) - {token};
      while left != {}
        invariant left <= files.Keys
        invariant used + Sum(LengthsOf(files, left - {token})) == Sum(Lengths(files) - {token})
        decreases left
      {
        var t :| t in left;
        ghost var before := LengthsOf(files, left - {token});
        left := left - {t};
        if t != token {
          SumSplits(before, t);
          assert LengthsOf(files, left - {token}) == before - {t};
          used := used + |files[t]|;
        } else {
          assert LengthsOf(files, left - {token}) == before;
        }
      }
      assert LengthsOf(files, left - {token}) == map[];
      room := Min(limits.cap, Left(limits.budget, used));
    }

    /** Writes chunk after chunk, up to the first one that does not fit. */
    method WriteChunks(token: Token, chunks: seq<Bytes>, allowance: nat) returns (total: nat, outcome: Outcome)
      requires token in files && files[token] == [] && allowance <= limits.cap
      modifies this`files
      ensures if |Flat(chunks)| > allowance then Refused(chunks, allowance, limits.cap, outcome) else outcome.Stored?
      ensures token in files && files == old(files)[token := files[token]]
      ensures outcome.Stored? ==> files[token] == Flat(chunks) && total == |Flat(chunks)|
    {
      total, outcome := 0, Stored;
      var k := 0;
      while k < |chunks|
        invariant k <= |chunks|
        invariant files == old(files)[token := Flat(chunks[..k])]
        invariant total == |Flat(chunks[..k])| <= allowance
      {
        assert chunks[..k + 1][..k] == chunks[..k];
        FlatGrows(chunks, k + 1);
        total := total + |chunks[k]|;
        if total > limits.cap {
          assert RefusedAt(chunks, allowance, limits.cap, k, TooLarge)
            && Refused(chunks, allowance, limits.cap, TooLarge);
          return total, TooLarge;
        }
        if total > allowance {
          assert RefusedAt(chunks, allowance, limits.cap, k, Full) && Refused(chunks, allowance, limits.cap, Full);
          return total, Full;
        }
        files := files[token := files[token] + chunks[k]];
        k := k + 1;
      }
      assert chunks[..k] == chunks;
    }

    /** Stores the whole stream or leaves the empty marker; other files are untouched. */
    method StageUploadStream(token: Token, chunks: seq<Bytes>, broken: bool, now: nat) returns (outcome: Outcome)
      requires Valid()
      modifies this`files, this`stamps
      ensures Valid()
      ensures outcome.Unknown? <==> token !in old(files)
      ensures outcome.Unknown? ==> files == old(files) && stamps == old(stamps)
      ensures !outcome.Unknown? ==>
                && Judged(chunks, RoomFor(old(files), limits, token), limits.cap,
                          if token in declared then declared[token] else 0, broken, outcome)
                && files == old(files)[token := if outcome.Stored? then Flat(chunks) else []]
                && stamps == old(stamps)[token := now]
    {
      if token !in files { return Unknown; }
      outcome := StageMinted(token, chunks, broken);
      stamps := stamps[token := now];
    }

    method StageMinted(token: Token, chunks: seq<Bytes>, broken: bool) returns (outcome: Outcome)
      requires token in files
      modifies this`files
      ensures Judged(chunks, RoomFor(old(files), limits, token), limits.cap,
                     if token in declared then declared[token] else 0, broken, outcome)
      ensures files == old(files)[token := if outcome.Stored? then Flat(chunks) else []] && !outcome.Unknown?
    {
      var room := StagingAllowance(token);
      files := files[token := []];
      var total;
      total, outcome := WriteChunks(token, chunks, room);
      if outcome.Stored? {
        var size := if token in declared then declared[token] else 0;
        outcome := if broken then Broken else if size > 0 && total != size then Mismatch else Stored;
      }
      if !outcome.Stored? { files := files[token := []]; }
    }
  }

  /** One upload at a time keeps the directory within its budget. */
  lemma FitsTheRoom(files: map<Token, Bytes>, limits: Limits, token: Token, content: Bytes)
    requires Sum(Lengths(files)) <= limits.budget && |content| <= RoomFor(files, limits, token)
    ensures Sum(Lengths(files[token := content])) <= limits.budget
  {
    assert Lengths(files[token := content]) == Lengths(files)[token := |content|];
    SumSet(Lengths(files), token, |content|);
  }

  // ---------------------------------------------------------------------
  // One upload alone among the steps

  /** The system after the client sent these chunks, with resets that work. */
  ghost function Sent(limits: Limits, s: Sys, put: PutId, chunks: seq<Bytes>): Sys {
    if chunks == [] then s
    else Do(limits, Sent(limits, s, put, chunks[..|chunks| - 1]), Chunk(put, |chunks[|chunks| - 1]|, true))
  }

  /** An upload that wrote nothing yet, and its file. */
  ghost predicate Beginning(s: Sys, put: PutId) {
    && put in s.puts && s.puts[put].total == 0 && s.puts[put].token in s.files
    && s.files[s.puts[put].token] == File(s.puts[put].inode, 0, 0)
  }

  lemma {:induction false} SentFits(limits: Limits, s: Sys, put: PutId, chunks: seq<Bytes>)
    requires Beginning(s, put) && |Flat(chunks)| <= s.puts[put].allowance
    ensures Sent(limits, s, put, chunks)
            == s.(puts := s.puts[put := s.puts[put].(total := |Flat(chunks)|)])
  {
    if chunks == [] {
      assert s.puts[put := s.puts[put]] == s.puts;
    } else {
      SentFits(limits, s, put, chunks[..|chunks| - 1]);
    }
  }

  lemma {:induction false} SentIsRefused(limits: Limits, s: Sys, put: PutId, chunks: seq<Bytes>)
    requires Beginning(s, put) && |Flat(chunks)| > s.puts[put].allowance
    ensures Sent(limits, s, put, chunks) == s.(puts := s.puts - {put})
  {
    var before := chunks[..|chunks| - 1];
    if |Flat(before)| > s.puts[put].allowance {
      SentIsRefused(limits, s, put, before);
    } else {
      SentFits(limits, s, put, before);
      OverLeavesNothing(s, put, |Flat(before)|);
    }
  }

  lemma OverLeavesNothing(s: Sys, put: PutId, total: nat)
    requires Beginning(s, put)
    ensures Over(s.(puts := s.puts[put := s.puts[put].(total := total)]), put, true) == s.(puts := s.puts - {put})
  {
    var p := s.puts[put];
    assert s.files[p.token := File(p.inode, 0, 0)] == s.files;
    assert s.puts[put := p.(total := total)] - {put} == s.puts - {put};
    assert s.files[p.token := File(p.inode, total, total)][p.token := File(p.inode, 0, 0)] == s.files;
  }

  /** How the client's stream ends. */
  function Last(put: PutId, declared: nat, broken: bool): Step {
    if broken then Fail(put, true) else Finish(put, declared, true)
  }

  lemma UploadEnds(limits: Limits, s: Sys, put: PutId, chunks: seq<Bytes>, declared: nat, broken: bool,
                   outcome: Outcome)
    requires Beginning(s, put) && s.puts[put].allowance <= limits.cap
    requires Judged(chunks, s.puts[put].allowance, limits.cap, declared, broken, outcome)
    ensures var p, total := s.puts[put], |Flat(chunks)|;
            Do(limits, Sent(limits, s, put, chunks), Last(put, declared, broken))
            == s.(puts := s.puts - {put},
                  files := if outcome.Stored? then s.files[p.token := File(p.inode, total, total)] else s.files)
  {
    var p, total := s.puts[put], |Flat(chunks)|;
    if total > p.allowance {
      SentIsRefused(limits, s, put, chunks);
    } else {
      SentFits(limits, s, put, chunks);
      OverLeavesNothing(s, put, total);
      assert s.puts[put := p.(total := total)] - {put} == s.puts - {put};
    }
  }

  /** Among the steps, an upload that no other step disturbs ends as `StageUploadStream`
      says: its file holds the whole stream when that is stored and is empty otherwise, no
      other file changes, and it is allowed what `StagingAllowance` gives. */
  lemma AloneAsSaid(limits: Limits, s: Sys, files: map<Token, Bytes>, put: PutId, t: Token, chunks: seq<Bytes>,
                    declared: nat, broken: bool, outcome: Outcome)
    requires Sizes(s) == Lengths(files) && put !in s.puts && t in s.files
    requires Judged(chunks, RoomFor(files, limits, t), limits.cap, declared, broken, outcome)
    ensures var begun := Do(limits, s, Open(put, t));
            var ended := Do(limits, Sent(limits, begun, put, chunks), Last(put, declared, broken));
            && Sizes(ended) == Lengths(files[t := if outcome.Stored? then Flat(chunks) else []])
            && ended.puts == s.puts && t in ended.files && ended.files[t].inode == s.files[t].inode
  {
    var begun := Do(limits, s, Open(put, t));
    var p := begun.puts[put];
    assert p == Put(t, s.files[t].inode, RoomFor(files, limits, t), 0, 0);
    UploadEnds(limits, begun, put, chunks, declared, broken, outcome);
    assert begun.puts - {put} == s.puts;
    var size := if outcome.Stored? then |Flat(chunks)| else 0;
    var ended := Do(limits, Sent(limits, begun, put, chunks), Last(put, declared, broken));
    assert ended.files == s.files[t := File(p.inode, size, size)];
    assert Sizes(ended) == Sizes(s)[t := size];
    assert Lengths(files[t := if outcome.Stored? then Flat(chunks) else []]) == Lengths(files)[t := size];
  }

  /** Minting adds an empty file and changes no other; discarding takes exactly the bytes
      of that file away. */
  lemma MintAndDiscard(limits: Limits, s: Sys, t: Token)
    ensures var minted := Do(limits, s, Mint(t));
            && t in minted.files && minted.puts == s.puts && Staged(minted) == Staged(s)
            && minted.files - {t} == s.files - {t}
            && (if t in s.files then minted.files[t] == s.files[t] else minted.files[t].size == 0)
    ensures var left := Do(limits, s, Discard(t));
            && t !in left.files && left.puts == s.puts && left.files == s.files - {t}
            && Staged(left) + (if t in s.files then s.files[t].size else 0) == Staged(s)
  {
    var minted, left := Do(limits, s, Mint(t)), Do(limits, s, Discard(t));
    assert Sizes(left) == Sizes(s) - {t};
    if t in s.files {
      SumSplits(Sizes(s), t);
    } else {
      assert Sizes(minted) == Sizes(s)[t := 0];
      SumSet(Sizes(s), t, 0);
      assert Sizes(s) - {t} == Sizes(s);
    }
  }
}
