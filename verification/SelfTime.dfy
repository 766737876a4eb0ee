/**
 A span's self time: how long it ran with no child span covering it. One sweep over
 the children in start order merges their intervals, however they overlap.
 */
module SelfTime {
  import opened Common

  datatype Interval = Interval(start: int, end: int)

  // ---------------------------------------------------------------------
  // What is measured

  /** The nanoseconds at or after `from` that some child covers. */
  ghost function Covered(children: seq<Interval>, from: int): set<int> {
    set c, t | c in children && t in Range(Max(c.start, from), c.end) :: t
  }

  /** The nanoseconds of the span itself that no child covers. */
  ghost function Own(span: Interval, children: seq<Interval>): set<int> {
    Range(span.start, span.end) - Covered(children, span.start)
  }

  ghost function Range(from: int, to: int): (r: set<int>)
    ensures forall t :: t in r <==> from <= t < to
    ensures |r| == Max(0, to - from)
    decreases Max(0, to - from)
  {
    if from < to then Range(from, to - 1) + {to - 1} else {}
  }

  // ---------------------------------------------------------------------
  // Start order

  ghost predicate Sorted(s: seq<Interval>) {
    forall i, j | 0 <= i < j < |s| :: s[i].start <= s[j].start
  }

  function Insert(c: Interval, s: seq<Interval>): seq<Interval> {
    if s == [] || c.start <= s[0].start then [c] + s else [s[0]] + Insert(c, s[1..])
  }

  function ByStart(s: seq<Interval>): seq<Interval> {
    if s == [] then [] else Insert(s[0], ByStart(s[1..]))
  }

  lemma {:induction false} InsertHolds(c: Interval, s: seq<Interval>)
    ensures multiset(Insert(c, s)) == multiset(s) + multiset{c}
  {
    if s != [] && s[0].start < c.start {
      InsertHolds(c, s[1..]);
      assert s == [s[0]] + s[1..];
    }
  }

  /** Nothing before `low` was there or comes in. */
  lemma {:induction false} InsertSorts(c: Interval, s: seq<Interval>, low: int)
    requires Sorted(s) && low <= c.start && forall i | 0 <= i < |s| :: low <= s[i].start
    ensures Sorted(Insert(c, s)) && forall i | 0 <= i < |Insert(c, s)| :: low <= Insert(c, s)[i].start
  {
    if s != [] && s[0].start < c.start { InsertSorts(c, s[1..], s[0].start); }
  }

  lemma InsertSortsAll(c: Interval, s: seq<Interval>)
    requires Sorted(s)
    ensures Sorted(Insert(c, s))
  {
    InsertSorts(c, s, if s == [] then c.start else Min(c.start, s[0].start));
  }

  lemma {:induction false} ByStartSorts(s: seq<Interval>)
    ensures Sorted(ByStart(s)) && multiset(ByStart(s)) == multiset(s)
  {
    if s != [] {
      var rest := ByStart(s[1..]);
      ByStartSorts(s[1..]);
      InsertHolds(s[0], rest);
      InsertSortsAll(s[0], rest);
      assert s == [s[0]] + s[1..];
    }
  }

  lemma SameMembersSameCover(a: seq<Interval>, b: seq<Interval>, from: int)
    requires multiset(a) == multiset(b)
    ensures Covered(a, from) == Covered(b, from)
  {
    forall c ensures c in a <==> c in b {
      assert c in a <==> c in multiset(a);
      assert c in b <==> c in multiset(b);
    }
  }

  // ---------------------------------------------------------------------
  // The sweep

  /** Time in the span minus the time children cover from its start on, never
      negative, whatever order the children come in. */
  method SelfNs(span: Interval, children: seq<Interval>) returns (ns: nat)
    ensures ns == Max(0, span.end - span.start - |Covered(children, span.start)|)
  {
    var sorted := ByStart(children);
    ByStartSorts(children);
    var covered := Sweep(sorted, span.start);
    SameMembersSameCover(sorted, children, span.start);
    ns := Max(0, span.end - span.start - covered);
  }

  method Sweep(sorted: seq<Interval>, from: int) returns (covered: nat)
    requires Sorted(sorted)
    ensures covered == |Covered(sorted, from)|
  {
    covered := 0;
    var reach := from;
    var k := 0;
    NothingSwept(from);
    assert sorted[..0] == [];
    while k < |sorted|
      invariant k <= |sorted|
      invariant covered == |Covered(sorted[..k], from)| && Reach(sorted[..k], from, reach)
    {
      SweepNext(sorted, k, from, reach);
      var start := Max(sorted[k].start, reach);
      if sorted[k].end > start {
        covered := covered + (sorted[k].end - start);
        reach := sorted[k].end;
      }
      k := k + 1;
    }
    assert sorted[..k] == sorted;
  }

  /** Nothing at or past the reach is covered, and the child the reach comes from
      covers everything from its start up to it. */
  ghost predicate Reach(done: seq<Interval>, from: int, reach: int) {
    Under(Covered(done, from), reach) && Tip(done, from, reach)
  }

  ghost predicate Under(covered: set<int>, reach: int) {
    forall t | t in covered :: t < reach
  }

  ghost predicate Tip(done: seq<Interval>, from: int, reach: int) {
    reach == from || (reach > from && exists c :: c in done && c.end == reach)
  }

  lemma NothingSwept(from: int)
    ensures Covered([], from) == {} && Reach([], from, from)
  {
  }

  lemma SweepNext(sorted: seq<Interval>, k: nat, from: int, reach: int)
    requires Sorted(sorted) && k < |sorted| && Reach(sorted[..k], from, reach)
    ensures var start := Max(sorted[k].start, reach);
            var grows := sorted[k].end > start;
            && |Covered(sorted[..k + 1], from)|
               == |Covered(sorted[..k], from)| + (if grows then sorted[k].end - start else 0)
            && Reach(sorted[..k + 1], from, if grows then sorted[k].end else reach)
  {
    assert sorted[..k + 1] == sorted[..k] + [sorted[k]];
    SweepOne(sorted[..k], sorted[k], from, reach);
  }

  lemma SweepOne(done: seq<Interval>, child: Interval, from: int, reach: int)
    requires (forall c | c in done :: c.start <= child.start) && Reach(done, from, reach)
    ensures var start := Max(child.start, reach);
            var grows := child.end > start;
            && |Covered(done + [child], from)| == |Covered(done, from)| + (if grows then child.end - start else 0)
            && Reach(done + [child], from, if grows then child.end else reach)
  {
    NewTicks(done, child, from, reach);
    assert Covered(done, from) !! Range(Max(child.start, reach), child.end);
    ReachMoves(Covered(done, from), child, reach);
    TipMoves(done, child, from, reach);
  }

  lemma ReachMoves(covered: set<int>, child: Interval, reach: int)
    requires Under(covered, reach)
    ensures Under(covered + Range(Max(child.start, reach), child.end),
                  if child.end > Max(child.start, reach) then child.end else reach)
  {
  }

  lemma TipMoves(done: seq<Interval>, child: Interval, from: int, reach: int)
    requires Tip(done, from, reach)
    ensures Tip(done + [child], from, if child.end > Max(child.start, reach) then child.end else reach)
  {
    assert child in done + [child];
    if reach != from {
      var c :| c in done && c.end == reach;
      assert c in done + [child];
    }
  }

  lemma OneMoreChild(done: seq<Interval>, child: Interval, from: int)
    ensures Covered(done + [child], from) == Covered(done, from) + Range(Max(child.start, from), child.end)
  {
    assert child in done + [child];
    assert forall c :: c in done + [child] <==> c in done || c == child;
  }

  /** What a child adds is exactly its part at or past the reach. */
  lemma NewTicks(done: seq<Interval>, child: Interval, from: int, reach: int)
    requires (forall c | c in done :: c.start <= child.start) && Reach(done, from, reach)
    ensures Covered(done + [child], from) == Covered(done, from) + Range(Max(child.start, reach), child.end)
    ensures reach >= from
  {
    OneMoreChild(done, child, from);
    if reach != from {
      var c :| c in done && c.end == reach && reach > from;
      forall t | t in Range(Max(child.start, from), child.end) && t < reach ensures t in Covered(done, from) {
        assert t in Range(Max(c.start, from), c.end);
      }
    }
  }

  // ---------------------------------------------------------------------
  // What it means for the span

  /** Self time never exceeds the time no child covers, and it is exactly that time
      if and only if nothing is covered past the span's end or there is none to lose. */
  lemma SelfTimeIsOwnTime(span: Interval, children: seq<Interval>)
    ensures var ns := Max(0, span.end - span.start - |Covered(children, span.start)|);
            var past := set t | t in Covered(children, span.start) && t >= span.end;
            && ns <= |Own(span, children)|
            && (ns == |Own(span, children)| <==> span.end <= span.start || past == {} || Own(span, children) == {})
  {
    var covered := Covered(children, span.start);
    var past := set t | t in covered && t >= span.end;
    CoveredSplits(covered, past, covered - past);
    if span.start < span.end { SpanSplits(span, covered, covered - past); }
  }

  lemma CoveredSplits(covered: set<int>, past: set<int>, within: set<int>)
    requires past <= covered && within == covered - past
    ensures |covered| == |within| + |past|
  {
    assert covered == within + past;
  }

  lemma SpanSplits(span: Interval, covered: set<int>, within: set<int>)
    requires span.start < span.end && within == set t | t in covered && t < span.end
    requires forall t | t in covered :: span.start <= t
    ensures |Range(span.start, span.end) - covered| + |within| == span.end - span.start
  {
    var own := Range(span.start, span.end) - covered;
    assert Range(span.start, span.end) == own + within;
    assert own !! within;
  }

  /** Children that end inside the span leave exactly the uncovered time. */
  lemma ExactWhenChildrenEndInside(span: Interval, children: seq<Interval>)
    requires forall c | c in children :: c.end <= span.end
    ensures Max(0, span.end - span.start - |Covered(children, span.start)|) == |Own(span, children)|
  {
    SelfTimeIsOwnTime(span, children);
    assert forall t | t in Covered(children, span.start) :: t < span.end;
  }
}
