/** The order of strings, shared by cursors and archive paths. */
module Text {

  /** Strings compare by their characters, a prefix coming first. */
  predicate Below(a: string, b: string) {
    b != [] && (a == [] || a[0] < b[0] || (a[0] == b[0] && Below(a[1..], b[1..])))
  }

  lemma {:induction false} BelowIsAnOrder(a: string, b: string, c: string)
    ensures !Below(a, a)
    ensures Below(a, b) && Below(b, c) ==> Below(a, c)
    ensures Below(a, b) || a == b || Below(b, a)
    decreases |a| + |b| + |c|
  {
    if a != [] || b != [] || c != [] {
      BelowIsAnOrder(if a == [] then [] else a[1..], if b == [] then [] else b[1..], if c == [] then [] else c[1..]);
      if a != [] && b != [] && a[0] == b[0] && a[1..] == b[1..] { assert a == b; }
    }
  }

  /** The first place where two strings differ decides; if one ends there, it comes first. */
  ghost predicate FirstDiffersAt(a: string, b: string, k: nat) {
    && k <= |a| && k < |b| && a[..k] == b[..k] && (k < |a| ==> a[k] < b[k])
  }

  lemma {:induction false} BelowIsFirstDifference(a: string, b: string)
    ensures Below(a, b) <==> exists k: nat :: FirstDiffersAt(a, b, k)
  {
    if a == [] || b == [] || a[0] != b[0] {
      assert Below(a, b) ==> FirstDiffersAt(a, b, 0);
      forall k: nat | FirstDiffersAt(a, b, k) ensures k == 0 { HeadDiffers(a, b, k); }
    } else {
      BelowIsFirstDifference(a[1..], b[1..]);
      if k: nat :| FirstDiffersAt(a[1..], b[1..], k) { DiffersLater(a, b, k); }
      if k: nat :| FirstDiffersAt(a, b, k) { DiffersLater(a, b, k - 1); }
    }
  }

  lemma HeadDiffers(a: string, b: string, k: nat)
    requires FirstDiffersAt(a, b, k) && (a == [] || a[0] != b[0])
    ensures k == 0
  {
    assert forall j | 0 <= j < k :: a[j] == a[..k][j] && b[j] == b[..k][j];
  }

  lemma DiffersLater(a: string, b: string, k: nat)
    requires a != [] && b != [] && a[0] == b[0]
    ensures FirstDiffersAt(a, b, k + 1) <==> FirstDiffersAt(a[1..], b[1..], k)
  {
    if k + 1 <= |a| && k + 1 <= |b| {
      assert a[..k + 1] == [a[0]] + a[1..][..k] && b[..k + 1] == [b[0]] + b[1..][..k];
      assert a[1..][..k] == a[..k + 1][1..] && b[1..][..k] == b[..k + 1][1..];
    }
  }

  lemma {:induction false} PrefixIsBelow(a: string, more: string)
    requires more != []
    ensures Below(a, a + more)
  {
    if a != [] {
      PrefixIsBelow(a[1..], more);
      assert (a + more)[1..] == a[1..] + more;
    }
  }

  /** A common prefix does not matter. */
  lemma {:induction false} PrefixKeepsOrder(prefix: string, a: string, b: string)
    ensures Below(prefix + a, prefix + b) <==> Below(a, b)
  {
    if prefix == [] {
      assert prefix + a == a && prefix + b == b;
    } else {
      PrefixKeepsOrder(prefix[1..], a, b);
      assert (prefix + a)[1..] == prefix[1..] + a && (prefix + b)[1..] == prefix[1..] + b;
    }
  }
}
