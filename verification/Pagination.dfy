/**
 Keyset pagination: pages of a collection that is sorted by a key, newest first,
 and that may gain and lose items between one page and the next. The cursor is the
 last item's key with its two parts joined by a separator.
 */
module Pagination {
  import opened Common
  import opened Text

  datatype Key = Key(sort: string, tie: string)

  datatype Item = Item(key: Key, payload: nat)

  const SEPARATOR: char := '~'

  // ---------------------------------------------------------------------
  // The order of keys

  predicate KeyBelow(a: Key, b: Key) {
    Below(a.sort, b.sort) || (a.sort == b.sort && Below(a.tie, b.tie))
  }

  lemma {:induction false} KeyBelowIsAnOrder(a: Key, b: Key, c: Key)
    ensures !KeyBelow(a, a)
    ensures KeyBelow(a, b) && KeyBelow(b, c) ==> KeyBelow(a, c)
    ensures KeyBelow(a, b) || a == b || KeyBelow(b, a)
  {
    BelowIsAnOrder(a.sort, b.sort, c.sort);
    BelowIsAnOrder(a.tie, b.tie, c.tie);
  }

  // ---------------------------------------------------------------------
  // Cursors

  function Join(key: Key): string {
    key.sort + [SEPARATOR] + key.tie
  }

  /** Splits at the first separator; None when there is none. */
  function Partition(cursor: string): Option<Key> {
    if cursor == [] then None
    else if cursor[0] == SEPARATOR then Some(Key([], cursor[1..]))
    else match Partition(cursor[1..])
      case None => None
      case Some(k) => Some(Key([cursor[0]] + k.sort, k.tie))
  }

  /** A cursor the server handed out always parses, never to a key above the one it
      was made from, and to that very key exactly when the sort value is free of the
      separator. The tiebreak may hold separators. */
  lemma {:induction false} CursorRoundTrip(key: Key)
    ensures Partition(Join(key)).Some?
    ensures Partition(Join(key)) == Some(key) <==> SEPARATOR !in key.sort
    ensures SEPARATOR in key.sort ==> KeyBelow(Partition(Join(key)).value, key)
  {
    PartitionJoined(key.sort, key.tie);
    var k := Partition(Join(key)).value;
    if SEPARATOR in key.sort {
      var more := key.sort[|k.sort|..];
      assert key.sort == k.sort + more;
      PrefixIsBelow(k.sort, more);
    }
  }

  lemma {:induction false} PartitionJoined(sort: string, tie: string)
    ensures var r := Partition(sort + [SEPARATOR] + tie);
            && r.Some? && r.value.sort <= sort
            && (SEPARATOR !in sort ==> r.value == Key(sort, tie))
            && (SEPARATOR in sort ==> |r.value.sort| < |sort|)
  {
    var cursor := sort + [SEPARATOR] + tie;
    if sort == [] {
      assert cursor[1..] == tie;
    } else {
      assert cursor[1..] == sort[1..] + [SEPARATOR] + tie;
      assert sort == [sort[0]] + sort[1..];
      if sort[0] != SEPARATOR { PartitionJoined(sort[1..], tie); }
    }
  }

  lemma {:induction false} MalformedHasNoSeparator(cursor: string)
    ensures Partition(cursor).None? <==> SEPARATOR !in cursor
  {
    if cursor != [] && cursor[0] != SEPARATOR {
      MalformedHasNoSeparator(cursor[1..]);
      assert cursor == [cursor[0]] + cursor[1..];
    }
  }

  // ---------------------------------------------------------------------
  // One page

  function After(items: seq<Item>, boundary: Key): seq<Item> {
    if items == [] then [] else
      (if KeyBelow(items[0].key, boundary) then [items[0]] else []) + After(items[1..], boundary)
  }

  datatype Response =
    | InvalidCursor
    | Page(items: seq<Item>, next: Option<string>, more: bool)

  /** A negative limit counts as zero. */
  function Cut(items: seq<Item>, limit: Option<int>): (page: seq<Item>)
    ensures page <= items
  {
    if limit.None? || limit.value >= |items| then items else if limit.value < 0 then [] else items[..limit.value]
  }

  function Paginate(items: seq<Item>, cursor: Option<string>, limit: Option<int>): Response {
    if cursor.Some? && Partition(cursor.value).None? then InvalidCursor
    else PageOf(if cursor.None? then items else After(items, Partition(cursor.value).value), limit)
  }

  function PageOf(left: seq<Item>, limit: Option<int>): Response {
    var page := Cut(left, limit);
    var more := |page| < |left|;
    Page(page, if page != [] && more then Some(Join(page[|page| - 1].key)) else None, more)
  }

  ghost predicate Descending(items: seq<Item>) {
    forall i, j | 0 <= i < j < |items| :: KeyBelow(items[j].key, items[i].key)
  }

  lemma {:induction false} AfterKeeps(items: seq<Item>, boundary: Key)
    requires Descending(items)
    ensures Descending(After(items, boundary))
    ensures forall x :: x in After(items, boundary) <==> x in items && KeyBelow(x.key, boundary)
  {
    if items != [] {
      var rest := items[1..];
      assert items == [items[0]] + rest;
      AfterKeeps(rest, boundary);
      var kept := After(rest, boundary);
      forall j | 0 <= j < |kept| ensures KeyBelow(kept[j].key, items[0].key) {
        assert kept[j] in rest;
        var i :| 0 <= i < |rest| && rest[i] == kept[j];
        assert rest[i] == items[i + 1];
      }
    }
  }

  /** Descending lists with the same members are the same list. */
  lemma {:induction false} DescendingIsUnique(a: seq<Item>, b: seq<Item>)
    requires Descending(a) && Descending(b) && forall x :: x in a <==> x in b
    ensures a == b
  {
    assert b != [] ==> b[0] in b;
    if a != [] {
      assert a[0] in b;
      assert b != [];
      FirstIsHighest(a, b[0]);
      FirstIsHighest(b, a[0]);
      KeyBelowIsAnOrder(a[0].key, b[0].key, a[0].key);
      assert a == [a[0]] + a[1..] && b == [b[0]] + b[1..];
      forall x ensures x in a[1..] <==> x in b[1..] {
        FirstIsOnce(a, x);
        FirstIsOnce(b, x);
      }
      DescendingIsUnique(a[1..], b[1..]);
    }
  }

  lemma {:induction false} FirstIsHighest(a: seq<Item>, x: Item)
    requires Descending(a) && x in a
    ensures x == a[0] || KeyBelow(x.key, a[0].key)
  {
  }

  lemma {:induction false} FirstIsOnce(a: seq<Item>, x: Item)
    requires Descending(a) && a != []
    ensures x in a[1..] <==> x in a && x != a[0]
  {
    KeyBelowIsAnOrder(a[0].key, a[0].key, a[0].key);
    assert a == [a[0]] + a[1..];
    if x in a[1..] {
      var i :| 0 <= i < |a[1..]| && a[1..][i] == x;
      assert a[i + 1] == x && KeyBelow(x.key, a[0].key);
    }
  }

  // ---------------------------------------------------------------------
  // Following the cursors while the collection changes

  /** What the collection holds when a page is asked for, and the limit asked for. */
  datatype Request = Request(items: seq<Item>, limit: Option<int>)

  datatype Trip = Trip(output: seq<Item>, ended: bool)

  function Walk(requests: seq<Request>, cursor: Option<string>): Trip {
    if requests == [] then Trip([], false) else
      match Paginate(requests[0].items, cursor, requests[0].limit)
      case InvalidCursor => Trip([], false)
      case Page(items, next, _) =>
        if next.None? then Trip(items, true)
        else
          var rest := Walk(requests[1..], next);
          Trip(items + rest.output, rest.ended)
  }

  ghost predicate Ordered(requests: seq<Request>) {
    forall i | 0 <= i < |requests| :: Descending(requests[i].items)
  }

  /** The routes ask for no limit or for at least one item. */
  ghost predicate Asking(requests: seq<Request>) {
    forall i | 0 <= i < |requests| :: requests[i].limit.None? || requests[i].limit.value >= 1
  }

  ghost predicate SeparatorFree(requests: seq<Request>) {
    forall i | 0 <= i < |requests| :: forall x | x in requests[i].items :: SEPARATOR !in x.key.sort
  }

  ghost predicate PresentThroughout(requests: seq<Request>, key: Key) {
    forall i | 0 <= i < |requests| :: HasKey(requests[i].items, key)
  }

  /** Some item has this key. */
  predicate HasKey(items: seq<Item>, key: Key) {
    items != [] && (items[0].key == key || HasKey(items[1..], key))
  }

  lemma {:induction false} MemberHasKey(items: seq<Item>, x: Item)
    requires x in items
    ensures HasKey(items, x.key)
  {
    if items[0] != x {
      assert items == [items[0]] + items[1..];
      MemberHasKey(items[1..], x);
    }
  }

  lemma {:induction false} ItemWithKey(items: seq<Item>, key: Key) returns (x: Item)
    requires HasKey(items, key)
    ensures x in items && x.key == key
  {
    x := items[0];
    if x.key != key {
      x := ItemWithKey(items[1..], key);
      assert items == [items[0]] + items[1..];
    }
  }

  /** What the cursor leaves of a collection. */
  function Remaining(items: seq<Item>, cursor: Option<string>): seq<Item>
    requires cursor.Some? ==> Partition(cursor.value).Some?
  {
    if cursor.None? then items else After(items, Partition(cursor.value).value)
  }

  ghost predicate Passes(cursor: Option<string>, key: Key)
    requires cursor.Some? ==> Partition(cursor.value).Some?
  {
    cursor.None? || KeyBelow(key, Partition(cursor.value).value)
  }

  lemma {:induction false} RemainingIs(items: seq<Item>, cursor: Option<string>)
    requires Descending(items) && (cursor.Some? ==> Partition(cursor.value).Some?)
    ensures Descending(Remaining(items, cursor))
    ensures forall x :: x in Remaining(items, cursor) <==> x in items && Passes(cursor, x.key)
  {
    if cursor.Some? { AfterKeeps(items, Partition(cursor.value).value); }
  }

  /** A page lists only what is there and ahead of its cursor. */
  lemma {:induction false} PageFacts(items: seq<Item>, cursor: Option<string>, limit: Option<int>)
    requires Descending(items) && (cursor.Some? ==> Partition(cursor.value).Some?)
    ensures var p := Paginate(items, cursor, limit);
            p.Page? && Descending(p.items) && forall x | x in p.items :: x in items && Passes(cursor, x.key)
  {
    var left := Remaining(items, cursor);
    RemainingIs(items, cursor);
    assert forall x | x in Cut(left, limit) :: x in left;
  }

  /** The cursor it hands out was made from its last item. */
  lemma {:induction false} NextIsLast(items: seq<Item>, cursor: Option<string>, limit: Option<int>)
    ensures var p := Paginate(items, cursor, limit);
            p.Page? && p.next.Some? ==>
              p.items != [] && p.items[|p.items| - 1] in p.items
              && p.next.value == Join(p.items[|p.items| - 1].key) && Partition(p.next.value).Some?
  {
    var p := Paginate(items, cursor, limit);
    if p.Page? && p.next.Some? { CursorRoundTrip(p.items[|p.items| - 1].key); }
  }

  /** The page is as long as the limit allows, of the items ahead of the cursor it takes
      the highest, in order, and says there are more exactly when it left some out. */
  ghost predicate TakesHighest(items: seq<Item>, cursor: Option<string>, limit: Option<int>, page: seq<Item>,
                               more: bool)
    requires cursor.Some? ==> Partition(cursor.value).Some?
  {
    && Descending(page) && (forall x | x in page :: x in items && Passes(cursor, x.key))
    && (forall x, y | x in items && Passes(cursor, x.key) && x !in page && y in page :: KeyBelow(x.key, y.key))
    && (more <==> exists x :: x in items && Passes(cursor, x.key) && x !in page)
    && (limit.Some? ==> |page| <= Max(limit.value, 0))
    && (more ==> limit.Some? && |page| == Max(limit.value, 0))
  }

  lemma RestIsLower(left: seq<Item>, n: nat, x: Item)
    requires Descending(left) && n <= |left| && x in left && x !in left[..n]
    ensures forall y | y in left[..n] :: KeyBelow(x.key, y.key)
  {
    var i :| 0 <= i < |left| && left[i] == x;
    assert forall k | 0 <= k < n :: left[k] in left[..n];
    forall y | y in left[..n] ensures KeyBelow(x.key, y.key) {
      var j :| 0 <= j < n && left[j] == y;
    }
  }

  lemma FirstOfRestIsNew(left: seq<Item>, n: nat)
    requires Descending(left) && n < |left|
    ensures left[n] in left && left[n] !in left[..n]
  {
    if left[n] in left[..n] {
      var j :| 0 <= j < n && left[j] == left[n];
      KeyBelowIsAnOrder(left[n].key, left[n].key, left[n].key);
    }
  }

  lemma PrefixIsHighest(left: seq<Item>, n: nat)
    requires Descending(left) && n <= |left|
    ensures Descending(left[..n]) && forall x | x in left[..n] :: x in left
    ensures forall x, y | x in left && x !in left[..n] && y in left[..n] :: KeyBelow(x.key, y.key)
    ensures n < |left| <==> exists x :: x in left && x !in left[..n]
  {
    forall x | x in left && x !in left[..n] ensures forall y | y in left[..n] :: KeyBelow(x.key, y.key) {
      RestIsLower(left, n, x);
    }
    if n < |left| { FirstOfRestIsNew(left, n); } else { assert left[..n] == left; }
  }

  lemma CutTakesHighest(items: seq<Item>, cursor: Option<string>, limit: Option<int>)
    requires Descending(items) && (cursor.Some? ==> Partition(cursor.value).Some?)
    ensures var page := Cut(Remaining(items, cursor), limit);
            TakesHighest(items, cursor, limit, page, |page| < |Remaining(items, cursor)|)
  {
    var left := Remaining(items, cursor);
    var n := |Cut(left, limit)|;
    assert Cut(left, limit) == left[..n];
    RemainingIs(items, cursor);
    PrefixIsHighest(left, n);
  }

  /** One page, for every collection, cursor and limit: a malformed cursor is refused; else
      it is the page described, and there is a next cursor, made of the last item, exactly
      when there are more and the page is not empty. */
  lemma {:induction false} PageIsExact(items: seq<Item>, cursor: Option<string>, limit: Option<int>)
    requires Descending(items)
    ensures var p := Paginate(items, cursor, limit);
            && (p.InvalidCursor? <==> cursor.Some? && SEPARATOR !in cursor.value)
            && (p.Page? ==>
                  && (cursor.Some? ==> Partition(cursor.value).Some?)
                  && TakesHighest(items, cursor, limit, p.items, p.more)
                  && (p.next.Some? <==> p.more && p.items != [])
                  && (p.next.Some? ==> p.next.value == Join(p.items[|p.items| - 1].key)))
  {
    if cursor.Some? { MalformedHasNoSeparator(cursor.value); }
    if cursor.None? || Partition(cursor.value).Some? { CutTakesHighest(items, cursor, limit); }
  }

  lemma {:induction false} PassesIsLower(last: Key, key: Key)
    requires Partition(Join(last)).Some? && Passes(Some(Join(last)), key)
    ensures KeyBelow(key, last)
  {
    CursorRoundTrip(last);
    KeyBelowIsAnOrder(key, Partition(Join(last)).value, last);
  }

  lemma {:induction false} WalkPasses(requests: seq<Request>, cursor: Option<string>)
    requires Ordered(requests) && (cursor.Some? ==> Partition(cursor.value).Some?)
    ensures forall x | x in Walk(requests, cursor).output :: Passes(cursor, x.key)
  {
    if requests == [] { return; }
    PageFacts(requests[0].items, cursor, requests[0].limit);
    NextIsLast(requests[0].items, cursor, requests[0].limit);
    var p := Paginate(requests[0].items, cursor, requests[0].limit);
    if p.next.Some? {
      WalkPasses(requests[1..], p.next);
      PassesOn(cursor, p.items[|p.items| - 1].key, Walk(requests[1..], p.next).output);
    }
  }

  lemma {:induction false} PassesOn(cursor: Option<string>, last: Key, rest: seq<Item>)
    requires (cursor.Some? ==> Partition(cursor.value).Some?) && Partition(Join(last)).Some?
    requires Passes(cursor, last) && forall x | x in rest :: Passes(Some(Join(last)), x.key)
    ensures forall x | x in rest :: Passes(cursor, x.key) && KeyBelow(x.key, last)
  {
    forall x | x in rest ensures Passes(cursor, x.key) && KeyBelow(x.key, last) {
      PassesIsLower(last, x.key);
      if cursor.Some? { KeyBelowIsAnOrder(x.key, last, Partition(cursor.value).value); }
    }
  }

  /** Pages never repeat and never go back, whatever the collection does and whatever
      characters the keys hold. */
  lemma {:induction false} WalkDescends(requests: seq<Request>, cursor: Option<string>)
    requires Ordered(requests) && (cursor.Some? ==> Partition(cursor.value).Some?)
    ensures Descending(Walk(requests, cursor).output)
  {
    if requests == [] { return; }
    PageFacts(requests[0].items, cursor, requests[0].limit);
    NextIsLast(requests[0].items, cursor, requests[0].limit);
    var p := Paginate(requests[0].items, cursor, requests[0].limit);
    if p.next.Some? {
      var rest := Walk(requests[1..], p.next).output;
      WalkDescends(requests[1..], p.next);
      WalkPasses(requests[1..], p.next);
      PassesOn(cursor, p.items[|p.items| - 1].key, rest);
      PagesDescend(p.items, rest, p.items[|p.items| - 1].key);
    }
  }

  /** Every item listed was there when its page was made. */
  lemma {:induction false} WalkLists(requests: seq<Request>, cursor: Option<string>)
    requires Ordered(requests) && (cursor.Some? ==> Partition(cursor.value).Some?)
    ensures forall x | x in Walk(requests, cursor).output :: Listed(requests, x)
  {
    if requests == [] { return; }
    PageFacts(requests[0].items, cursor, requests[0].limit);
    NextIsLast(requests[0].items, cursor, requests[0].limit);
    var p := Paginate(requests[0].items, cursor, requests[0].limit);
    forall x | x in p.items ensures Listed(requests, x) { assert x in requests[0].items; }
    if p.next.Some? {
      WalkLists(requests[1..], p.next);
      forall x | x in Walk(requests[1..], p.next).output ensures Listed(requests, x) { ListedLater(requests, x); }
    }
  }

  ghost predicate Listed(requests: seq<Request>, x: Item) {
    exists i :: 0 <= i < |requests| && x in requests[i].items
  }

  lemma {:induction false} ListedLater(requests: seq<Request>, x: Item)
    requires requests != [] && Listed(requests[1..], x)
    ensures Listed(requests, x)
  {
    var i :| 0 <= i < |requests[1..]| && x in requests[1..][i].items;
    assert requests[1..][i] == requests[i + 1];
  }

  lemma {:induction false} PagesDescend(page: seq<Item>, rest: seq<Item>, last: Key)
    requires Descending(page) && Descending(rest) && page != [] && page[|page| - 1].key == last
    requires forall x | x in rest :: KeyBelow(x.key, last)
    ensures Descending(page + rest)
  {
    forall i, j | 0 <= i < j < |page + rest| ensures KeyBelow((page + rest)[j].key, (page + rest)[i].key) {
      if i < |page| <= j {
        assert rest[j - |page|] in rest;
        KeyBelowIsAnOrder(rest[j - |page|].key, last, page[i].key);
      }
    }
  }

  /** The key a cursor made from `key` is read as. */
  function ReadAs(key: Key): Key {
    CursorRoundTrip(key);
    Partition(Join(key)).value
  }

  /** A page of this walk ended above the key, at one whose cursor is read as a key
      that is not above it. */
  ghost predicate SkippedOver(requests: seq<Request>, cursor: Option<string>, key: Key)
    decreases |requests|
  {
    requests != [] &&
    var p := Paginate(requests[0].items, cursor, requests[0].limit);
    p.Page? && p.next.Some? && p.items != [] &&
    var last := p.items[|p.items| - 1].key;
    KeyBelow(key, last) && (KeyBelow(key, ReadAs(last)) ==> SkippedOver(requests[1..], p.next, key))
  }

  /** An item is on the page, or the page ends above it and hands out a cursor. */
  lemma {:induction false} OnThisPageOrBelow(left: seq<Item>, limit: Option<int>, x: Item)
    requires Descending(left) && (limit.None? || limit.value >= 1) && x in left
    ensures var page, next := Cut(left, limit), PageOf(left, limit).next;
            if x in page then next.Some? ==> !KeyBelow(x.key, page[|page| - 1].key)
            else next.Some? && KeyBelow(x.key, page[|page| - 1].key)
  {
    var page := Cut(left, limit);
    var i :| 0 <= i < |left| && left[i] == x;
    assert forall j | 0 <= j < |page| :: left[j] == page[j];
    if i < |page| {
      assert page[i] == x;
      KeyBelowIsAnOrder(x.key, left[|page| - 1].key, x.key);
    } else if x in page {
      var j :| 0 <= j < |page| && page[j] == x;
      KeyBelowIsAnOrder(x.key, x.key, x.key);
    }
  }

  /** No item of a page is below its last one. */
  lemma {:induction false} PageIsAbove(left: seq<Item>, limit: Option<int>, y: Item)
    requires Descending(left) && PageOf(left, limit).next.Some? && y in Cut(left, limit)
    ensures !KeyBelow(y.key, Cut(left, limit)[|Cut(left, limit)| - 1].key)
  {
    var page := Cut(left, limit);
    var j :| 0 <= j < |page| && page[j] == y;
    assert left[j] == page[j] && left[|page| - 1] == page[|page| - 1];
    KeyBelowIsAnOrder(y.key, page[|page| - 1].key, y.key);
  }

  lemma {:induction false} RestIsGood(requests: seq<Request>, key: Key)
    requires requests != [] && Ordered(requests) && Asking(requests) && PresentThroughout(requests, key)
    ensures Ordered(requests[1..]) && Asking(requests[1..]) && PresentThroughout(requests[1..], key)
  {
    assert forall j | 0 <= j < |requests[1..]| :: requests[1..][j] == requests[j + 1];
  }

  lemma {:induction false} HasKeyInEither(page: seq<Item>, rest: seq<Item>, key: Key)
    ensures HasKey(page + rest, key) <==> HasKey(page, key) || HasKey(rest, key)
  {
    if page == [] {
      assert page + rest == rest;
    } else {
      assert (page + rest)[1..] == page[1..] + rest;
      HasKeyInEither(page[1..], rest, key);
    }
  }

  /** One page of a walk. */
  lemma {:induction false} OnePage(requests: seq<Request>, cursor: Option<string>)
    requires requests != [] && (cursor.Some? ==> Partition(cursor.value).Some?)
    ensures var p := PageOf(Remaining(requests[0].items, cursor), requests[0].limit);
            Walk(requests, cursor) ==
            if p.next.None? then Trip(p.items, true)
            else Trip(p.items + Walk(requests[1..], p.next).output, Walk(requests[1..], p.next).ended)
  {
  }

  /** Whether one page skips over the key. */
  lemma {:induction false} OnePageSkips(requests: seq<Request>, cursor: Option<string>, key: Key)
    requires requests != [] && (cursor.Some? ==> Partition(cursor.value).Some?)
    ensures var p := PageOf(Remaining(requests[0].items, cursor), requests[0].limit);
            if p.next.None? then !SkippedOver(requests, cursor, key)
            else
              && p.items != []
              && (SkippedOver(requests, cursor, key) <==>
                  KeyBelow(key, p.items[|p.items| - 1].key)
                  && (KeyBelow(key, ReadAs(p.items[|p.items| - 1].key)) ==>
                        SkippedOver(requests[1..], p.next, key)))
  {
  }

  /** Whether a page lists the key, when some item of the collection has it. */
  lemma {:induction false} PageHasKey(items: seq<Item>, cursor: Option<string>, limit: Option<int>, key: Key)
    requires Descending(items) && (cursor.Some? ==> Partition(cursor.value).Some?)
    requires (limit.None? || limit.value >= 1) && HasKey(items, key) && Passes(cursor, key)
    ensures var left := Remaining(items, cursor);
            var page, next := Cut(left, limit), PageOf(left, limit).next;
            if next.None? then HasKey(page, key)
            else HasKey(page, key) <==> !KeyBelow(key, page[|page| - 1].key)
  {
    var left := Remaining(items, cursor);
    RemainingIs(items, cursor);
    var x := ItemWithKey(items, key);
    OnThisPageOrBelow(left, limit, x);
    var page, next := Cut(left, limit), PageOf(left, limit).next;
    if x in page { MemberHasKey(page, x); }
    if HasKey(page, key) && next.Some? {
      var y := ItemWithKey(page, key);
      PageIsAbove(left, limit, y);
    }
  }

  lemma {:induction false} BehindTheCursorIsNotListed(requests: seq<Request>, cursor: Option<string>, key: Key)
    requires Ordered(requests) && (cursor.Some? ==> Partition(cursor.value).Some?) && !Passes(cursor, key)
    ensures !HasKey(Walk(requests, cursor).output, key)
  {
    WalkPasses(requests, cursor);
    if HasKey(Walk(requests, cursor).output, key) {
      var x := ItemWithKey(Walk(requests, cursor).output, key);
    }
  }

  /** What one page settles about a key: listed, skipped over, or left to the rest. */
  lemma {:induction false} PageDecides(requests: seq<Request>, cursor: Option<string>, key: Key)
    returns (last: Option<Key>)
    requires Ordered(requests) && Asking(requests) && (cursor.Some? ==> Partition(cursor.value).Some?)
    requires requests != [] && HasKey(requests[0].items, key) && Passes(cursor, key)
    ensures if last.None? then
              HasKey(Walk(requests, cursor).output, key) && !SkippedOver(requests, cursor, key)
            else
              var next, below := Some(Join(last.value)), KeyBelow(key, last.value);
              && Partition(next.value).Some?
              && Walk(requests, cursor).ended == Walk(requests[1..], next).ended
              && (HasKey(Walk(requests, cursor).output, key)
                  <==> !below || HasKey(Walk(requests[1..], next).output, key))
              && (SkippedOver(requests, cursor, key) <==>
                  below && (KeyBelow(key, ReadAs(last.value)) ==> SkippedOver(requests[1..], next, key)))
  {
    var p := PageOf(Remaining(requests[0].items, cursor), requests[0].limit);
    OnePage(requests, cursor);
    OnePageSkips(requests, cursor, key);
    PageHasKey(requests[0].items, cursor, requests[0].limit, key);
    last := None;
    if p.next.Some? {
      last := Some(p.items[|p.items| - 1].key);
      CursorRoundTrip(last.value);
      HasKeyInEither(p.items, Walk(requests[1..], p.next).output, key);
    }
  }

  /** A finished walk lists what was present throughout and ahead of its cursor
      exactly when no page of it skipped over that key. */
  lemma {:induction false} WalkIsComplete(requests: seq<Request>, cursor: Option<string>, key: Key)
    requires Ordered(requests) && Asking(requests) && (cursor.Some? ==> Partition(cursor.value).Some?)
    requires Walk(requests, cursor).ended && PresentThroughout(requests, key) && Passes(cursor, key)
    ensures HasKey(Walk(requests, cursor).output, key) <==> !SkippedOver(requests, cursor, key)
    decreases |requests|, 1
  {
    var last := PageDecides(requests, cursor, key);
    if last.Some? {
      RestIsGood(requests, key);
      RestIsComplete(requests[1..], last.value, key);
    }
  }

  lemma {:induction false} RestIsComplete(rest: seq<Request>, last: Key, key: Key)
    requires Ordered(rest) && Asking(rest) && Partition(Join(last)).Some?
    requires Walk(rest, Some(Join(last))).ended && PresentThroughout(rest, key)
    ensures HasKey(Walk(rest, Some(Join(last))).output, key)
            <==> KeyBelow(key, ReadAs(last)) && !SkippedOver(rest, Some(Join(last)), key)
    decreases |rest|, 2
  {
    if KeyBelow(key, ReadAs(last)) {
      WalkIsComplete(rest, Some(Join(last)), key);
    } else {
      BehindTheCursorIsNotListed(rest, Some(Join(last)), key);
    }
  }

  /** Without a separator in the sort values nothing is skipped. */
  lemma {:induction false} NothingIsSkipped(requests: seq<Request>, cursor: Option<string>, key: Key)
    requires Ordered(requests) && SeparatorFree(requests) && (cursor.Some? ==> Partition(cursor.value).Some?)
    ensures !SkippedOver(requests, cursor, key)
    decreases |requests|
  {
    if requests == [] { return; }
    var p := Paginate(requests[0].items, cursor, requests[0].limit);
    PageFacts(requests[0].items, cursor, requests[0].limit);
    NextIsLast(requests[0].items, cursor, requests[0].limit);
    if p.next.Some? {
      assert p.items[|p.items| - 1] in requests[0].items;
      CursorRoundTrip(p.items[|p.items| - 1].key);
      RestIsFree(requests);
      NothingIsSkipped(requests[1..], p.next, key);
    }
  }

  lemma {:induction false} RestIsFree(requests: seq<Request>)
    requires requests != [] && Ordered(requests) && SeparatorFree(requests)
    ensures Ordered(requests[1..]) && SeparatorFree(requests[1..])
  {
    assert forall j | 0 <= j < |requests[1..]| :: requests[1..][j] == requests[j + 1];
  }

  /** The listing under churn: no repeats, only items present at some page, and of the
      items present throughout exactly those no page skipped over. Keys without a
      separator in their sort value are never skipped. */
  lemma {:induction false} ListingUnderChurn(requests: seq<Request>)
    requires Ordered(requests)
    ensures var trip := Walk(requests, None);
            && Descending(trip.output)
            && (forall x | x in trip.output :: Listed(requests, x))
            && (trip.ended && Asking(requests) ==>
                  forall key | PresentThroughout(requests, key) ::
                    HasKey(trip.output, key) <==> !SkippedOver(requests, None, key))
    ensures SeparatorFree(requests) ==> forall key :: !SkippedOver(requests, None, key)
  {
    WalkDescends(requests, None);
    WalkLists(requests, None);
    if Walk(requests, None).ended && Asking(requests) {
      forall key | PresentThroughout(requests, key)
        ensures HasKey(Walk(requests, None).output, key) <==> !SkippedOver(requests, None, key)
      {
        WalkIsComplete(requests, None, key);
      }
    }
    if SeparatorFree(requests) {
      forall key ensures !SkippedOver(requests, None, key) { NothingIsSkipped(requests, None, key); }
    }
  }

  // ---------------------------------------------------------------------
  // A collection that does not change

  /** Items above a lower boundary are fewer. */
  lemma {:induction false} LowerLeavesFewer(items: seq<Item>, low: Key, high: Key)
    requires low == high || KeyBelow(low, high)
    ensures |After(items, low)| <= |After(items, high)|
  {
    if items != [] {
      LowerLeavesFewer(items[1..], low, high);
      KeyBelowIsAnOrder(items[0].key, low, high);
    }
  }

  /** What is below the last item of a page is what follows it. */
  lemma {:induction false} TailIsBelow(items: seq<Item>, cursor: Option<string>, n: nat)
    requires Descending(items) && (cursor.Some? ==> Partition(cursor.value).Some?)
    requires 0 < n <= |Remaining(items, cursor)|
    ensures var left := Remaining(items, cursor);
            After(items, left[n - 1].key) == left[n..]
  {
    var left := Remaining(items, cursor);
    var last := left[n - 1].key;
    RemainingIs(items, cursor);
    AfterKeeps(items, last);
    assert Descending(left[n..]);
    forall x ensures x in left[n..] <==> x in After(items, last) {
      InTail(left, n, x);
      assert left[n - 1] in left;
      if cursor.Some? { KeyBelowIsAnOrder(x.key, last, Partition(cursor.value).value); }
    }
    DescendingIsUnique(After(items, last), left[n..]);
  }

  lemma {:induction false} InTail(left: seq<Item>, n: nat, x: Item)
    requires Descending(left) && 0 < n <= |left|
    ensures x in left[n..] <==> x in left && KeyBelow(x.key, left[n - 1].key)
  {
    if x in left && KeyBelow(x.key, left[n - 1].key) {
      var i :| 0 <= i < |left| && left[i] == x;
      KeyBelowIsAnOrder(x.key, left[n - 1].key, x.key);
      assert i >= n;
      assert left[n..][i - n] == x;
    }
  }

  /** When the next page starts right after the last one. */
  lemma {:induction false} NextPageStarts(items: seq<Item>, cursor: Option<string>, n: nat)
    requires Descending(items) && (cursor.Some? ==> Partition(cursor.value).Some?)
    requires 0 < n <= |Remaining(items, cursor)|
    ensures var left := Remaining(items, cursor);
            var last := left[n - 1].key;
            && Partition(Join(last)).Some?
            && (Remaining(items, Some(Join(last))) == left[n..]
                <==> forall x | x in items && KeyBelow(x.key, last) :: KeyBelow(x.key, ReadAs(last)))
  {
    var left := Remaining(items, cursor);
    var last := left[n - 1].key;
    CursorRoundTrip(last);
    TailIsBelow(items, cursor, n);
    SameBoundary(items, ReadAs(last), last);
  }

  lemma {:induction false} SameBoundary(items: seq<Item>, low: Key, high: Key)
    requires Descending(items) && (low == high || KeyBelow(low, high))
    ensures After(items, low) == After(items, high)
            <==> forall x | x in items && KeyBelow(x.key, high) :: KeyBelow(x.key, low)
  {
    AfterKeeps(items, low);
    AfterKeeps(items, high);
    if forall x | x in items && KeyBelow(x.key, high) :: KeyBelow(x.key, low) {
      forall x ensures x in After(items, low) <==> x in After(items, high) { KeyBelowIsAnOrder(x.key, low, high); }
      DescendingIsUnique(After(items, low), After(items, high));
    } else {
      var x :| x in items && KeyBelow(x.key, high) && !KeyBelow(x.key, low);
      assert x in After(items, high) && x !in After(items, low);
    }
  }

  lemma {:induction false} NextLeavesLess(items: seq<Item>, cursor: Option<string>, limit: Option<int>)
    requires Descending(items) && (cursor.Some? ==> Partition(cursor.value).Some?)
    requires PageOf(Remaining(items, cursor), limit).next.Some?
    ensures var next := PageOf(Remaining(items, cursor), limit).next;
            Partition(next.value).Some? && |Remaining(items, next)| < |Remaining(items, cursor)|
  {
    var left := Remaining(items, cursor);
    var n := |Cut(left, limit)|;
    var last := left[n - 1].key;
    CursorRoundTrip(last);
    TailIsBelow(items, cursor, n);
    LowerLeavesFewer(items, ReadAs(last), last);
  }

  ghost predicate Unchanging(requests: seq<Request>, items: seq<Item>) {
    forall i | 0 <= i < |requests| :: requests[i].items == items
  }

  lemma {:induction false} UnchangingRest(requests: seq<Request>, items: seq<Item>)
    requires requests != [] && Unchanging(requests, items) && Asking(requests)
    ensures Unchanging(requests[1..], items) && Asking(requests[1..])
  {
    assert forall j | 0 <= j < |requests[1..]| :: requests[1..][j] == requests[j + 1];
  }

  /** Without churn every walk ends, whatever characters the keys hold. */
  lemma {:induction false} WalkEnds(requests: seq<Request>, items: seq<Item>, cursor: Option<string>)
    requires Descending(items) && Unchanging(requests, items) && Asking(requests)
    requires (cursor.Some? ==> Partition(cursor.value).Some?) && |requests| > |Remaining(items, cursor)|
    ensures Walk(requests, cursor).ended
    decreases |requests|
  {
    var next := PageOf(Remaining(items, cursor), requests[0].limit).next;
    if next.Some? {
      NextLeavesLess(items, cursor, requests[0].limit);
      UnchangingRest(requests, items);
      WalkEnds(requests[1..], items, next);
    }
  }

  lemma {:induction false} SameKeySameItem(items: seq<Item>, x: Item, y: Item)
    requires Descending(items) && x in items && y in items && x.key == y.key
    ensures x == y
  {
    KeyBelowIsAnOrder(x.key, x.key, x.key);
  }

  lemma {:induction false} ListedWithoutChurn(requests: seq<Request>, items: seq<Item>, x: Item)
    requires Descending(items) && Unchanging(requests, items) && Asking(requests)
    requires Walk(requests, None).ended && x in items
    ensures x in Walk(requests, None).output <==> !SkippedOver(requests, None, x.key)
  {
    forall i | 0 <= i < |requests| ensures HasKey(requests[i].items, x.key) { MemberHasKey(items, x); }
    WalkIsComplete(requests, None, x.key);
    var output := Walk(requests, None).output;
    if x in output { MemberHasKey(output, x); }
    if HasKey(output, x.key) {
      var y := ItemWithKey(output, x.key);
      OutputIsFromItems(requests, items, y);
      SameKeySameItem(items, x, y);
    }
  }

  lemma {:induction false} OutputIsFromItems(requests: seq<Request>, items: seq<Item>, y: Item)
    requires Descending(items) && Unchanging(requests, items) && y in Walk(requests, None).output
    ensures y in items
  {
    WalkLists(requests, None);
    var i :| 0 <= i < |requests| && y in requests[i].items;
  }

  /** Without churn the walk ends, after at most one page an item and one more, and
      lists exactly the collection, but for the items a page skipped over. */
  lemma {:induction false} ListingWithoutChurn(requests: seq<Request>, items: seq<Item>)
    requires Descending(items) && Unchanging(requests, items) && Asking(requests) && |requests| > |items|
    ensures var trip := Walk(requests, None);
            && trip.ended && Descending(trip.output)
            && (forall x :: x in trip.output <==> x in items && !SkippedOver(requests, None, x.key))
            && (trip.output == items <==> forall x | x in items :: !SkippedOver(requests, None, x.key))
  {
    var trip := Walk(requests, None);
    WalkEnds(requests, items, None);
    WalkDescends(requests, None);
    forall x ensures x in trip.output <==> x in items && !SkippedOver(requests, None, x.key) {
      if x in trip.output { OutputIsFromItems(requests, items, x); }
      if x in items { ListedWithoutChurn(requests, items, x); }
    }
    if forall x | x in items :: !SkippedOver(requests, None, x.key) { DescendingIsUnique(trip.output, items); }
  }

  /** Every cursor the collection can hand out still leads to all that is below it. */
  ghost predicate CursorSafe(items: seq<Item>) {
    forall x, y | x in items && y in items && KeyBelow(x.key, y.key) :: KeyBelow(x.key, ReadAs(y.key))
  }

  lemma {:induction false} SafeSkipsNothing(requests: seq<Request>, items: seq<Item>, cursor: Option<string>, x: Item)
    requires Descending(items) && Unchanging(requests, items) && Asking(requests) && CursorSafe(items) && x in items
    requires cursor.Some? ==> Partition(cursor.value).Some?
    ensures !SkippedOver(requests, cursor, x.key)
    decreases |requests|
  {
    if requests == [] { return; }
    var p := Paginate(items, cursor, requests[0].limit);
    PageFacts(items, cursor, requests[0].limit);
    NextIsLast(items, cursor, requests[0].limit);
    if p.next.Some? {
      assert p.items[|p.items| - 1] in items;
      UnchangingRest(requests, items);
      SafeSkipsNothing(requests[1..], items, p.next, x);
    }
  }

  /** A page that ends at `y` skips over `x`. */
  lemma {:induction false} UnsafeSkips(requests: seq<Request>, items: seq<Item>, j: nat, x: Item)
    requires Descending(items) && j < |items| && x in items && requests != []
    requires requests[0] == Request(items, Some(j + 1))
    requires KeyBelow(x.key, items[j].key) && !KeyBelow(x.key, ReadAs(items[j].key))
    ensures SkippedOver(requests, None, x.key)
  {
    var i :| 0 <= i < |items| && items[i] == x;
    KeyBelowIsAnOrder(x.key, items[j].key, x.key);
    assert i > j;
    assert Paginate(items, None, Some(j + 1)).items == items[..j + 1];
  }

  /** Exactly when a collection is listed in full in pages of any sizes: whenever an
      item is below another, it is also below what that one's cursor is read as. */
  lemma {:induction false} ListedInFullWhateverThePages(items: seq<Item>)
    requires Descending(items)
    ensures CursorSafe(items) <==>
            forall requests | Unchanging(requests, items) && Asking(requests) && |requests| > |items| ::
              Walk(requests, None) == Trip(items, true)
  {
    if CursorSafe(items) {
      forall requests | Unchanging(requests, items) && Asking(requests) && |requests| > |items|
        ensures Walk(requests, None) == Trip(items, true)
      {
        forall x | x in items ensures !SkippedOver(requests, None, x.key) {
          SafeSkipsNothing(requests, items, None, x);
        }
        ListingWithoutChurn(requests, items);
      }
    } else {
      var requests := UnsafeWalk(items);
      assert Walk(requests, None) != Trip(items, true);
    }
  }

  function Repeated(request: Request, n: nat): (r: seq<Request>)
    ensures |r| == n && forall i | 0 <= i < n :: r[i] == request
  {
    if n == 0 then [] else [request] + Repeated(request, n - 1)
  }

  lemma {:induction false} UnsafeWalk(items: seq<Item>) returns (requests: seq<Request>)
    requires Descending(items) && !CursorSafe(items)
    ensures Unchanging(requests, items) && Asking(requests) && |requests| > |items|
    ensures Walk(requests, None) != Trip(items, true)
  {
    var x, y :| x in items && y in items && KeyBelow(x.key, y.key) && !KeyBelow(x.key, ReadAs(y.key));
    var j: nat :| j < |items| && items[j] == y;
    requests := Repeated(Request(items, Some(j + 1)), |items| + 1);
    UnsafeSkips(requests, items, j, x);
    SkippedIsNotListed(requests, items, x);
  }

  lemma {:induction false} SkippedIsNotListed(requests: seq<Request>, items: seq<Item>, x: Item)
    requires Descending(items) && Unchanging(requests, items) && Asking(requests) && |requests| > |items|
    requires x in items && SkippedOver(requests, None, x.key)
    ensures Walk(requests, None) != Trip(items, true)
  {
    ListingWithoutChurn(requests, items);
  }

  lemma {:induction false} SeparatorFreeIsSafe(items: seq<Item>)
    requires forall x | x in items :: SEPARATOR !in x.key.sort
    ensures CursorSafe(items)
  {
    forall y | y in items ensures ReadAs(y.key) == y.key { CursorRoundTrip(y.key); }
  }

  const TILDE: Item := Item(Key("ba~", "1"), 1)
  const BANG: Item := Item(Key("ba!", "2"), 2)

  /** The cursor made from the first key reads as a key that neither is below. */
  lemma {:induction false} TildeReadsLower()
    ensures Join(TILDE.key) == "ba~~1" && Partition("ba~~1") == Some(Key("ba", "~1"))
    ensures KeyBelow(BANG.key, TILDE.key)
    ensures !KeyBelow(TILDE.key, Key("ba", "~1")) && !KeyBelow(BANG.key, Key("ba", "~1"))
  {
    assert "ba~~1"[1..] == "a~~1" && "a~~1"[1..] == "~~1" && "~~1"[1..] == "~1";
    assert Partition("~~1") == Some(Key("", "~1"));
    assert Partition("a~~1") == Some(Key("a", "~1")) by { assert ['a'] + "" == "a"; }
    assert Partition("ba~~1") == Some(Key("ba", "~1")) by { assert ['b'] + "a" == "ba"; }
    assert "ba"[1..] == "a" && "a"[1..] == "";
    assert "ba~"[1..] == "a~" && "a~"[1..] == "~";
    assert "ba!"[1..] == "a!" && "a!"[1..] == "!";
  }

  lemma {:induction false} TildePages()
    ensures Paginate([TILDE, BANG], None, Some(1)) == Page([TILDE], Some("ba~~1"), true)
    ensures Paginate([TILDE, BANG], Some("ba~~1"), Some(1)) == Page([], None, false)
  {
    TildeReadsLower();
    assert [TILDE, BANG][..1] == [TILDE];
    assert [TILDE, BANG][1..] == [BANG] && [BANG][1..] == [];
    assert After([BANG], Key("ba", "~1")) == [];
  }

  /** With a separator in a sort value items can be passed over: the cursor of the
      first item here reads as a key below the second, which is never listed. */
  lemma {:induction false} SeparatorSkipsItems()
    ensures var requests := [Request([TILDE, BANG], Some(1)), Request([TILDE, BANG], Some(1))];
            Ordered(requests) && Walk(requests, None) == Trip([TILDE], true)
    ensures !CursorSafe([TILDE, BANG])
  {
    TildeIsUnsafe();
    TildeIsOrdered();
    TildeWalk(Request([TILDE, BANG], Some(1)));
  }

  lemma {:induction false} TildeIsOrdered()
    ensures Descending([TILDE, BANG])
  {
    TildeReadsLower();
  }

  lemma {:induction false} TildeWalk(request: Request)
    requires request == Request([TILDE, BANG], Some(1))
    ensures Walk([request, request], None) == Trip([TILDE], true)
  {
    TildePages();
    assert [request, request][1..] == [request];
    assert Walk([request], Some("ba~~1")) == Trip([], true);
  }

  lemma {:induction false} TildeIsUnsafe()
    ensures !CursorSafe([TILDE, BANG])
  {
    TildeReadsLower();
    assert TILDE in [TILDE, BANG] && BANG in [TILDE, BANG];
    assert ReadAs(TILDE.key) == Key("ba", "~1");
  }
}
