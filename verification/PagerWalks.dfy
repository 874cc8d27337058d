/** Walking a registry from the empty cursor, one page per call, while registrations go on
    between the calls. */
module PagerWalks {
  import opened Pager

  /** What happens to a registry during a walk. */
  datatype Op = Register(key: string) | Fetch

  /** The keys after one operation; an empty key is refused. */
  function KeysAfter(keys: set<string>, op: Op): set<string> {
    if op.Register? && op.key != "" then keys + {op.key} else keys
  }

  /** The key sets that successive page calls find. */
  function Snapshots(keys: set<string>, ops: seq<Op>): seq<set<string>>
    decreases |ops|
  {
    if ops == [] then []
    else (if ops[0].Fetch? then [keys] else []) + Snapshots(KeysAfter(keys, ops[0]), ops[1..])
  }

  /** The pages of a walk that stops at an empty next cursor. */
  ghost function Walk(finds: seq<set<string>>, cursor: string): seq<seq<string>> {
    if finds == [] then []
    else
      var next := NextOf(finds[0], cursor);
      [PageOf(finds[0], cursor)] + (if next == "" then [] else Walk(finds[1..], next))
  }

  ghost predicate Finished(finds: seq<set<string>>, cursor: string) {
    finds != [] && (NextOf(finds[0], cursor) == "" || Finished(finds[1..], NextOf(finds[0], cursor)))
  }

  function Flat(pages: seq<seq<string>>): seq<string> {
    if pages == [] then [] else pages[0] + Flat(pages[1..])
  }

  predicate Growing(finds: seq<set<string>>) {
    forall i, j :: 0 <= i <= j < |finds| ==> finds[i] <= finds[j] && "" !in finds[j]
  }

  /** A cursor the registry itself handed out, or none. */
  predicate Valid(keys: set<string>, cursor: string) {
    "" !in keys && (cursor == "" || cursor in keys)
  }

  /** Keys are never removed, so what page calls find only grows. */
  lemma {:induction false} SnapshotsGrow(keys: set<string>, ops: seq<Op>)
    requires "" !in keys
    ensures var finds := Snapshots(keys, ops);
            Growing(finds) && forall i :: 0 <= i < |finds| ==> keys <= finds[i]
    decreases |ops|
  {
    if ops != [] {
      SnapshotsGrow(KeysAfter(keys, ops[0]), ops[1..]);
    }
  }

  function Fetches(ops: seq<Op>): nat {
    if ops == [] then 0 else (if ops[0].Fetch? then 1 else 0) + Fetches(ops[1..])
  }

  /** The keys there at first and those registered by `ops`. */
  ghost function Registered(keys: set<string>, ops: seq<Op>): set<string> {
    keys + set i | 0 <= i < |ops| && ops[i].Register? && ops[i].key != "" :: ops[i].key
  }

  lemma RegisteredFirst(keys: set<string>, ops: seq<Op>)
    requires ops != []
    ensures Registered(keys, ops) == Registered(KeysAfter(keys, ops[0]), ops[1..])
  {
    forall k ensures k in Registered(keys, ops) <==> k in Registered(KeysAfter(keys, ops[0]), ops[1..]) {
      if i :| 0 <= i < |ops| && ops[i].Register? && ops[i].key != "" && ops[i].key == k && i > 0 {
        assert ops[1..][i - 1] == ops[i];
      }
    }
  }

  /** Each page call finds the keys registered before it, and no others. */
  lemma {:induction false} FetchFinds(keys: set<string>, ops: seq<Op>, p: nat)
    requires p < |ops| && ops[p].Fetch?
    ensures var finds, j := Snapshots(keys, ops), Fetches(ops[..p]);
            |finds| == Fetches(ops) && j < |finds| && finds[j] == Registered(keys, ops[..p])
    decreases |ops|
  {
    hide Registered;
    SnapshotPerFetch(keys, ops);
    if p == 0 {
      NothingRegistered(keys);
      assert ops[..p] == [];
    } else {
      assert ops[..p][1..] == ops[1..][..p - 1];
      RegisteredFirst(keys, ops[..p]);
      FetchFinds(KeysAfter(keys, ops[0]), ops[1..], p - 1);
    }
  }

  lemma NothingRegistered(keys: set<string>)
    ensures Registered(keys, []) == keys
  {
  }

  lemma {:induction false} SnapshotPerFetch(keys: set<string>, ops: seq<Op>)
    ensures |Snapshots(keys, ops)| == Fetches(ops)
    decreases |ops|
  {
    if ops != [] {
      SnapshotPerFetch(KeysAfter(keys, ops[0]), ops[1..]);
    }
  }

  lemma RemainingIsAbove(keys: set<string>, cursor: string)
    requires Valid(keys, cursor)
    ensures Remaining(keys, cursor) == Above(keys, cursor)
  {
  }

  predicate AtMost(k: string, bound: string) {
    k == bound || Less(k, bound)
  }

  /** The first twenty of a sorted listing are what lies at or below the twentieth. */
  lemma PrefixLists(names: seq<string>, keys: set<string>, p: nat)
    requires Lists(names, keys) && p < |names|
    ensures forall k :: k in names[..p + 1] <==> k in keys && AtMost(k, names[p])
  {
    forall k ensures k in names[..p + 1] <==> k in keys && AtMost(k, names[p]) {
      hide Less;
      if k in names[..p + 1] {
        var i :| 0 <= i <= p && names[..p + 1][i] == k;
        assert names[i] == k;
      }
      if k in keys && AtMost(k, names[p]) {
        var i :| 0 <= i < |names| && names[i] == k;
        if i > p {
          NotBelow(names, p, i);
        }
        assert names[..p + 1][i] == k;
      }
    }
  }

  /** A page is sorted and holds exactly the keys found above the cursor, up to and including the
      next cursor if there is one; the next cursor is a key further on. */
  lemma PageRange(keys: set<string>, cursor: string)
    requires Valid(keys, cursor)
    ensures var page, next := PageOf(keys, cursor), NextOf(keys, cursor);
            && Sorted(page)
            && (forall k :: k in page <==> k in keys && Less(cursor, k) && (next == "" || AtMost(k, next)))
            && (next != "" ==> next in keys && Less(cursor, next))
  {
    hide Less, AtMost, Remaining, Ordered;
    var rest := Remaining(keys, cursor);
    var names := Ordered(rest);
    RemainingIsAbove(keys, cursor);
    if |rest| > PAGE_SIZE {
      var next := names[PAGE_SIZE - 1];
      PrefixLists(names, rest, PAGE_SIZE - 1);
      assert next in names && next in rest && next in keys;
      assert PageOf(keys, cursor) == names[..PAGE_SIZE - 1 + 1];
      assert NextOf(keys, cursor) == next != "";
    } else {
      assert PageOf(keys, cursor) == names;
    }
    assert forall k :: k in rest <==> k in keys && Less(cursor, k);
  }

  lemma AtMostByBytes(k: string, bound: string)
    ensures AtMost(k, bound) <==> k == bound || ComesBefore(k, bound)
  {
    LessIsByteOrder(k, bound);
  }

  /** Any cursor whatever: a key starts the page behind it, anything else at the first key. The page
      holds, in byte order, exactly the keys from there up to and including the next cursor, and to
      the end if there is none. It has at most twenty, and twenty if there is a next cursor, which
      is the last of them and not the last key. */
  lemma PageIsRange(keys: set<string>, cursor: string)
    requires "" !in keys
    ensures var page, next := PageOf(keys, cursor), NextOf(keys, cursor);
            && InByteOrder(page)
            && (forall k :: k in page <==>
                  k in keys && (cursor in keys ==> ComesBefore(cursor, k)) &&
                  (next == "" || k == next || ComesBefore(k, next)))
            && |page| <= 20
            && (next != "" ==> |page| == 20 && page[19] == next && exists k :: k in keys && ComesBefore(next, k))
  {
    hide Less, AtMost, InByteOrder, ComesBefore, PageOf, NextOf, Sorted;
    var from := if cursor in keys then cursor else "";
    SameAsFirst(keys, cursor);
    PageRange(keys, from);
    PageIsSorted(keys, cursor);
    SortedByBytes(PageOf(keys, cursor));
    var next := NextOf(keys, cursor);
    forall k ensures AtMost(k, next) <==> k == next || ComesBefore(k, next) {
      AtMostByBytes(k, next);
    }
    forall k | k in keys ensures Less(from, k) <==> (cursor in keys ==> ComesBefore(cursor, k)) {
      LessIsByteOrder(from, k);
      NonEmptyIsAbove(k);
    }
    PageSize(keys, cursor);
    if next != "" {
      var k :| k in keys && Less(next, k);
      LessIsByteOrder(next, k);
    }
  }

  lemma NonEmptyIsAbove(k: string)
    ensures k != "" ==> Less("", k)
  {
  }

  /** A cursor that is no key is as good as none. */
  lemma SameAsFirst(keys: set<string>, cursor: string)
    requires "" !in keys
    ensures cursor !in keys ==> PageOf(keys, cursor) == PageOf(keys, "") && NextOf(keys, cursor) == NextOf(keys, "")
  {
  }

  lemma PageSize(keys: set<string>, cursor: string)
    requires "" !in keys
    ensures var page, next := PageOf(keys, cursor), NextOf(keys, cursor);
            && |page| <= 20
            && (next != "" ==> |page| == 20 && page[19] == next && exists k :: k in keys && Less(next, k))
  {
    hide Less, Ordered, Remaining;
    var names := Ordered(Remaining(keys, cursor));
    if |names| > PAGE_SIZE {
      assert Less(names[19], names[20]) && names[20] in names && names[20] in Remaining(keys, cursor);
      RemainingAreKeys(keys, cursor);
    }
  }

  lemma RemainingAreKeys(keys: set<string>, cursor: string)
    ensures Remaining(keys, cursor) <= keys
  {
  }

  lemma FlatCons(page: seq<string>, pages: seq<seq<string>>)
    ensures Flat([page] + pages) == page + Flat(pages)
  {
    assert ([page] + pages)[1..] == pages;
  }

  lemma SortedConcat(a: seq<string>, b: seq<string>, bound: string)
    requires Sorted(a) && Sorted(b)
    requires forall k | k in a :: AtMost(k, bound)
    requires forall k | k in b :: Less(bound, k)
    ensures Sorted(a + b)
  {
    hide Less;
    var s := a + b;
    forall i, j | 0 <= i < j < |s| ensures Less(s[i], s[j]) {
      if i < |a| <= j {
        assert a[i] in a && b[j - |a|] in b;
        if a[i] != bound {
          LessTransitive(a[i], bound, b[j - |a|]);
        }
      }
    }
  }

  /** A walk over growing finds returns keys in strictly increasing order, so none twice, all of
      them beyond the cursor it started from. */
  lemma {:induction false} WalkIncreases(finds: seq<set<string>>, cursor: string)
    requires Growing(finds) && (finds != [] ==> Valid(finds[0], cursor))
    ensures Sorted(Flat(Walk(finds, cursor)))
    ensures forall k | k in Flat(Walk(finds, cursor)) :: Less(cursor, k)
    decreases |finds|
  {
    hide Less, PageOf, NextOf, AtMost;
    if finds != [] {
      var page, next := PageOf(finds[0], cursor), NextOf(finds[0], cursor);
      PageRange(finds[0], cursor);
      if next == "" {
        FlatCons(page, []);
        assert page + [] == page;
      } else {
        WalkIncreases(finds[1..], next);
        var later := Flat(Walk(finds[1..], next));
        FlatCons(page, Walk(finds[1..], next));
        SortedConcat(page, later, next);
        forall k | k in page + later ensures Less(cursor, k) {
          if k in later {
            LessTransitive(cursor, next, k);
          }
        }
      }
    }
  }

  /** The page call in whose range `k` falls finds it registered. */
  ghost predicate Due(finds: seq<set<string>>, cursor: string, k: string) {
    finds != [] &&
    var next := NextOf(finds[0], cursor);
    if next == "" || AtMost(k, next) then k in finds[0] else Due(finds[1..], next, k)
  }

  /** What a walk returns, exactly: the keys beyond the cursor that were registered when the page
      they belong to was fetched. */
  lemma {:induction false} WalkReturnsExactly(finds: seq<set<string>>, cursor: string, k: string)
    requires Growing(finds) && (finds != [] ==> Valid(finds[0], cursor))
    requires Less(cursor, k)
    ensures k in Flat(Walk(finds, cursor)) <==> Due(finds, cursor, k)
    decreases |finds|
  {
    hide Less, PageOf, NextOf, AtMost;
    if finds != [] {
      var page, next := PageOf(finds[0], cursor), NextOf(finds[0], cursor);
      PageRange(finds[0], cursor);
      if next == "" {
        FlatCons(page, []);
      } else {
        FlatCons(page, Walk(finds[1..], next));
        if AtMost(k, next) {
          WalkIncreases(finds[1..], next);
          AtMostIsNotAbove(k, next);
        } else {
          NotAtMostIsAbove(k, next);
          WalkReturnsExactly(finds[1..], next, k);
        }
      }
    }
  }

  lemma AtMostIsNotAbove(k: string, bound: string)
    requires AtMost(k, bound)
    ensures !Less(bound, k)
  {
    if k == bound {
      LessIrreflexive(k);
    } else {
      LessAsymmetric(k, bound);
    }
  }

  lemma NotAtMostIsAbove(k: string, bound: string)
    requires !AtMost(k, bound)
    ensures Less(bound, k)
  {
    LessTotal(k, bound);
  }

  lemma {:induction false} EarlyKeysAreDue(finds: seq<set<string>>, cursor: string, k: string)
    requires Growing(finds) && Finished(finds, cursor) && k in finds[0]
    ensures Due(finds, cursor, k)
    decreases |finds|
  {
    hide NextOf, AtMost;
    var next := NextOf(finds[0], cursor);
    if next != "" && !AtMost(k, next) {
      assert finds[0] <= finds[1];
      EarlyKeysAreDue(finds[1..], next, k);
    }
  }

  /** Whatever is registered between the page calls of a walk from the empty cursor: the keys come
      in strictly increasing order without duplicates, each was registered, and once the walk has
      finished, every key present at its start was returned. */
  lemma {:induction false} InterleavedWalk(keys: set<string>, ops: seq<Op>)
    requires "" !in keys
    ensures var finds := Snapshots(keys, ops);
            var returned := Flat(Walk(finds, ""));
            && InByteOrder(returned)
            && (forall k :: k in returned <==> k != "" && Due(finds, "", k))
            && (Finished(finds, "") ==> forall k | k in keys :: k in returned)
  {
    var finds := Snapshots(keys, ops);
    SnapshotsGrow(keys, ops);
    WalkIncreases(finds, "");
    SortedByBytes(Flat(Walk(finds, "")));
    hide InByteOrder, Walk, Flat, Finished, Due, Snapshots;
    forall k ensures k in Flat(Walk(finds, "")) <==> k != "" && Due(finds, "", k) {
      if k != "" {
        WalkReturnsExactly(finds, "", k);
      }
    }
    if Finished(finds, "") {
      forall k | k in keys ensures k in Flat(Walk(finds, "")) {
        FinishedFinds(finds, "");
        EarlyKeysAreDue(finds, "", k);
      }
    }
  }

  lemma FinishedFinds(finds: seq<set<string>>, cursor: string)
    requires Finished(finds, cursor)
    ensures finds != []
  {
  }

  // ---- An unchanging registry ----

  function Repeat(keys: set<string>, n: nat): seq<set<string>> {
    if n == 0 then [] else [keys] + Repeat(keys, n - 1)
  }

  /** max(1, ceil(n / 20)). */
  function PageCount(n: nat): nat {
    if n == 0 then 1 else (n + PAGE_SIZE - 1) / PAGE_SIZE
  }

  /** After a full page, the rest of the listing remains. */
  lemma RestRemains(keys: set<string>, cursor: string)
    requires Valid(keys, cursor) && |Remaining(keys, cursor)| > PAGE_SIZE
    ensures Ordered(Remaining(keys, NextOf(keys, cursor))) == Ordered(Remaining(keys, cursor))[PAGE_SIZE..]
    ensures Valid(keys, NextOf(keys, cursor)) && NextOf(keys, cursor) != ""
  {
    hide Less, Sorted;
    var rest := Remaining(keys, cursor);
    var names := Ordered(rest);
    var next := names[PAGE_SIZE - 1];
    assert next in names;
    TailLists(names, rest, PAGE_SIZE - 1);
    RemainingIsAbove(keys, cursor);
    assert Above(rest, next) == Above(keys, next) by {
      forall k | k in keys && Less(next, k) ensures Less(cursor, k) {
        LessTransitive(cursor, next, k);
      }
    }
    ListingIsUnique(names[PAGE_SIZE..], Ordered(Above(keys, next)), Above(keys, next));
  }

  /** From any cursor handed out, given enough calls. */
  lemma {:induction false} StaticWalkFrom(keys: set<string>, cursor: string, calls: nat)
    requires Valid(keys, cursor) && calls >= PageCount(|Remaining(keys, cursor)|)
    ensures var pages := Walk(Repeat(keys, calls), cursor);
            && Finished(Repeat(keys, calls), cursor)
            && |pages| == PageCount(|Remaining(keys, cursor)|)
            && Flat(pages) == Ordered(Remaining(keys, cursor))
    decreases calls
  {
    hide Remaining, Ordered, Less, Sorted;
    var finds := Repeat(keys, calls);
    assert finds[0] == keys && finds[1..] == Repeat(keys, calls - 1);
    var names := Ordered(Remaining(keys, cursor));
    var page, next := PageOf(keys, cursor), NextOf(keys, cursor);
    if |names| <= PAGE_SIZE {
      FlatCons(page, []);
      assert page + [] == names;
    } else {
      RestRemains(keys, cursor);
      assert |Remaining(keys, next)| == |names| - PAGE_SIZE;
      StaticWalkFrom(keys, next, calls - 1);
      FlatCons(page, Walk(finds[1..], next));
      assert page + names[PAGE_SIZE..] == names;
    }
  }

  /** On a registry nobody changes, a walk from the start takes exactly one call per twenty keys, but
      at least one, and returns all keys in byte order. */
  lemma {:induction false} StaticWalk(keys: set<string>, calls: nat)
    requires "" !in keys && calls >= |keys| / 20 + 1
    ensures var pages := Walk(Repeat(keys, calls), "");
            && Finished(Repeat(keys, calls), "")
            && |pages| == (if keys == {} then 1 else (|keys| + 19) / 20)
            && InByteOrder(Flat(pages)) && |Flat(pages)| == |keys|
            && forall k :: k in Flat(pages) <==> k in keys
  {
    hide Walk, Flat, Finished, Ordered, Less, InByteOrder, Sorted;
    assert Remaining(keys, "") == keys;
    StaticWalkFrom(keys, "", calls);
    SortedByBytes(Ordered(keys));
  }
}
