/** The paging steps the four list methods share: collect the keys in any order, sort, scan for
    the cursor, cut. */
module Listing {
  import opened Pager

  predicate Distinct(names: seq<string>) {
    forall i, j :: 0 <= i < j < |names| ==> names[i] != names[j]
  }

  /** Ranging over a map's keys, in whatever order they come. */
  method CollectNames<V>(m: map<string, V>) returns (names: seq<string>)
    ensures Distinct(names) && forall k :: k in names <==> k in m
  {
    names := [];
    var rest := m.Keys;
    while rest != {}
      invariant rest <= m.Keys
      invariant Distinct(names) && forall k :: k in names <==> k in m.Keys - rest
      decreases |rest|
    {
      var k :| k in rest;
      assert forall i :: 0 <= i < |names| ==> names[i] in names;
      names := names + [k];
      rest := rest - {k};
    }
  }

  /** Where a new name goes in a sorted sequence. */
  method InsertionPoint(sorted: seq<string>, name: string) returns (at: nat)
    requires Sorted(sorted) && name !in sorted
    ensures at <= |sorted|
    ensures forall i :: 0 <= i < at ==> Less(sorted[i], name)
    ensures forall i :: at <= i < |sorted| ==> Less(name, sorted[i])
  {
    at := 0;
    while at < |sorted| && Less(sorted[at], name)
      invariant at <= |sorted|
      invariant forall i :: 0 <= i < at ==> Less(sorted[i], name)
    {
      at := at + 1;
    }
    if at < |sorted| {
      assert sorted[at] in sorted;
      LessTotal(sorted[at], name);
      forall i | at <= i < |sorted| ensures Less(name, sorted[i]) {
        if i > at {
          LessTransitive(name, sorted[at], sorted[i]);
        }
      }
    }
  }

  lemma InsertKeepsSorted(sorted: seq<string>, name: string, at: nat)
    requires Sorted(sorted) && at <= |sorted|
    requires forall i :: 0 <= i < at ==> Less(sorted[i], name)
    requires forall i :: at <= i < |sorted| ==> Less(name, sorted[i])
    ensures Sorted(sorted[..at] + [name] + sorted[at..])
  {
    hide Less;
    var s := sorted[..at] + [name] + sorted[at..];
    forall i, j | 0 <= i < j < |s| ensures Less(s[i], s[j]) {
      if i == at {
        assert s[j] == sorted[j - 1];
      }
    }
  }

  /** A sort by insertion in the place of `sort.Strings`; its contract is what the callers rely on. */
  method SortNames(names: seq<string>) returns (sorted: seq<string>)
    requires Distinct(names)
    ensures Sorted(sorted) && forall k :: k in sorted <==> k in names
  {
    sorted := [];
    for n := 0 to |names|
      invariant Sorted(sorted) && forall k :: k in sorted <==> k in names[..n]
    {
      hide Less, Sorted;
      assert names[n] !in names[..n];
      var at := InsertionPoint(sorted, names[n]);
      InsertKeepsSorted(sorted, names[n], at);
      assert sorted == sorted[..at] + sorted[at..];
      sorted := sorted[..at] + [names[n]] + sorted[at..];
      assert names[..n + 1] == names[..n] + [names[n]];
    }
    assert names[..|names|] == names;
  }

  /** The linear scan for the cursor. */
  method StartPosition(names: seq<string>, cursor: string) returns (startPos: nat)
    requires "" !in names
    ensures startPos == StartAfter(names, cursor)
  {
    startPos := 0;
    if cursor != "" {
      for i := 0 to |names|
        invariant startPos == 0
        invariant cursor !in names[..i]
      {
        if names[i] == cursor {
          startPos := i + 1;
          FoundAt(names, cursor, i);
          return;
        }
      }
      assert names[..|names|] == names;
    }
  }

  lemma {:induction false} FoundAt(names: seq<string>, cursor: string, i: nat)
    requires i < |names| && names[i] == cursor && cursor !in names[..i]
    ensures StartAfter(names, cursor) == i + 1
    decreases |names|
  {
    if i > 0 {
      assert names[..i][0] == names[0];
      assert forall k | k in names[1..][..i - 1] :: k in names[..i];
      FoundAt(names[1..], cursor, i - 1);
    }
  }

  /** Cuts one page out of the sorted names, and names its last key if more follow. */
  method Cut(names: seq<string>, startPos: nat) returns (page: seq<string>, next: string)
    requires startPos <= |names|
    ensures page == FirstPage(names[startPos..])
    ensures next == if |names[startPos..]| > PAGE_SIZE then names[startPos..][PAGE_SIZE - 1] else ""
  {
    var endPos := startPos + PAGE_SIZE;
    if endPos > |names| {
      endPos := |names|;
    }
    page, next := [], "";
    if startPos >= |names| {
      return;
    }
    page := names[startPos..endPos];
    if endPos < |names| {
      next := names[endPos - 1];
    }
  }

  /** The names on the page after `cursor`, and the next cursor. */
  method PageNames<V>(m: map<string, V>, cursor: string) returns (page: seq<string>, next: string)
    requires "" !in m
    ensures page == PageOf(m.Keys, cursor) && next == NextOf(m.Keys, cursor)
    ensures InByteOrder(page) && forall k | k in page :: k in m
  {
    hide Sorted, Less, Remaining, Ordered, StartAfter, InByteOrder, ComesBefore;
    var collected := CollectNames(m);
    var names := SortNames(collected);
    var startPos := StartPosition(names, cursor);
    CutListsRemaining(names, m.Keys, cursor);
    page, next := Cut(names, startPos);
    PageIsSorted(m.Keys, cursor);
    SortedByBytes(page);
    assert forall k | k in page :: k in names[startPos..];
  }
}
