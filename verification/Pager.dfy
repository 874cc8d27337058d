/** Cursor pagination over a set of keys: what one page is, and what a walk from page to page
    returns while keys keep being registered. Keys are compared byte by byte, as `sort.Strings`
    does; a character stands for a byte. */
module Pager {
  import opened Wrappers

  const PAGE_SIZE := 20

  // ---- Order ----

  predicate Less(a: string, b: string) {
    b != "" && (a == "" || a[0] < b[0] || (a[0] == b[0] && Less(a[1..], b[1..])))
  }

  /** Byte order, said by positions: `a` is a proper prefix of `b`, or is smaller at the first
      position where they differ. */
  ghost predicate ComesBefore(a: string, b: string) {
    || (|a| < |b| && b[..|a|] == a)
    || (exists i :: 0 <= i < |a| && i < |b| && a[..i] == b[..i] && a[i] < b[i])
  }

  lemma {:induction false} LessIsByteOrder(a: string, b: string)
    ensures Less(a, b) <==> ComesBefore(a, b)
    decreases |a|
  {
    if a != "" && b != "" && a[0] == b[0] {
      LessIsByteOrder(a[1..], b[1..]);
      assert a == [a[0]] + a[1..] && b == [b[0]] + b[1..];
      if i :| 0 <= i < |a[1..]| && i < |b[1..]| && a[1..][..i] == b[1..][..i] && a[1..][i] < b[1..][i] {
        assert a[..i + 1] == [a[0]] + a[1..][..i] && b[..i + 1] == [b[0]] + b[1..][..i];
        assert a[i + 1] < b[i + 1];
      }
      if i :| 0 <= i < |a| && i < |b| && a[..i] == b[..i] && a[i] < b[i] {
        assert a[1..][..i - 1] == a[..i][1..] && b[1..][..i - 1] == b[..i][1..];
        assert a[1..][i - 1] < b[1..][i - 1];
      }
      if |a| < |b| && b[..|a|] == a {
        assert b[1..][..|a[1..]|] == b[..|a|][1..];
      }
    } else if a != "" && b != "" && a[0] < b[0] {
      assert a[..0] == b[..0];
    }
  }

  /** Strictly increasing in byte order. */
  ghost predicate InByteOrder(names: seq<string>) {
    forall i, j :: 0 <= i < j < |names| ==> ComesBefore(names[i], names[j])
  }

  lemma SortedByBytes(names: seq<string>)
    requires Sorted(names)
    ensures InByteOrder(names)
  {
    forall i, j | 0 <= i < j < |names| ensures ComesBefore(names[i], names[j]) {
      LessIsByteOrder(names[i], names[j]);
    }
  }

  lemma {:induction false} LessTotal(a: string, b: string)
    ensures Less(a, b) || a == b || Less(b, a)
    decreases |a|
  {
    if a != "" && b != "" && a[0] == b[0] {
      LessTotal(a[1..], b[1..]);
      assert a == [a[0]] + a[1..] && b == [b[0]] + b[1..];
    }
  }

  lemma {:induction false} LessIrreflexive(a: string)
    ensures !Less(a, a)
    decreases |a|
  {
    if a != "" {
      LessIrreflexive(a[1..]);
    }
  }

  lemma {:induction false} LessTransitive(a: string, b: string, c: string)
    requires Less(a, b) && Less(b, c)
    ensures Less(a, c)
    decreases |a|
  {
    if a != "" && a[0] == b[0] == c[0] {
      LessTransitive(a[1..], b[1..], c[1..]);
    }
  }

  lemma LessAsymmetric(a: string, b: string)
    requires Less(a, b)
    ensures !Less(b, a)
  {
    if Less(b, a) {
      LessTransitive(a, b, a);
      LessIrreflexive(a);
    }
  }

  // ---- Sorted listings ----

  predicate Sorted(names: seq<string>) {
    forall i, j :: 0 <= i < j < |names| ==> Less(names[i], names[j])
  }

  /** `names` is the strictly sorted listing of `keys`. */
  ghost predicate Lists(names: seq<string>, keys: set<string>) {
    Sorted(names) && forall k :: k in names <==> k in keys
  }

  ghost predicate IsLeast(keys: set<string>, least: string) {
    least in keys && forall k | k in keys && k != least :: Less(least, k)
  }

  lemma {:induction false} LeastExists(keys: set<string>)
    requires keys != {}
    ensures exists least :: IsLeast(keys, least)
    decreases |keys|
  {
    var x :| x in keys;
    var rest := keys - {x};
    if rest == {} {
      assert keys <= {x} + rest;
      assert IsLeast(keys, x);
    } else {
      LeastExists(rest);
      var y :| IsLeast(rest, y);
      LessTotal(x, y);
      if Less(x, y) {
        forall k | k in keys && k != x ensures Less(x, k) {
          if k != y {
            LessTransitive(x, y, k);
          }
        }
        assert IsLeast(keys, x);
      } else {
        assert IsLeast(keys, y);
      }
    }
  }

  /** The sorted listing of a set of keys. */
  ghost function Ordered(keys: set<string>): (names: seq<string>)
    ensures Lists(names, keys) && |names| == |keys|
    decreases |keys|
  {
    if keys == {} then [] else
      LeastExists(keys);
      var least :| IsLeast(keys, least);
      var rest := Ordered(keys - {least});
      assert forall i :: 0 <= i < |rest| ==> rest[i] in rest;
      [least] + rest
  }

  lemma {:induction false} ListingIsUnique(a: seq<string>, b: seq<string>, keys: set<string>)
    requires Lists(a, keys) && Lists(b, keys)
    ensures a == b
    decreases |a|
  {
    assert b == [] || b[0] in b;
    if a != [] {
      assert a[0] in a && a[0] in keys && a[0] in b;
      assert b[0] in b && b[0] in keys && b[0] in a;
      FirstsAgree(a, b);
      RestLists(a, keys);
      RestLists(b, keys);
      ListingIsUnique(a[1..], b[1..], keys - {a[0]});
    }
  }

  lemma FirstsAgree(a: seq<string>, b: seq<string>)
    requires Sorted(a) && Sorted(b) && a != [] && b != [] && a[0] in b && b[0] in a
    ensures a[0] == b[0]
  {
    if a[0] != b[0] {
      var i :| 0 <= i < |b| && b[i] == a[0];
      var j :| 0 <= j < |a| && a[j] == b[0];
      LessAsymmetric(a[0], a[j]);
    }
  }

  lemma RestLists(names: seq<string>, keys: set<string>)
    requires Lists(names, keys) && names != []
    ensures Lists(names[1..], keys - {names[0]})
  {
    forall k ensures k in names[1..] <==> k in keys - {names[0]} {
      if k in names[1..] {
        var i :| 0 <= i < |names| - 1 && names[1..][i] == k;
        assert names[i + 1] == k;
        LessIrreflexive(k);
      }
      if k in names && k != names[0] {
        var i :| 0 <= i < |names| && names[i] == k;
        assert names[1..][i - 1] == k;
      }
    }
  }

  // ---- One page ----

  ghost function Above(keys: set<string>, cursor: string): set<string> {
    set k | k in keys && Less(cursor, k)
  }

  /** What is left to list after a cursor; a cursor that is no key starts over. */
  ghost function Remaining(keys: set<string>, cursor: string): set<string> {
    if cursor in keys then Above(keys, cursor) else keys
  }

  function FirstPage(names: seq<string>): seq<string> {
    if |names| <= PAGE_SIZE then names else names[..PAGE_SIZE]
  }

  /** The page after a cursor: the first twenty remaining keys. */
  ghost function PageOf(keys: set<string>, cursor: string): seq<string> {
    FirstPage(Ordered(Remaining(keys, cursor)))
  }

  lemma PageIsSorted(keys: set<string>, cursor: string)
    ensures Sorted(PageOf(keys, cursor))
  {
    hide Less, Ordered, Remaining;
    var names := Ordered(Remaining(keys, cursor));
    assert Sorted(names);
  }

  /** The next cursor: the page's last key, or empty when nothing remains after it. */
  ghost function NextOf(keys: set<string>, cursor: string): string {
    if |Remaining(keys, cursor)| > PAGE_SIZE then Ordered(Remaining(keys, cursor))[PAGE_SIZE - 1] else ""
  }

  /** Where the code starts: after the cursor if it is among the sorted names, else at zero. */
  function StartAfter(names: seq<string>, cursor: string): (start: nat)
    ensures start <= |names|
    ensures if cursor in names then start > 0 && names[start - 1] == cursor else start == 0
  {
    if names == [] then 0
    else if names[0] == cursor then 1
    else
      var rest := StartAfter(names[1..], cursor);
      if rest == 0 then
        assert cursor !in names[1..] && cursor !in [names[0]] && names == [names[0]] + names[1..];
        0
      else rest + 1
  }

  lemma NotBelow(names: seq<string>, i: nat, j: nat)
    requires Sorted(names) && i <= j < |names|
    ensures !Less(names[j], names[i])
  {
    if i == j {
      LessIrreflexive(names[i]);
    } else {
      LessAsymmetric(names[i], names[j]);
    }
  }

  /** What follows a key in the sorted names is what lies above it. */
  lemma TailLists(names: seq<string>, keys: set<string>, p: nat)
    requires Lists(names, keys) && p < |names|
    ensures Lists(names[p + 1..], Above(keys, names[p]))
  {
    var tail := names[p + 1..];
    forall k ensures k in tail <==> k in Above(keys, names[p]) {
      hide Less;
      if k in tail {
        var i :| 0 <= i < |tail| && tail[i] == k;
        assert names[p + 1 + i] == k;
      }
      if k in Above(keys, names[p]) {
        var i :| 0 <= i < |names| && names[i] == k;
        if i <= p {
          NotBelow(names, i, p);
        }
        assert tail[i - (p + 1)] == k;
      }
    }
  }

  /** Cutting the sorted names behind the cursor lists what remains. */
  lemma CutListsRemaining(names: seq<string>, keys: set<string>, cursor: string)
    requires Lists(names, keys)
    ensures names[StartAfter(names, cursor)..] == Ordered(Remaining(keys, cursor))
  {
    hide Ordered, Less, Sorted;
    var start := StartAfter(names, cursor);
    var tail := names[start..];
    if cursor in keys {
      TailLists(names, keys, start - 1);
      ListingIsUnique(tail, Ordered(Above(keys, cursor)), Above(keys, cursor));
    } else {
      assert tail == names;
      ListingIsUnique(names, Ordered(keys), keys);
    }
  }
}
