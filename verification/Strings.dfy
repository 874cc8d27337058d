/** The string operations of Go's standard library that the modelled code relies on,
    for a separator of one character. */
module Strings {
  /** Position of the first `c` in `s`. */
  function Index(s: string, c: char): (i: nat)
    requires c in s
    ensures i < |s| && s[i] == c && c !in s[..i]
  {
    if s[0] == c then 0 else
      var j := Index(s[1..], c);
      assert s[..j + 1] == [s[0]] + s[1..][..j];
      j + 1
  }

  /** `strings.Split`. */
  function Split(s: string, sep: char): (parts: seq<string>)
    ensures parts != [] && forall p | p in parts :: sep !in p
    ensures |parts| >= 2 <==> sep in s
    decreases |s|
  {
    if sep !in s then [s] else
      var i := Index(s, sep);
      [s[..i]] + Split(s[i + 1..], sep)
  }

  /** `strings.SplitN` for a positive `n`: the last part keeps every further separator. */
  function SplitN(s: string, sep: char, n: nat): (parts: seq<string>)
    requires n >= 1
    ensures 1 <= |parts| <= n
    decreases n
  {
    if n == 1 || sep !in s then [s] else
      var i := Index(s, sep);
      [s[..i]] + SplitN(s[i + 1..], sep, n - 1)
  }

  /** The first separator of `a + sep + b` is the one after a separator-free `a`. */
  lemma IndexAfter(a: string, sep: char, b: string)
    requires sep !in a
    ensures sep in a + [sep] + b && Index(a + [sep] + b, sep) == |a|
  {
    var s := a + [sep] + b;
    assert s[|a|] == sep && s[..|a|] == a;
    var i := Index(s, sep);
    assert i >= |a|;
    assert i == |a|;
  }

  lemma SplitAfter(a: string, sep: char, b: string)
    requires sep !in a
    ensures Split(a + [sep] + b, sep) == [a] + Split(b, sep)
  {
    IndexAfter(a, sep, b);
    var s := a + [sep] + b;
    assert s[..|a|] == a && s[|a| + 1..] == b;
  }

  lemma SplitNAfter(a: string, sep: char, b: string, n: nat)
    requires sep !in a && n >= 2
    ensures SplitN(a + [sep] + b, sep, n) == [a] + SplitN(b, sep, n - 1)
  {
    IndexAfter(a, sep, b);
    var s := a + [sep] + b;
    assert s[..|a|] == a && s[|a| + 1..] == b;
  }
}
