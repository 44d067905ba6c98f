/**
 Go string operations the modelled code relies on: `strings.TrimSpace`, the byte
 order of strings, and sorted duplicate-free lists (`sort.Strings` over the keys
 of a map).  A string is its sequence of code points; UTF-8 preserves their order,
 so comparing code points is comparing bytes.
 */
module Text {

  /** `unicode.IsSpace`. */
  predicate IsSpace(c: char) {
    || '\t' <= c <= '\r' || c == ' ' || c == '\U{0085}' || c == '\U{00A0}' || c == '\U{1680}'
    || '\U{2000}' <= c <= '\U{200A}' || c == '\U{2028}' || c == '\U{2029}' || c == '\U{202F}'
    || c == '\U{205F}' || c == '\U{3000}'
  }

  function TrimLeft(s: string): string {
    if s != [] && IsSpace(s[0]) then TrimLeft(s[1..]) else s
  }

  function TrimRight(s: string): string {
    if s != [] && IsSpace(s[|s| - 1]) then TrimRight(s[..|s| - 1]) else s
  }

  function TrimSpace(s: string): string {
    TrimRight(TrimLeft(s))
  }

  predicate Trimmed(s: string) {
    s != [] ==> !IsSpace(s[0]) && !IsSpace(s[|s| - 1])
  }

  /** `n` leading characters are cut, all of them white space, and the rest does not
      start with one. */
  lemma {:induction false} TrimLeftCuts(s: string) returns (n: nat)
    ensures n <= |s| && TrimLeft(s) == s[n..]
    ensures forall i :: 0 <= i < n ==> IsSpace(s[i])
    ensures n < |s| ==> !IsSpace(s[n])
    decreases |s|
  {
    n := 0;
    if s != [] && IsSpace(s[0]) {
      n := TrimLeftCuts(s[1..]);
      assert forall i :: 0 < i < n + 1 ==> s[i] == s[1..][i - 1];
      n := n + 1;
    }
  }

  lemma {:induction false} TrimRightCuts(s: string) returns (n: nat)
    ensures n <= |s| && TrimRight(s) == s[..n]
    ensures forall i :: n <= i < |s| ==> IsSpace(s[i])
    ensures n > 0 ==> !IsSpace(s[n - 1])
    decreases |s|
  {
    n := |s|;
    if s != [] && IsSpace(s[|s| - 1]) {
      n := TrimRightCuts(s[..|s| - 1]);
    }
  }

  /** `TrimSpace` keeps a stretch of the string, cuts only white space around it and
      leaves none at its ends. */
  lemma TrimSpaceCuts(s: string) returns (lo: nat, hi: nat)
    ensures lo <= hi <= |s| && TrimSpace(s) == s[lo..hi] && Trimmed(s[lo..hi])
    ensures forall i :: 0 <= i < |s| && !(lo <= i < hi) ==> IsSpace(s[i])
  {
    lo := TrimLeftCuts(s);
    var n := TrimRightCuts(s[lo..]);
    hi := lo + n;
    assert s[lo..][..n] == s[lo..hi];
    forall i | 0 <= i < |s| && !(lo <= i < hi) ensures IsSpace(s[i]) {
      if i >= hi {
        assert s[lo..][i - lo] == s[i];
      }
    }
    if lo < hi {
      assert s[lo..][n - 1] == s[hi - 1];
    }
  }

  lemma TrimSpaceOfTrimmed(s: string)
    requires Trimmed(s)
    ensures TrimSpace(s) == s
  {
  }

  /** `unicode.ToLower`, as far as it leads to an ASCII letter: from the ASCII capitals,
      the Kelvin sign and the dotted capital I. */
  function LowerChar(c: char): char {
    if 'A' <= c <= 'Z' then (c as int + 32) as char
    else if c == '\U{212A}' then 'k'
    else if c == '\U{0130}' then 'i'
    else c
  }

  function Lower(s: string): string {
    seq(|s|, i requires 0 <= i < |s| => LowerChar(s[i]))
  }

  /** Go's `<` on strings. */
  predicate Less(a: string, b: string) {
    if a == [] then b != []
    else if b == [] then false
    else if a[0] == b[0] then Less(a[1..], b[1..])
    else a[0] < b[0]
  }

  lemma {:induction false} LessTotal(a: string, b: string)
    ensures Less(a, b) || a == b || Less(b, a)
    ensures !(Less(a, b) && Less(b, a)) && !Less(a, a)
    decreases |a|
  {
    if a != [] {
      LessTotal(a[1..], a[1..]);
      if b != [] {
        LessTotal(a[1..], b[1..]);
        if a[0] == b[0] && a[1..] == b[1..] {
          assert a == [a[0]] + a[1..] == [b[0]] + b[1..] == b;
        }
      }
    }
  }

  lemma {:induction false} LessTrans(a: string, b: string, c: string)
    requires Less(a, b) && Less(b, c)
    ensures Less(a, c)
    decreases |a|
  {
    if a != [] && a[0] == b[0] == c[0] {
      LessTrans(a[1..], b[1..], c[1..]);
    }
  }

  ghost predicate StrictlySorted(xs: seq<string>) {
    forall i, j :: 0 <= i < j < |xs| ==> Less(xs[i], xs[j])
  }

  ghost function Elements(xs: seq<string>): set<string> {
    set x | x in xs
  }

  predicate Distinct(xs: seq<string>) {
    forall i, j :: 0 <= i < j < |xs| ==> xs[i] != xs[j]
  }

  lemma {:induction false} DistinctSize(xs: seq<string>)
    requires Distinct(xs)
    ensures |Elements(xs)| == |xs|
    decreases |xs|
  {
    if xs != [] {
      var rest := xs[1..];
      assert Elements(xs) == Elements(rest) + {xs[0]};
      DistinctSize(rest);
    }
  }

  lemma {:induction false} SubsetSize<T>(a: set<T>, b: set<T>)
    requires a <= b
    ensures |a| <= |b|
    decreases a
  {
    if a != {} {
      var x :| x in a;
      SubsetSize(a - {x}, b - {x});
    }
  }

  lemma SortedDistinct(xs: seq<string>)
    requires StrictlySorted(xs)
    ensures Distinct(xs) && |Elements(xs)| == |xs|
  {
    forall i, j | 0 <= i < j < |xs| ensures xs[i] != xs[j] {
      LessTotal(xs[i], xs[i]);
    }
    DistinctSize(xs);
  }

  /** A strictly sorted list is determined by its elements. */
  lemma {:induction false} SortedUnique(xs: seq<string>, ys: seq<string>)
    requires StrictlySorted(xs) && StrictlySorted(ys) && Elements(xs) == Elements(ys)
    ensures xs == ys
    decreases |xs|
  {
    if ys != [] {
      assert ys[0] in Elements(xs);
    }
    if xs != [] {
      assert xs[0] in Elements(ys);
      LessTotal(xs[0], ys[0]);
      assert xs[0] == ys[0];
      forall x ensures x in Elements(xs[1..]) <==> x in Elements(xs) && x != xs[0] {
        LessTotal(xs[0], xs[0]);
      }
      forall x ensures x in Elements(ys[1..]) <==> x in Elements(ys) && x != ys[0] {
        LessTotal(ys[0], ys[0]);
      }
      SortedUnique(xs[1..], ys[1..]);
      assert xs == [xs[0]] + xs[1..] && ys == [ys[0]] + ys[1..];
    }
  }

  /** Inserts `x` where it belongs; a value that is present already stays single. */
  method InsertSorted(xs: seq<string>, x: string) returns (ys: seq<string>)
    requires StrictlySorted(xs)
    ensures StrictlySorted(ys) && Elements(ys) == Elements(xs) + {x}
  {
    var i := 0;
    while i < |xs| && Less(xs[i], x)
      invariant 0 <= i <= |xs|
      invariant forall j :: 0 <= j < i ==> Less(xs[j], x)
    {
      i := i + 1;
    }
    if i < |xs| && xs[i] == x {
      ys := xs;
      assert x in Elements(xs);
    } else {
      ys := xs[..i] + [x] + xs[i..];
      forall j | i <= j < |xs| ensures Less(x, xs[j]) {
        LessTotal(xs[i], x);
        if j > i {
          LessTrans(x, xs[i], xs[j]);
        }
      }
      forall y ensures y in Elements(ys) <==> y in Elements(xs) + {x} {
        if y in xs {
          assert y in xs[..i] || y in xs[i..];
        }
      }
    }
  }

  /** `sort.Strings` over the keys of a map, whatever order the map yields them in. */
  method SortedElements(s: set<string>) returns (xs: seq<string>)
    ensures StrictlySorted(xs) && Elements(xs) == s
  {
    xs := [];
    var rest := s;
    while rest != {}
      invariant StrictlySorted(xs) && Elements(xs) == s - rest && rest <= s
      decreases rest
    {
      var x :| x in rest;
      xs := InsertSorted(xs, x);
      rest := rest - {x};
    }
  }
}
