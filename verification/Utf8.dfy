/**
 UTF-8 (RFC 3629) as far as cutting strings needs it: the encoding of a string of
 code points, the search for a rune boundary on bytes, and the fact that a cut on
 bytes is a cut on code points.
 */
module Utf8 {

  type Byte = b: int | 0 <= b < 256

  function EncodeRune(c: char): (r: seq<Byte>)
    ensures 1 <= |r| <= 4
  {
    var n := c as int;
    if n < 0x80 then [n]
    else if n < 0x800 then [0xC0 + n / 64, 0x80 + n % 64]
    else if n < 0x10000 then [0xE0 + n / 4096, 0x80 + n / 64 % 64, 0x80 + n % 64]
    else [0xF0 + n / 262144, 0x80 + n / 4096 % 64, 0x80 + n / 64 % 64, 0x80 + n % 64]
  }

  function Encode(s: string): seq<Byte> {
    if s == [] then [] else EncodeRune(s[0]) + Encode(s[1..])
  }

  /** Go's `len`: the number of bytes. */
  function Size(s: string): nat {
    |Encode(s)|
  }

  lemma {:induction false} AsciiSize(s: string)
    requires forall i :: 0 <= i < |s| ==> s[i] as int < 128
    ensures Size(s) == |s|
    decreases |s|
  {
    if s != [] {
      AsciiSize(s[1..]);
    }
  }

  /** `b & 0xC0 != 0x80`: everything but a continuation byte. */
  predicate IsRuneStart(b: Byte) {
    !(0x80 <= b < 0xC0)
  }

  lemma RuneBytes(c: char)
    ensures IsRuneStart(EncodeRune(c)[0])
    ensures forall i :: 0 < i < |EncodeRune(c)| ==> !IsRuneStart(EncodeRune(c)[i])
  {
  }

  /** The last rune boundary at or before `cut`. */
  function Boundary(bytes: seq<Byte>, cut: nat): (r: nat)
    requires cut < |bytes|
    ensures r <= cut
  {
    if cut == 0 || IsRuneStart(bytes[cut]) then cut else Boundary(bytes, cut - 1)
  }

  /** How many leading code points fit into `limit` bytes. */
  function Fit(s: string, limit: int): (k: nat)
    ensures k <= |s|
  {
    if s == [] || |EncodeRune(s[0])| > limit then 0 else 1 + Fit(s[1..], limit - |EncodeRune(s[0])|)
  }

  lemma {:induction false} EncodeConcat(a: string, b: string)
    ensures Encode(a + b) == Encode(a) + Encode(b)
    decreases |a|
  {
    if a == [] {
      assert a + b == b;
    } else {
      assert (a + b)[1..] == a[1..] + b;
      EncodeConcat(a[1..], b);
    }
  }

  /** A search that starts at or after a boundary does not go below it. */
  lemma {:induction false} BoundaryShift(a: seq<Byte>, b: seq<Byte>, cut: nat)
    requires b != [] && IsRuneStart(b[0]) && |a| <= cut < |a| + |b|
    ensures Boundary(a + b, cut) == |a| + Boundary(b, cut - |a|)
    decreases cut
  {
    if cut > |a| && !IsRuneStart(b[cut - |a|]) {
      BoundaryShift(a, b, cut - 1);
    }
  }

  lemma {:induction false} BoundaryInRune(c: char, rest: seq<Byte>, cut: nat)
    requires cut < |EncodeRune(c)|
    ensures Boundary(EncodeRune(c) + rest, cut) == 0
    decreases cut
  {
    RuneBytes(c);
    if cut > 0 {
      assert !IsRuneStart((EncodeRune(c) + rest)[cut]);
      BoundaryInRune(c, rest, cut - 1);
    }
  }

  /** Cutting the bytes of a string at the last boundary keeps exactly the longest
      prefix of its code points that fits. */
  lemma {:induction false} CutKeepsRunes(s: string, limit: nat)
    requires limit < Size(s)
    ensures Encode(s)[..Boundary(Encode(s), limit)] == Encode(s[..Fit(s, limit)])
    decreases |s|
  {
    var r := EncodeRune(s[0]);
    var tail := Encode(s[1..]);
    if limit < |r| {
      BoundaryInRune(s[0], tail, limit);
      assert s[..0] == [];
      assert Encode(s)[..0] == [];
    } else {
      assert tail != [];
      assert s[1..] != [];
      RuneBytes(s[1]);
      assert tail[0] == EncodeRune(s[1])[0];
      BoundaryShift(r, tail, limit);
      CutKeepsRunes(s[1..], limit - |r|);
      var k := Fit(s[1..], limit - |r|);
      assert s[..1 + k] == [s[0]] + s[1..][..k];
      EncodeConcat([s[0]], s[1..][..k]);
      assert Encode([s[0]]) == r by {
        assert [s[0]][1..] == [];
      }
    }
  }

  /** The kept prefix fits, and one more code point would not. */
  lemma {:induction false} FitIsLongest(s: string, limit: nat)
    ensures Size(s[..Fit(s, limit)]) <= limit
    ensures Fit(s, limit) < |s| ==> Size(s[..Fit(s, limit) + 1]) > limit
    ensures Size(s) <= limit <==> Fit(s, limit) == |s|
    decreases |s|
  {
    if s == [] {
    } else {
      var r := EncodeRune(s[0]);
      var rest := s[1..];
      if |r| <= limit {
        FitIsLongest(rest, limit - |r|);
        var k := Fit(rest, limit - |r|);
        SizeOfPrefix(s, k);
        if k < |rest| {
          SizeOfPrefix(s, k + 1);
        }
      } else {
        assert s[..0] == [];
        SizeOfPrefix(s, 0);
      }
    }
  }

  lemma SizeOfPrefix(s: string, k: nat)
    requires s != [] && k < |s|
    ensures Size(s[..k + 1]) == |EncodeRune(s[0])| + Size(s[1..][..k])
  {
    assert s[..k + 1][1..] == s[1..][..k];
  }

  lemma SizeConcat(a: string, b: string)
    ensures Size(a + b) == Size(a) + Size(b)
  {
    EncodeConcat(a, b);
  }

  /** The string cut to at most `limit` bytes between two code points. */
  function Truncate(s: string, limit: int): string {
    if limit <= 0 then "" else s[..Fit(s, limit)]
  }

  lemma TruncateFits(s: string, limit: nat)
    ensures Size(Truncate(s, limit)) <= limit && Truncate(s, limit) <= s
    ensures Size(s) <= limit && limit > 0 ==> Truncate(s, limit) == s
  {
    FitIsLongest(s, limit);
  }
}
