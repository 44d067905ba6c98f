/**
 Node names of an export (`RenderNames` and its helpers).  A rendered template is
 a string of code points; lengths and budgets are counted in UTF-8 bytes.
 */
module ExportNames {
  import opened Text
  import opened Utf8
  import opened Decimal

  const MAX_NAME_LENGTH: nat := 64
  const MAX_NAME_VARIANTS: nat := 4096

  // ---------------------------------------------------------------------------
  // White space

  predicate Blank(c: char) {
    c == ' ' || c == '\t' || c == '\n' || c == '\r'
  }

  /** The maximal runs of characters that are not blank. */
  function Words(s: string): seq<string> {
    if s == [] then []
    else
      var front, c := s[..|s| - 1], s[|s| - 1];
      var ws := Words(front);
      if Blank(c) then ws
      else if front == [] || Blank(front[|front| - 1]) || ws == [] then ws + [[c]]
      else ws[..|ws| - 1] + [ws[|ws| - 1] + [c]]
  }

  /** The words separated by single spaces. */
  function Join(ws: seq<string>): string {
    if ws == [] then ""
    else if |ws| == 1 then ws[0]
    else Join(ws[..|ws| - 1]) + " " + ws[|ws| - 1]
  }

  predicate AreWords(ws: seq<string>) {
    forall i :: 0 <= i < |ws| ==> IsWord(ws[i])
  }

  predicate IsWord(w: string) {
    w != "" && forall j :: 0 <= j < |w| ==> !Blank(w[j])
  }

  lemma {:induction false} WordsAreWords(s: string)
    ensures AreWords(Words(s))
    ensures s != [] && !Blank(s[|s| - 1]) ==> Words(s) != []
    decreases |s|
  {
    if s != [] {
      var front, c := s[..|s| - 1], s[|s| - 1];
      var ws := Words(front);
      WordsAreWords(front);
      if !Blank(c) && ws != [] {
        assert IsWord(ws[|ws| - 1] + [c]);
      }
    }
  }

  lemma JoinNonEmpty(ws: seq<string>)
    requires AreWords(ws)
    ensures Join(ws) == "" <==> ws == []
  {
  }

  lemma JoinExtendLast(ws: seq<string>, c: char)
    requires ws != []
    ensures Join(ws[..|ws| - 1] + [ws[|ws| - 1] + [c]]) == Join(ws) + [c]
  {
  }

  lemma JoinAppend(ws: seq<string>, c: char)
    ensures Join(ws + [[c]]) == if ws == [] then [c] else Join(ws) + " " + [c]
  {
  }

  predicate EndsBlank(s: string) {
    s != [] && Blank(s[|s| - 1])
  }

  /** What one more character adds to the compressed text. */
  lemma CompressStep(s: string, c: char)
    ensures var out := Join(Words(s));
            Join(Words(s + [c])) ==
            if Blank(c) then out
            else if EndsBlank(s) && out != "" then out + " " + [c]
            else out + [c]
  {
    var all := s + [c];
    assert all[..|all| - 1] == s;
    WordsAreWords(s);
    JoinNonEmpty(Words(s));
    JoinAppend(Words(s), c);
    if s != [] && !Blank(s[|s| - 1]) {
      JoinExtendLast(Words(s), c);
    }
  }

  /** `compressSpace`: the words of the input separated by single spaces. */
  method CompressSpace(raw: string) returns (out: string)
    ensures out == Join(Words(raw))
  {
    out := "";
    var space := false;
    for i := 0 to |raw|
      invariant out == Join(Words(raw[..i])) && space == EndsBlank(raw[..i])
    {
      CompressStep(raw[..i], raw[i]);
      assert raw[..i + 1] == raw[..i] + [raw[i]];
      if Blank(raw[i]) {
        space := true;
        continue;
      }
      if space && out != "" {
        out := out + " ";
      }
      space := false;
      out := out + [raw[i]];
    }
    assert raw[..|raw|] == raw;
  }

  lemma {:induction false} WordsOfWord(s: string, w: string)
    requires IsWord(w) && (s == [] || Blank(s[|s| - 1]))
    ensures Words(s + w) == Words(s) + [w]
    decreases |w|
  {
    var front, c := w[..|w| - 1], w[|w| - 1];
    assert (s + w)[..|s + w| - 1] == s + front;
    if front == [] {
      assert s + front == s;
      assert w == [c];
    } else {
      WordsOfWord(s, front);
      assert (s + front)[|s + front| - 1] == front[|front| - 1];
      assert w == front + [c];
      assert Words(s + front)[..|Words(s)|] == Words(s);
    }
  }

  /** Compressing is lossless on words, so doing it twice changes nothing. */
  lemma {:induction false} WordsOfJoin(ws: seq<string>)
    requires AreWords(ws)
    ensures Words(Join(ws)) == ws
    decreases |ws|
  {
    if |ws| == 1 {
      WordsOfWord([], ws[0]);
      assert [] + ws[0] == ws[0];
      assert ws == [ws[0]];
    } else if |ws| > 1 {
      var front, w := ws[..|ws| - 1], ws[|ws| - 1];
      WordsOfJoin(front);
      var s := Join(front) + " ";
      assert s[..|s| - 1] == Join(front);
      WordsOfWord(s, w);
      assert ws == front + [w];
    }
  }

  // ---------------------------------------------------------------------------
  // Cutting

  /** `truncateName` works on bytes; on the bytes of a string it is `Truncate`. */
  method TruncateName(raw: seq<Byte>, limit: int) returns (r: seq<Byte>)
    ensures r <= raw && (|r| <= limit || r == [])
    ensures forall s :: raw == Encode(s) ==> r == Encode(Truncate(s, limit))
  {
    if limit <= 0 {
      return [];
    }
    if |raw| <= limit {
      forall s | raw == Encode(s) ensures raw == Encode(Truncate(s, limit)) {
        TruncateFits(s, limit);
      }
      return raw;
    }
    var cut := limit;
    while cut > 0 && !IsRuneStart(raw[cut])
      invariant 0 <= cut <= limit < |raw|
      invariant Boundary(raw, cut) == Boundary(raw, limit)
    {
      cut := cut - 1;
    }
    r := raw[..cut];
    forall s | raw == Encode(s) ensures r == Encode(Truncate(s, limit)) {
      CutKeepsRunes(s, limit);
    }
  }

  /** `clampName` of a rendered template. */
  function Clamp(raw: string): string {
    TrimSpace(Truncate(Join(Words(raw)), MAX_NAME_LENGTH))
  }

  method ClampName(raw: string) returns (name: string)
    ensures name == Clamp(raw)
  {
    var compressed := CompressSpace(raw);
    name := TrimSpace(Truncate(compressed, MAX_NAME_LENGTH));
  }

  lemma {:induction false} SizeOfSlice(s: string, lo: nat, hi: nat)
    requires lo <= hi <= |s|
    ensures Size(s[lo..hi]) <= Size(s)
  {
    assert s == s[..lo] + (s[lo..hi] + s[hi..]);
    SizeConcat(s[..lo], s[lo..hi] + s[hi..]);
    SizeConcat(s[lo..hi], s[hi..]);
  }

  lemma ClampFits(raw: string)
    ensures Size(Clamp(raw)) <= MAX_NAME_LENGTH && Trimmed(Clamp(raw))
  {
    var cut := Truncate(Join(Words(raw)), MAX_NAME_LENGTH);
    TruncateFits(Join(Words(raw)), MAX_NAME_LENGTH);
    var lo, hi := TrimSpaceCuts(cut);
    SizeOfSlice(cut, lo, hi);
  }

  // ---------------------------------------------------------------------------
  // Suffixes

  function Suffix(k: nat): string {
    " #" + Itoa(k)
  }

  /** The base with " #k", cut so that both fit the budget. */
  function Variant(base: string, k: nat): string {
    var room := MAX_NAME_LENGTH - Size(Suffix(k));
    (if Size(base) > room then Truncate(base, room) else base) + Suffix(k)
  }

  lemma SuffixSize(k: nat)
    requires k <= MAX_NAME_VARIANTS
    ensures Size(Suffix(k)) == |Suffix(k)| <= 6
  {
    ItoaShort(k);
    ItoaRoundTrip(k);
    AsciiSize(Suffix(k));
  }

  lemma VariantFits(base: string, k: nat)
    requires k <= MAX_NAME_VARIANTS
    ensures 0 < Size(Variant(base, k)) <= MAX_NAME_LENGTH && Variant(base, k) != ""
  {
    SuffixSize(k);
    var room := MAX_NAME_LENGTH - Size(Suffix(k));
    TruncateFits(base, room);
    SizeConcat(if Size(base) > room then Truncate(base, room) else base, Suffix(k));
  }

  /** `name` is the variant of `base` with the smallest suffix that is free. */
  ghost predicate SmallestFree(base: string, taken: set<string>, name: string) {
    exists k :: 2 <= k <= MAX_NAME_VARIANTS && FirstFree(base, taken, name, k)
  }

  ghost predicate FirstFree(base: string, taken: set<string>, name: string, k: nat) {
    name == Variant(base, k) && name !in taken && AllTaken(base, taken, k)
  }

  ghost predicate AllTaken(base: string, taken: set<string>, k: nat) {
    forall j: nat :: 2 <= j < k ==> Variant(base, j) in taken
  }

  method SuffixedName(base: string, taken: set<string>) returns (name: string)
    ensures name != "" ==> SmallestFree(base, taken, name)
    ensures name == "" <==> AllTaken(base, taken, MAX_NAME_VARIANTS + 1)
  {
    for k := 2 to MAX_NAME_VARIANTS + 1
      invariant AllTaken(base, taken, k)
    {
      var suffix := " #" + Itoa(k);
      var room := MAX_NAME_LENGTH - Size(suffix);
      var candidate := base;
      if Size(candidate) > room {
        candidate := Truncate(candidate, room);
      }
      candidate := candidate + suffix;
      assert candidate == Variant(base, k);
      if candidate !in taken {
        VariantFits(base, k);
        assert FirstFree(base, taken, candidate, k);
        return candidate;
      }
    }
    return "";
  }

  // ---------------------------------------------------------------------------
  // RenderNames

  predicate UsedBefore(bases: seq<string>, i: nat)
    requires i < |bases|
  {
    bases[i] in bases[..i]
  }

  /** The names that are not free after the names `given`: those and all bases. */
  ghost function TakenAfter(bases: seq<string>, given: seq<string>): set<string> {
    set n | n in bases + given && n != ""
  }

  /** The name the rule gives item `i` after the names `given`: its base if no earlier
      item has that base, and otherwise the smallest free variant, or none. */
  ghost predicate Named(bases: seq<string>, i: nat, given: seq<string>, name: string)
    requires i < |bases|
  {
    if bases[i] == "" then name == ""
    else if !UsedBefore(bases, i) then name == bases[i]
    else
      var taken := TakenAfter(bases, given);
      && (name != "" ==> SmallestFree(bases[i], taken, name))
      && (name == "" <==> AllTaken(bases[i], taken, MAX_NAME_VARIANTS + 1))
  }

  ghost predicate AllNamed(bases: seq<string>, names: seq<string>) {
    |names| <= |bases| && forall i :: 0 <= i < |names| ==> Named(bases, i, names[..i], names[i])
  }

  /** The names are given by the rule, over the clamped templates. */
  ghost predicate Rendered(raws: seq<string>, names: seq<string>) {
    |names| == |raws| && exists bases :: AreBases(raws, bases) && AllNamed(bases, names)
  }

  predicate AreBases(raws: seq<string>, bases: seq<string>) {
    |bases| == |raws| && forall i :: 0 <= i < |raws| ==> bases[i] == Clamp(raws[i])
  }

  method Bases(raws: seq<string>) returns (bases: seq<string>)
    ensures AreBases(raws, bases)
  {
    bases := [];
    for i := 0 to |raws|
      invariant |bases| == i && forall j :: 0 <= j < i ==> bases[j] == Clamp(raws[j])
    {
      var base := ClampName(raws[i]);
      bases := bases + [base];
    }
  }

  method UsedName(bases: seq<string>, index: nat) returns (used: bool)
    requires index < |bases|
    ensures used <==> UsedBefore(bases, index)
  {
    for i := 0 to index
      invariant bases[index] !in bases[..i]
    {
      if bases[i] == bases[index] {
        assert bases[..index][i] == bases[index];
        return true;
      }
    }
    return false;
  }

  lemma AllNamedAppend(bases: seq<string>, names: seq<string>, name: string)
    requires AllNamed(bases, names) && |names| < |bases| && Named(bases, |names|, names, name)
    ensures AllNamed(bases, names + [name])
  {
    var all := names + [name];
    forall i | 0 <= i < |all| ensures Named(bases, i, all[..i], all[i]) {
      assert i < |names| ==> all[..i] == names[..i];
      assert all[..|names|] == names;
    }
  }

  lemma TakenGrows(bases: seq<string>, given: seq<string>, name: string)
    ensures TakenAfter(bases, given + [name]) == TakenAfter(bases, given) + (if name == "" then {} else {name})
  {
  }

  method NameOf(bases: seq<string>, i: nat, taken: set<string>, ghost given: seq<string>) returns (name: string)
    requires i < |bases| && taken == TakenAfter(bases, given)
    ensures Named(bases, i, given, name)
  {
    if bases[i] == "" {
      return "";
    }
    var used := UsedName(bases, i);
    if !used {
      return bases[i];
    }
    name := SuffixedName(bases[i], taken);
  }

  /** `RenderNames` over the rendered templates. */
  method RenderNames(raws: seq<string>) returns (names: seq<string>)
    ensures Rendered(raws, names)
  {
    var bases := Bases(raws);
    var taken := set b | b in bases && b != "";
    names := [];
    for i := 0 to |bases|
      invariant |names| == i && taken == TakenAfter(bases, names) && AllNamed(bases, names)
    {
      var name := NameOf(bases, i, taken, names);
      TakenGrows(bases, names, name);
      AllNamedAppend(bases, names, name);
      names := names + [name];
      if name != "" {
        taken := taken + {name};
      }
    }
  }

  // ---------------------------------------------------------------------------
  // What the rule guarantees

  /** Names that were given are pairwise distinct. */
  lemma NamesAreDistinct(bases: seq<string>, names: seq<string>, i: nat, j: nat)
    requires AllNamed(bases, names) && i < j < |names| && names[i] != "" && names[j] != ""
    ensures names[i] != names[j]
  {
  }

  /** Every name is within the byte budget. */
  lemma NamesFit(raws: seq<string>, bases: seq<string>, names: seq<string>, i: nat)
    requires |bases| == |raws| && AllNamed(bases, names) && i < |names|
    requires bases[i] == Clamp(raws[i])
    ensures Size(names[i]) <= MAX_NAME_LENGTH
  {
    assert Named(bases, i, names[..i], names[i]);
    ClampFits(raws[i]);
    if bases[i] != "" && UsedBefore(bases, i) && names[i] != "" {
      var k :| 2 <= k <= MAX_NAME_VARIANTS && FirstFree(bases[i], TakenAfter(bases, names[..i]), names[i], k);
      VariantFits(bases[i], k);
    }
  }

  /** The first item with a base keeps it exactly, and an item with a base goes without a
      name only if all of its variants are taken. */
  lemma NamesKeepTheBase(bases: seq<string>, names: seq<string>, i: nat)
    requires AllNamed(bases, names) && i < |names| && bases[i] != ""
    ensures bases[i] !in bases[..i] ==> names[i] == bases[i]
    ensures names[i] == "" ==> AllTaken(bases[i], TakenAfter(bases, names[..i]), MAX_NAME_VARIANTS + 1)
  {
  }

  lemma VariantsDiffer(base: string)
    ensures Variant(base, 2) != Variant(base, 3)
  {
    assert Suffix(2) == " #2" && Suffix(3) == " #3";
    var v, w := Variant(base, 2), Variant(base, 3);
    assert v[|v| - 1] == '2' && w[|w| - 1] == '3';
  }

  lemma SomeVariantIsFree(base: string)
    ensures !AllTaken(base, {base}, MAX_NAME_VARIANTS + 1)
  {
    VariantsDiffer(base);
    assert Variant(base, 2) !in {base} || Variant(base, 3) !in {base};
  }

  lemma OneBaseTwice(bases: seq<string>, names: seq<string>)
    requires AllNamed(bases, names) && |bases| == |names| == 2 && bases[0] == bases[1] != ""
    ensures names[0] == bases[0] && names[1] != "" && names[0] != names[1]
  {
    var base := bases[0];
    NamesKeepTheBase(bases, names, 0);
    NamesKeepTheBase(bases, names, 1);
    assert bases[..1] == [base] && names[..1] == [base];
    assert TakenAfter(bases, names[..1]) == {base};
    SomeVariantIsFree(base);
    NamesAreDistinct(bases, names, 0, 1);
  }

  /** Two items with one base: the second gets a name of its own. */
  lemma TwoItemsTwoNames(raws: seq<string>, names: seq<string>)
    requires Rendered(raws, names) && |raws| == 2 && raws[0] == raws[1] && Clamp(raws[0]) != ""
    ensures names[0] == Clamp(raws[0]) && names[1] != "" && names[0] != names[1]
  {
    var bases :| AreBases(raws, bases) && AllNamed(bases, names);
    OneBaseTwice(bases, names);
  }
}
