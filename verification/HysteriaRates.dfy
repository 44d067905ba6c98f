/**
 The rate parameters of a hysteria share link (`shareLinkMbps`,
 `hysteriaShareLinkRates`, `hysteriaByteRateMbps`, `parseNetworkByteRate`).

 `FieldRate` says what rate a node's fields mean to sing-box, as a number of bytes per
 second; `LinkRate` says what a share link's parameter means.  JSON numbers are reals.
 */
module HysteriaRates {
  import opened Text
  import opened Decimal

  const MAX_UINT64: nat := 0xFFFF_FFFF_FFFF_FFFF
  const BYTES_PER_MBPS: nat := 125000

  datatype Json = Missing | Null | Number(x: real) | Text(s: string) | Other

  // ---------------------------------------------------------------------------
  // Units

  /** The case-sensitive table; 0 for a unit that is not in it. */
  function NetworkUnit(u: string): nat {
    if u == "Bps" then 1
    else if u == "Kbps" then 125
    else if u == "KBps" then 1000
    else if u == "Mbps" then BYTES_PER_MBPS
    else if u == "MBps" then 1000000
    else if u == "Gbps" then 125000000
    else if u == "GBps" then 1000000000
    else if u == "Tbps" then 125000000000
    else if u == "TBps" then 1000000000000
    else if u == "Pbps" then 125000000000000
    else if u == "PBps" then 1000000000000000
    else if u == "Ebps" then 125000000000000000
    else if u == "EBps" then 1000000000000000000
    else 0
  }

  /** The fallback table for a unit in lower case. */
  function ByteUnit(u: string): nat {
    if u == "b" then 1
    else if u == "k" || u == "kb" then 1000
    else if u == "ki" || u == "kib" then 0x400
    else if u == "m" || u == "mb" then 1000000
    else if u == "mi" || u == "mib" then 0x10_0000
    else if u == "g" || u == "gb" then 1000000000
    else if u == "gi" || u == "gib" then 0x4000_0000
    else if u == "t" || u == "tb" then 1000000000000
    else if u == "ti" || u == "tib" then 0x100_0000_0000
    else if u == "p" || u == "pb" then 1000000000000000
    else if u == "pi" || u == "pib" then 0x4_0000_0000_0000
    else if u == "e" || u == "eb" then 1000000000000000000
    else if u == "ei" || u == "eib" then 0x1000_0000_0000_0000
    else 0
  }

  function UnitValue(u: string): nat {
    if NetworkUnit(u) > 0 then NetworkUnit(u) else ByteUnit(Lower(u))
  }

  // ---------------------------------------------------------------------------
  // Byte-rate strings

  /** The first `k` characters are the digits that `text` begins with. */
  predicate LeadingDigits(text: string, k: nat) {
    && k <= |text| && (forall i :: 0 <= i < k ==> IsDigit(text[i]))
    && (k < |text| ==> !IsDigit(text[k]))
  }

  function UnitAfter(text: string, k: nat): nat
    requires k <= |text|
  {
    UnitValue(TrimSpace(text[k..]))
  }

  /** `text` is a numeral of `k` digits and a unit, and stands for `n` bytes. */
  predicate IsRate(text: string, k: nat, n: int) {
    0 < k && LeadingDigits(text, k) && UnitAfter(text, k) > 0 && n == Value(text[..k]) * UnitAfter(text, k)
  }

  /** The string is a rate of `n` bytes that fits into 64 bits. */
  ghost predicate Denotes(text: string, n: int) {
    n <= MAX_UINT64 && exists k :: IsRate(text, k, n)
  }

  ghost predicate DenotesSome(text: string) {
    exists n :: Denotes(text, n)
  }

  /** No string denotes two rates. */
  lemma RateUnique(text: string, j: nat, k: nat, m: int, n: int)
    requires IsRate(text, j, m) && IsRate(text, k, n)
    ensures j == k && m == n
  {
  }

  /** A string denotes a rate exactly when its leading digits times its unit fit. */
  lemma DenotesIff(text: string, k: nat, n: int)
    requires LeadingDigits(text, k) && n == Value(text[..k]) * UnitAfter(text, k)
    ensures Denotes(text, n) <==> 0 < k && UnitAfter(text, k) > 0 && n <= MAX_UINT64
    ensures DenotesSome(text) <==> Denotes(text, n)
  {
    forall m, j: nat | IsRate(text, j, m) ensures j == k && m == n {
    }
    assert 0 < k && UnitAfter(text, k) > 0 ==> IsRate(text, k, n);
  }

  lemma ProductFits(value: nat, unit: nat)
    requires unit > 0
    ensures value * unit <= MAX_UINT64 <==> value <= MAX_UINT64 && value <= MAX_UINT64 / unit
  {
  }

  /** Accepts exactly the strings that denote a 64-bit rate, and returns that rate. */
  method ParseNetworkByteRate(text: string) returns (bytes: nat, ok: bool)
    ensures ok <==> DenotesSome(text)
    ensures ok ==> Denotes(text, bytes)
  {
    var index := 0;
    while index < |text| && IsDigit(text[index])
      invariant index <= |text| && forall i :: 0 <= i < index ==> IsDigit(text[i])
    {
      index := index + 1;
    }
    DenotesIff(text, index, Value(text[..index]) * UnitAfter(text, index));
    if index == 0 {
      return 0, false;
    }
    ValueNonNegative(text[..index]);
    var unitValue := LookUpUnit(TrimSpace(text[index..]));
    bytes, ok := Scale(Value(text[..index]), unitValue);
  }

  /** The product, if there is a unit and nothing exceeds 64 bits. */
  method Scale(value: nat, unitValue: nat) returns (bytes: nat, ok: bool)
    ensures ok <==> unitValue > 0 && value * unitValue <= MAX_UINT64
    ensures ok ==> bytes == value * unitValue
  {
    if unitValue > 0 {
      ProductFits(value, unitValue);
    }
    if value > MAX_UINT64 || unitValue == 0 || value > MAX_UINT64 / unitValue {
      return 0, false;
    }
    return value * unitValue, true;
  }

  /** 0 for an empty or unknown unit. */
  method LookUpUnit(unit: string) returns (value: nat)
    ensures value == UnitValue(unit)
  {
    if unit == "" {
      return 0;
    }
    value := NetworkUnit(unit);
    if value == 0 {
      value := ByteUnit(Lower(unit));
    }
  }

  // ---------------------------------------------------------------------------
  // What the fields mean

  datatype Rate = Unset | Bytes(n: int) | Malformed

  predicate Whole(x: real) {
    x == x.Floor as real
  }

  /** The byte rate of a field: nothing, an empty string and zero are not set. */
  ghost predicate ByteRate(v: Json, r: Rate) {
    match v
    case Missing => r == Unset
    case Null => r == Unset
    case Other => r == Unset
    case Number(x) =>
      r == if x == 0.0 then Unset
           else if x < 0.0 || !Whole(x) || x.Floor > MAX_UINT64 then Malformed
           else Bytes(x.Floor)
    case Text(s) =>
      var text := TrimSpace(s);
      if text == "" || Denotes(text, 0) then r == Unset
      else if DenotesSome(text) then r.Bytes? && Denotes(text, r.n)
      else r == Malformed
  }

  /** A Mbps field: not set when missing or not positive. */
  function MbpsRate(v: Json): Rate {
    match v
    case Missing => Unset
    case Null => Unset
    case Text(_) => Malformed
    case Other => Malformed
    case Number(x) =>
      if !Whole(x) then Malformed
      else if x <= 0.0 then Unset
      else Bytes(x.Floor * BYTES_PER_MBPS)
  }

  /** sing-box prefers the byte rate when both are set. */
  ghost predicate FieldRate(byteRate: Json, mbps: Json, r: Rate) {
    if ByteRate(byteRate, Unset) then r == MbpsRate(mbps) else ByteRate(byteRate, r)
  }

  predicate Expressible(r: Rate) {
    r.Unset? || (r.Bytes? && r.n % BYTES_PER_MBPS == 0)
  }

  /** What a link's `up` or `down` parameter means; an empty one is left out. */
  function LinkRate(param: string): Rate {
    if param == "" then Unset else Bytes(Value(param) * BYTES_PER_MBPS)
  }

  lemma LinkRateOfNumeral(m: nat)
    ensures LinkRate(Itoa(m)) == Bytes(m * BYTES_PER_MBPS)
  {
    ItoaRoundTrip(m);
  }

  // ---------------------------------------------------------------------------
  // The conversion

  /** Go leaves the conversion of a number beyond 64 bits to the implementation. */
  function Uint64(x: real, beyond: real -> nat): nat
    requires x >= 0.0
  {
    if x.Floor <= MAX_UINT64 then x.Floor else beyond(x) % (MAX_UINT64 + 1)
  }

  method ByteRateMbps(value: Json) returns (mbps: nat, isSet: bool, expressible: bool)
    ensures isSet <==> !ByteRate(value, Unset)
    ensures isSet && !expressible ==> exists r :: ByteRate(value, r) && !Expressible(r)
    ensures expressible ==> isSet && ByteRate(value, Bytes(mbps * BYTES_PER_MBPS))
  {
    var bytes: nat;
    match value {
      case Number(x) =>
        if x == 0.0 {
          return 0, false, false;
        }
        if x < 0.0 || !Whole(x) || x.Floor > MAX_UINT64 {
          assert ByteRate(value, Malformed);
          return 0, true, false;
        }
        bytes := x.Floor;
      case Text(s) =>
        var text := TrimSpace(s);
        if text == "" {
          return 0, false, false;
        }
        var parsed, ok := ParseNetworkByteRate(text);
        if !ok {
          assert ByteRate(value, Malformed);
          return 0, true, false;
        }
        if parsed == 0 {
          return 0, false, false;
        }
        DenotesOnce(text, parsed, 0);
        bytes := parsed;
      case _ =>
        return 0, false, false;
    }
    assert ByteRate(value, Bytes(bytes));
    if bytes % BYTES_PER_MBPS != 0 {
      assert !Expressible(Bytes(bytes));
      return 0, true, false;
    }
    assert bytes / BYTES_PER_MBPS * BYTES_PER_MBPS == bytes;
    return bytes / BYTES_PER_MBPS, true, true;
  }

  lemma DenotesOnce(text: string, m: int, n: int)
    requires Denotes(text, m)
    ensures Denotes(text, n) <==> m == n
  {
    if Denotes(text, n) {
      var j, k :| IsRate(text, j, m) && IsRate(text, k, n);
      RateUnique(text, j, k, m, n);
    }
  }

  /** The fields mean one rate. */
  lemma FieldRateUnique(byteRate: Json, mbps: Json, q: Rate, r: Rate)
    requires FieldRate(byteRate, mbps, q) && FieldRate(byteRate, mbps, r)
    ensures q == r
  {
  }

  /** The first positive number among the fields, as a numeral. */
  method ShareLinkMbps(fields: seq<Json>, beyond: real -> nat) returns (r: string)
    ensures r == FirstMbps(fields, beyond)
  {
    var i := 0;
    while i < |fields|
      invariant i <= |fields| && FirstMbps(fields, beyond) == FirstMbps(fields[i..], beyond)
    {
      if fields[i].Number? && fields[i].x > 0.0 {
        return Itoa(Uint64(fields[i].x, beyond));
      }
      assert fields[i..][1..] == fields[i + 1..];
      i := i + 1;
    }
    return "";
  }

  function FirstMbps(fields: seq<Json>, beyond: real -> nat): string {
    if fields == [] then ""
    else if fields[0].Number? && fields[0].x > 0.0 then Itoa(Uint64(fields[0].x, beyond))
    else FirstMbps(fields[1..], beyond)
  }

  /** The Mbps field fits into 64 bits, or is not used. */
  ghost predicate InRange(byteRate: Json, mbps: Json) {
    mbps.Number? && Whole(mbps.x) && mbps.x.Floor > MAX_UINT64 ==> !ByteRate(byteRate, Unset)
  }

  /** One direction: refused exactly when the rate is not a whole number of Mbps, and
      otherwise a parameter with the same meaning exactly when the number is in range. */
  method FieldParameter(byteRate: Json, mbps: Json, beyond: real -> nat) returns (param: string, ok: bool)
    ensures ok <==> exists r :: FieldRate(byteRate, mbps, r) && Expressible(r)
    ensures ok ==> (FieldRate(byteRate, mbps, LinkRate(param)) <==> InRange(byteRate, mbps))
    ensures !ok ==> param == ""
  {
    var rate, isSet, expressible := ByteRateMbps(byteRate);
    if isSet {
      if !expressible {
        ghost var bad :| ByteRate(byteRate, bad) && !Expressible(bad);
        forall r | FieldRate(byteRate, mbps, r) ensures !Expressible(r) {
          FieldRateUnique(byteRate, mbps, bad, r);
        }
        return "", false;
      }
      LinkRateOfNumeral(rate);
      assert FieldRate(byteRate, mbps, LinkRate(Itoa(rate)));
      return Itoa(rate), true;
    }
    assert FieldRate(byteRate, mbps, MbpsRate(mbps));
    if mbps.Missing? || mbps.Null? {
      return "", true;
    }
    if !mbps.Number? || !Whole(mbps.x) {
      return "", false;
    }
    param := ShareLinkMbps([mbps], beyond);
    assert [mbps][1..] == [];
    if mbps.x > 0.0 {
      LinkRateOfNumeral(Uint64(mbps.x, beyond));
    }
    ok := true;
  }

  /** `ok` is false exactly when one of the two rates cannot be written; the parameters
      otherwise mean the rates of the node, unless a Mbps field beyond 64 bits is used. */
  method HysteriaShareLinkRates(up: Json, upMbps: Json, down: Json, downMbps: Json, beyond: real -> nat)
    returns (upParam: string, downParam: string, ok: bool)
    ensures ok <==> (exists r :: FieldRate(up, upMbps, r) && Expressible(r)) &&
                    (exists r :: FieldRate(down, downMbps, r) && Expressible(r))
    ensures ok ==> (FieldRate(up, upMbps, LinkRate(upParam)) <==> InRange(up, upMbps))
    ensures ok ==> (FieldRate(down, downMbps, LinkRate(downParam)) <==> InRange(down, downMbps))
    ensures !ok ==> upParam == "" && downParam == ""
  {
    upParam, ok := FieldParameter(up, upMbps, beyond);
    if !ok {
      return "", "", false;
    }
    downParam, ok := FieldParameter(down, downMbps, beyond);
    if !ok {
      return "", "", false;
    }
  }

  // ---------------------------------------------------------------------------
  // "20 Mbps" and 20 Mbps

  lemma TrimUnit(unit: string)
    requires unit != "" && Trimmed(unit)
    ensures TrimSpace(" " + unit) == unit
  {
    assert (" " + unit)[1..] == unit;
    TrimSpaceOfTrimmed(unit);
  }

  /** A number, a space and a unit denote their product. */
  lemma WrittenRate(m: nat, unit: string)
    requires unit != "" && Trimmed(unit) && UnitValue(unit) > 0
    ensures IsRate(Itoa(m) + (" " + unit), |Itoa(m)|, m * UnitValue(unit))
  {
    var d, rest := Itoa(m), " " + unit;
    var text := d + rest;
    ItoaRoundTrip(m);
    TrimUnit(unit);
    assert text[..|d|] == d && text[|d|..] == rest && text[|d|] == ' ';
    assert forall i :: 0 <= i < |d| ==> text[i] == d[i];
  }

  /** A number of megabits written as a byte rate means the same as the Mbps field. */
  lemma MbpsTextIsTheMbpsField(m: nat)
    requires 0 < m * BYTES_PER_MBPS <= MAX_UINT64
    ensures Denotes(Itoa(m) + (" " + "Mbps"), m * BYTES_PER_MBPS)
    ensures MbpsRate(Number(m as real)) == Bytes(m * BYTES_PER_MBPS) == LinkRate(Itoa(m))
  {
    WrittenRate(m, "Mbps");
    LinkRateOfNumeral(m);
    assert (m as real).Floor == m;
  }

}
