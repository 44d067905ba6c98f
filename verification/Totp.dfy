/**
 One-time codes (`TOTPCode`, `VerifyTOTP`, `VerifyTOTPStep`): RFC 6238 with SHA-1,
 thirty-second steps, six digits and one step of tolerance on either side.

 A moment is a number of nanoseconds since the epoch.  HMAC-SHA1 under the decoded
 secret is an unknown function from counters to 20-byte digests; a secret that does
 not decode has none.
 */
module Totp {
  import opened Utf8
  import opened Text
  import opened Decimal

  const DIGITS: nat := 6
  const STEP_SECONDS: nat := 30
  const SECOND: nat := 1_000_000_000
  const SKEW: int := 1
  const MODULUS: nat := 1_000_000

  type Digest = d: seq<Byte> | |d| == 20 witness seq(20, _ => 0)

  datatype Secret = Undecodable | Decoded(mac: nat -> Digest)

  /** Go's integer division, which truncates towards zero. */
  function TruncDiv(a: int, b: nat): int
    requires b > 0
  {
    if a >= 0 then a / b else -((-a) / b)
  }

  /** `time.Time.Unix`. */
  function Unix(moment: int): int {
    moment / SECOND
  }

  function StepNumber(moment: int): int {
    TruncDiv(Unix(moment), STEP_SECONDS)
  }

  /** The counter is a uint64. */
  function Counter(moment: int): nat {
    StepNumber(moment) % 0x1_0000_0000_0000_0000
  }

  function StepStartNs(moment: int): int {
    StepNumber(moment) * STEP_SECONDS * SECOND
  }

  /** The last `w` decimal digits of `n`. */
  function Padded(n: nat, w: nat): (s: string)
    ensures |s| == w
  {
    if w == 0 then "" else Padded(n / 10, w - 1) + [DigitChar(n % 10)]
  }

  function Pow10(w: nat): nat {
    if w == 0 then 1 else 10 * Pow10(w - 1)
  }

  lemma {:induction false} PaddedValue(n: nat, w: nat)
    requires n < Pow10(w)
    ensures AllDigits(Padded(n, w)) && Value(Padded(n, w)) == n
    decreases w
  {
    if w > 0 {
      PaddedValue(n / 10, w - 1);
      assert Padded(n, w)[..w - 1] == Padded(n / 10, w - 1);
    }
  }

  function BigEndian(a: int, b: int, c: int, d: int): int {
    ((a * 256 + b) * 256 + c) * 256 + d
  }

  /** Section 5.3 of RFC 4226: the low nibble of the last byte picks four bytes. */
  function Truncated(sum: Digest): (v: nat)
    ensures v < 0x8000_0000
  {
    var offset: int := sum[19] % 16;
    BigEndian(sum[offset], sum[offset + 1], sum[offset + 2], sum[offset + 3]) % 0x8000_0000
  }

  function CodeAt(mac: nat -> Digest, moment: int): string {
    Padded(Truncated(mac(Counter(moment))) % MODULUS, DIGITS)
  }

  /** A code is six digits and stands for the truncated digest modulo a million. */
  lemma CodeIsSixDigits(mac: nat -> Digest, moment: int)
    ensures |CodeAt(mac, moment)| == Size(CodeAt(mac, moment)) == 6 && AllDigits(CodeAt(mac, moment))
    ensures Value(CodeAt(mac, moment)) == Truncated(mac(Counter(moment))) % MODULUS
  {
    var v := Truncated(mac(Counter(moment))) % MODULUS;
    assert Pow10(6) == 10 * Pow10(5) == 100 * Pow10(4) == 1000 * Pow10(3) == 10000 * Pow10(2) == 100000 * Pow10(1) == MODULUS;
    PaddedValue(v, DIGITS);
    AsciiSize(Padded(v, DIGITS));
  }

  method TotpCode(secret: Secret, at: int) returns (ok: bool, code: string)
    ensures ok <==> secret.Decoded?
    ensures ok ==> code == CodeAt(secret.mac, at)
  {
    if secret.Undecodable? {
      return false, "";
    }
    var counter := Counter(at);
    var sum := secret.mac(counter);
    var offset: int := sum[|sum| - 1] % 16;
    var value := BigEndian(sum[offset], sum[offset + 1], sum[offset + 2], sum[offset + 3]) % 0x8000_0000;
    var mod: int := 1;
    for i := 0 to DIGITS
      invariant mod == Pow10(i)
    {
      mod := mod * 10;
    }
    assert Pow10(6) == 10 * Pow10(5) == 100 * Pow10(4) == 1000 * Pow10(3) == 10000 * Pow10(2) == 100000 * Pow10(1) == MODULUS;
    ok, code := true, Padded(value % mod, DIGITS);
  }

  // ---------------------------------------------------------------------------
  // Verification

  function Moment(at: int, offset: int): int {
    at + offset * STEP_SECONDS * SECOND
  }

  /** The presented code is the code of the step `offset` away from `at`. */
  predicate Matches(secret: Secret, code: string, at: int, offset: int) {
    secret.Decoded? && CodeAt(secret.mac, Moment(at, offset)) == TrimSpace(code)
  }

  predicate Accepts(secret: Secret, code: string, at: int) {
    Matches(secret, code, at, -1) || Matches(secret, code, at, 0) || Matches(secret, code, at, 1)
  }

  /** The start of the newest of the accepted steps that the code belongs to. */
  function NewestStep(secret: Secret, code: string, at: int): int
    requires Accepts(secret, code, at)
  {
    if Matches(secret, code, at, 1) then StepStartNs(Moment(at, 1))
    else if Matches(secret, code, at, 0) then StepStartNs(at)
    else StepStartNs(Moment(at, -1))
  }

  /** `subtle.ConstantTimeCompare`. */
  function Compare(a: string, b: string): int {
    if a == b then 1 else 0
  }

  /** `|=` on zero and one. */
  function Or(a: int, b: int): int {
    if a == 0 then b else a
  }

  lemma ShortCodesMatchNothing(secret: Secret, code: string, at: int)
    requires Size(TrimSpace(code)) != DIGITS
    ensures !Accepts(secret, code, at)
  {
    if secret.Decoded? {
      CodeIsSixDigits(secret.mac, Moment(at, -1));
      CodeIsSixDigits(secret.mac, Moment(at, 0));
      CodeIsSixDigits(secret.mac, Moment(at, 1));
    }
  }

  /** Some step from the oldest one up to, and not including, `upTo` matches. */
  predicate FoundUpTo(secret: Secret, code: string, at: int, upTo: int)
    requires -1 <= upTo <= 2
    decreases upTo + 1
  {
    upTo > -1 && (Matches(secret, code, at, upTo - 1) || FoundUpTo(secret, code, at, upTo - 1))
  }

  /** The last matching one of those steps, or zero. */
  function SelectedUpTo(secret: Secret, code: string, at: int, upTo: int): int
    requires -1 <= upTo <= 2
    decreases upTo + 1
  {
    if upTo == -1 then 0
    else if Matches(secret, code, at, upTo - 1) then StepStartNs(Moment(at, upTo - 1))
    else SelectedUpTo(secret, code, at, upTo - 1)
  }

  lemma AllThreeSteps(secret: Secret, code: string, at: int)
    ensures FoundUpTo(secret, code, at, 2) <==> Accepts(secret, code, at)
    ensures Accepts(secret, code, at) ==> SelectedUpTo(secret, code, at, 2) == NewestStep(secret, code, at)
  {
    assert Moment(at, 0) == at;
    assert FoundUpTo(secret, code, at, 1) <==> Matches(secret, code, at, 0) || FoundUpTo(secret, code, at, 0);
    assert FoundUpTo(secret, code, at, 0) <==> Matches(secret, code, at, -1);
    assert SelectedUpTo(secret, code, at, 0) ==
           if Matches(secret, code, at, -1) then StepStartNs(Moment(at, -1)) else 0;
  }

  /** The comparison of one step, as 0 or 1. */
  method CompareStep(secret: Secret, code: string, at: int, offset: int) returns (decoded: bool, hit: int)
    ensures decoded <==> secret.Decoded?
    ensures decoded ==> hit == if Matches(secret, code, at, offset) then 1 else 0
  {
    var candidate;
    decoded, candidate := TotpCode(secret, Moment(at, offset));
    hit := Compare(candidate, TrimSpace(code));
  }

  method VerifyTotp(secret: Secret, code: string, at: int) returns (ok: bool)
    ensures ok <==> Accepts(secret, code, at)
  {
    if Size(TrimSpace(code)) != DIGITS {
      ShortCodesMatchNothing(secret, code, at);
      return false;
    }
    var found := 0;
    for offset := -SKEW to SKEW + 1
      invariant found == if FoundUpTo(secret, code, at, offset) then 1 else 0
    {
      var decoded, hit := CompareStep(secret, code, at, offset);
      if !decoded {
        return false;
      }
      found := Or(found, hit);
    }
    AllThreeSteps(secret, code, at);
    ok := found == 1;
  }

  /** Accepts exactly what `VerifyTotp` accepts, and reports the newest matching step. */
  method VerifyTotpStep(secret: Secret, code: string, at: int) returns (stepNs: int, ok: bool)
    ensures ok <==> Accepts(secret, code, at)
    ensures ok ==> stepNs == NewestStep(secret, code, at)
    ensures !ok ==> stepNs == 0
  {
    if Size(TrimSpace(code)) != DIGITS {
      ShortCodesMatchNothing(secret, code, at);
      return 0, false;
    }
    var matchedStep := 0;
    var found := 0;
    for offset := -SKEW to SKEW + 1
      invariant found == if FoundUpTo(secret, code, at, offset) then 1 else 0
      invariant matchedStep == SelectedUpTo(secret, code, at, offset)
    {
      var decoded, hit := CompareStep(secret, code, at, offset);
      if !decoded {
        return 0, false;
      }
      found := Or(found, hit);
      var start := StepStartNs(Moment(at, offset));
      SelectWithoutBranch(matchedStep, start, hit);
      matchedStep := matchedStep * (1 - hit) + start * hit;
    }
    AllThreeSteps(secret, code, at);
    if found != 1 {
      return 0, false;
    }
    return matchedStep, true;
  }

  lemma SelectWithoutBranch(kept: int, start: int, hit: int)
    requires hit == 0 || hit == 1
    ensures kept * (1 - hit) + start * hit == if hit == 1 then start else kept
  {
  }

  lemma StepStartIsInStep(moment: int)
    ensures StepNumber(StepStartNs(moment)) == StepNumber(moment)
  {
  }

  lemma CodeAtStepStart(mac: nat -> Digest, moment: int)
    ensures CodeAt(mac, StepStartNs(moment)) == CodeAt(mac, moment)
  {
  }

  /** The code computed at the start of the reported step is the code presented. */
  lemma ReportedStepGivesTheCode(secret: Secret, code: string, at: int)
    requires Accepts(secret, code, at)
    ensures CodeAt(secret.mac, NewestStep(secret, code, at)) == TrimSpace(code)
  {
    var o := NewestOffset(secret, code, at);
    CodeAtStepStart(secret.mac, Moment(at, o));
  }

  lemma LaterOffset(at: int, a: int, b: int)
    requires a <= b
    ensures StepStartNs(Moment(at, a)) <= StepStartNs(Moment(at, b))
  {
  }

  /** The step reported for the offset it was found at. */
  lemma NewestOffset(secret: Secret, code: string, at: int) returns (o: int)
    requires Accepts(secret, code, at)
    ensures -1 <= o <= 1 && Matches(secret, code, at, o) && NewestStep(secret, code, at) == StepStartNs(Moment(at, o))
    ensures forall x :: o < x <= 1 ==> !Matches(secret, code, at, x)
  {
    assert Moment(at, 0) == at;
    o := if Matches(secret, code, at, 1) then 1 else if Matches(secret, code, at, 0) then 0 else -1;
  }

  /** The reported step is one of the three around `at` and no matching one is newer. */
  lemma ReportedStepIsNewest(secret: Secret, code: string, at: int, offset: int)
    requires -1 <= offset <= 1 && Matches(secret, code, at, offset)
    ensures Accepts(secret, code, at)
    ensures StepStartNs(Moment(at, offset)) <= NewestStep(secret, code, at) <= StepStartNs(Moment(at, 1))
  {
    var o := NewestOffset(secret, code, at);
    LaterOffset(at, offset, o);
    LaterOffset(at, o, 1);
  }

  /** A code shown one step early, on time or one step late is accepted. */
  lemma ShownCodeIsAccepted(mac: nat -> Digest, at: int, offset: int)
    requires -1 <= offset <= 1
    ensures Accepts(Decoded(mac), CodeAt(mac, Moment(at, offset)), at)
  {
    CodeIsSixDigits(mac, Moment(at, offset));
    TrimSpaceOfTrimmed(CodeAt(mac, Moment(at, offset)));
    assert Matches(Decoded(mac), CodeAt(mac, Moment(at, offset)), at, offset);
  }

  /** Some code is accepted, and its step is not the first one. */
  lemma SomeCodeIsAccepted() returns (secret: Secret, code: string, at: int)
    ensures Accepts(secret, code, at) && NewestStep(secret, code, at) > 0
  {
    var mac: nat -> Digest := _ => seq(20, _ => 0);
    at := 100 * SECOND;
    secret, code := Decoded(mac), CodeAt(mac, Moment(at, 0));
    ShownCodeIsAccepted(mac, at, 0);
    var o := NewestOffset(secret, code, at);
    LaterOffset(at, -1, o);
    LaterSteps(at);
  }

  lemma LaterSteps(at: int)
    requires at == 100 * SECOND
    ensures StepStartNs(Moment(at, -1)) > 0
  {
  }
}
