/** Sizes such as "8G": a positive decimal number with an optional binary suffix, as 64-bit bytes. */
module Sizes {
  import opened Options
  import opened Texts

  const LIMIT := 0x1_0000_0000_0000_0000

  predicate IsDigit(c: char) {
    '0' <= c <= '9'
  }

  predicate IsDecimal(s: string) {
    s != "" && forall k | 0 <= k < |s| :: IsDigit(s[k])
  }

  function DigitValue(c: char): (r: nat)
    requires IsDigit(c)
  {
    c as int - '0' as int
  }

  function Decimal(s: string): (r: nat)
    requires forall k | 0 <= k < |s| :: IsDigit(s[k])
  {
    if s == "" then 0 else 10 * Decimal(s[..|s| - 1]) + DigitValue(s[|s| - 1])
  }

  lemma {:induction false} DecimalGrows(s: string, k: nat)
    requires k <= |s| && forall j | 0 <= j < |s| :: IsDigit(s[j])
    ensures Decimal(s[..k]) <= Decimal(s)
  {
    if k < |s| {
      DecimalGrows(s[..|s| - 1], k);
      assert s[..|s| - 1][..k] == s[..k];
    } else {
      assert s[..k] == s;
    }
  }

  /** Parse an unsigned 64-bit decimal; it stops at the first digit that makes it too large. */
  method ParseUint(s: string) returns (r: Option<nat>)
    ensures r.Some? <==> IsDecimal(s) && Decimal(s) < LIMIT
    ensures r.Some? ==> r.value == Decimal(s)
  {
    if |s| == 0 {
      return None;
    }
    var n: nat := 0;
    for k := 0 to |s|
      invariant forall j | 0 <= j < k :: IsDigit(s[j])
      invariant n == Decimal(s[..k]) && n < LIMIT
    {
      if !('0' <= s[k] <= '9') {
        return None;
      }
      n := 10 * n + DigitValue(s[k]);
      assert s[..k + 1][..k] == s[..k];
      if n >= LIMIT {
        if IsDecimal(s) {
          DecimalGrows(s, k + 1);
        }
        return None;
      }
    }
    assert s[..|s|] == s;
    r := Some(n);
  }

  /** The factor of a suffix letter. */
  function Factor(c: char): (r: Option<nat>) {
    match c
    case 'K' => Some(0x400)
    case 'M' => Some(0x10_0000)
    case 'G' => Some(0x4000_0000)
    case 'T' => Some(0x100_0000_0000)
    case 'P' => Some(0x4_0000_0000_0000)
    case _ => if IsDigit(c) then Some(1) else None
  }

  function Cleaned(value: string): (r: string) {
    Trim(Uppered(value))
  }

  function Digits(s: string): (r: string)
    requires s != ""
  {
    if IsDigit(s[|s| - 1]) then s else s[..|s| - 1]
  }

  /** What a size denotes, without any limit: the exact product. */
  function Denoted(value: string): (r: Option<nat>) {
    var s := Cleaned(value);
    if s == "" || Factor(s[|s| - 1]).None? || !IsDecimal(Digits(s)) then None
    else Some(Decimal(Digits(s)) * Factor(s[|s| - 1]).value)
  }

  /** Every factor divides the limit, so comparing with the quotient decides overflow of the product. */
  lemma FactorsDivide(n: nat, c: char)
    requires Factor(c).Some?
    ensures n > (LIMIT - 1) / Factor(c).value <==> n * Factor(c).value >= LIMIT
  {
    match c
    case 'K' =>
    case 'M' =>
    case 'G' =>
    case 'T' =>
    case 'P' =>
    case _ =>
  }

  /** Accepts exactly the positive products below 2^64, and returns them exactly. */
  method ParseByteSize(value: string) returns (r: Option<nat>)
    ensures r.Some? <==> Denoted(value).Some? && 0 < Denoted(value).value < LIMIT
    ensures r.Some? ==> r == Denoted(value)
  {
    var s := Trim(Uppered(value));
    if s == "" {
      return None;
    }
    var multiplier := 1;
    var digits := s;
    var suffix := s[|s| - 1];
    if suffix < '0' || suffix > '9' {
      var factor := Factor(suffix);
      if factor.None? {
        return None;
      }
      multiplier := factor.value;
      digits := s[..|s| - 1];
    }
    var number := ParseUint(digits);
    if IsDecimal(digits) {
      FactorsDivide(Decimal(digits), suffix);
      SmallFactor(Decimal(digits), suffix);
    }
    if number.None? || number.value == 0 || number.value > (LIMIT - 1) / multiplier {
      return None;
    }
    r := Some(number.value * multiplier);
  }

  lemma SmallFactor(n: nat, c: char)
    requires Factor(c).Some?
    ensures n * Factor(c).value >= n
    ensures n * Factor(c).value == 0 <==> n == 0
  {
    match c
    case 'K' =>
    case 'M' =>
    case 'G' =>
    case 'T' =>
    case 'P' =>
    case _ =>
  }
}
